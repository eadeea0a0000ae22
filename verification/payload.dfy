/** The payload `_process_transfer_push` derives from an Organize event. */
module Payload {
  import opened Wrappers

  /** A media type attribute: a member of the host's media-type enum (with
      its `.value` string), or a value that has no `.value` (such as `None`
      stored in a metadata object, or a plain string), on which reading
      `.value` raises `AttributeError`. */
  datatype TypeTag = Member(value: string) | NoValue

  /** The recognised file name's metadata. `None` marks an attribute the
      code probes with `hasattr` and finds missing. */
  datatype MetaInfo = MetaInfo(
    name: Option<string>,
    year: Option<string>,
    mediaType: Option<TypeTag>,
    beginSeason: Option<int>,
    episodeList: Option<seq<int>>)

  /** The identified media. `year == ""` and `mediaType == None` are the
      falsy values the code falls through on; the id fields are `None` when
      the host holds `None`; the last five are probed with `hasattr`. */
  datatype MediaInfo = MediaInfo(
    title: string,
    year: string,
    mediaType: Option<TypeTag>,
    tmdbId: Option<int>,
    imdbId: Option<string>,
    tvdbId: Option<int>,
    doubanId: Option<string>,
    category: Option<string>,
    voteAverage: Option<real>,
    overview: Option<string>,
    poster: Option<string>,
    backdrop: Option<string>)

  /** A file or directory item of the storage layer; `path == ""` is falsy. */
  datatype FileItem = FileItem(path: string)

  /** The organise result. `success`, `fileListNew`, `totalSize` and
      `message` are probed with `hasattr`; an empty `fileListNew` is falsy. */
  datatype TransferInfo = TransferInfo(
    success: Option<bool>,
    targetItem: Option<FileItem>,
    targetDirItem: Option<FileItem>,
    fileListNew: Option<seq<string>>,
    totalSize: Option<int>,
    message: Option<string>)

  /** The JSON object posted to the uploader; `None` serialises as `null`. */
  datatype Payload = Payload(
    transferHistoryId: Option<int>,
    title: string,
    year: string,
    mediaType: string,
    season: Option<int>,
    episode: Option<seq<int>>,
    seasonEpisode: Option<string>,
    tmdbId: Option<int>,
    imdbId: Option<string>,
    tvdbId: Option<int>,
    doubanId: Option<string>,
    targetPath: string,
    fileList: seq<string>,
    fileSize: int,
    fileCount: nat,
    success: bool,
    message: string,
    username: Option<string>,
    timestamp: string,
    category: Option<string>,
    voteAverage: Option<real>,
    overview: Option<string>,
    poster: Option<string>,
    backdrop: Option<string>)

  /** The literal used when neither source knows the media type. */
  const UnknownType: string := "未知"

  /** Whether an item is set and has a non-empty path. */
  predicate HasPath(item: Option<FileItem>) {
    item.Some? && item.value.path != ""
  }

  /** The destination path: the file item's path first, then the directory
      item's, else the empty string. */
  function TargetPath(t: TransferInfo): (p: string)
    ensures HasPath(t.targetItem) ==> p == t.targetItem.value.path
    ensures !HasPath(t.targetItem) && HasPath(t.targetDirItem) ==> p == t.targetDirItem.value.path
    ensures p == "" <==> !HasPath(t.targetItem) && !HasPath(t.targetDirItem)
  {
    if HasPath(t.targetItem) then t.targetItem.value.path
    else if HasPath(t.targetDirItem) then t.targetDirItem.value.path
    else ""
  }

  /** `_get_transfer_history_id`: looks the destination up only when there
      is one; `lookup` stands for the transfer-history table. */
  function TransferHistoryId(t: TransferInfo, lookup: string -> Option<int>): (id: Option<int>)
    ensures TargetPath(t) == "" ==> id.None?
    ensures TargetPath(t) != "" ==> id == lookup(TargetPath(t))
  {
    var path := TargetPath(t);
    if path != "" then lookup(path) else None
  }

  /** The payload title: the media's title when there is media, else the
      metadata's name, else the empty string. */
  function Title(meta: Option<MetaInfo>, media: Option<MediaInfo>): (title: string)
    ensures media.Some? ==> title == media.value.title
    ensures media.None? && meta.Some? && meta.value.name.Some? ==> title == meta.value.name.value
    ensures media.None? && (meta.None? || meta.value.name.None?) ==> title == ""
  {
    if media.Some? then media.value.title
    else if meta.Some? && meta.value.name.Some? then meta.value.name.value
    else ""
  }

  /** The payload year: a non-empty media year, else the metadata's year,
      else the empty string. */
  function Year(meta: Option<MetaInfo>, media: Option<MediaInfo>): (year: string)
    ensures media.Some? && media.value.year != "" ==> year == media.value.year
    ensures (media.None? || media.value.year == "") && meta.Some? && meta.value.year.Some?
            ==> year == meta.value.year.value
    ensures (media.None? || media.value.year == "") && (meta.None? || meta.value.year.None?) ==> year == ""
  {
    if media.Some? && media.value.year != "" then media.value.year
    else if meta.Some? && meta.value.year.Some? then meta.value.year.value
    else ""
  }

  /** The `.value` of a type attribute; reading it off a value that is not
      an enum member raises. */
  function TagValue(tag: TypeTag): Result<string> {
    match tag
    case Member(v) => Ok(v)
    case NoValue => Raised("AttributeError: no attribute 'value'")
  }

  /** The payload type: the media's type when set, else the metadata's
      type, else "未知". Raises when the attribute it settles on has no
      `.value`. */
  function MediaTypeValue(meta: Option<MetaInfo>, media: Option<MediaInfo>): (r: Result<string>)
    ensures media.Some? && media.value.mediaType.Some? ==>
      (r.Ok? <==> media.value.mediaType.value.Member?)
    ensures (media.None? || media.value.mediaType.None?) && meta.Some? && meta.value.mediaType.Some? ==>
      (r.Ok? <==> meta.value.mediaType.value.Member?)
    ensures (media.None? || media.value.mediaType.None?) && (meta.None? || meta.value.mediaType.None?) ==>
      r == Ok(UnknownType)
    ensures media.Some? && media.value.mediaType.Some? && media.value.mediaType.value.Member? ==>
      r == Ok(media.value.mediaType.value.value)
    ensures (media.None? || media.value.mediaType.None?) && meta.Some? && meta.value.mediaType.Some?
            && meta.value.mediaType.value.Member? ==>
      r == Ok(meta.value.mediaType.value.value)
    ensures r.Ok? && r.value != UnknownType ==>
      (media.Some? && media.value.mediaType == Some(Member(r.value)))
      || (meta.Some? && meta.value.mediaType == Some(Member(r.value)))
  {
    if media.Some? && media.value.mediaType.Some? then TagValue(media.value.mediaType.value)
    else if meta.Some? && meta.value.mediaType.Some? then TagValue(meta.value.mediaType.value)
    else Ok(UnknownType)
  }

  /** The new files' paths; a missing or empty list gives no files. */
  function FileList(t: TransferInfo): (files: seq<string>)
    ensures t.fileListNew.Some? ==> files == t.fileListNew.value
    ensures t.fileListNew.None? ==> files == []
  {
    if t.fileListNew.Some? && t.fileListNew.value != [] then t.fileListNew.value else []
  }

  /** Builds the payload dictionary. The only way it raises is a type
      attribute without `.value`. */
  function BuildPayload(
    meta: Option<MetaInfo>, media: Option<MediaInfo>, transfer: TransferInfo,
    seasonEpisode: Option<string>, username: Option<string>,
    historyId: Option<int>, now: string): (r: Result<Payload>)
    ensures r.Ok? <==> MediaTypeValue(meta, media).Ok?
    ensures r.Ok? ==> r.value.mediaType == MediaTypeValue(meta, media).value
    ensures r.Ok? ==> r.value.fileList == FileList(transfer) && r.value.fileCount == |r.value.fileList|
    ensures r.Ok? ==> r.value.transferHistoryId == historyId && r.value.timestamp == now
    ensures r.Ok? ==> r.value.seasonEpisode == seasonEpisode && r.value.username == username
    ensures r.Ok? ==> r.value.fileSize == transfer.totalSize.GetOr(0)
    ensures r.Ok? ==> r.value.message == transfer.message.GetOr("")
    ensures r.Ok? ==> r.value.targetPath == TargetPath(transfer)
    ensures r.Ok? ==> r.value.title == Title(meta, media) && r.value.year == Year(meta, media)
    ensures r.Ok? && transfer.success.None? ==> r.value.success
    ensures r.Ok? && transfer.success.Some? ==> r.value.success == transfer.success.value
    ensures r.Ok? && media.None? ==>
      r.value.tmdbId.None? && r.value.imdbId.None? && r.value.tvdbId.None? && r.value.doubanId.None?
    ensures r.Ok? ==> r.value.season == (if meta.Some? then meta.value.beginSeason else None)
    ensures r.Ok? ==> r.value.episode == (if meta.Some? then meta.value.episodeList else None)
    ensures r.Ok? && media.Some? ==>
      && r.value.tmdbId == media.value.tmdbId && r.value.imdbId == media.value.imdbId
      && r.value.tvdbId == media.value.tvdbId && r.value.doubanId == media.value.doubanId
    ensures r.Ok? && media.Some? ==>
      && r.value.category == media.value.category && r.value.voteAverage == media.value.voteAverage
      && r.value.overview == media.value.overview && r.value.poster == media.value.poster
      && r.value.backdrop == media.value.backdrop
    ensures r.Ok? && media.None? ==>
      && r.value.category.None? && r.value.voteAverage.None? && r.value.overview.None?
      && r.value.poster.None? && r.value.backdrop.None?
  {
    match MediaTypeValue(meta, media)
    case Raised(e) => Raised(e)
    case Ok(mediaType) =>
      var files := FileList(transfer);
      Ok(Payload(
        transferHistoryId := historyId,
        title := Title(meta, media),
        year := Year(meta, media),
        mediaType := mediaType,
        season := if meta.Some? then meta.value.beginSeason else None,
        episode := if meta.Some? then meta.value.episodeList else None,
        seasonEpisode := seasonEpisode,
        tmdbId := if media.Some? then media.value.tmdbId else None,
        imdbId := if media.Some? then media.value.imdbId else None,
        tvdbId := if media.Some? then media.value.tvdbId else None,
        doubanId := if media.Some? then media.value.doubanId else None,
        targetPath := TargetPath(transfer),
        fileList := files,
        fileSize := transfer.totalSize.GetOr(0),
        fileCount := |files|,
        success := transfer.success.GetOr(true),
        message := transfer.message.GetOr(""),
        username := username,
        timestamp := now,
        category := if media.Some? then media.value.category else None,
        voteAverage := if media.Some? then media.value.voteAverage else None,
        overview := if media.Some? then media.value.overview else None,
        poster := if media.Some? then media.value.poster else None,
        backdrop := if media.Some? then media.value.backdrop else None))
  }

  /** A fully populated event (media with an enum type, a file item with a
      path, every probed attribute present) yields a payload carrying each
      of its values unchanged. */
  lemma FullEventRoundTrip(
    meta: MetaInfo, media: MediaInfo, transfer: TransferInfo,
    seasonEpisode: string, username: string, historyId: int, now: string)
    requires media.year != "" && media.mediaType.Some? && media.mediaType.value.Member?
    requires HasPath(transfer.targetItem)
    requires transfer.success.Some? && transfer.fileListNew.Some? && transfer.totalSize.Some? && transfer.message.Some?
    ensures var r := BuildPayload(Some(meta), Some(media), transfer, Some(seasonEpisode), Some(username), Some(historyId), now);
      && r.Ok?
      && r.value.title == media.title
      && r.value.year == media.year
      && r.value.mediaType == media.mediaType.value.value
      && r.value.season == meta.beginSeason
      && r.value.episode == meta.episodeList
      && r.value.tmdbId == media.tmdbId && r.value.imdbId == media.imdbId
      && r.value.tvdbId == media.tvdbId && r.value.doubanId == media.doubanId
      && r.value.targetPath == transfer.targetItem.value.path
      && r.value.fileList == transfer.fileListNew.value
      && r.value.fileCount == |transfer.fileListNew.value|
      && r.value.fileSize == transfer.totalSize.value
      && r.value.success == transfer.success.value
      && r.value.message == transfer.message.value
      && r.value.seasonEpisode == Some(seasonEpisode) && r.value.username == Some(username)
      && r.value.transferHistoryId == Some(historyId)
      && r.value.category == media.category && r.value.voteAverage == media.voteAverage
      && r.value.overview == media.overview && r.value.poster == media.poster
      && r.value.backdrop == media.backdrop
      && r.value.timestamp == now
  {
  }

  /** Without media, the title and year come from the metadata. */
  lemma MetaFallback(meta: MetaInfo, transfer: TransferInfo, now: string)
    requires meta.name == Some("Show X") && meta.year == Some("2024")
    requires meta.mediaType.None? || meta.mediaType.value.Member?
    ensures var r := BuildPayload(Some(meta), None, transfer, None, None, None, now);
      r.Ok? && r.value.title == "Show X" && r.value.year == "2024"
  {
  }
}
