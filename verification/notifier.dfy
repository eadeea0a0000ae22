/** The plugin's event handler: the Organize gate, the push bookkeeping
    around `_push_to_api`, and the connection probe. */
module Notifier {
  import opened Wrappers
  import opened Config
  import opened Stats
  import opened RecentLog
  import opened Delivery
  import opened Payload

  /** The two entries the plugin keeps in the host's key/value store. A
      missing `recent_pushes` entry reads as the empty list. */
  datatype Store = Store(stats: Option<Counters>, recent: seq<PushRecord>)

  /** The notification type tag carried by a notice event. */
  datatype NoticeType = Organize | OtherNotice(name: string)

  /** A non-empty `event_data` dictionary. */
  datatype EventData = EventData(
    noticeType: Option<NoticeType>,
    meta: Option<MetaInfo>,
    mediainfo: Option<MediaInfo>,
    transferinfo: Option<TransferInfo>,
    seasonEpisode: Option<string>,
    username: Option<string>)

  /** What the plugin cannot see: the endpoint's answers to successive
      POSTs, the transfer-history table, and the clock (ISO time for the
      payload, local time for the log). */
  datatype Host = Host(net: seq<Attempt>, lookup: string -> Option<int>, isoNow: string, localNow: string)

  /** What handling one event leaves behind: the store, the payload handed
      to `_push_to_api` (if any), and the delivery steps (POSTs, pauses, the
      stats update) it performed. Every POST among the steps sends `pushed`. */
  datatype Effect = Effect(store: Store, pushed: Option<Payload>, steps: seq<Step>)

  /** The counters as the plugin reads them. */
  function Counted(store: Store): Counters {
    store.stats.GetOr(Zero)
  }

  /** The gate's short-circuit: conditions under which the event is
      silently ignored. */
  predicate Skipped(s: Settings, event: Option<EventData>) {
    || !s.enabled
    || s.apiUrl == "" || s.apiToken == ""
    || event.None?
    || event.value.noticeType != Some(Organize)
    || event.value.transferinfo.None?
    || (s.onlySuccess && event.value.transferinfo.value.success == Some(false))
  }

  /** `_process_transfer_push`: build the payload and push it, then log the
      push with `success: True` however the delivery ended; if building the
      payload raises, count one failure and log the push with `success:
      False` instead, without posting. */
  function ProcessTransferPush(
    s: Settings, store: Store, meta: Option<MetaInfo>, media: Option<MediaInfo>,
    transfer: TransferInfo, seasonEpisode: Option<string>, username: Option<string>,
    host: Host): (e: Effect)
    ensures e.store.stats.Some? && Counted(e.store).total == Counted(store).total + 1
    ensures Balanced(Counted(store)) ==> Balanced(Counted(e.store))
    ensures |e.store.recent| == if |store.recent| + 1 < Capacity then |store.recent| + 1 else Capacity
    ensures e.store.recent == SaveRecentPush(store.recent, e.store.recent[|e.store.recent| - 1])
    ensures e.store.recent[|e.store.recent| - 1].targetPath == TargetPath(transfer)
    ensures e.store.recent[|e.store.recent| - 1].timestamp == host.localNow
    ensures e.store.recent[|e.store.recent| - 1].success <==> MediaTypeValue(meta, media).Ok?
    ensures MediaTypeValue(meta, media).Raised? ==>
      && e.steps == [] && e.pushed.None?
      && e.store.stats == Some(Record(store.stats, Failed))
      && e.store.recent[|e.store.recent| - 1].title == (if media.Some? then media.value.title else "N/A")
    ensures MediaTypeValue(meta, media).Ok? ==>
      && e.pushed == Some(BuildPayload(meta, media, transfer, seasonEpisode, username,
                                       TransferHistoryId(transfer, host.lookup), host.isoNow).value)
      && e.steps == PushToApi(host.net, s.retryTimes)
      && e.store.stats == Some(Record(store.stats, DeliveryOutcome(host.net, s.retryTimes)))
      && e.store.recent[|e.store.recent| - 1].title == e.pushed.value.title
  {
    var path := TargetPath(transfer);
    var historyId := TransferHistoryId(transfer, host.lookup);
    match BuildPayload(meta, media, transfer, seasonEpisode, username, historyId, host.isoNow)
    case Ok(payload) =>
      var outcome := DeliveryOutcome(host.net, s.retryTimes);
      Effect(
        Store(Some(Record(store.stats, outcome)),
              SaveRecentPush(store.recent, PushRecord(host.localNow, payload.title, path, true))),
        Some(payload),
        PushToApi(host.net, s.retryTimes))
    case Raised(_) =>
      var title := if media.Some? then media.value.title else "N/A";
      Effect(
        Store(Some(Record(store.stats, Failed)),
              SaveRecentPush(store.recent, PushRecord(host.localNow, title, path, false))),
        None,
        [])
  }

  /** `on_notice_message`: the gate, then the push. Reading `success` off a
      transfer result that lacks it (only done when `only_success` is set)
      raises; the handler's catch-all counts that as one failure. */
  function OnNoticeMessage(s: Settings, store: Store, event: Option<EventData>, host: Host): (e: Effect)
    ensures Skipped(s, event) ==> e == Effect(store, None, [])
    ensures !Skipped(s, event) ==> Counted(e.store).total == Counted(store).total + 1
    ensures !Skipped(s, event) && s.onlySuccess && event.value.transferinfo.value.success.None? ==>
      e == Effect(store.(stats := Some(Record(store.stats, Failed))), None, [])
    ensures !Skipped(s, event) && !(s.onlySuccess && event.value.transferinfo.value.success.None?) ==>
      e == ProcessTransferPush(s, store, event.value.meta, event.value.mediainfo, event.value.transferinfo.value,
                               event.value.seasonEpisode, event.value.username, host)
    ensures Balanced(Counted(store)) ==> Balanced(Counted(e.store))
    ensures |store.recent| <= Capacity ==> |e.store.recent| <= Capacity
  {
    if Skipped(s, event) then Effect(store, None, [])
    else
      var d := event.value;
      var transfer := d.transferinfo.value;
      if s.onlySuccess && transfer.success.None? then
        Effect(store.(stats := Some(Record(store.stats, Failed))), None, [])
      else
        ProcessTransferPush(s, store, d.meta, d.mediainfo, transfer, d.seasonEpisode, d.username, host)
  }

  /** The gate leaves everything untouched exactly when one of its six
      conditions holds; any event that passes it is counted once. */
  lemma GateUnchangedIff(s: Settings, store: Store, event: Option<EventData>, host: Host)
    ensures OnNoticeMessage(s, store, event, host) == Effect(store, None, []) <==> Skipped(s, event)
  {
  }

  /** A notice that is not an Organize notice never reaches the endpoint. */
  lemma NonOrganizeNeverPosts(s: Settings, store: Store, d: EventData, host: Host)
    requires d.noticeType != Some(Organize)
    ensures Posts(OnNoticeMessage(s, store, Some(d), host).steps) == 0
    ensures OnNoticeMessage(s, store, Some(d), host).store == store
  {
  }

  /** A failed organise is pushed exactly when `only_success` is off. */
  lemma OnlySuccessDecides(s: Settings, store: Store, d: EventData, host: Host)
    requires s.enabled && s.apiUrl != "" && s.apiToken != ""
    requires d.noticeType == Some(Organize)
    requires d.transferinfo.Some? && d.transferinfo.value.success == Some(false)
    requires MediaTypeValue(d.meta, d.mediainfo).Ok?
    requires 0 <= s.retryTimes
    ensures Posts(OnNoticeMessage(s, store, Some(d), host).steps) > 0 <==> !s.onlySuccess
  {
    PushToApiCounts(host.net, s.retryTimes);
  }

  /** Every pushed event is logged as a success, even when every attempt
      failed and the counters record a failure. */
  lemma LoggedSuccessAfterFailedDelivery(s: Settings, store: Store, d: EventData, host: Host)
    requires !Skipped(s, Some(d))
    requires !(s.onlySuccess && d.transferinfo.value.success.None?)
    requires MediaTypeValue(d.meta, d.mediainfo).Ok?
    requires DeliveryOutcome(host.net, s.retryTimes) == Failed
    ensures var e := OnNoticeMessage(s, store, Some(d), host);
      && e.store.recent[|e.store.recent| - 1].success
      && Counted(e.store).failed == Counted(store).failed + 1
      && Counted(e.store).success == Counted(store).success
  {
  }

  /** A first-attempt 200 counts one success and posts once. */
  lemma FirstAttemptDelivers(s: Settings, store: Store, d: EventData, host: Host)
    requires !Skipped(s, Some(d))
    requires !(s.onlySuccess && d.transferinfo.value.success.None?)
    requires MediaTypeValue(d.meta, d.mediainfo).Ok?
    requires 0 <= s.retryTimes
    requires |host.net| > 0 && host.net[0] == Response(200, true)
    ensures var e := OnNoticeMessage(s, store, Some(d), host);
      && Posts(e.steps) == 1 && Pauses(e.steps) == 0
      && Counted(e.store).success == Counted(store).success + 1
      && Counted(e.store).total == Counted(store).total + 1
  {
    FirstSuccessStops(host.net, s.retryTimes, 0);
    assert DeliveryOutcome(host.net, s.retryTimes) == Succeeded;
  }

  /** With two retries against an endpoint that always times out: three
      POSTs, two pauses, one failure counted. */
  lemma TimeoutsExhaustRetries(s: Settings, store: Store, d: EventData, host: Host)
    requires !Skipped(s, Some(d))
    requires !(s.onlySuccess && d.transferinfo.value.success.None?)
    requires MediaTypeValue(d.meta, d.mediainfo).Ok?
    requires s.retryTimes == 2
    requires forall i :: 0 <= i < |host.net| ==> host.net[i] == Timeout
    ensures var e := OnNoticeMessage(s, store, Some(d), host);
      && Posts(e.steps) == 3 && Pauses(e.steps) == 2
      && Counted(e.store).failed == Counted(store).failed + 1
      && Counted(e.store).total == Counted(store).total + 1
  {
    AllFailing(host.net, 2);
    var t := PushToApi(host.net, 2);
    assert t[|t| - 1] == Update(Failed);
    PushToApiCounts(host.net, 2);
  }

  /** A URL made only of slashes strips to nothing, so once the plugin is
      initialised with it, the gate ignores every event and the probe
      refuses to post. */
  lemma SlashOnlyUrlDisables(current: Settings, c: RawConfig, store: Store, event: Option<EventData>, host: Host, answer: Attempt)
    requires c.apiUrl.Some?
    requires forall i :: 0 <= i < |c.apiUrl.value| ==> c.apiUrl.value[i] == '/'
    ensures OnNoticeMessage(Init(current, Some(c)), store, event, host) == Effect(store, None, [])
    ensures TestConnection(Init(current, Some(c)), answer).posted.None?
  {
  }

  /** How the connection probe ended. */
  datatype Probe = NotConfigured | Connected | HttpFailure(status: int) | ProbeError

  /** The probe's answer: the URL it posted to, if any, and how it ended. */
  datatype ProbeResult = ProbeResult(posted: Option<string>, outcome: Probe)

  /** `test_connection`: refuses without a URL and token; otherwise posts
      to `<url>/test`. Unlike the push, a 200 whose body is not JSON raises
      here and is reported as a failure. */
  function TestConnection(s: Settings, answer: Attempt): (r: ProbeResult)
    ensures s.apiUrl == "" || s.apiToken == "" ==> r == ProbeResult(None, NotConfigured)
    ensures s.apiUrl != "" && s.apiToken != "" ==> r.posted == Some(s.apiUrl + "/test")
    ensures r.outcome == Connected <==> s.apiUrl != "" && s.apiToken != "" && answer == Response(200, true)
    ensures r.outcome.HttpFailure? ==> answer.Response? && answer.status != 200
  {
    if s.apiUrl == "" || s.apiToken == "" then ProbeResult(None, NotConfigured)
    else
      var outcome :=
        match answer
        case Response(status, json) =>
          if status == 200 then (if json then Connected else ProbeError) else HttpFailure(status)
        case _ => ProbeError;
      ProbeResult(Some(s.apiUrl + "/test"), outcome)
  }
}
