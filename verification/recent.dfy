/** The bounded log of recent pushes kept by `_save_recent_push`. */
module RecentLog {

  /** How many records the log keeps. */
  const Capacity: nat := 100

  /** One entry of the `recent_pushes` list. */
  datatype PushRecord = PushRecord(timestamp: string, title: string, targetPath: string, success: bool)

  /** The last `Capacity` elements of `s` (all of `s` when shorter). */
  function LastCapacity<T>(s: seq<T>): (r: seq<T>)
    ensures |r| == if |s| < Capacity then |s| else Capacity
    ensures r == s[|s| - |r|..]
  {
    if |s| > Capacity then s[|s| - Capacity..] else s
  }

  /** `_save_recent_push`: append, then keep only the newest 100. A
      missing list reads as the empty one. */
  function SaveRecentPush(log: seq<PushRecord>, rec: PushRecord): (r: seq<PushRecord>)
    ensures |r| == if |log| + 1 < Capacity then |log| + 1 else Capacity
    ensures r[|r| - 1] == rec
    ensures r == LastCapacity(log + [rec])
  {
    var appended := log + [rec];
    if |appended| > Capacity then appended[|appended| - Capacity..] else appended
  }

  /** The log after saving `recs` one after another. */
  function SaveAll(log: seq<PushRecord>, recs: seq<PushRecord>): seq<PushRecord>
    decreases |recs|
  {
    if recs == [] then log else SaveAll(SaveRecentPush(log, recs[0]), recs[1..])
  }

  /** Saving a non-empty run of records leaves the newest 100 of everything
      ever appended, in insertion order. */
  lemma {:induction false} SaveAllKeepsNewest(log: seq<PushRecord>, recs: seq<PushRecord>)
    requires recs != []
    ensures SaveAll(log, recs) == LastCapacity(log + recs)
    decreases |recs|
  {
    var next := SaveRecentPush(log, recs[0]);
    if |recs| == 1 {
      assert log + recs == log + [recs[0]];
    } else {
      SaveAllKeepsNewest(next, recs[1..]);
      SaveThenAppend(log, recs);
    }
  }

  /** One save followed by more appends keeps the same newest 100 as
      appending everything first. */
  lemma SaveThenAppend(log: seq<PushRecord>, recs: seq<PushRecord>)
    requires recs != []
    ensures LastCapacity(SaveRecentPush(log, recs[0]) + recs[1..]) == LastCapacity(log + recs)
  {
    LastCapacityAppend(log + [recs[0]], recs[1..]);
    assert log + [recs[0]] + recs[1..] == log + recs;
  }

  /** Truncating before appending does not change the newest 100. */
  lemma LastCapacityAppend<T>(s: seq<T>, t: seq<T>)
    ensures LastCapacity(LastCapacity(s) + t) == LastCapacity(s + t)
  {
    var a := LastCapacity(LastCapacity(s) + t);
    var b := LastCapacity(s + t);
    assert |a| == |b|;
    forall i | 0 <= i < |a|
      ensures a[i] == b[i]
    {
      var k := |s + t| - |b| + i;
      if k >= |s| {
        assert b[i] == t[k - |s|];
      }
    }
  }

  /** After 105 saves into an empty log, the 5 oldest are gone and the
      other 100 keep their order. */
  lemma HundredAndFiveSaves(recs: seq<PushRecord>)
    requires |recs| == 105
    ensures SaveAll([], recs) == recs[5..]
  {
    SaveAllKeepsNewest([], recs);
    assert [] + recs == recs;
  }

  /** The log never grows past its capacity once it is within it. */
  lemma {:induction false} SaveAllBounded(log: seq<PushRecord>, recs: seq<PushRecord>)
    requires |log| <= Capacity
    ensures |SaveAll(log, recs)| <= Capacity
    decreases |recs|
  {
    if recs != [] {
      SaveAllBounded(SaveRecentPush(log, recs[0]), recs[1..]);
    }
  }
}
