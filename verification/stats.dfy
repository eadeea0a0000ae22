/** The persisted delivery counters and `_update_stats`. */
module Stats {
  import opened Wrappers

  /** The `stats` entry of the host's key/value store. */
  datatype Counters = Counters(total: nat, success: nat, failed: nat)

  /** What a missing `stats` entry reads as. */
  const Zero: Counters := Counters(0, 0, 0)

  /** How one delivery ended, as far as the counters are concerned. */
  datatype Outcome = Succeeded | Failed

  /** Every counted delivery either succeeded or failed. */
  predicate Balanced(c: Counters) {
    c.total == c.success + c.failed
  }

  /** `_update_stats(success, failed)`: reads the stored counters (zero
      when missing), bumps `total`, and bumps each counter whose flag is set. */
  function UpdateStats(stored: Option<Counters>, success: bool, failed: bool): (c: Counters)
    ensures c.total == stored.GetOr(Zero).total + 1
    ensures c.success == stored.GetOr(Zero).success + (if success then 1 else 0)
    ensures c.failed == stored.GetOr(Zero).failed + (if failed then 1 else 0)
  {
    var base := stored.GetOr(Zero);
    Counters(base.total + 1,
             base.success + (if success then 1 else 0),
             base.failed + (if failed then 1 else 0))
  }

  /** Every call site passes exactly one flag: `success=True` or `failed=True`. */
  function Record(stored: Option<Counters>, o: Outcome): (c: Counters)
    ensures c.total == stored.GetOr(Zero).total + 1
    ensures o == Succeeded ==> c.success == stored.GetOr(Zero).success + 1 && c.failed == stored.GetOr(Zero).failed
    ensures o == Failed ==> c.failed == stored.GetOr(Zero).failed + 1 && c.success == stored.GetOr(Zero).success
    ensures Balanced(stored.GetOr(Zero)) <==> Balanced(c)
  {
    UpdateStats(stored, o == Succeeded, o == Failed)
  }

  /** Called with neither flag, `_update_stats` would break the invariant;
      this is why every caller sets exactly one. */
  lemma NoFlagUnbalances(c: Counters)
    requires Balanced(c)
    ensures !Balanced(UpdateStats(Some(c), false, false))
  {
  }

  /** Counters after recording a sequence of outcomes in order. */
  function RecordAll(c: Counters, os: seq<Outcome>): Counters
    decreases |os|
  {
    if os == [] then c else RecordAll(Record(Some(c), os[0]), os[1..])
  }

  /** How many of `os` are `o`. */
  function Occurrences(os: seq<Outcome>, o: Outcome): nat
    decreases |os|
  {
    if os == [] then 0 else (if os[0] == o then 1 else 0) + Occurrences(os[1..], o)
  }

  /** Each counter grows by exactly the tally of the matching outcomes. */
  lemma {:induction false} RecordAllTallies(c: Counters, os: seq<Outcome>)
    ensures RecordAll(c, os).total == c.total + |os|
    ensures RecordAll(c, os).success == c.success + Occurrences(os, Succeeded)
    ensures RecordAll(c, os).failed == c.failed + Occurrences(os, Failed)
    decreases |os|
  {
    if os != [] {
      RecordAllTallies(Record(Some(c), os[0]), os[1..]);
    }
  }

  /** Occurrences of the two outcomes add up to the length. */
  lemma {:induction false} OccurrencesPartition(os: seq<Outcome>)
    ensures Occurrences(os, Succeeded) + Occurrences(os, Failed) == |os|
    decreases |os|
  {
    if os != [] {
      OccurrencesPartition(os[1..]);
    }
  }

  /** The invariant `total == success + failed` holds after any run of
      recorded outcomes that starts from a balanced (or missing) entry. */
  lemma {:induction false} RecordAllBalanced(c: Counters, os: seq<Outcome>)
    requires Balanced(c)
    ensures Balanced(RecordAll(c, os))
    decreases |os|
  {
    if os != [] {
      RecordAllBalanced(Record(Some(c), os[0]), os[1..]);
    }
  }

  /** Every recorded outcome is counted as exactly one of success or
      failure: together they grow by the number of updates. */
  lemma RecordAllSplitsOutcomes(c: Counters, os: seq<Outcome>)
    ensures RecordAll(c, os).success + RecordAll(c, os).failed == c.success + c.failed + |os|
  {
    RecordAllTallies(c, os);
    OccurrencesPartition(os);
  }
}
