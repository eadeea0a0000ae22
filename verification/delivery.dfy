/** `_push_to_api`: the bounded retry loop that posts one payload. */
module Delivery {
  import opened Wrappers
  import opened Stats

  /** What one `requests.post` call came back with: a response (its status
      code and whether its body parses as JSON), a timeout, a connection
      error, or any other exception. */
  datatype Attempt =
    | Response(status: int, jsonBody: bool)
    | Timeout
    | ConnectionError
    | OtherError

  /** The only outcome that ends the loop early: HTTP 200. Whether the body
      parses is logged and otherwise ignored. */
  predicate Delivered(a: Attempt) {
    a.Response? && a.status == 200
  }

  /** The endpoint's answer to attempt `i` (0-based) under the script `net`;
      attempts past the end of the script get no answer. */
  function AttemptAt(net: seq<Attempt>, i: nat): Attempt {
    if i < |net| then net[i] else ConnectionError
  }

  /** One observable step of a delivery: a POST (numbered from 0), the
      2-second pause before a retry, or the single stats update. */
  datatype Step = Post(attempt: nat) | Pause | Update(outcome: Outcome)

  /** The first attempt in `from..retryTimes` that gets HTTP 200, if any. */
  function FirstDelivered(net: seq<Attempt>, retryTimes: int, from: nat): (k: Option<nat>)
    ensures k.Some? ==> from <= k.value <= retryTimes && Delivered(AttemptAt(net, k.value))
    ensures k.Some? ==> forall j :: from <= j < k.value ==> !Delivered(AttemptAt(net, j))
    ensures k.None? ==> forall j :: from <= j <= retryTimes ==> !Delivered(AttemptAt(net, j))
    decreases retryTimes + 1 - from
  {
    if retryTimes < from then None
    else if Delivered(AttemptAt(net, from)) then Some(from)
    else FirstDelivered(net, retryTimes, from + 1)
  }

  /** The steps taken from the loop head with `retry_count == i`. */
  function StepsFrom(net: seq<Attempt>, retryTimes: int, i: nat): (t: seq<Step>)
    requires i <= retryTimes
    ensures |t| >= 2 && t[0] == Post(i)
    ensures t[|t| - 1] == Update(DeliveryOutcomeFrom(net, retryTimes, i))
    ensures forall j :: 0 <= j < |t| - 1 ==> !t[j].Update?
    decreases retryTimes - i
  {
    if Delivered(AttemptAt(net, i)) then [Post(i), Update(Succeeded)]
    else if i + 1 <= retryTimes then [Post(i), Pause] + StepsFrom(net, retryTimes, i + 1)
    else [Post(i), Update(Failed)]
  }

  /** Everything one call of `_push_to_api` does, in order. With a negative
      retry limit the loop body never runs and the call only records a
      failure. */
  function PushToApi(net: seq<Attempt>, retryTimes: int): (t: seq<Step>)
    ensures |t| > 0 && t[|t| - 1] == Update(DeliveryOutcome(net, retryTimes))
    ensures 0 <= retryTimes ==> t[0] == Post(0)
    ensures forall j :: 0 <= j < |t| - 1 ==> !t[j].Update?
  {
    if 0 <= retryTimes then StepsFrom(net, retryTimes, 0) else [Update(Failed)]
  }

  /** How the call ends, as recorded in the counters. */
  function DeliveryOutcome(net: seq<Attempt>, retryTimes: int): (o: Outcome)
    ensures o == Succeeded <==> exists k :: 0 <= k <= retryTimes && Delivered(AttemptAt(net, k))
  {
    if FirstDelivered(net, retryTimes, 0).Some? then Succeeded else Failed
  }

  /** Number of POSTs among `t`. */
  function Posts(t: seq<Step>): nat
    decreases |t|
  {
    if t == [] then 0 else (if t[0].Post? then 1 else 0) + Posts(t[1..])
  }

  /** Number of pauses among `t`. */
  function Pauses(t: seq<Step>): nat
    decreases |t|
  {
    if t == [] then 0 else (if t[0].Pause? then 1 else 0) + Pauses(t[1..])
  }

  /** Number of stats updates among `t`. */
  function Updates(t: seq<Step>): nat
    decreases |t|
  {
    if t == [] then 0 else (if t[0].Update? then 1 else 0) + Updates(t[1..])
  }

  /** Counting distributes over concatenation. */
  lemma {:induction false} CountsAppend(a: seq<Step>, b: seq<Step>)
    ensures Posts(a + b) == Posts(a) + Posts(b)
    ensures Pauses(a + b) == Pauses(a) + Pauses(b)
    ensures Updates(a + b) == Updates(a) + Updates(b)
    decreases |a|
  {
    if a == [] {
      assert a + b == b;
    } else {
      CountsAppend(a[1..], b);
      assert (a + b)[1..] == a[1..] + b;
    }
  }

  /** Counts of the steps from retry count `i`, by where the first 200 is. */
  lemma {:induction false} StepsFromCounts(net: seq<Attempt>, retryTimes: int, i: nat)
    requires i <= retryTimes
    ensures var t := StepsFrom(net, retryTimes, i);
      && Updates(t) == 1
      && t[|t| - 1] == Update(DeliveryOutcomeFrom(net, retryTimes, i))
      && match FirstDelivered(net, retryTimes, i)
         case Some(k) => Posts(t) == k - i + 1 && Pauses(t) == k - i
         case None => Posts(t) == retryTimes - i + 1 && Pauses(t) == retryTimes - i
    decreases retryTimes - i
  {
    var t := StepsFrom(net, retryTimes, i);
    if Delivered(AttemptAt(net, i)) {
      assert Posts(t) == 1 + Posts([Update(Succeeded)]);
    } else if i + 1 <= retryTimes {
      var rest := StepsFrom(net, retryTimes, i + 1);
      StepsFromCounts(net, retryTimes, i + 1);
      CountsAppend([Post(i), Pause], rest);
      assert Posts([Post(i), Pause]) == 1;
      assert Pauses([Post(i), Pause]) == 1;
      assert Updates([Post(i), Pause]) == 0;
    } else {
      assert Posts(t) == 1 + Posts([Update(Failed)]);
    }
  }

  /** The outcome of the steps from retry count `i`. */
  function DeliveryOutcomeFrom(net: seq<Attempt>, retryTimes: int, i: nat): Outcome {
    if FirstDelivered(net, retryTimes, i).Some? then Succeeded else Failed
  }

  /** The retry-count property: when attempt `k` is the first to get HTTP
      200, exactly `k + 1` POSTs and `k` pauses happen and one success is
      recorded; when none does, `retryTimes + 1` POSTs and `retryTimes`
      pauses happen and one failure is recorded. Either way exactly one
      stats update is made, and it is the last step. */
  lemma PushToApiCounts(net: seq<Attempt>, retryTimes: int)
    ensures var t := PushToApi(net, retryTimes);
      && Updates(t) == 1
      && t[|t| - 1] == Update(DeliveryOutcome(net, retryTimes))
      && match FirstDelivered(net, retryTimes, 0)
         case Some(k) => Posts(t) == k + 1 && Pauses(t) == k
         case None => (Posts(t) == (if retryTimes < 0 then 0 else retryTimes + 1)
                       && Pauses(t) == (if retryTimes < 0 then 0 else retryTimes))
  {
    if 0 <= retryTimes {
      StepsFromCounts(net, retryTimes, 0);
    } else {
      assert Posts([Update(Failed)]) == 0;
    }
  }

  /** Against an endpoint that never answers 200, the loop makes exactly
      `retryTimes + 1` attempts with `retryTimes` pauses and records one
      failure. */
  lemma AllFailing(net: seq<Attempt>, retryTimes: nat)
    requires forall i :: 0 <= i < |net| ==> !Delivered(net[i])
    ensures var t := PushToApi(net, retryTimes);
      && Posts(t) == retryTimes + 1
      && Pauses(t) == retryTimes
      && Updates(t) == 1
      && t[|t| - 1] == Update(Failed)
  {
    PushToApiCounts(net, retryTimes);
  }

  /** When attempt `k` is the first to get HTTP 200, the loop stops there:
      `k + 1` attempts, `k` pauses, one success, no failure. */
  lemma FirstSuccessStops(net: seq<Attempt>, retryTimes: int, k: nat)
    requires k <= retryTimes
    requires Delivered(AttemptAt(net, k))
    requires forall j :: 0 <= j < k ==> !Delivered(AttemptAt(net, j))
    ensures var t := PushToApi(net, retryTimes);
      && Posts(t) == k + 1
      && Pauses(t) == k
      && Updates(t) == 1
      && t[|t| - 1] == Update(Succeeded)
  {
    PushToApiCounts(net, retryTimes);
    FirstDeliveredIs(net, retryTimes, 0, k);
  }

  /** `FirstDelivered` finds the first 200 at or after `from`. */
  lemma {:induction false} FirstDeliveredIs(net: seq<Attempt>, retryTimes: int, from: nat, k: nat)
    requires from <= k <= retryTimes
    requires Delivered(AttemptAt(net, k))
    requires forall j :: from <= j < k ==> !Delivered(AttemptAt(net, j))
    ensures FirstDelivered(net, retryTimes, from) == Some(k)
    decreases k - from
  {
    if from < k {
      FirstDeliveredIs(net, retryTimes, from + 1, k);
    }
  }

  /** The shape of every delivery: POSTs numbered 0, 1, 2, ... alternate
      with pauses, so a pause always sits between two POSTs, and the single
      stats update comes last. */
  lemma {:induction false} StepsFromShape(net: seq<Attempt>, retryTimes: int, i: nat)
    requires i <= retryTimes
    ensures var t := StepsFrom(net, retryTimes, i);
      && |t| % 2 == 0
      && forall j :: 0 <= j < |t| - 1 ==> t[j] == (if j % 2 == 0 then Post(i + j / 2) else Pause)
    decreases retryTimes - i
  {
    var t := StepsFrom(net, retryTimes, i);
    if !Delivered(AttemptAt(net, i)) && i + 1 <= retryTimes {
      var rest := StepsFrom(net, retryTimes, i + 1);
      StepsFromShape(net, retryTimes, i + 1);
      forall j | 2 <= j < |t| - 1
        ensures t[j] == (if j % 2 == 0 then Post(i + j / 2) else Pause)
      {
        assert t[j] == rest[j - 2];
      }
    }
  }

  /** Pauses happen only between attempts: each pause is preceded and
      followed by a POST, never before the first or after the last. */
  lemma PausesBetweenPosts(net: seq<Attempt>, retryTimes: int)
    ensures var t := PushToApi(net, retryTimes);
      forall j :: 0 <= j < |t| && t[j] == Pause ==> 0 < j < |t| - 1 && t[j - 1].Post? && t[j + 1].Post?
  {
    var t := PushToApi(net, retryTimes);
    if 0 <= retryTimes {
      StepsFromShape(net, retryTimes, 0);
      PushToApiCounts(net, retryTimes);
      forall j | 0 <= j < |t| && t[j] == Pause
        ensures 0 < j < |t| - 1 && t[j - 1].Post? && t[j + 1].Post?
      {
        assert j != |t| - 1;
        assert j % 2 == 1;
      }
    }
  }

  /** A non-200 status is handled exactly like a timeout or a connection
      error: two endpoints that agree on which attempts get HTTP 200 produce
      the same delivery. */
  lemma {:induction false} OnlyDeliveredMatters(net1: seq<Attempt>, net2: seq<Attempt>, retryTimes: int, i: nat)
    requires i <= retryTimes
    requires forall j :: Delivered(AttemptAt(net1, j)) == Delivered(AttemptAt(net2, j))
    ensures StepsFrom(net1, retryTimes, i) == StepsFrom(net2, retryTimes, i)
    decreases retryTimes - i
  {
    if !Delivered(AttemptAt(net1, i)) && i + 1 <= retryTimes {
      OnlyDeliveredMatters(net1, net2, retryTimes, i + 1);
    }
  }

  /** The loop as `_push_to_api` writes it, counting POSTs and pauses in
      place of the network call and `time.sleep(2)`. */
  method PushLoop(net: seq<Attempt>, retryTimes: int) returns (posts: nat, pauses: nat, outcome: Outcome)
    ensures outcome == DeliveryOutcome(net, retryTimes)
    ensures posts == Posts(PushToApi(net, retryTimes)) && pauses == Pauses(PushToApi(net, retryTimes))
    ensures FirstDelivered(net, retryTimes, 0).Some? ==>
      posts == FirstDelivered(net, retryTimes, 0).value + 1 && pauses == posts - 1
    ensures FirstDelivered(net, retryTimes, 0).None? ==>
      posts == (if retryTimes < 0 then 0 else retryTimes + 1) && pauses == (if retryTimes < 0 then 0 else retryTimes)
  {
    var retryCount: nat := 0;
    posts, pauses := 0, 0;
    while retryCount <= retryTimes
      invariant retryTimes < 0 ==> retryCount == 0
      invariant 0 <= retryTimes ==> retryCount <= retryTimes + 1
      invariant posts == retryCount
      invariant retryTimes < 0 ==> pauses == 0
      invariant 0 <= retryTimes ==> pauses == (if retryCount <= retryTimes then retryCount else retryTimes)
      invariant forall j :: 0 <= j < retryCount ==> !Delivered(AttemptAt(net, j))
      decreases retryTimes + 1 - retryCount
    {
      var response := AttemptAt(net, retryCount);
      posts := posts + 1;
      if Delivered(response) {
        FirstDeliveredIs(net, retryTimes, 0, retryCount);
        PushToApiCounts(net, retryTimes);
        outcome := Succeeded;
        return;
      }
      retryCount := retryCount + 1;
      if retryCount <= retryTimes {
        pauses := pauses + 1;
      }
    }
    PushToApiCounts(net, retryTimes);
    outcome := Failed;
  }
}
