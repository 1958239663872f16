/** The retry schedule of a webhook POST: a failed POST is retried after
    waiting 4^k seconds for the k-th failure, k = 1 to MAX_RETRIES; the next
    failure gives up and shows an error. */
module RetrySchedule {

  /** Failed POSTs that are followed by another attempt. */
  const MAX_RETRIES: nat := 3
  /** The wait after the k-th failure is BACKOFF_BASE^k seconds. */
  const BACKOFF_BASE: nat := 4

  /** What happens, in order, to one request: POSTs, waits between them, and
      giving up with an error shown to the user. */
  datatype DeliveryEvent = Post | Backoff(seconds: nat) | GiveUp

  function Pow(base: nat, exp: nat): nat {
    if exp == 0 then 1 else base * Pow(base, exp - 1)
  }

  /** The events of a delivery from the POST made after `failures` failed ones;
      `succeeds(i)` is the transport's answer to the POST made after i failures. */
  function RetryTrace(succeeds: nat -> bool, failures: nat): seq<DeliveryEvent>
    requires failures <= MAX_RETRIES
    decreases MAX_RETRIES - failures
  {
    if succeeds(failures) then [Post]
    else if failures + 1 > MAX_RETRIES then [Post, GiveUp]
    else [Post, Backoff(Pow(BACKOFF_BASE, failures + 1))] + RetryTrace(succeeds, failures + 1)
  }

  /** A delivery starts with a POST, ends with a POST or the give-up (never
      with a wait), and holds at most two events per remaining attempt. */
  lemma {:induction false} RetryTraceShape(succeeds: nat -> bool, failures: nat)
    requires failures <= MAX_RETRIES
    ensures var t := RetryTrace(succeeds, failures);
      && 0 < |t| <= 2 * (MAX_RETRIES + 1 - failures)
      && t[0] == Post && (t[|t| - 1] == Post || t[|t| - 1] == GiveUp)
    decreases MAX_RETRIES - failures
  {
    if !succeeds(failures) && failures + 1 <= MAX_RETRIES {
      RetryTraceShape(succeeds, failures + 1);
      var rest := RetryTrace(succeeds, failures + 1);
      assert RetryTrace(succeeds, failures) == [Post, Backoff(Pow(BACKOFF_BASE, failures + 1))] + rest;
    }
  }

  /** Number of POSTs in a trace. */
  function Posts(trace: seq<DeliveryEvent>): nat {
    if trace == [] then 0
    else Posts(trace[..|trace| - 1]) + if trace[|trace| - 1] == Post then 1 else 0
  }

  lemma PostsAppend(a: seq<DeliveryEvent>, b: seq<DeliveryEvent>)
    ensures Posts(a + b) == Posts(a) + Posts(b)
    decreases |b|
  {
    if b == [] {
      assert a + b == a;
    } else {
      assert (a + b)[..|a + b| - 1] == a + b[..|b| - 1];
      assert (a + b)[|a + b| - 1] == b[|b| - 1];
      PostsAppend(a, b[..|b| - 1]);
    }
  }

  /** A delivery makes at most MAX_RETRIES + 1 POSTs. */
  lemma {:induction false} RetryPostsBound(succeeds: nat -> bool, failures: nat)
    requires failures <= MAX_RETRIES
    ensures Posts(RetryTrace(succeeds, failures)) <= MAX_RETRIES + 1 - failures
    decreases MAX_RETRIES - failures
  {
    var t := RetryTrace(succeeds, failures);
    if succeeds(failures) {
      assert t == [Post];
      assert [Post][..0] == [];
    } else if failures + 1 > MAX_RETRIES {
      assert t == [Post] + [GiveUp];
      PostsAppend([Post], [GiveUp]);
      assert [Post][..0] == [] && [GiveUp][..0] == [];
    } else {
      var wait := Backoff(Pow(BACKOFF_BASE, failures + 1));
      var rest := RetryTrace(succeeds, failures + 1);
      RetryPostsBound(succeeds, failures + 1);
      assert t == [Post, wait] + rest;
      PostsAppend([Post, wait], rest);
      assert [Post, wait][..1] == [Post] && [Post][..0] == [];
    }
  }

  /** A delivery gives up exactly when every POST it may make fails, and then
      as its last event and nowhere else; otherwise it ends with the POST that
      succeeded. */
  lemma {:induction false} RetryGivesUpOnlyWhenAllFail(succeeds: nat -> bool, failures: nat)
    requires failures <= MAX_RETRIES
    ensures var t := RetryTrace(succeeds, failures);
      && t[|t| - 1] == (if forall i :: failures <= i <= MAX_RETRIES ==> !succeeds(i) then GiveUp else Post)
      && forall i :: 0 <= i < |t| - 1 ==> t[i] != GiveUp
    decreases MAX_RETRIES - failures
  {
    var t := RetryTrace(succeeds, failures);
    if succeeds(failures) {
      assert t == [Post];
    } else if failures + 1 > MAX_RETRIES {
      assert t == [Post, GiveUp];
    } else {
      RetryGivesUpOnlyWhenAllFail(succeeds, failures + 1);
      var rest := RetryTrace(succeeds, failures + 1);
      assert t == [Post, Backoff(Pow(BACKOFF_BASE, failures + 1))] + rest;
      assert t[|t| - 1] == rest[|rest| - 1];
      forall i | 0 <= i < |t| - 1
        ensures t[i] != GiveUp
      {
        if i >= 2 {
          assert t[i] == rest[i - 2];
        }
      }
    }
  }

  /** A delivery shows the error exactly when every POST it may make fails. */
  lemma GiveUpIffAllFail(succeeds: nat -> bool)
    ensures GiveUp in RetryTrace(succeeds, 0) <==> forall i :: 0 <= i <= MAX_RETRIES ==> !succeeds(i)
  {
    RetryGivesUpOnlyWhenAllFail(succeeds, 0);
    var t := RetryTrace(succeeds, 0);
    if GiveUp in t {
      var k :| 0 <= k < |t| && t[k] == GiveUp;
    }
  }

  /** Against an endpoint that always fails, the waits are exactly 4, 16 and
      64 seconds and the fourth failure gives up. */
  lemma PermanentFailureSchedule(succeeds: nat -> bool)
    requires forall i :: 0 <= i <= MAX_RETRIES ==> !succeeds(i)
    ensures RetryTrace(succeeds, 0) ==
      [Post, Backoff(4), Post, Backoff(16), Post, Backoff(64), Post, GiveUp]
  {
    assert Pow(BACKOFF_BASE, 1) == 4 && Pow(BACKOFF_BASE, 2) == 16 && Pow(BACKOFF_BASE, 3) == 64;
    assert RetryTrace(succeeds, 3) == [Post, GiveUp];
    assert RetryTrace(succeeds, 2) == [Post, Backoff(64), Post, GiveUp];
    assert RetryTrace(succeeds, 1) == [Post, Backoff(16), Post, Backoff(64), Post, GiveUp];
  }

  /** A POST that succeeds ends the delivery. */
  lemma RetryTraceSucceeds(succeeds: nat -> bool, failures: nat, done: seq<DeliveryEvent>)
    requires failures <= MAX_RETRIES && succeeds(failures)
    requires done + RetryTrace(succeeds, failures) == RetryTrace(succeeds, 0)
    ensures done + [Post] == RetryTrace(succeeds, 0)
  {
  }

  /** The last POST failing gives up. */
  lemma RetryTraceGivesUp(succeeds: nat -> bool, failures: nat, done: seq<DeliveryEvent>)
    requires failures == MAX_RETRIES && !succeeds(failures)
    requires done + RetryTrace(succeeds, failures) == RetryTrace(succeeds, 0)
    ensures done + [Post] + [GiveUp] == RetryTrace(succeeds, 0)
  {
    assert done + [Post] + [GiveUp] == done + [Post, GiveUp];
  }

  /** An earlier POST failing waits and tries again. */
  lemma RetryTraceBacksOff(succeeds: nat -> bool, failures: nat, done: seq<DeliveryEvent>)
    requires failures < MAX_RETRIES && !succeeds(failures)
    requires done + RetryTrace(succeeds, failures) == RetryTrace(succeeds, 0)
    ensures done + [Post] + [Backoff(Pow(BACKOFF_BASE, failures + 1))] + RetryTrace(succeeds, failures + 1)
      == RetryTrace(succeeds, 0)
  {
    var wait := Backoff(Pow(BACKOFF_BASE, failures + 1));
    var rest := RetryTrace(succeeds, failures + 1);
    assert done + [Post] + [wait] + rest == done + ([Post, wait] + rest);
  }

  /** The POST-and-retry chain of one request, run to its end. */
  method PostLogsWithRetry(succeeds: nat -> bool) returns (trace: seq<DeliveryEvent>)
    ensures trace == RetryTrace(succeeds, 0)
  {
    trace := [];
    var failures: nat := 0;
    while true
      invariant failures <= MAX_RETRIES
      invariant trace + RetryTrace(succeeds, failures) == RetryTrace(succeeds, 0)
      decreases MAX_RETRIES - failures
    {
      ghost var done := trace;
      trace := trace + [Post];
      if succeeds(failures) {
        RetryTraceSucceeds(succeeds, failures, done);
        return;
      }
      // The errors are numbered from 1 as they are zipped with 1..MAX_RETRIES + 1.
      var attempt := failures + 1;
      if attempt > MAX_RETRIES {
        trace := trace + [GiveUp];
        RetryTraceGivesUp(succeeds, failures, done);
        return;
      }
      var wait := Backoff(Pow(BACKOFF_BASE, attempt));
      trace := trace + [wait];
      RetryTraceBacksOff(succeeds, failures, done);
      failures := attempt;
    }
  }
}
