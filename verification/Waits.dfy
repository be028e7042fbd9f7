/** The bounded wait loops: how long they sleep, and when they give up.
    Time is in milliseconds. Every attempt takes some time of its own, which
    the loops do not control. */
module Waits {
  import opened Common

  /** What an attempt answered. Only the two readiness answers are worth waiting out. */
  datatype Answer = Succeeded | NotDeployed | NotReady | Refused

  predicate Retriable(a: Answer)
  {
    a == NotDeployed || a == NotReady
  }

  datatype Attempt = Attempt(answer: Answer, took: Duration)

  /** One pass that ended in a sleep: what was answered, when, and how long the sleep was. */
  datatype Look = Look(answer: Answer, at: Instant, nap: Duration)

  const SECOND: Duration := 1000
  const MINUTE: Duration := 60 * SECOND
  const LEASE: Duration := LEASE_MINUTES * MINUTE

  const TRIGGER_POLL: Duration := 2 * SECOND
  const TRIGGER_TIMEOUT: Duration := 2 * MINUTE
  const REPORT_POLL: Duration := 2 * SECOND
  const REPORT_TIMEOUT: Duration := 5 * MINUTE

  function Slept(trace: seq<Look>): Duration
  {
    Sum(trace, (l: Look) => l.nap)
  }

  lemma SleptSnoc(trace: seq<Look>, l: Look)
    ensures Slept(trace + [l]) == Slept(trace) + l.nap
  {
    var all := trace + [l];
    assert all[..|trace|] == trace && all[..|trace| + 1] == all;
    SumSnoc(all, |trace|, (x: Look) => x.nap);
  }

  // ------------------------------------------------------------------
  // Calibration: check, then sleep one full poll.

  /** Every wait is a full poll begun no later than the deadline, so the whole
      wait is at most the timeout plus one poll. A retriable answer is returned
      only once the deadline has passed. */
  method AwaitWithPoll(start: Instant, poll: Duration, timeout: Duration, attempt: nat -> Attempt)
    returns (answer: Answer, clock: Instant, slept: Duration, trace: seq<Look>)
    requires poll > 0 && timeout >= 0 && forall i :: attempt(i).took >= 0
    ensures answer == attempt(|trace|).answer
    ensures forall i :: 0 <= i < |trace| ==>
              trace[i].answer == attempt(i).answer && trace[i].answer in {NotDeployed, NotReady} && trace[i].at <= start + timeout && trace[i].nap == poll
    ensures slept == Slept(trace) == poll * |trace| && slept <= timeout + poll
    ensures answer in {NotDeployed, NotReady} ==> clock > start + timeout
    ensures clock >= start + slept
  {
    var deadline := start + timeout;
    clock, slept, trace := start, 0, [];
    var n := 0;
    while true
      invariant n == |trace| && slept == Slept(trace)
      invariant forall i :: 0 <= i < |trace| ==>
                  trace[i].answer == attempt(i).answer && Retriable(trace[i].answer) && trace[i].at <= deadline && trace[i].nap == poll
      invariant Slept(trace) == poll * |trace| && start + Slept(trace) <= clock
      invariant trace != [] ==> Slept(trace) <= timeout + poll
      invariant clock >= start
      decreases deadline + poll - clock
    {
      var a := attempt(n);
      clock := clock + a.took;
      answer := a.answer;
      if !Retriable(answer) {
        return;
      }
      if clock > deadline {
        return;
      }
      SleptSnoc(trace, Look(answer, clock, poll));
      trace := trace + [Look(answer, clock, poll)];
      clock := clock + poll;
      slept := slept + poll;
      n := n + 1;
    }
  }

  /** One measurement of a calibration step: wait for the trigger, then for the report. */
  method RunStep(start: Instant, trigger: nat -> Attempt, settle: nat -> Attempt)
    returns (ok: bool, clock: Instant, waited: Duration, fired: Answer, settled: Answer)
    requires forall i :: trigger(i).took >= 0
    requires forall i :: settle(i).took >= 0
    ensures 0 <= waited <= 424_000 && waited % 2_000 == 0
    ensures ok <==> fired == Succeeded && settled == Succeeded
    ensures fired in {NotDeployed, NotReady} ==> clock > start + 120_000
    ensures fired == Succeeded && settled in {NotDeployed, NotReady} ==> clock > start + 300_000
  {
    var answer, at, early, _ := AwaitWithPoll(start, TRIGGER_POLL, TRIGGER_TIMEOUT, trigger);
    if answer != Succeeded {
      return false, at, early, answer, Refused;
    }
    var report, done, late, _ := AwaitWithPoll(at, REPORT_POLL, REPORT_TIMEOUT, settle);
    ok, clock, waited, fired, settled := report == Succeeded, done, early + late, answer, report;
  }

  /** A step and its one retry sleep at most 14 minutes 8 seconds, inside the lease that guards them. */
  method RunStepTwice(start: Instant, again: bool, trigger: nat -> Attempt, settle: nat -> Attempt, trigger': nat -> Attempt, settle': nat -> Attempt)
    returns (waited: Duration)
    requires (forall i :: trigger(i).took >= 0) && (forall i :: settle(i).took >= 0)
    requires (forall i :: trigger'(i).took >= 0) && (forall i :: settle'(i).took >= 0)
    ensures 0 <= waited <= 848_000 < 1_800_000 == LEASE
  {
    var ok, clock, first, _, _ := RunStep(start, trigger, settle);
    waited := first;
    if ok && again {
      var _, _, second, _, _ := RunStep(clock, trigger', settle');
      waited := waited + second;
    }
  }

  // ------------------------------------------------------------------
  // Scheduler: the sleep is capped at what remains.

  /** No sleep ends after the deadline, and a retriable answer is returned only
      once the deadline has passed or the caller gave up. */
  method TriggerWhenReady(start: Instant, poll0: Duration, timeout: Duration, attempt: nat -> Attempt, cancelled: nat -> bool)
    returns (answer: Answer, clock: Instant, trace: seq<Look>)
    requires poll0 > 0 && timeout >= 0 && forall i :: attempt(i).took > 0
    ensures answer == attempt(|trace|).answer
    ensures forall i :: 0 <= i < |trace| ==>
              trace[i].answer in {NotDeployed, NotReady} && 0 <= trace[i].nap <= poll0 && trace[i].at + trace[i].nap <= start + timeout
    ensures forall i :: 0 <= i < |trace| ==> trace[i].nap == poll0 || trace[i].at + trace[i].nap == start + timeout
    ensures answer in {NotDeployed, NotReady} ==> clock > start + timeout || cancelled(|trace|)
    ensures Slept(trace) <= timeout
  {
    var deadline := start + timeout;
    var poll := poll0;
    clock, trace := start, [];
    var n := 0;
    while true
      invariant n == |trace| && 0 <= poll <= poll0
      invariant poll == poll0 || clock >= deadline
      invariant forall i :: 0 <= i < |trace| ==>
                  Retriable(trace[i].answer) && 0 <= trace[i].nap <= poll0 && trace[i].at + trace[i].nap <= deadline
                  && (trace[i].nap == poll0 || trace[i].at + trace[i].nap == deadline)
      invariant start + Slept(trace) <= clock && Slept(trace) <= timeout
      decreases deadline + 1 - clock
    {
      var a := attempt(n);
      clock := clock + a.took;
      answer := a.answer;
      if !Retriable(answer) {
        break;
      }
      if clock > deadline || cancelled(n) {
        break;
      }
      if deadline - clock < poll {
        poll := deadline - clock;
      }
      SleptSnoc(trace, Look(answer, clock, poll));
      trace := trace + [Look(answer, clock, poll)];
      clock := clock + poll;
      n := n + 1;
    }
  }

  // ------------------------------------------------------------------
  // HTTP: two deadlines, one shrinking poll.

  /** Absent pods are waited for only until the shorter deadline. */
  function WaitUntil(a: Answer, absentDeadline: Instant, deadline: Instant): Instant
  {
    if a == NotDeployed then absentDeadline else deadline
  }

  /** Sleep one poll, or what is left. */
  function Nap(left: Duration, poll: Duration): Duration
  {
    if left < poll then left else poll
  }

  /** A pass is late when it left less than a poll before the deadline its answer gets. */
  ghost predicate Late(l: Look, poll0: Duration, absentDeadline: Instant, deadline: Instant)
  {
    WaitUntil(l.answer, absentDeadline, deadline) - l.at < poll0
  }

  ghost predicate SomeLate(trace: seq<Look>, i: nat, poll0: Duration, absentDeadline: Instant, deadline: Instant)
    requires i < |trace|
  {
    exists j :: 0 <= j <= i && Late(trace[j], poll0, absentDeadline, deadline)
  }

  /** Every sleep ends by the deadline its answer gets. */
  ghost predicate Fits(trace: seq<Look>, poll0: Duration, absentDeadline: Instant, deadline: Instant)
  {
    forall i :: 0 <= i < |trace| ==>
      && Retriable(trace[i].answer)
      && 0 <= trace[i].nap <= poll0
      && trace[i].at + trace[i].nap <= WaitUntil(trace[i].answer, absentDeadline, deadline)
  }

  ghost predicate Shrinks(trace: seq<Look>)
  {
    forall i, j :: 0 <= i < j < |trace| ==> trace[j].nap <= trace[i].nap
  }

  /** A pass sleeps less than the configured poll exactly when it, or one before it, was late. */
  ghost predicate ShortIffLate(trace: seq<Look>, poll0: Duration, absentDeadline: Instant, deadline: Instant)
  {
    forall i :: 0 <= i < |trace| ==> (trace[i].nap < poll0 <==> SomeLate(trace, i, poll0, absentDeadline, deadline))
  }

  /** The sleeps of a trigger request: each ends by the deadline its answer gets;
      the poll shrinks at the first late pass and never grows again. */
  ghost predicate HttpTrace(trace: seq<Look>, poll0: Duration, absentDeadline: Instant, deadline: Instant)
  {
    && Fits(trace, poll0, absentDeadline, deadline)
    && Shrinks(trace)
    && ShortIffLate(trace, poll0, absentDeadline, deadline)
  }

  lemma SomeLateSnoc(trace: seq<Look>, l: Look, i: nat, poll0: Duration, absentDeadline: Instant, deadline: Instant)
    requires i <= |trace|
    ensures i < |trace| ==> (SomeLate(trace + [l], i, poll0, absentDeadline, deadline) <==> SomeLate(trace, i, poll0, absentDeadline, deadline))
    ensures i == |trace| ==>
              (SomeLate(trace + [l], i, poll0, absentDeadline, deadline) <==>
               Late(l, poll0, absentDeadline, deadline) || (i > 0 && SomeLate(trace, i - 1, poll0, absentDeadline, deadline)))
  {
    var all := trace + [l];
    assert forall j :: 0 <= j < |trace| ==> all[j] == trace[j];
    assert all[|trace|] == l;
    if i < |trace| && SomeLate(trace, i, poll0, absentDeadline, deadline) {
      var j :| 0 <= j <= i && Late(trace[j], poll0, absentDeadline, deadline);
      assert Late(all[j], poll0, absentDeadline, deadline);
    }
    if i == |trace| > 0 && SomeLate(trace, i - 1, poll0, absentDeadline, deadline) {
      var j :| 0 <= j <= i - 1 && Late(trace[j], poll0, absentDeadline, deadline);
      assert Late(all[j], poll0, absentDeadline, deadline);
    }
  }

  lemma HttpTraceSnoc(trace: seq<Look>, l: Look, poll0: Duration, absentDeadline: Instant, deadline: Instant, poll: Duration)
    requires HttpTrace(trace, poll0, absentDeadline, deadline) && poll0 > 0
    requires poll == if trace == [] then poll0 else trace[|trace| - 1].nap
    requires Retriable(l.answer) && l.at <= WaitUntil(l.answer, absentDeadline, deadline)
    requires l.nap == Nap(WaitUntil(l.answer, absentDeadline, deadline) - l.at, poll)
    ensures HttpTrace(trace + [l], poll0, absentDeadline, deadline)
  {
    ShrinksSnoc(trace, l);
    ShortSnoc(trace, l, poll0, absentDeadline, deadline, poll);
    FitsSnoc(trace, l, poll0, absentDeadline, deadline);
  }

  lemma FitsSnoc(trace: seq<Look>, l: Look, poll0: Duration, absentDeadline: Instant, deadline: Instant)
    requires Fits(trace, poll0, absentDeadline, deadline)
    requires Retriable(l.answer) && 0 <= l.nap <= poll0 && l.at + l.nap <= WaitUntil(l.answer, absentDeadline, deadline)
    ensures Fits(trace + [l], poll0, absentDeadline, deadline)
  {
  }

  lemma ShrinksSnoc(trace: seq<Look>, l: Look)
    requires Shrinks(trace) && (trace != [] ==> l.nap <= trace[|trace| - 1].nap)
    ensures Shrinks(trace + [l])
  {
  }

  lemma ShortSnoc(trace: seq<Look>, l: Look, poll0: Duration, absentDeadline: Instant, deadline: Instant, poll: Duration)
    requires ShortIffLate(trace, poll0, absentDeadline, deadline)
    requires poll == if trace == [] then poll0 else trace[|trace| - 1].nap
    requires poll <= poll0
    requires l.nap == Nap(WaitUntil(l.answer, absentDeadline, deadline) - l.at, poll)
    ensures ShortIffLate(trace + [l], poll0, absentDeadline, deadline)
  {
    var all := trace + [l];
    forall i | 0 <= i < |all| ensures all[i].nap < poll0 <==> SomeLate(all, i, poll0, absentDeadline, deadline) {
      SomeLateSnoc(trace, l, i, poll0, absentDeadline, deadline);
      if i == |trace| {
        assert all[i] == l;
      }
    }
  }

  /** The trace holds the first attempts' answers, in order. */
  ghost predicate Heard(trace: seq<Look>, attempt: nat -> Attempt)
  {
    forall i :: 0 <= i < |trace| ==> trace[i].answer == attempt(i).answer
  }

  /** The pods were absent at each of the first `n` attempts. */
  ghost predicate Absent(attempt: nat -> Attempt, n: nat)
  {
    forall i :: 0 <= i < n ==> attempt(i).answer == NotDeployed
  }

  lemma HeardSnoc(trace: seq<Look>, attempt: nat -> Attempt, l: Look)
    requires Heard(trace, attempt) && l.answer == attempt(|trace|).answer
    ensures Heard(trace + [l], attempt)
  {
  }

  lemma AbsentNext(attempt: nat -> Attempt, n: nat)
    ensures Absent(attempt, n + 1) <==> Absent(attempt, n) && attempt(n).answer == NotDeployed
  {
  }

  /** When the next pass begins: at the start, or when the last sleep ends. */
  function Woken(trace: seq<Look>, start: Instant): Instant
  {
    if trace == [] then start else trace[|trace| - 1].at + trace[|trace| - 1].nap
  }

  /** The poll the next pass begins with: the configured one, or the last sleep. */
  function PollSoFar(trace: seq<Look>, poll0: Duration): Duration
  {
    if trace == [] then poll0 else trace[|trace| - 1].nap
  }

  /** What the loop does, pass by pass: the clock, the answer, and the sleep that follows. */
  ghost predicate Timed(trace: seq<Look>, start: Instant, poll0: Duration, absentDeadline: Instant, deadline: Instant, attempt: nat -> Attempt)
    decreases |trace|
  {
    trace == [] ||
    var before, l := trace[..|trace| - 1], trace[|trace| - 1];
    && Timed(before, start, poll0, absentDeadline, deadline, attempt)
    && PassOk(before, l, start, poll0, WaitUntil(l.answer, absentDeadline, deadline), attempt(|before|))
  }

  predicate PassOk(before: seq<Look>, l: Look, start: Instant, poll0: Duration, waitUntil: Instant, a: Attempt)
  {
    && l.answer == a.answer && Retriable(l.answer)
    && l.at == Woken(before, start) + a.took && l.at <= waitUntil
    && l.nap == Nap(waitUntil - l.at, PollSoFar(before, poll0))
  }

  lemma TimedSnoc(trace: seq<Look>, start: Instant, poll0: Duration, absentDeadline: Instant, deadline: Instant, attempt: nat -> Attempt, l: Look)
    requires Timed(trace, start, poll0, absentDeadline, deadline, attempt)
    requires PassOk(trace, l, start, poll0, WaitUntil(l.answer, absentDeadline, deadline), attempt(|trace|))
    ensures Timed(trace + [l], start, poll0, absentDeadline, deadline, attempt)
  {
    assert (trace + [l])[..|trace|] == trace;
  }

  /** Between two passes: what the sleeps so far add up to. */
  ghost predicate Between(trace: seq<Look>, start: Instant, poll0: Duration, absentDeadline: Instant, deadline: Instant)
  {
    && HttpTrace(trace, poll0, absentDeadline, deadline)
    && start + Slept(trace) <= Woken(trace, start) && start + Slept(trace) <= deadline
  }

  lemma BetweenNext(trace: seq<Look>, start: Instant, poll0: Duration, absentDeadline: Instant, deadline: Instant, look: Look, a: Attempt)
    requires poll0 > 0 && absentDeadline <= deadline && a.took >= 0
    requires Between(trace, start, poll0, absentDeadline, deadline)
    requires PassOk(trace, look, start, poll0, WaitUntil(look.answer, absentDeadline, deadline), a)
    ensures Between(trace + [look], start, poll0, absentDeadline, deadline)
  {
    HttpTraceSnoc(trace, look, poll0, absentDeadline, deadline, PollSoFar(trace, poll0));
    SleptSnoc(trace, look);
  }

  lemma {:induction false} TimedBetween(trace: seq<Look>, start: Instant, poll0: Duration, absentDeadline: Instant, deadline: Instant, attempt: nat -> Attempt)
    requires poll0 > 0 && start <= absentDeadline <= deadline && forall i :: attempt(i).took > 0
    requires Timed(trace, start, poll0, absentDeadline, deadline, attempt)
    ensures Between(trace, start, poll0, absentDeadline, deadline)
    decreases |trace|
  {
    if trace != [] {
      var n := |trace| - 1;
      TimedBetween(trace[..n], start, poll0, absentDeadline, deadline, attempt);
      BetweenNext(trace[..n], start, poll0, absentDeadline, deadline, trace[n], attempt(n));
      assert trace == trace[..n] + [trace[n]];
    }
  }

  lemma {:induction false} TimedHeard(trace: seq<Look>, start: Instant, poll0: Duration, absentDeadline: Instant, deadline: Instant, attempt: nat -> Attempt)
    requires start <= absentDeadline && Timed(trace, start, poll0, absentDeadline, deadline, attempt)
    ensures Heard(trace, attempt)
    ensures Absent(attempt, |trace|) ==> Woken(trace, start) <= absentDeadline
    decreases |trace|
  {
    if trace != [] {
      var n := |trace| - 1;
      TimedHeard(trace[..n], start, poll0, absentDeadline, deadline, attempt);
      HeardSnoc(trace[..n], attempt, trace[n]);
      assert trace == trace[..n] + [trace[n]];
      AbsentNext(attempt, n);
    }
  }

  const DEFAULT_POLL: Duration := 2 * SECOND
  const DEFAULT_READY: Duration := 2 * MINUTE
  const DEFAULT_ABSENT: Duration := 30 * SECOND

  /** A setting that is not positive stands for the default. */
  function OrDefault(d: Duration, fallback: Duration): Duration
  {
    if d <= 0 then fallback else d
  }

  /** How often to look and until when: for pods that are absent, and for pods that are starting. */
  datatype Window = Window(poll: Duration, absent: Instant, ready: Instant)

  /** The short deadline is never past the long one. */
  function WindowFor(start: Instant, poll: Duration, ready: Duration, absent: Duration): (w: Window)
    ensures w.poll > 0 && start < w.absent <= w.ready
  {
    var longest, shortest := OrDefault(ready, DEFAULT_READY), OrDefault(absent, DEFAULT_ABSENT);
    Window(OrDefault(poll, DEFAULT_POLL), start + (if shortest > longest then longest else shortest), start + longest)
  }

  /** The settings spelled out, in milliseconds: two seconds, two minutes and thirty seconds by default. */
  lemma WindowSpelledOut(start: Instant, poll: Duration, ready: Duration, absent: Duration)
    ensures var w := WindowFor(start, poll, ready, absent);
            && w.poll == (if poll > 0 then poll else 2_000)
            && w.ready - start == (if ready > 0 then ready else 120_000)
            && w.absent - start <= (if absent > 0 then absent else 30_000)
            && (w.absent == w.ready || w.absent - start == if absent > 0 then absent else 30_000)
  {
  }

  /** How a wait ends: a retriable answer is returned only past the deadline it
      gets, or when cancelled; pods that never appear are refused by the first
      attempt to end past the short deadline; and no sleep adds to the long one. */
  ghost predicate Waited(answer: Answer, clock: Instant, trace: seq<Look>, start: Instant, w: Window,
                         attempt: nat -> Attempt, cancelled: nat -> bool)
  {
    && Timed(trace, start, w.poll, w.absent, w.ready, attempt)
    && HttpTrace(trace, w.poll, w.absent, w.ready)
    && clock == Woken(trace, start) + attempt(|trace|).took && answer == attempt(|trace|).answer && Heard(trace, attempt)
    && (forall i :: 0 <= i < |trace| ==> trace[i].answer in {NotDeployed, NotReady})
    && (answer == NotDeployed ==> clock > w.absent || cancelled(|trace|))
    && (answer == NotReady ==> clock > w.ready || cancelled(|trace|))
    && (Absent(attempt, |trace| + 1) ==> clock <= w.absent + attempt(|trace|).took)
    && start + Slept(trace) <= w.ready
  }

  /** The wait behind a trigger request, with defaults for settings that are not positive. */
  method TriggerExecution(start: Instant, pollSetting: Duration, readySetting: Duration, absentSetting: Duration,
                          attempt: nat -> Attempt, cancelled: nat -> bool)
    returns (answer: Answer, clock: Instant, trace: seq<Look>)
    requires forall i :: attempt(i).took > 0
    ensures Waited(answer, clock, trace, start, WindowFor(start, pollSetting, readySetting, absentSetting), attempt, cancelled)
  {
    var w := WindowFor(start, pollSetting, readySetting, absentSetting);
    answer, clock, trace := WaitBetweenDeadlines(start, w, attempt, cancelled);
  }

  method WaitBetweenDeadlines(start: Instant, w: Window, attempt: nat -> Attempt, cancelled: nat -> bool)
    returns (answer: Answer, clock: Instant, trace: seq<Look>)
    requires w.poll > 0 && start <= w.absent <= w.ready && forall i :: attempt(i).took > 0
    ensures Waited(answer, clock, trace, start, w, attempt, cancelled)
  {
    answer, clock, trace := PollLoop(start, w.poll, w.absent, w.ready, attempt, cancelled);
    TimedBetween(trace, start, w.poll, w.absent, w.ready, attempt);
    TimedHeard(trace, start, w.poll, w.absent, w.ready, attempt);
    AbsentNext(attempt, |trace|);
  }

  method PollLoop(start: Instant, poll0: Duration, absentDeadline: Instant, deadline: Instant,
                  attempt: nat -> Attempt, cancelled: nat -> bool)
    returns (answer: Answer, clock: Instant, trace: seq<Look>)
    requires poll0 > 0 && start <= absentDeadline <= deadline && forall i :: attempt(i).took > 0
    ensures Timed(trace, start, poll0, absentDeadline, deadline, attempt)
    ensures clock == Woken(trace, start) + attempt(|trace|).took && answer == attempt(|trace|).answer
    ensures Retriable(answer) ==> clock > WaitUntil(answer, absentDeadline, deadline) || cancelled(|trace|)
  {
    var poll := poll0;
    clock, trace := start, [];
    while true
      invariant Timed(trace, start, poll0, absentDeadline, deadline, attempt)
      invariant poll == PollSoFar(trace, poll0) && poll >= 0 && clock == Woken(trace, start)
      decreases deadline + 1 - clock
    {
      var a := attempt(|trace|);
      var at := clock + a.took;
      var waitUntil := WaitUntil(a.answer, absentDeadline, deadline);
      if !Retriable(a.answer) || at > waitUntil || cancelled(|trace|) {
        return a.answer, at, trace;
      }
      if waitUntil - at < poll {
        poll := waitUntil - at;
      }
      var look := Look(a.answer, at, poll);
      TimedSnoc(trace, start, poll0, absentDeadline, deadline, attempt, look);
      trace, clock := trace + [look], at + poll;
    }
  }

  /** A poll that shrank for absent pods is not restored when the pods appear:
      no later pass sleeps longer than what an absent pass had left of the short
      deadline, however much of the long deadline remains. */
  lemma PollNeverRecovers(trace: seq<Look>, i: nat, j: nat, poll0: Duration, absentDeadline: Instant, deadline: Instant)
    requires HttpTrace(trace, poll0, absentDeadline, deadline) && i < j < |trace| && trace[i].answer == NotDeployed
    ensures trace[j].nap <= absentDeadline - trace[i].at
  {
    assert trace[j].nap <= trace[i].nap;
  }

  lemma {:induction false} TimedPrefix(trace: seq<Look>, k: nat, start: Instant, poll0: Duration, absentDeadline: Instant, deadline: Instant, attempt: nat -> Attempt)
    requires k <= |trace| && Timed(trace, start, poll0, absentDeadline, deadline, attempt)
    ensures Timed(trace[..k], start, poll0, absentDeadline, deadline, attempt)
    decreases |trace|
  {
    if k < |trace| {
      TimedPrefix(trace[..|trace| - 1], k, start, poll0, absentDeadline, deadline, attempt);
      assert trace[..|trace| - 1][..k] == trace[..k];
    } else {
      assert trace[..k] == trace;
    }
  }

  lemma FirstTwo(trace: seq<Look>, attempt: nat -> Attempt, clock: Instant)
    requires attempt(0) == Attempt(NotDeployed, 29500) && attempt(1) == Attempt(NotReady, 1)
    requires Timed(trace, 0, 2000, 30000, 120000, attempt) && clock == Woken(trace, 0) + attempt(|trace|).took
    requires clock > WaitUntil(attempt(|trace|).answer, 30000, 120000)
    ensures |trace| >= 2 && trace[0] == Look(NotDeployed, 29500, 500) && trace[1] == Look(NotReady, 30001, 500)
  {
    if |trace| > 0 {
      TimedPrefix(trace, 1, 0, 2000, 30000, 120000, attempt);
      assert trace[..1][..0] == [] && trace[..1] == [trace[0]];
      assert trace[0] == Look(NotDeployed, 29500, 500);
    }
    if |trace| > 1 {
      TimedPrefix(trace, 2, 0, 2000, 30000, 120000, attempt);
      assert trace[..2][..1] == [trace[0]];
    }
  }

  /** It happens on the default settings: pods absent when half a second of the
      short deadline is left, and starting ever after. The next pass has almost
      ninety seconds to wait and sleeps half a second, and so does every later one at most. */
  method AbsentThenStarting() returns (trace: seq<Look>)
    ensures |trace| >= 2
    ensures trace[0] == Look(NotDeployed, 29500, 500) && trace[1] == Look(NotReady, 30001, 500)
    ensures forall j :: 0 <= j < |trace| ==> trace[j].nap <= 500
  {
    var attempt := (i: nat) => if i == 0 then Attempt(NotDeployed, 29500) else Attempt(NotReady, 1);
    var answer, clock;
    answer, clock, trace := TriggerExecution(0, 0, 0, 0, attempt, i => false);
    assert attempt(0) == Attempt(NotDeployed, 29500) && attempt(1) == Attempt(NotReady, 1);
    FirstTwo(trace, attempt, clock);
    forall j | 0 < j < |trace| ensures trace[j].nap <= 500 {
      PollNeverRecovers(trace, 0, j, DEFAULT_POLL, 30000, 120000);
    }
  }
}
