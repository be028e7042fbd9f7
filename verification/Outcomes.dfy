/** How a run ended, and how several endings combine into one. */
module Outcomes {
  import opened Common

  datatype Outcome = Passed | Aborted | Failed | Error

  /** passed < aborted < failed < error. */
  function Severity(o: Outcome): nat
  {
    match o
    case Passed => 1
    case Aborted => 2
    case Failed => 3
    case Error => 4
  }

  function FromExitCode(code: int): Outcome
  {
    if code == 0 then Passed
    else if code == 2 then Aborted
    else if code == 3 then Failed
    else Error
  }

  /** A finished shard that reported no exit code counts as an error. */
  function OfShard(code: Option<int>): Outcome
  {
    match code
    case Some(c) => FromExitCode(c)
    case None => FromExitCode(-1)
  }

  /** `o` is the most severe of `outcomes`; with none to judge, a pass. */
  ghost predicate IsWorst(o: Outcome, outcomes: seq<Outcome>)
  {
    && (outcomes == [] ==> o == Passed)
    && (outcomes != [] ==> o in outcomes)
    && forall i :: 0 <= i < |outcomes| ==> Severity(outcomes[i]) <= Severity(o)
  }

  /** Most severe wins, decided by which outcomes were seen at all. */
  method WorstOutcome(outcomes: seq<Outcome>) returns (o: Outcome)
    ensures o == Worst(outcomes)
    ensures IsWorst(o, outcomes)
  {
    var seen: set<Outcome> := {};
    for i := 0 to |outcomes|
      invariant seen == set k | 0 <= k < i :: outcomes[k]
    {
      seen := seen + {outcomes[i]};
    }
    assert forall x :: x in seen <==> x in outcomes;
    WorstIsMaximum(outcomes);
    if Error in seen {
      o := Error;
    } else if Failed in seen {
      o := Failed;
    } else if Aborted in seen {
      o := Aborted;
    } else {
      o := Passed;
    }
  }

  function Worst(outcomes: seq<Outcome>): Outcome
  {
    if Error in outcomes then Error
    else if Failed in outcomes then Failed
    else if Aborted in outcomes then Aborted
    else Passed
  }

  /** The roll-up is a maximum, and the only one there is. */
  lemma WorstIsMaximum(outcomes: seq<Outcome>)
    ensures IsWorst(Worst(outcomes), outcomes)
    ensures forall o :: IsWorst(o, outcomes) ==> o == Worst(outcomes)
  {
    if outcomes != [] {
      assert outcomes[0] in outcomes;
      match outcomes[0] case Passed => case Aborted => case Failed => case Error =>
    }
    forall o | IsWorst(o, outcomes)
      ensures o == Worst(outcomes)
    {
      if outcomes != [] {
        var i :| 0 <= i < |outcomes| && outcomes[i] == o;
        var j :| 0 <= j < |outcomes| && outcomes[j] == Worst(outcomes);
        assert Severity(outcomes[j]) <= Severity(o);
      }
    }
  }

  /** Roll up shard exit codes; no codes at all is an error, not a pass. */
  function Combine(codes: seq<Option<int>>): Outcome
  {
    if codes == [] then Error
    else Worst(seq(|codes|, i requires 0 <= i < |codes| => OfShard(codes[i])))
  }

  /** A code that says nothing good or bad: missing, or none the engine documents. */
  ghost predicate Unclear(code: Option<int>)
  {
    code.None? || code.value !in {0, 2, 3}
  }

  /** What one shard's code means. */
  ghost predicate Means(code: Option<int>, o: Outcome)
  {
    && (o == Passed <==> code == Some(0))
    && (o == Aborted <==> code == Some(2))
    && (o == Failed <==> code == Some(3))
    && (o == Error <==> Unclear(code))
  }

  lemma ShardMeans(code: Option<int>)
    ensures Means(code, OfShard(code))
  {
  }

  /** What the roll-up means, over the codes: a pass when every shard exited 0, an
      error when there are no codes or one is unclear, a failure when one is 3
      and none unclear, and otherwise an abort. */
  lemma CombineMeans(codes: seq<Option<int>>)
    ensures Combine(codes) == Passed <==> codes != [] && forall i :: 0 <= i < |codes| ==> codes[i] == Some(0)
    ensures Combine(codes) == Error <==> codes == [] || exists i :: 0 <= i < |codes| && Unclear(codes[i])
    ensures Combine(codes) == Failed <==>
            (exists i :: 0 <= i < |codes| && codes[i] == Some(3)) && forall i :: 0 <= i < |codes| ==> !Unclear(codes[i])
    ensures Combine(codes) == Aborted <==>
            && (exists i :: 0 <= i < |codes| && codes[i] == Some(2))
            && forall i :: 0 <= i < |codes| ==> !Unclear(codes[i]) && codes[i] != Some(3)
  {
    forall i | 0 <= i < |codes| ensures Means(codes[i], OfShard(codes[i])) {
      ShardMeans(codes[i]);
    }
    if codes != [] {
      var os := seq(|codes|, i requires 0 <= i < |codes| => OfShard(codes[i]));
      assert forall i :: 0 <= i < |codes| ==> os[i] == OfShard(codes[i]) && Means(codes[i], os[i]);
      assert os[0] in os;
    }
  }

  /** A combined outcome is never better than any shard's, and is always some shard's own. */
  lemma CombineNoBetter(codes: seq<Option<int>>, k: nat)
    requires k < |codes|
    ensures Severity(OfShard(codes[k])) <= Severity(Combine(codes))
    ensures codes[k].None? ==> Combine(codes) == Error
    ensures exists j :: 0 <= j < |codes| && Combine(codes) == OfShard(codes[j])
  {
    var os := seq(|codes|, i requires 0 <= i < |codes| => OfShard(codes[i]));
    WorstIsMaximum(os);
    assert os[k] == OfShard(codes[k]);
    var j :| 0 <= j < |os| && os[j] == Worst(os);
    assert Combine(codes) == OfShard(codes[j]);
  }
}
