// No Get is ever stuck: as long as one is unfinished some caller can move, and only finitely many moves remain.
module Progress {
  import opened Metrics
  import opened Flights

  // A step of a caller, as opposed to the clock, a cancellation or a new call.
  predicate CallerStep(a: Action) {
    !a.Tick? && !a.Cancel? && !a.Begin?
  }

  predicate AllReturned(s: State)
    requires Shaped(s)
  {
    forall id :: 0 <= id < |s.calls| ==> s.phases[id].Returned?
  }

  function Weight(s: State, id: nat): nat
    requires Shaped(s) && id < |s.calls|
  {
    match s.phases[id]
    case Begun => 6
    case Missed(_) => 5
    case Leading(f) => (match s.flights[f].stage case Asking => 4 case Answered(_, _) => 3 case _ => 2)
    case Following(_, _) => 1
    case Returned(_, _, _) => 0
  }

  function RankTo(s: State, n: nat): (r: nat)
    requires Shaped(s) && n <= |s.calls|
    ensures r <= 6 * n
  {
    if n == 0 then 0 else RankTo(s, n - 1) + Weight(s, n - 1)
  }

  function Rank(s: State): nat
    requires Shaped(s)
  {
    RankTo(s, |s.calls|)
  }

  // Somebody can move. A leader whose upstream call is pending moves by that call returning; which
  // answer it returns is up to the backend.
  lemma SomeoneCanMove(s: State, answer: Answer) returns (a: Action)
    requires Inv(s) && !AllReturned(s) && !answer.err.Canceled?
    ensures CallerStep(a) && Enabled(s, a)
  {
    var id: nat :| id < |s.calls| && !s.phases[id].Returned?;
    assert CallOk(s, id);
    match s.phases[id]
    case Begun => a := LookUp(id);
    case Missed(_) => a := EnterDo(id);
    case Leading(f) => a := LeaderMove(s, id, answer);
    case Following(f, _) =>
      if s.flights[f].stage.Landed? {
        a := Wake(id);
      } else {
        assert FlightOk(s, f);
        a := LeaderMove(s, s.flights[f].leader, answer);
      }
  }

  lemma LeaderMove(s: State, id: nat, answer: Answer) returns (a: Action)
    requires Shaped(s) && LeadsAt(s, id) && InAir(s, s.phases[id].flight) && !answer.err.Canceled?
    ensures CallerStep(a) && Enabled(s, a)
  {
    match s.flights[s.phases[id].flight].stage
    case Asking => a := Reply(id, answer);
    case Answered(_, _) => a := Settle(id);
    case Stored(_, _, _) => a := Land(id);
  }

  lemma OthersWeighTheSame(s: State, a: Action, i: nat)
    requires Shaped(s) && CallerStep(a) && Enabled(s, a) && Shaped(Next(s, a))
    requires i < |s.calls| && i != a.id && CallOk(s, i) && CallOk(s, a.id)
    ensures i < |Next(s, a).calls| && Weight(Next(s, a), i) == Weight(s, i)
  {
  }

  lemma MoverLightens(s: State, a: Action)
    requires Shaped(s) && CallerStep(a) && Enabled(s, a) && Shaped(Next(s, a)) && CallOk(s, a.id)
    ensures |Next(s, a).calls| == |s.calls| && Weight(Next(s, a), a.id) < Weight(s, a.id)
  {
  }

  lemma {:induction false} RankToFalls(s: State, s': State, n: nat, id: nat)
    requires Shaped(s) && Shaped(s') && |s'.calls| == |s.calls| && n <= |s.calls| && id < |s.calls|
    requires forall i :: 0 <= i < |s.calls| ==>
      if i == id then Weight(s', i) < Weight(s, i) else Weight(s', i) == Weight(s, i)
    ensures if id < n then RankTo(s', n) < RankTo(s, n) else RankTo(s', n) == RankTo(s, n)
  {
    if n > 0 { RankToFalls(s, s', n - 1, id); }
  }

  lemma EveryMoveLowersTheRank(s: State, a: Action)
    requires Inv(s) && CallerStep(a) && Enabled(s, a)
    ensures Shaped(Next(s, a)) && Rank(Next(s, a)) < Rank(s)
  {
    var s' := Next(s, a);
    NextGrows(s, a);
    assert CallOk(s, a.id);
    MoverLightens(s, a);
    forall i | 0 <= i < |s.calls|
      ensures |s'.calls| == |s.calls|
        && if i == a.id then Weight(s', i) < Weight(s, i) else Weight(s', i) == Weight(s, i)
    {
      assert CallOk(s, i) && CallOk(s, a.id);
      if i != a.id { OthersWeighTheSame(s, a, i); }
    }
    RankToFalls(s, s', |s.calls|, a.id);
  }

  ghost predicate AllMove(s: State, moves: seq<Action>)
    decreases |moves|
  {
    moves != [] ==>
      Shaped(s) && CallerStep(moves[0]) && Enabled(s, moves[0]) && AllMove(Next(s, moves[0]), moves[1..])
  }

  // Whatever the schedule, the callers of a reachable state make at most six moves each.
  lemma {:induction false} MovesAreBounded(s: State, moves: seq<Action>)
    requires Inv(s) && AllMove(s, moves)
    ensures |moves| <= Rank(s) <= 6 * |s.calls|
    decreases |moves|
  {
    if moves != [] {
      ApplyKeeps(s, moves[0]);
      EveryMoveLowersTheRank(s, moves[0]);
      MovesAreBounded(Next(s, moves[0]), moves[1..]);
    }
  }

  // A schedule that cannot be extended has served everybody.
  lemma StuckOnlyWhenDone(s: State)
    requires Reachable(s)
    ensures (forall a :: CallerStep(a) ==> !Enabled(s, a)) <==> AllReturned(s)
  {
    ReachableInv(s);
    if !AllReturned(s) {
      var a := SomeoneCanMove(s, Answer(Sample(0.0, 0), NoError));
    }
  }

  // From every reachable state, with no new calls, everybody does return.
  lemma {:induction false} EveryoneReturns(s: State, answer: Answer) returns (moves: seq<Action>)
    requires Inv(s) && !answer.err.Canceled?
    ensures AllMove(s, moves) && Inv(ApplyAll(s, moves)) && AllReturned(ApplyAll(s, moves))
    ensures |ApplyAll(s, moves).calls| == |s.calls|
    decreases Rank(s)
  {
    if AllReturned(s) {
      moves := [];
    } else {
      var a := SomeoneCanMove(s, answer);
      ApplyKeeps(s, a);
      EveryMoveLowersTheRank(s, a);
      NextGrows(s, a);
      var rest := EveryoneReturns(Next(s, a), answer);
      moves := [a] + rest;
      assert moves[1..] == rest;
      assert CallOk(s, a.id);
      MoverLightens(s, a);
    }
  }
}
