// How far one decision's failure, or one abandoned request, spreads to decisions whose own requests are live.
module SharedCancellation {
  import opened Wrappers
  import opened Metrics
  import F = Flights
  import T = FlightTheorems
  import J = ForkJoin
  import opened Decisions
  import opened DecisionTheorems

  const FAILED := Answer(Sample(0.0, 0), Failed("refused"))
  const CANCELED := Answer(Sample(0.0, 0), Canceled)

  // The decisions with these configurations, of which r is the only source of trouble: its request was
  // abandoned, or it is the one that failed on an answer of its own.
  ghost predicate OnlySource(q: State, confs: seq<Conf>, r: nat, abandoned: bool) {
    && Confs(q) == confs && q.gone == (if abandoned then {r} else {})
    && forall i :: 0 <= i < |confs| ==> (FailedAlone(q, i) <==> i == r && !abandoned)
  }

  // And v failed with a cancellation.
  ghost predicate Spread(start: int, actions: seq<Action>, confs: seq<Conf>, r: nat, v: nat, abandoned: bool) {
    OnlySource(Run(start, actions), confs, r, abandoned) && KeptCancellation(Run(start, actions), v)
  }

  // Among any decisions, trouble at r alone can take down another decision v if and only if they are
  // linked by a chain of decisions that have queries in common.
  lemma SpreadsIffLinked(start: int, confs: seq<Conf>, r: nat, v: nat, abandoned: bool)
    requires r < |confs| && v < |confs| && r != v
    ensures (exists actions :: Spread(start, actions, confs, r, v, abandoned)) <==> Linked(confs, r, v)
  {
    if hops :| Path(confs, r, hops, v) {
      var short := Shortened(confs, r, hops, v);
      var actions := SpreadAlong(start, confs, r, short, v, abandoned);
    }
    if actions :| Spread(start, actions, confs, r, v, abandoned) {
      SpreadIsLinked(start, actions, confs, r, v, abandoned);
    }
  }

  lemma SpreadIsLinked(start: int, actions: seq<Action>, confs: seq<Conf>, r: nat, v: nat, abandoned: bool)
    requires Spread(start, actions, confs, r, v, abandoned)
    ensures Linked(confs, r, v)
  {
    RunInv(start, actions);
    CancellationHasARoot(Run(start, actions), v);
    var source :| Source(Run(start, actions), source) && Linked(confs, source, v);
    assert source == r;
  }

  // Two decisions and no abandoned request: the second failed with a cancellation.
  ghost predicate TakenDown(start: int, actions: seq<Action>, a: Conf, b: Conf) {
    var q := Run(start, actions);
    && |q.groups| == 2 && q.groups[0].conf == b && q.groups[1].conf == a
    && q.gone == {} && KeptCancellation(q, 1)
  }

  // The direct case, when there is nobody else to pass it on: decision b can take down decision a if and
  // only if one of b's queries has the cache key of one of a's (for NUL-free addresses: same address, same query).
  lemma TakenDownIffQueryShared(start: int, a: Conf, b: Conf)
    ensures (exists actions :: TakenDown(start, actions, a, b)) <==> exists d, e :: ShareQuery(a, d, b, e)
  {
    if d, e :| ShareQuery(a, d, b, e) {
      assert Path([b, a], 0, [Hop(e, 1, d)], 1);
      SpreadsIffLinked(start, [b, a], 0, 1, false);
      var actions :| Spread(start, actions, [b, a], 0, 1, false);
      var q := Run(start, actions);
      assert Confs(q)[0] == b && Confs(q)[1] == a;
      assert TakenDown(start, actions, a, b);
    }
    if actions :| TakenDown(start, actions, a, b) {
      var d, e := TakenDownShares(start, actions, a, b);
    }
  }

  lemma TakenDownShares(start: int, actions: seq<Action>, a: Conf, b: Conf) returns (d: J.Dimension, e: J.Dimension)
    requires TakenDown(start, actions, a, b)
    ensures ShareQuery(a, d, b, e)
  {
    RunInv(start, actions);
    var h;
    h, e := CanceledVerdictIsAnothers(Run(start, actions), 1);
    d := Run(start, actions).groups[1].join.firstErr.value.dim;
    assert h == 0;
  }

  /******* Chains without detours *******/

  // No decision twice, and each passes trouble on over the other query than the one it came by.
  predicate Straight(r: nat, hops: seq<Hop>) {
    && (forall i, j :: 0 <= i < j <= |hops| ==> Vertex(r, hops, i) != Vertex(r, hops, j))
    && (forall k :: 0 < k < |hops| ==> hops[k].out != hops[k - 1].into)
  }

  lemma {:induction false} Shortened(confs: seq<Conf>, r: nat, hops: seq<Hop>, v: nat) returns (short: seq<Hop>)
    requires Path(confs, r, hops, v)
    ensures Path(confs, r, short, v) && Straight(r, short)
    decreases |hops|
  {
    if i: nat, j: nat :| i < j <= |hops| && Vertex(r, hops, i) == Vertex(r, hops, j) {
      CutLoop(confs, r, hops, v, i, j);
      short := Shortened(confs, r, hops[..i] + hops[j..], v);
    } else if k: nat :| 0 < k < |hops| && hops[k].out == hops[k - 1].into {
      var joined := Hop(hops[k - 1].out, hops[k].to, hops[k].into);
      JoinHops(confs, r, hops, v, k);
      short := Shortened(confs, r, hops[..k - 1] + [joined] + hops[k + 1..], v);
    } else {
      short := hops;
    }
  }

  lemma CutLoop(confs: seq<Conf>, r: nat, hops: seq<Hop>, v: nat, i: nat, j: nat)
    requires Path(confs, r, hops, v) && i < j <= |hops| && Vertex(r, hops, i) == Vertex(r, hops, j)
    ensures Path(confs, r, hops[..i] + hops[j..], v)
  {
    var cut := hops[..i] + hops[j..];
    forall k | 0 <= k < |cut| ensures HopOk(confs, r, cut, k) {
      assert HopOk(confs, r, hops, if k < i then k else k + (j - i));
    }
  }

  lemma JoinHops(confs: seq<Conf>, r: nat, hops: seq<Hop>, v: nat, k: nat)
    requires Path(confs, r, hops, v) && 0 < k < |hops| && hops[k].out == hops[k - 1].into
    ensures Path(confs, r, hops[..k - 1] + [Hop(hops[k - 1].out, hops[k].to, hops[k].into)] + hops[k + 1..], v)
  {
    var joined := hops[..k - 1] + [Hop(hops[k - 1].out, hops[k].to, hops[k].into)] + hops[k + 1..];
    forall l | 0 <= l < |joined| ensures HopOk(confs, r, joined, l) {
      if l < k - 1 {
        assert HopOk(confs, r, hops, l) && joined[l] == hops[l] && Vertex(r, joined, l) == Vertex(r, hops, l);
      } else if l == k - 1 {
        assert HopOk(confs, r, hops, k - 1) && HopOk(confs, r, hops, k) && Vertex(r, joined, l) == Vertex(r, hops, l);
      } else {
        assert HopOk(confs, r, hops, l + 1) && joined[l] == hops[l + 1];
        assert Vertex(r, joined, l) == Vertex(r, hops, l + 1);
      }
    }
  }

  /******* One shared flight *******/

  lemma {:induction false} RunInner(start: int, before: seq<Action>, inner: seq<F.Action>)
    returns (actions: seq<Action>)
    requires forall k :: 0 <= k < |inner| ==> Inner(inner[k])
    ensures Run(start, actions) == Run(start, before).(sys := F.ApplyAll(Run(start, before).sys, inner))
    decreases |inner|
  {
    if inner == [] {
      actions := before;
    } else {
      RunSnoc(start, before, Sys(inner[0]));
      actions := RunInner(start, before + [Sys(inner[0])], inner[1..]);
    }
  }

  lemma {:induction false} ApplyAllAppend(s: F.State, one: seq<F.Action>, two: seq<F.Action>)
    ensures F.ApplyAll(s, one + two) == F.ApplyAll(F.ApplyAll(s, one), two)
    decreases |one|
  {
    if one == [] {
      assert one + two == two;
    } else {
      assert (one + two)[0] == one[0] && (one + two)[1..] == one[1..] + two;
      ApplyAllAppend(F.Apply(s, one[0]), one[1..], two);
    }
  }

  // Nothing cached and nobody in the air.
  predicate Idle(s: F.State) {
    F.Shaped(s) && s.cache == map[] && s.table == map[]
  }

  // The same calls, clock and contexts, and these callers' phases alone have moved.
  predicate OnlyMoved(s: F.State, s': F.State, x: nat, y: nat) {
    && s'.calls == s.calls && s'.now == s.now && s'.cancelled == s.cancelled && |s'.phases| == |s.phases|
    && forall i :: 0 <= i < |s.phases| && i != x && i != y ==> s'.phases[i] == s.phases[i]
  }

  lemma OneMisses(s: F.State, x: nat)
    requires F.Shaped(s) && x < |s.calls| && s.cache == map[] && s.phases[x].Begun?
    ensures var s' := F.Apply(s, F.LookUp(x)); s' == s.(phases := s.phases[x := F.Missed(s.now)]) && F.Shaped(s')
  {
  }

  lemma TwoMiss(s: F.State, x: nat, y: nat)
    requires F.Shaped(s) && x < |s.calls| && y < |s.calls| && x != y
    requires s.cache == map[] && s.phases[x].Begun? && s.phases[y].Begun?
    ensures F.ApplyAll(s, [F.LookUp(x), F.LookUp(y)])
         == s.(phases := s.phases[x := F.Missed(s.now)][y := F.Missed(s.now)])
  {
    OneMisses(s, x);
    var s1 := s.(phases := s.phases[x := F.Missed(s.now)]);
    OneMisses(s1, y);
    TwoSteps(s, F.LookUp(x), F.LookUp(y));
  }

  lemma TwoSteps(s: F.State, a: F.Action, b: F.Action)
    ensures F.ApplyAll(s, [a, b]) == F.Apply(F.Apply(s, a), b)
  {
    assert [a, b][1..] == [b] && [b][1..] == [];
    assert F.ApplyAll(s, [a, b]) == F.ApplyAll(F.Apply(s, a), [b]);
  }

  lemma LeadAndFollow(s: F.State, x: nat, y: nat)
    requires F.Shaped(s) && x < |s.calls| && y < |s.calls| && x != y && s.phases[x].Missed? && s.phases[y].Missed?
    requires F.CallKey(s, x) == F.CallKey(s, y) && F.CallKey(s, x) !in s.table
    ensures F.ApplyAll(s, [F.EnterDo(x), F.EnterDo(y)])
         == s.(phases := s.phases[x := F.Leading(|s.flights|)][y := F.Following(|s.flights|, s.now)],
               flights := s.flights + [F.Flight(x, s.phases[x].missedAt, s.now, F.Asking)],
               table := s.table[F.CallKey(s, x) := |s.flights|])
  {
    var s1 := F.Apply(s, F.EnterDo(x));
    F.NextGrows(s, F.EnterDo(x));
    TwoSteps(s, F.EnterDo(x), F.EnterDo(y));
  }

  // x leads flight f, which is at this stage, under a cancelled context.
  predicate Doomed(s: F.State, x: nat, f: nat, stage: F.Stage) {
    && F.Shaped(s) && x < |s.calls| && s.phases[x] == F.Leading(f) && f < |s.flights|
    && s.flights[f].stage == stage && s.flights[f].leader == x && s.calls[x].ctx in s.cancelled
  }

  lemma HearsCancellation(s: F.State, x: nat, f: nat)
    requires Doomed(s, x, f, F.Asking)
    ensures var s' := F.Apply(s, F.Reply(x, CANCELED)); var stage := F.Answered(CANCELED, s.now);
      s' == F.WithStage(s, f, stage) && Doomed(s', x, f, stage)
  {
    F.ReplyGrows(s, x, CANCELED);
  }

  lemma StoresNothing(s: F.State, x: nat, f: nat)
    requires Doomed(s, x, f, F.Answered(CANCELED, s.now))
    ensures var s' := F.Apply(s, F.Settle(x)); var stage := F.Stored(CANCELED, s.now, s.now);
      s' == F.WithStage(s, f, stage) && Doomed(s', x, f, stage)
  {
    F.SettleGrows(s, x);
  }

  lemma LandsCancelled(s: F.State, x: nat, f: nat)
    requires Doomed(s, x, f, F.Stored(CANCELED, s.now, s.now))
    ensures var s' := F.Apply(s, F.Land(x));
      && F.Shaped(s') && OnlyMoved(s, s', x, x) && s'.cache == s.cache && s'.table == s.table - {F.CallKey(s, x)}
      && f < |s'.flights| && s'.flights[f].stage == F.Landed(CANCELED, s.now, s.now, s.now)
  {
    F.LandGrows(s, x);
  }

  // The leader of flight f sees its context cancelled and lands the flight.
  lemma LeaderGivesUp(s: F.State, x: nat, f: nat)
    requires Doomed(s, x, f, F.Asking)
    ensures var s' := F.ApplyAll(s, [F.Reply(x, CANCELED), F.Settle(x), F.Land(x)]);
      && F.Shaped(s') && OnlyMoved(s, s', x, x) && s'.cache == s.cache && s'.table == s.table - {F.CallKey(s, x)}
      && f < |s'.flights| && s'.flights[f].stage == F.Landed(CANCELED, s.now, s.now, s.now)
  {
    T.ThreeSteps(s, F.Reply(x, CANCELED), F.Settle(x), F.Land(x));
    HearsCancellation(s, x, f);
    var s1 := F.Apply(s, F.Reply(x, CANCELED));
    StoresNothing(s1, x, f);
    LandsCancelled(F.Apply(s1, F.Settle(x)), x, f);
  }

  lemma FollowerIsTold(s: F.State, y: nat, f: nat)
    requires F.Shaped(s) && y < |s.calls| && s.phases[y].Following? && s.phases[y].flight == f
    requires s.flights[f].stage.Landed? && s.flights[f].stage.answer == CANCELED
    ensures var s' := F.ApplyAll(s, [F.Wake(y)]);
      && F.Shaped(s') && OnlyMoved(s, s', y, y) && s'.cache == s.cache && s'.table == s.table
      && T.Finished(s', y) && s'.phases[y].answer == CANCELED
  {
    assert F.Enabled(s, F.Wake(y));
    assert [F.Wake(y)][1..] == [];
    assert F.ApplyAll(s, [F.Wake(y)]) == F.Apply(s, F.Wake(y));
  }

  // x, under a cancelled context, leads a flight that y follows, and gives up.
  function SharedFlight(x: nat, y: nat): seq<F.Action> {
    [F.LookUp(x), F.LookUp(y)] + [F.EnterDo(x), F.EnterDo(y)] + [F.Reply(x, CANCELED), F.Settle(x), F.Land(x)]
    + [F.Wake(y)]
  }

  // What x's leading and y's following make of an idle system.
  function Following(s: F.State, x: nat, y: nat): F.State
    requires Idle(s) && x < |s.calls| && y < |s.calls|
  {
    s.(phases := s.phases[x := F.Leading(|s.flights|)][y := F.Following(|s.flights|, s.now)],
       flights := s.flights + [F.Flight(x, s.now, s.now, F.Asking)],
       table := map[F.CallKey(s, x) := |s.flights|])
  }

  lemma BothJoin(s: F.State, x: nat, y: nat)
    requires Idle(s) && x < |s.calls| && y < |s.calls| && x != y && s.phases[x].Begun? && s.phases[y].Begun?
    requires F.CallKey(s, x) == F.CallKey(s, y)
    ensures F.ApplyAll(s, [F.LookUp(x), F.LookUp(y)] + [F.EnterDo(x), F.EnterDo(y)]) == Following(s, x, y)
    ensures F.Shaped(Following(s, x, y))
  {
    var missed := s.(phases := s.phases[x := F.Missed(s.now)][y := F.Missed(s.now)]);
    TwoMiss(s, x, y);
    LeadAndFollow(missed, x, y);
    ApplyAllAppend(s, [F.LookUp(x), F.LookUp(y)], [F.EnterDo(x), F.EnterDo(y)]);
    assert Following(s, x, y).phases
        == missed.phases[x := F.Leading(|s.flights|)][y := F.Following(|s.flights|, s.now)];
  }

  lemma CancellationIsShared(s: F.State, x: nat, y: nat)
    requires Idle(s) && x < |s.calls| && y < |s.calls| && x != y && s.phases[x].Begun? && s.phases[y].Begun?
    requires F.CallKey(s, x) == F.CallKey(s, y) && s.calls[x].ctx in s.cancelled
    ensures var s' := F.ApplyAll(s, SharedFlight(x, y));
      Idle(s') && OnlyMoved(s, s', x, y) && T.Finished(s', y) && s'.phases[y].answer == CANCELED
  {
    var join := [F.LookUp(x), F.LookUp(y)] + [F.EnterDo(x), F.EnterDo(y)];
    var land := [F.Reply(x, CANCELED), F.Settle(x), F.Land(x)];
    var f, s1 := |s.flights|, Following(s, x, y);
    BothJoin(s, x, y);
    LeaderGivesUp(s1, x, f);
    var s2 := F.ApplyAll(s1, land);
    assert s2.table == map[];
    FollowerIsTold(s2, y, f);
    ApplyAllAppend(s, join, land);
    ApplyAllAppend(s, join + land, [F.Wake(y)]);
  }

  // z asks and is refused.
  function RefusedFetch(z: nat): seq<F.Action> {
    [F.LookUp(z)] + (T.AskSteps(z, FAILED, 0) + T.StoreSteps(z, 0))
  }

  lemma FetchIsRefused(s: F.State, z: nat)
    requires Idle(s) && z < |s.calls| && s.phases[z].Begun?
    ensures var s' := F.ApplyAll(s, RefusedFetch(z));
      Idle(s') && OnlyMoved(s, s', z, z) && T.Finished(s', z) && s'.phases[z].answer == FAILED
  {
    OneMisses(s, z);
    var s1 := s.(phases := s.phases[z := F.Missed(s.now)]);
    assert F.ApplyAll(s, [F.LookUp(z)]) == s1 by { assert [F.LookUp(z)][1..] == []; }
    FetchLeavesNothing(s1, z);
    ApplyAllAppend(s, [F.LookUp(z)], T.AskSteps(z, FAILED, 0) + T.StoreSteps(z, 0));
  }

  lemma WholeFetch(s: F.State, z: nat, answer: Answer, wait: nat, delay: nat)
    requires F.Shaped(s) && z < |s.calls| && s.phases[z].Missed? && F.CallKey(s, z) !in s.table
    requires !answer.err.Canceled?
    ensures F.ApplyAll(s, T.AskSteps(z, answer, wait) + T.StoreSteps(z, delay)) == T.Fetched(s, z, answer, wait, delay)
  {
    ApplyAllAppend(s, T.AskSteps(z, answer, wait), T.StoreSteps(z, delay));
    T.FetchAsks(s, z, answer, wait);
    T.FetchFinishes(s, z, answer, wait, delay);
  }

  lemma FetchLeavesNothing(s: F.State, z: nat)
    requires Idle(s) && z < |s.calls| && s.phases[z].Missed?
    ensures var s' := F.ApplyAll(s, T.AskSteps(z, FAILED, 0) + T.StoreSteps(z, 0));
      Idle(s') && OnlyMoved(s, s', z, z) && T.Finished(s', z) && s'.phases[z].answer == FAILED
  {
    WholeFetch(s, z, FAILED, 0, 0);
    RefusedShape(s, z);
  }

  lemma RefusedShape(s: F.State, z: nat)
    requires Idle(s) && z < |s.calls| && s.phases[z].Missed?
    ensures var s' := T.Fetched(s, z, FAILED, 0, 0);
      Idle(s') && OnlyMoved(s, s', z, z) && T.Finished(s', z) && s'.phases[z].answer == FAILED
  {
  }

  // A goroutine takes an error and reports it first.
  lemma FailsFirst(q: State, g: nat, dim: J.Dimension)
    requires g < |q.groups| && T.Finished(q.sys, CallOf(g, dim)) && q.groups[g].join == J.Init()
    requires var err := q.sys.phases[CallOf(g, dim)].answer.err; err.Canceled? || err.Failed?
    ensures var q' := Apply(Apply(q, Collect(g, dim)), Report(g, dim));
      && q'.sys == q.sys && q'.gone == q.gone && |q'.groups| == |q.groups|
      && (forall h :: 0 <= h < |q.groups| && h != g ==> q'.groups[h] == q.groups[h])
      && q'.groups[g].conf == q.groups[g].conf
      && q'.groups[g].join.firstErr == Some(J.FromQuery(dim, q.sys.phases[CallOf(g, dim)].answer.err))
  {
  }

  function Other(e: J.Dimension): J.Dimension {
    if e.Queue? then J.KV else J.Queue
  }

  /******* Decision after decision *******/

  // Decision i has started and done nothing.
  predicate Untouched(q: State, i: nat)
    requires F.Shaped(q.sys)
  {
    && i < |q.groups| && q.groups[i].join == J.Init() && 2 * i + 1 < |q.sys.phases|
    && q.sys.phases[2 * i].Begun? && q.sys.phases[2 * i + 1].Begun?
  }

  ghost predicate AllUntouched(q: State, confs: seq<Conf>) {
    Idle(q.sys) && Confs(q) == confs && q.gone == {} && forall i :: 0 <= i < |confs| ==> Untouched(q, i)
  }

  lemma {:induction false} AllStart(start: int, confs: seq<Conf>) returns (actions: seq<Action>)
    ensures AllUntouched(Run(start, actions), confs)
  {
    if confs == [] {
      actions := [];
    } else {
      var before, c := confs[..|confs| - 1], confs[|confs| - 1];
      actions := AllStart(start, before);
      var q := Run(start, actions);
      RunInv(start, actions);
      RunSnoc(start, actions, Start(c));
      actions := actions + [Start(c)];
      TwoBegins(q, c);
      var q' := Run(start, actions);
      assert Confs(q') == Confs(q) + [c] == confs;
      forall i | 0 <= i < |confs| ensures Untouched(q', i) {
        if i < |before| { assert Untouched(q, i); }
      }
    }
  }

  // The trouble has come as far as decision d, whose query `out` is still to be asked; `hit` are the decisions it
  // has reached.
  ghost predicate Front(q: State, confs: seq<Conf>, r: nat, abandoned: bool, hit: set<nat>, d: nat, out: J.Dimension) {
    && OnlySource(q, confs, r, abandoned) && Idle(q.sys) && |q.sys.calls| == 2 * |confs|
    && d in hit && d < |confs| && d in q.sys.cancelled && q.sys.phases[CallOf(d, out)].Begun?
    && r in hit && (forall i :: i in hit && i != r ==> KeptCancellation(q, i))
    && forall i :: 0 <= i < |confs| && i !in hit ==> Untouched(q, i)
  }

  // The source: its request is abandoned, or its other query is refused and it cancels its context.
  lemma Erupts(start: int, confs: seq<Conf>, r: nat, abandoned: bool, out: J.Dimension) returns (actions: seq<Action>)
    requires r < |confs|
    ensures Front(Run(start, actions), confs, r, abandoned, {r}, r, out)
  {
    actions := AllStart(start, confs);
    var q := Run(start, actions);
    RunInv(start, actions);
    assert Untouched(q, r);
    if abandoned {
      RunSnoc(start, actions, Abandon(r));
      actions := actions + [Abandon(r)];
      AbandonErupts(q, confs, r, out);
    } else {
      FetchIsRefused(q.sys, CallOf(r, Other(out)));
      actions := RunInner(start, actions, RefusedFetch(CallOf(r, Other(out))));
      actions := FailAndCancel(start, actions, r, Other(out));
      RefusalErupts(q, Run(start, actions), confs, r, out);
    }
  }

  lemma AbandonErupts(q: State, confs: seq<Conf>, r: nat, out: J.Dimension)
    requires AllUntouched(q, confs) && Inv(q) && r < |confs|
    ensures Front(Apply(q, Abandon(r)), confs, r, true, {r}, r, out)
  {
    var q' := Apply(q, Abandon(r));
    assert Confs(q') == Confs(q);
    forall i | 0 <= i < |confs| ensures Untouched(q', i) && !FailedAlone(q', i) { assert Untouched(q, i); }
    assert Untouched(q', r);
  }

  // Decision g, whose query has returned an error, reports it and cancels its context.
  lemma FailAndCancel(start: int, before: seq<Action>, g: nat, dim: J.Dimension) returns (actions: seq<Action>)
    requires var q := Run(start, before);
      g < |q.groups| && q.groups[g].join == J.Init() && T.Finished(q.sys, CallOf(g, dim))
    requires var err := Run(start, before).sys.phases[CallOf(g, dim)].answer.err; err.Canceled? || err.Failed?
    ensures Failing(Run(start, before), Run(start, actions), g, dim)
  {
    var q := Run(start, before);
    FailsFirst(q, g, dim);
    RunSnoc(start, before, Collect(g, dim)); actions := before + [Collect(g, dim)];
    RunSnoc(start, actions, Report(g, dim)); actions := actions + [Report(g, dim)];
    RunSnoc(start, actions, CancelGroup(g)); actions := actions + [CancelGroup(g)];
  }

  // What that changes.
  ghost predicate Failing(q: State, q': State, g: nat, dim: J.Dimension) {
    && T.Finished(q.sys, CallOf(g, dim))
    && q'.sys == F.Apply(q.sys, F.Cancel(g)) && q'.gone == q.gone && |q'.groups| == |q.groups| && g < |q.groups|
    && (forall h :: 0 <= h < |q.groups| && h != g ==> q'.groups[h] == q.groups[h])
    && q'.groups[g].conf == q.groups[g].conf
    && q'.groups[g].join.firstErr == Some(J.FromQuery(dim, q.sys.phases[CallOf(g, dim)].answer.err))
  }

  lemma RefusalErupts(q: State, q': State, confs: seq<Conf>, r: nat, out: J.Dimension)
    requires AllUntouched(q, confs) && Inv(q) && r < |confs|
    requires var s := F.ApplyAll(q.sys, RefusedFetch(CallOf(r, Other(out))));
      && Failing(q.(sys := s), q', r, Other(out)) && s.phases[CallOf(r, Other(out))].answer == FAILED
      && Idle(s) && OnlyMoved(q.sys, s, CallOf(r, Other(out)), CallOf(r, Other(out)))
    ensures Front(q', confs, r, false, {r}, r, out)
  {
    assert Confs(q') == Confs(q);
    assert Untouched(q, r);
    forall i | 0 <= i < |confs| && i != r ensures Untouched(q', i) && !FailedAlone(q', i) { assert Untouched(q, i); }
  }

  // d's query leads, the next decision's follows, and both return the cancellation.
  lemma NextIsHit(start: int, before: seq<Action>, confs: seq<Conf>, r: nat, abandoned: bool, hit: set<nat>,
                  d: nat, hop: Hop) returns (actions: seq<Action>)
    requires Front(Run(start, before), confs, r, abandoned, hit, d, hop.out)
    requires hop.to < |confs| && hop.to !in hit && ShareQuery(confs[d], hop.out, confs[hop.to], hop.into)
    ensures Front(Run(start, actions), confs, r, abandoned, hit + {hop.to}, hop.to, Other(hop.into))
  {
    var q, x, y := Run(start, before), CallOf(d, hop.out), CallOf(hop.to, hop.into);
    RunInv(start, before);
    assert Untouched(q, hop.to) && CallFits(q, d, hop.out) && CallFits(q, hop.to, hop.into);
    assert F.KeyOk(q.sys.calls[x]) && F.KeyOk(q.sys.calls[y]);
    assert Confs(q)[d] == confs[d] && Confs(q)[hop.to] == confs[hop.to];
    CancellationIsShared(q.sys, x, y);
    actions := RunInner(start, before, SharedFlight(x, y));
    actions := FailAndCancel(start, actions, hop.to, hop.into);
    FrontMoves(q, Run(start, actions), confs, r, abandoned, hit, d, hop);
  }

  lemma SourceStays(q: State, q': State, confs: seq<Conf>, r: nat, abandoned: bool, g: nat)
    requires OnlySource(q, confs, r, abandoned) && q'.gone == q.gone && |q'.groups| == |q.groups| && g != r
    requires forall h :: 0 <= h < |q.groups| && h != g ==> q'.groups[h] == q.groups[h]
    requires g < |confs| && q'.groups[g].conf == q.groups[g].conf && KeptCancellation(q', g)
    ensures OnlySource(q', confs, r, abandoned)
  {
    assert Confs(q') == Confs(q);
    forall i | 0 <= i < |confs| ensures FailedAlone(q', i) <==> i == r && !abandoned {
      if i != g { assert FailedAlone(q', i) <==> FailedAlone(q, i); }
    }
  }

  lemma UntouchedStays(q: State, q': State, s: F.State, d: nat, hop: Hop, i: nat)
    requires Idle(q.sys) && F.Shaped(s) && Untouched(q, i) && i != d && i != hop.to
    requires OnlyMoved(q.sys, s, CallOf(d, hop.out), CallOf(hop.to, hop.into))
    requires Failing(q.(sys := s), q', hop.to, hop.into)
    ensures F.Shaped(q'.sys) && Untouched(q', i)
  {
  }

  lemma FrontMoves(q: State, q': State, confs: seq<Conf>, r: nat, abandoned: bool, hit: set<nat>, d: nat, hop: Hop)
    requires Front(q, confs, r, abandoned, hit, d, hop.out) && hop.to < |confs| && hop.to !in hit
    requires var x, y := CallOf(d, hop.out), CallOf(hop.to, hop.into); var s := F.ApplyAll(q.sys, SharedFlight(x, y));
      && Failing(q.(sys := s), q', hop.to, hop.into) && Idle(s) && OnlyMoved(q.sys, s, x, y)
      && s.phases[y].answer == CANCELED
    ensures Front(q', confs, r, abandoned, hit + {hop.to}, hop.to, Other(hop.into))
  {
    assert Untouched(q, hop.to);
    SourceStays(q, q', confs, r, abandoned, hop.to);
    forall i | 0 <= i < |confs| && i !in hit && i != hop.to ensures Untouched(q', i) {
      UntouchedStays(q, q', F.ApplyAll(q.sys, SharedFlight(CallOf(d, hop.out), CallOf(hop.to, hop.into))), d, hop, i);
    }
  }

  // The query by which the k-th decision passes trouble on: the next hop's, or at the end the one it did not
  // come by.
  function OutOf(hops: seq<Hop>, k: nat): J.Dimension
    requires 0 < |hops| && k <= |hops|
  {
    if k < |hops| then hops[k].out else Other(hops[k - 1].into)
  }

  ghost function Visited(r: nat, hops: seq<Hop>, k: nat): set<nat>
    requires k <= |hops|
  {
    set j: nat | j <= k :: Vertex(r, hops, j)
  }

  lemma {:induction false} FrontAlong(start: int, confs: seq<Conf>, r: nat, hops: seq<Hop>, v: nat, k: nat,
                                      abandoned: bool) returns (actions: seq<Action>)
    requires Path(confs, r, hops, v) && Straight(r, hops) && 0 < |hops| && k <= |hops|
    ensures Vertex(r, hops, k) < |confs|
    ensures Front(Run(start, actions), confs, r, abandoned, Visited(r, hops, k), Vertex(r, hops, k), OutOf(hops, k))
  {
    if k == 0 {
      actions := Erupts(start, confs, r, abandoned, hops[0].out);
      assert Visited(r, hops, 0) == {r} by { assert Vertex(r, hops, 0) in Visited(r, hops, 0); }
    } else {
      actions := FrontAlong(start, confs, r, hops, v, k - 1, abandoned);
      assert HopOk(confs, r, hops, k - 1);
      VisitedGrows(r, hops, k);
      actions := NextIsHit(start, actions, confs, r, abandoned,
                           Visited(r, hops, k - 1), Vertex(r, hops, k - 1), hops[k - 1]);
    }
  }

  lemma VisitedGrows(r: nat, hops: seq<Hop>, k: nat)
    requires Straight(r, hops) && 0 < k <= |hops|
    ensures hops[k - 1].to !in Visited(r, hops, k - 1)
    ensures Visited(r, hops, k) == Visited(r, hops, k - 1) + {hops[k - 1].to}
  {
    assert Vertex(r, hops, k) == hops[k - 1].to;
  }

  lemma SpreadAlong(start: int, confs: seq<Conf>, r: nat, hops: seq<Hop>, v: nat, abandoned: bool)
    returns (actions: seq<Action>)
    requires Path(confs, r, hops, v) && Straight(r, hops) && r != v
    ensures Spread(start, actions, confs, r, v, abandoned)
  {
    actions := FrontAlong(start, confs, r, hops, v, |hops|, abandoned);
  }
}
