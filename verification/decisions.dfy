// scaler.saturationFor over CachingSource, end to end: any number of decisions at once, each with its own
// errgroup context and two Get calls on the shared cache, interleaved at every step of either.
module Decisions {
  import opened Metrics
  import F = Flights
  import T = FlightTheorems
  import J = ForkJoin

  datatype Conf = Conf(addr: string, queueQuery: string, kvQuery: string, ttl: int, t: J.Thresholds)

  // `join` is the decision's goroutine group; `log` remembers the steps it took.
  datatype Group = Group(conf: Conf, join: J.State, log: seq<J.Action>)

  // Decision g runs under context g and makes calls 2g (queue) and 2g + 1 (KV). `gone` are the decisions whose
  // own request was cancelled.
  datatype State = State(sys: F.State, groups: seq<Group>, gone: set<nat>)

  // Collect: a goroutine takes the answer its Get returned. CancelGroup: a group cancels its context, after
  // its first error. WaitReturns: it cancels it anyway once both goroutines are gone. Abandon: the request behind a
  // decision is cancelled.
  datatype Action =
    | Sys(a: F.Action)
    | Start(conf: Conf)
    | Collect(g: nat, dim: J.Dimension)
    | Report(g: nat, dim: J.Dimension)
    | CancelGroup(g: nat)
    | WaitReturns(g: nat)
    | Abandon(g: nat)

  function QueryOf(c: Conf, dim: J.Dimension): string {
    if dim.Queue? then c.queueQuery else c.kvQuery
  }

  function KeyOf(c: Conf, dim: J.Dimension): string {
    CacheKey(c.addr, QueryOf(c, dim))
  }

  function CallOf(g: nat, dim: J.Dimension): nat {
    if dim.Queue? then 2 * g else 2 * g + 1
  }

  // Calls begin with their decision and contexts are cancelled by it; every other step is the cache's own.
  predicate Inner(a: F.Action) {
    !a.Begin? && !a.Cancel?
  }

  function AnswerSoFar(s: F.State, id: nat): Answer {
    if T.Finished(s, id) then s.phases[id].answer else Answer(Sample(0.0, 0), NoError)
  }

  function ScriptOf(s: F.State, g: nat): J.Script {
    J.Script(AnswerSoFar(s, CallOf(g, J.Queue)), AnswerSoFar(s, CallOf(g, J.KV)))
  }

  function Joining(q: State, g: nat, a: J.Action): Group
    requires g < |q.groups|
  {
    var d := q.groups[g];
    d.(join := J.Apply(ScriptOf(q.sys, g), d.conf.t.treatMissingAsError, d.join, a), log := d.log + [a])
  }

  function BeginFor(q: State, conf: Conf, dim: J.Dimension): F.Action {
    F.Begin(conf.addr, QueryOf(conf, dim), conf.ttl, |q.groups|)
  }

  predicate Enabled(q: State, a: Action) {
    match a
    case Sys(b) => Inner(b)
    case Start(_) => true
    case Collect(g, dim) => g < |q.groups| && T.Finished(q.sys, CallOf(g, dim))
    case Report(g, _) => g < |q.groups|
    case CancelGroup(g) => g < |q.groups| && q.groups[g].join.firstErr.Some?
    case WaitReturns(g) => g < |q.groups| && J.Joined(q.groups[g].join)
    case Abandon(g) => g < |q.groups|
  }

  // A cancellation seen after the group itself was cancelled is put down to the group, any other to the query.
  function Collected(q: State, g: nat, dim: J.Dimension): J.Action
    requires Enabled(q, Collect(g, dim))
  {
    if q.sys.phases[CallOf(g, dim)].answer.err.Canceled? && q.groups[g].join.cancelled then J.Abort(dim)
    else J.Deliver(dim, q.sys.now)
  }

  function Apply(q: State, a: Action): State {
    if !Enabled(q, a) then q
    else
      match a
      case Sys(b) => q.(sys := F.Apply(q.sys, b))
      case Start(conf) =>
        q.(sys := F.Apply(F.Apply(q.sys, BeginFor(q, conf, J.Queue)), BeginFor(q, conf, J.KV)),
           groups := q.groups + [Group(conf, J.Init(), [])])
      case Collect(g, dim) => q.(groups := q.groups[g := Joining(q, g, Collected(q, g, dim))])
      case Report(g, dim) => q.(groups := q.groups[g := Joining(q, g, J.Report(dim))])
      case CancelGroup(g) =>
        q.(sys := F.Apply(q.sys, F.Cancel(g)), groups := q.groups[g := Joining(q, g, J.CancelGroup)])
      case WaitReturns(g) => q.(sys := F.Apply(q.sys, F.Cancel(g)))
      case Abandon(g) => q.(sys := F.Apply(q.sys, F.Cancel(g)), gone := q.gone + {g})
  }

  function Run(start: int, actions: seq<Action>): State {
    if actions == [] then State(F.Init(start), [], {})
    else Apply(Run(start, actions[..|actions| - 1]), actions[|actions| - 1])
  }

  lemma RunSnoc(start: int, actions: seq<Action>, a: Action)
    ensures Run(start, actions + [a]) == Apply(Run(start, actions), a)
  {
    assert (actions + [a])[..|actions|] == actions;
  }

  /******* Every decision is a run of its own goroutine group *******/

  ghost predicate CallFits(q: State, g: nat, dim: J.Dimension)
    requires g < |q.groups|
  {
    var id, conf := CallOf(g, dim), q.groups[g].conf;
    && id < |q.sys.calls|
    && q.sys.calls[id].addr == conf.addr && q.sys.calls[id].query == QueryOf(conf, dim)
    && q.sys.calls[id].ttl == conf.ttl && q.sys.calls[id].ctx == g
  }

  // The group is exactly a ForkJoin run on the answers its calls returned, and took no answer that had
  // not come yet.
  ghost predicate GroupOk(q: State, g: nat)
    requires g < |q.groups|
  {
    var d := q.groups[g];
    && d.join == J.Run(ScriptOf(q.sys, g), d.conf.t.treatMissingAsError, d.log)
    && (forall dim, at :: J.DeliveredAt(d.log, dim, at) ==> DeliveryOk(q.sys, g, dim, at))
    && (forall dim :: Aborted(d.log, dim) ==> T.Finished(q.sys, CallOf(g, dim)))
  }

  predicate Aborted(log: seq<J.Action>, dim: J.Dimension) {
    J.Abort(dim) in log
  }

  ghost predicate DeliveryOk(s: F.State, g: nat, dim: J.Dimension, at: int) {
    T.Finished(s, CallOf(g, dim)) && s.phases[CallOf(g, dim)].returnedAt <= at <= s.now
  }

  // Why a decision's context may be cancelled.
  ghost predicate ContextOk(q: State, c: nat) {
    c < |q.groups| && (FailedOrGone(q, c) || J.Joined(q.groups[c].join))
  }

  predicate FailedOrGone(q: State, c: nat) {
    c < |q.groups| && (c in q.gone || q.groups[c].join.firstErr.Some?)
  }

  // A flight that ended in a cancellation was led by a decision that had failed or been abandoned: one
  // that is merely done leads nothing any more.
  ghost predicate FlightCause(q: State, f: nat)
    requires F.Shaped(q.sys) && f < |q.sys.flights|
  {
    var st := q.sys.flights[f].stage;
    !st.Asking? && st.answer.err.Canceled? ==> FailedOrGone(q, F.LeaderCall(q.sys, f).ctx)
  }

  ghost predicate Inv(q: State) {
    && F.Reachable(q.sys) && F.Inv(q.sys)
    && |q.sys.calls| == 2 * |q.groups|
    && (forall g, dim :: 0 <= g < |q.groups| ==> CallFits(q, g, dim))
    && (forall g :: 0 <= g < |q.groups| ==> GroupOk(q, g))
    && (forall c :: c in q.sys.cancelled ==> ContextOk(q, c))
    && (forall f :: 0 <= f < |q.sys.flights| ==> FlightCause(q, f))
  }

  lemma ReachableStep(s: F.State, a: F.Action)
    requires F.Reachable(s)
    ensures F.Reachable(F.Apply(s, a)) && F.Inv(F.Apply(s, a))
  {
    var start: int, actions: seq<F.Action> :| s == F.Run(start, actions);
    F.RunSnoc(start, actions, a);
    F.RunInv(start, actions + [a]);
  }

  // A step of the cache: calls and their arguments stay, and a returned call keeps its answer.
  ghost predicate SysGrows(s: F.State, s': F.State) {
    && F.Shaped(s) && F.Shaped(s')
    && s.now <= s'.now && |s.calls| <= |s'.calls|
    && (forall i :: 0 <= i < |s.calls| ==> s'.calls[i] == s.calls[i])
    && (forall i :: 0 <= i < |s.calls| ==> PhaseStays(s, s', i))
    && s.cancelled <= s'.cancelled && |s.flights| <= |s'.flights|
    && (forall f :: 0 <= f < |s.flights| ==> FlightStays(s.flights[f], s'.flights[f]))
  }

  ghost predicate FlightStays(a: F.Flight, b: F.Flight) {
    b.leader == a.leader && (!a.stage.Asking? ==> !b.stage.Asking? && b.stage.answer == a.stage.answer)
  }

  ghost predicate PhaseStays(s: F.State, s': F.State, i: nat)
    requires i < |s.phases| && i < |s'.phases|
  {
    s.phases[i].Returned? ==> s'.phases[i] == s.phases[i]
  }

  lemma InnerStep(s: F.State, a: F.Action)
    requires F.Shaped(s) && F.Enabled(s, a) && Inner(a)
    ensures F.Next(s, a).cancelled == s.cancelled && |F.Next(s, a).calls| == |s.calls|
  {
  }

  lemma SysStepGrows(s: F.State, a: F.Action)
    requires F.Shaped(s)
    ensures SysGrows(s, F.Apply(s, a))
    ensures Inner(a) ==> F.Apply(s, a).cancelled == s.cancelled && |F.Apply(s, a).calls| == |s.calls|
  {
    if F.Enabled(s, a) {
      var s' := F.Next(s, a);
      F.NextGrows(s, a);
      if Inner(a) { InnerStep(s, a); }
      forall f | 0 <= f < |s.flights| ensures FlightStays(s.flights[f], s'.flights[f]) {
        assert F.FlightGrows(s.flights[f], s'.flights[f], s.now);
      }
      forall i | 0 <= i < |s.calls| ensures PhaseStays(s, s', i) {
        if s.phases[i].Returned? { F.ReturnedStays(s, a, i); }
      }
    }
  }

  // Answers that were not delivered do not matter to a group.
  lemma {:induction false} OnlyDeliveriesMatter(x: J.Script, y: J.Script, m: bool, log: seq<J.Action>)
    requires forall dim, at :: J.DeliveredAt(log, dim, at) ==> J.AnswerOf(x, dim) == J.AnswerOf(y, dim)
    ensures J.Run(x, m, log) == J.Run(y, m, log)
  {
    if log != [] {
      var before, a := log[..|log| - 1], log[|log| - 1];
      forall dim, at | J.DeliveredAt(before, dim, at) ensures J.AnswerOf(x, dim) == J.AnswerOf(y, dim) {
        assert J.DeliveredAt(log, dim, at);
      }
      OnlyDeliveriesMatter(x, y, m, before);
      if a.Deliver? { assert J.DeliveredAt(log, a.dim, a.at); }
    }
  }

  lemma GroupStays(q: State, q': State, g: nat)
    requires g < |q.groups| && GroupOk(q, g) && SysGrows(q.sys, q'.sys)
    requires g < |q'.groups| && q'.groups[g] == q.groups[g]
    ensures GroupOk(q', g)
  {
    var d := q.groups[g];
    forall dim, at | J.DeliveredAt(d.log, dim, at) ensures DeliveryOk(q'.sys, g, dim, at) {
      assert DeliveryOk(q.sys, g, dim, at);
      assert PhaseStays(q.sys, q'.sys, CallOf(g, dim));
    }
    forall dim, at | J.DeliveredAt(d.log, dim, at)
      ensures J.AnswerOf(ScriptOf(q.sys, g), dim) == J.AnswerOf(ScriptOf(q'.sys, g), dim)
    {
      assert DeliveryOk(q.sys, g, dim, at);
      assert PhaseStays(q.sys, q'.sys, CallOf(g, dim));
    }
    OnlyDeliveriesMatter(ScriptOf(q.sys, g), ScriptOf(q'.sys, g), d.conf.t.treatMissingAsError, d.log);
    forall dim | Aborted(d.log, dim) ensures T.Finished(q'.sys, CallOf(g, dim)) {
      assert PhaseStays(q.sys, q'.sys, CallOf(g, dim));
    }
  }

  lemma GroupSteps(q: State, g: nat, a: J.Action, q': State)
    requires g < |q.groups| && GroupOk(q, g) && F.Inv(q.sys)
    requires a.Deliver? || a.Abort? ==> T.Finished(q.sys, CallOf(g, a.dim))
    requires a.Deliver? ==> a.at == q.sys.now
    requires q'.sys == q.sys && q'.groups == q.groups[g := Joining(q, g, a)]
    ensures GroupOk(q', g)
  {
    var d, d' := q.groups[g], Joining(q, g, a);
    assert d'.log[..|d'.log| - 1] == d.log;
    forall dim, at | J.DeliveredAt(d'.log, dim, at) ensures DeliveryOk(q.sys, g, dim, at) {
      if !J.DeliveredAt(d.log, dim, at) {
        assert a == J.Deliver(dim, at);
        assert F.CallOk(q.sys, CallOf(g, dim));
      }
    }
    forall dim | Aborted(d'.log, dim) ensures T.Finished(q.sys, CallOf(g, dim)) {
      assert Aborted(d.log, dim) || a == J.Abort(dim);
    }
  }

  // A goroutine that has moved on has its answer.
  lemma {:induction false} MovedOn(script: J.Script, m: bool, log: seq<J.Action>, dim: J.Dimension)
    requires !J.PhaseOf(J.Run(script, m, log), dim).Querying?
    ensures (exists at :: J.DeliveredAt(log, dim, at)) || Aborted(log, dim)
  {
    var before, a := log[..|log| - 1], log[|log| - 1];
    if J.PhaseOf(J.Run(script, m, before), dim).Querying? {
      assert a == J.Abort(dim) || (a.Deliver? && a.dim == dim && J.DeliveredAt(log, dim, a.at));
    } else {
      MovedOn(script, m, before, dim);
      if at :| J.DeliveredAt(before, dim, at) { assert J.DeliveredAt(log, dim, at); }
    }
  }

  // So a decision with a call still under way is not done.
  lemma LeaderNotDone(q: State, g: nat, dim: J.Dimension)
    requires g < |q.groups| && GroupOk(q, g) && !T.Finished(q.sys, CallOf(g, dim))
    ensures !J.Joined(q.groups[g].join)
  {
    var d := q.groups[g];
    if !J.PhaseOf(d.join, dim).Querying? {
      MovedOn(ScriptOf(q.sys, g), d.conf.t.treatMissingAsError, d.log, dim);
    }
  }

  /******* Every step keeps it *******/

  // A step that only moves the cache and, perhaps, cancels contexts that may be cancelled.
  lemma CacheStepKeeps(q: State, q': State)
    requires Inv(q) && SysGrows(q.sys, q'.sys) && F.Reachable(q'.sys) && F.Inv(q'.sys)
    requires q'.groups == q.groups && |q'.sys.calls| == |q.sys.calls|
    requires forall c :: c in q'.sys.cancelled ==> ContextOk(q', c)
    requires forall f :: 0 <= f < |q'.sys.flights| ==> FlightCause(q', f)
    ensures Inv(q')
  {
    forall g, dim | 0 <= g < |q'.groups| ensures CallFits(q', g, dim) { assert CallFits(q, g, dim); }
    forall g | 0 <= g < |q'.groups| ensures GroupOk(q', g) {
      assert GroupOk(q, g);
      GroupStays(q, q', g);
    }
  }

  lemma GroupStepKeeps(q: State, g: nat, a: J.Action)
    requires Inv(q) && g < |q.groups|
    requires a.Deliver? || a.Abort? ==> T.Finished(q.sys, CallOf(g, a.dim))
    requires a.Deliver? ==> a.at == q.sys.now
    ensures Inv(q.(groups := q.groups[g := Joining(q, g, a)]))
  {
    var q' := q.(groups := q.groups[g := Joining(q, g, a)]);
    forall h, dim | 0 <= h < |q'.groups| ensures CallFits(q', h, dim) { assert CallFits(q, h, dim); }
    SysRefl(q.sys);
    forall h | 0 <= h < |q'.groups| ensures GroupOk(q', h) {
      assert GroupOk(q, h);
      if h == g { GroupSteps(q, g, a, q'); } else { GroupStays(q, q', h); }
    }
    forall c | c in q'.sys.cancelled ensures ContextOk(q', c) { assert ContextOk(q, c); }
    forall f | 0 <= f < |q'.sys.flights| ensures FlightCause(q', f) { assert FlightCause(q, f); }
  }

  lemma SysRefl(s: F.State)
    requires F.Inv(s)
    ensures SysGrows(s, s)
  {
  }

  lemma NewAnswerIsReply(s: F.State, a: F.Action, f: nat)
    requires F.Shaped(s) && F.Enabled(s, a) && f < |F.Next(s, a).flights| && !F.Next(s, a).flights[f].stage.Asking?
    requires f < |s.flights| ==> s.flights[f].stage.Asking?
    ensures a.Reply? && f < |s.flights| && s.phases[a.id].flight == f
    ensures F.Next(s, a).flights[f].stage.answer == a.answer
  {
  }

  // An upstream call that reports a cancellation ran for a decision that had failed or been abandoned.
  lemma ReplyHasCause(q: State, b: F.Action)
    requires Inv(q) && F.Enabled(q.sys, b) && b.Reply? && b.answer.err.Canceled?
    ensures FailedOrGone(q, F.LeaderCall(q.sys, q.sys.phases[b.id].flight).ctx)
  {
    assert F.CallOk(q.sys, b.id);
    var g, dim := b.id / 2, if b.id % 2 == 0 then J.Queue else J.KV;
    assert b.id == CallOf(g, dim) && CallFits(q, g, dim) && ContextOk(q, g) && GroupOk(q, g);
    LeaderNotDone(q, g, dim);
  }

  lemma SysKeeps(q: State, b: F.Action)
    requires Inv(q) && Inner(b)
    ensures Inv(Apply(q, Sys(b)))
  {
    ReachableStep(q.sys, b);
    SysStepGrows(q.sys, b);
    var q' := Apply(q, Sys(b));
    forall c | c in q'.sys.cancelled ensures ContextOk(q', c) { assert ContextOk(q, c); }
    forall f | 0 <= f < |q'.sys.flights| ensures FlightCause(q', f) {
      if f < |q.sys.flights| {
        assert FlightCause(q, f) && FlightStays(q.sys.flights[f], q'.sys.flights[f]);
      }
      if !q'.sys.flights[f].stage.Asking? && (f < |q.sys.flights| ==> q.sys.flights[f].stage.Asking?) {
        NewAnswerIsReply(q.sys, b, f);
        if b.answer.err.Canceled? { ReplyHasCause(q, b); }
      }
    }
    CacheStepKeeps(q, q');
  }

  lemma CancelKeeps(q: State, g: nat, gone: set<nat>)
    requires Inv(q) && g < |q.groups| && q.gone <= gone
    requires g in gone || q.groups[g].join.firstErr.Some? || J.Joined(q.groups[g].join)
    ensures Inv(q.(sys := F.Apply(q.sys, F.Cancel(g)), gone := gone))
  {
    ReachableStep(q.sys, F.Cancel(g));
    SysStepGrows(q.sys, F.Cancel(g));
    var q' := q.(sys := F.Apply(q.sys, F.Cancel(g)), gone := gone);
    forall c | c in q'.sys.cancelled ensures ContextOk(q', c) { if c != g { assert ContextOk(q, c); } }
    forall f | 0 <= f < |q'.sys.flights| ensures FlightCause(q', f) { assert FlightCause(q, f); }
    CacheStepKeeps(q, q');
  }

  // The cache side of a new decision: its two calls begin.
  function WithCalls(s: F.State, g: nat, conf: Conf): F.State {
    s.(calls := s.calls + [F.Call(conf.addr, conf.queueQuery, conf.ttl, g, s.now, KeyOf(conf, J.Queue)),
                           F.Call(conf.addr, conf.kvQuery, conf.ttl, g, s.now, KeyOf(conf, J.KV))],
       phases := s.phases + [F.Begun, F.Begun])
  }

  lemma OneBegins(s: F.State, addr: string, query: string, ttl: int, ctx: nat)
    requires F.Reachable(s)
    ensures var s' := F.Apply(s, F.Begin(addr, query, ttl, ctx));
      && F.Reachable(s') && F.Inv(s') && SysGrows(s, s')
      && s' == s.(calls := s.calls + [F.Call(addr, query, ttl, ctx, s.now, CacheKey(addr, query))],
        phases := s.phases + [F.Begun])
  {
    ReachableStep(s, F.Begin(addr, query, ttl, ctx));
    SysStepGrows(s, F.Begin(addr, query, ttl, ctx));
  }

  lemma SysGrowsOn(s: F.State, s1: F.State, s2: F.State)
    requires SysGrows(s, s1) && SysGrows(s1, s2)
    ensures SysGrows(s, s2)
  {
    forall i | 0 <= i < |s.calls| ensures PhaseStays(s, s2, i) {
      assert PhaseStays(s, s1, i) && PhaseStays(s1, s2, i);
    }
  }

  lemma TwoBegins(q: State, conf: Conf)
    requires Inv(q)
    ensures var s' := Apply(q, Start(conf)).sys;
      SysGrows(q.sys, s') && F.Reachable(s') && F.Inv(s') && s' == WithCalls(q.sys, |q.groups|, conf)
  {
    var s1 := F.Apply(q.sys, BeginFor(q, conf, J.Queue));
    OneBegins(q.sys, conf.addr, conf.queueQuery, conf.ttl, |q.groups|);
    OneBegins(s1, conf.addr, conf.kvQuery, conf.ttl, |q.groups|);
    SysGrowsOn(q.sys, s1, Apply(q, Start(conf)).sys);
  }

  lemma StartKeeps(q: State, conf: Conf)
    requires Inv(q)
    ensures Inv(Apply(q, Start(conf)))
  {
    var q', n := Apply(q, Start(conf)), |q.groups|;
    TwoBegins(q, conf);
    forall g, dim | 0 <= g < |q'.groups| ensures CallFits(q', g, dim) { if g < n { assert CallFits(q, g, dim); } }
    forall g | 0 <= g < |q'.groups| ensures GroupOk(q', g) {
      if g < n {
        assert GroupOk(q, g);
        GroupStays(q, q', g);
      }
    }
    forall c | c in q'.sys.cancelled ensures ContextOk(q', c) { assert ContextOk(q, c); }
    forall f | 0 <= f < |q'.sys.flights| ensures FlightCause(q', f) { assert FlightCause(q, f); }
  }

  lemma ApplyKeeps(q: State, a: Action)
    requires Inv(q)
    ensures Inv(Apply(q, a))
  {
    if Enabled(q, a) {
      match a
      case Sys(b) => SysKeeps(q, b);
      case Start(conf) => StartKeeps(q, conf);
      case Collect(g, dim) => GroupStepKeeps(q, g, Collected(q, g, dim));
      case Report(g, dim) => GroupStepKeeps(q, g, J.Report(dim));
      case CancelGroup(g) =>
        CancelKeeps(q, g, q.gone);
        var q1 := q.(sys := F.Apply(q.sys, F.Cancel(g)));
        assert q1 == q.(sys := F.Apply(q.sys, F.Cancel(g)), gone := q.gone);
        GroupStepKeeps(q1, g, J.CancelGroup);
        assert Apply(q, a) == q1.(groups := q1.groups[g := Joining(q1, g, J.CancelGroup)]);
      case WaitReturns(g) =>
        CancelKeeps(q, g, q.gone);
        assert Apply(q, a) == q.(sys := F.Apply(q.sys, F.Cancel(g)), gone := q.gone);
      case Abandon(g) => CancelKeeps(q, g, q.gone + {g});
    }
  }

  lemma {:induction false} RunInv(start: int, actions: seq<Action>)
    ensures Inv(Run(start, actions))
  {
    if actions != [] {
      RunInv(start, actions[..|actions| - 1]);
      ApplyKeeps(Run(start, actions[..|actions| - 1]), actions[|actions| - 1]);
    } else {
      F.RunInv(start, []);
      assert F.Init(start) == F.Run(start, []);
    }
  }

  ghost predicate Reachable(q: State) {
    F.Shaped(q.sys) && exists start: int, actions: seq<Action> :: q == Run(start, actions)
  }

  lemma ReachableInv(q: State)
    requires Reachable(q)
    ensures Inv(q)
  {
    var start: int, actions: seq<Action> :| q == Run(start, actions);
    RunInv(start, actions);
  }
}
