// Non-overlapping calls are runs of the concurrent system: the sequential model is that system with the
// interleavings taken out, not a second definition of the cache.
module SequentialRuns {
  import opened Metrics
  import F = Flights
  import T = FlightTheorems
  import opened Sequential

  // From s the clock reached op's lookup instant, op began as the newest call, and it looked.
  ghost predicate LookedFrom(s: F.State, s': F.State, op: Op) {
    && F.Shaped(s) && F.Shaped(s') && s'.cache == s.cache && s'.table == s.table && s'.now == op.lookupAt
    && |s'.calls| == |s.calls| + 1 && s'.calls[|s.calls|].ttl == op.ttl && s'.calls[|s.calls|].key == Key(op)
    && (forall i :: 0 <= i < |s.calls| ==> s'.phases[i] == s.phases[i])
    && var hit := Lookup(s.cache, Key(op), op.ttl, op.lookupAt);
       if hit.Some? then s'.phases[|s.calls|].Returned? && s'.phases[|s.calls|].answer == hit.value
       else s'.phases[|s.calls|] == F.Missed(op.lookupAt)
  }

  lemma Looks(s: F.State, op: Op, d: nat)
    requires F.Shaped(s) && s.now + d == op.lookupAt
    ensures var begun := F.Apply(F.Apply(s, F.Tick(d)), F.Begin(op.addr, op.query, op.ttl, 0));
      LookedFrom(s, F.Apply(begun, F.LookUp(|s.calls|)), op)
  {
    var s1 := F.Apply(s, F.Tick(d));
    F.NextGrows(s, F.Tick(d));
    var s2 := F.Apply(s1, F.Begin(op.addr, op.query, op.ttl, 0));
    F.NextGrows(s1, F.Begin(op.addr, op.query, op.ttl, 0));
    F.NextGrows(s2, F.LookUp(|s.calls|));
  }

  lemma RunLooks(start: int, done: seq<F.Action>, s: F.State, op: Op) returns (actions: seq<F.Action>)
    requires F.Run(start, done) == s && F.Shaped(s) && s.now <= op.lookupAt
    ensures LookedFrom(s, F.Run(start, actions), op)
  {
    var d: nat := op.lookupAt - s.now;
    Looks(s, op, d);
    F.RunSnoc(start, done, F.Tick(d));
    actions := done + [F.Tick(d)];
    F.RunSnoc(start, actions, F.Begin(op.addr, op.query, op.ttl, 0));
    actions := actions + [F.Begin(op.addr, op.query, op.ttl, 0)];
    F.RunSnoc(start, actions, F.LookUp(|s.calls|));
    actions := actions + [F.LookUp(|s.calls|)];
  }

  // The state of the concurrent system agrees with the sequential history.
  ghost predicate Agrees(s: F.State, source: Backend, ops: seq<Op>, start: int) {
    && F.Shaped(s) && s.cache == CacheAfter(source, ops) && s.table == map[] && |s.calls| == |ops|
    && s.now <= (if ops == [] then start else ops[|ops| - 1].storedAt)
    && forall i :: 0 <= i < |ops| ==> s.phases[i].Returned? && s.phases[i].answer == ReadAt(source, ops, i)
  }

  // Every sequential history is reproduced by a run of the concurrent system: same cache, same answers,
  // nothing left in flight.
  lemma {:induction false} SequentialHistoryIsARun(start: int, source: Backend, ops: seq<Op>)
    returns (actions: seq<F.Action>)
    requires Timed(ops) && (ops != [] ==> start <= ops[0].lookupAt)
    requires forall i :: 0 <= i < |ops| ==> !Direct(source, ops[i], ops[i].answeredAt).err.Canceled?
    ensures Agrees(F.Run(start, actions), source, ops, start)
  {
    if ops == [] {
      actions := [];
    } else {
      var before, op := ops[..|ops| - 1], ops[|ops| - 1];
      actions := SequentialHistoryIsARun(start, source, before);
      if before != [] { assert before[|before| - 1] == ops[|ops| - 2]; }
      var s';
      actions, s' := OneMore(start, actions, F.Run(start, actions), source, before, op);
      assert before + [op] == ops;
    }
  }

  lemma EarlierReadsStand(source: Backend, before: seq<Op>, op: Op)
    ensures (before + [op])[..|before|] == before
    ensures forall i :: 0 <= i < |before| ==> ReadAt(source, before + [op], i) == ReadAt(source, before, i)
  {
    forall i | 0 <= i < |before| ensures ReadAt(source, before + [op], i) == ReadAt(source, before, i) {
      assert (before + [op])[..i] == before[..i];
    }
  }

  // A hit: the histories agree one call further.
  lemma AgreesAfterHit(start: int, s: F.State, looked: F.State, source: Backend, before: seq<Op>, op: Op)
    requires Agrees(s, source, before, start) && LookedFrom(s, looked, op) && op.lookupAt <= op.storedAt
    requires !looked.phases[|before|].Missed?
    ensures Agrees(looked, source, before + [op], start)
  {
    EarlierReadsStand(source, before, op);
  }

  // A miss, then the whole fetch.
  lemma AgreesAfterFetch(start: int, s: F.State, looked: F.State, source: Backend, before: seq<Op>, op: Op,
                         fetched: F.State)
    requires Agrees(s, source, before, start) && LookedFrom(s, looked, op)
      && op.lookupAt <= op.answeredAt <= op.storedAt
    requires looked.phases[|before|].Missed?
    requires fetched == T.Fetched(looked, |before|, Direct(source, op, op.answeredAt), op.answeredAt - op.lookupAt,
      op.storedAt - op.answeredAt)
    ensures Agrees(fetched, source, before + [op], start)
  {
    EarlierReadsStand(source, before, op);
    FetchedShaped(looked, |before|, Direct(source, op, op.answeredAt), op.answeredAt - op.lookupAt,
      op.storedAt - op.answeredAt);
  }

  lemma FetchedShaped(s: F.State, id: nat, answer: Answer, wait: nat, delay: nat)
    requires F.Shaped(s) && id < |s.calls| && s.phases[id].Missed?
    ensures F.Shaped(T.Fetched(s, id, answer, wait, delay))
  {
  }

  lemma FetchMore(start: int, done: seq<F.Action>, s: F.State, looked: F.State, source: Backend,
                  before: seq<Op>, op: Op)
    returns (actions: seq<F.Action>, fetched: F.State)
    requires F.Run(start, done) == looked
    requires Agrees(s, source, before, start) && LookedFrom(s, looked, op)
      && op.lookupAt <= op.answeredAt <= op.storedAt
    requires looked.phases[|before|].Missed? && !Direct(source, op, op.answeredAt).err.Canceled?
    ensures F.Run(start, actions) == fetched && Agrees(fetched, source, before + [op], start)
  {
    var wait, delay := op.answeredAt - op.lookupAt, op.storedAt - op.answeredAt;
    fetched := T.Fetched(looked, |before|, Direct(source, op, op.answeredAt), wait, delay);
    AgreesAfterFetch(start, s, looked, source, before, op, fetched);
    actions := T.RunFetch(start, done, looked, |before|, Direct(source, op, op.answeredAt), wait, delay);
  }

  lemma OneMore(start: int, done: seq<F.Action>, s: F.State, source: Backend, before: seq<Op>, op: Op)
    returns (actions: seq<F.Action>, s': F.State)
    requires F.Run(start, done) == s && Agrees(s, source, before, start)
    requires s.now <= op.lookupAt <= op.answeredAt <= op.storedAt
    requires !Direct(source, op, op.answeredAt).err.Canceled?
    ensures F.Run(start, actions) == s' && Agrees(s', source, before + [op], start)
  {
    actions := RunLooks(start, done, s, op);
    s' := F.Run(start, actions);
    if s'.phases[|before|].Missed? {
      actions, s' := FetchMore(start, actions, s, s', source, before, op);
    } else {
      AgreesAfterHit(start, s, s', source, before, op);
    }
  }
}
