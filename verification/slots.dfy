// local/mock-vllm/app.py Slot: a request queues for one of `capacity` decode slots, and two counters and three
// gauges report it. Every await is a point where another task may run: the one that takes the lock, the one
// inside the lock before the gauges are set, and the one that acquires a slot. Cancellation of a task inside
// acquire is not part of this model.
module Slots {
  // Arrived: about to enter. Counting: holds the lock, counted as waiting, gauges not set yet. Queued: waiting for a
  // slot. Granted: has one, not yet recorded. Recording: holds the lock, recorded, gauges not set yet. Running.
  // Released: gave the slot back, still counted. Leaving: holds the lock, no longer counted, gauges not set yet.
  datatype Phase = Arrived | Counting | Queued | Granted | Recording | Running | Released | Leaving | Finished

  datatype Gauges = Gauges(running: int, waiting: int, kv: real)

  datatype State =
    State(capacity: nat, free: int, waiting: int, running: int, locked: bool, gauges: Gauges, tasks: seq<Phase>)

  // Sync: the holder of the lock sets the gauges and lets go of it.
  datatype Action =
    | Arrive | Enter(id: nat) | Acquire(id: nat) | Record(id: nat) | Release(id: nat) | Leave(id: nat) | Sync(id: nat)

  function KvUsage(running: int, capacity: nat): real
    requires capacity >= 1
  {
    var used := running as real / capacity as real;
    if used < 1.0 then used else 1.0
  }

  function Synced(running: int, waiting: int, capacity: nat): Gauges
    requires capacity >= 1
  {
    Gauges(running, waiting, KvUsage(running, capacity))
  }

  function Init(capacity: nat): State {
    State(capacity, capacity, 0, 0, false, Gauges(0, 0, 0.0), [])
  }

  predicate In(s: State, id: nat, p: Phase) {
    id < |s.tasks| && s.tasks[id] == p
  }

  predicate Holds(p: Phase) {
    p.Counting? || p.Recording? || p.Leaving?
  }

  predicate Enabled(s: State, a: Action) {
    match a
    case Arrive => true
    case Enter(id) => In(s, id, Arrived) && !s.locked
    case Acquire(id) => In(s, id, Queued) && s.free > 0
    case Record(id) => In(s, id, Granted) && !s.locked
    case Release(id) => In(s, id, Running)
    case Leave(id) => In(s, id, Released) && !s.locked
    case Sync(id) => id < |s.tasks| && Holds(s.tasks[id])
  }

  // Where the holder of the lock is once it has set the gauges.
  function AfterSync(p: Phase): Phase {
    match p case Counting => Queued case Recording => Running case Leaving => Finished case _ => p
  }

  function Apply(s: State, a: Action): State
    requires s.capacity >= 1
  {
    if !Enabled(s, a) then s
    else
      match a
      case Arrive => s.(tasks := s.tasks + [Arrived])
      case Enter(id) => s.(waiting := s.waiting + 1, locked := true, tasks := s.tasks[id := Counting])
      case Acquire(id) => s.(free := s.free - 1, tasks := s.tasks[id := Granted])
      case Record(id) =>
        s.(waiting := s.waiting - 1, running := s.running + 1, locked := true, tasks := s.tasks[id := Recording])
      case Release(id) => s.(free := s.free + 1, tasks := s.tasks[id := Released])
      case Leave(id) => s.(running := s.running - 1, locked := true, tasks := s.tasks[id := Leaving])
      case Sync(id) =>
        s.(gauges := Synced(s.running, s.waiting, s.capacity), locked := false,
          tasks := s.tasks[id := AfterSync(s.tasks[id])])
  }

  function Run(capacity: nat, actions: seq<Action>): (s: State)
    requires capacity >= 1
    ensures s.capacity == capacity
  {
    if actions == [] then Init(capacity)
    else Apply(Run(capacity, actions[..|actions| - 1]), actions[|actions| - 1])
  }

  function Count(tasks: seq<Phase>, p: Phase): nat {
    if tasks == [] then 0
    else Count(tasks[..|tasks| - 1], p) + (if tasks[|tasks| - 1] == p then 1 else 0)
  }

  lemma {:induction false} CountUpdate(tasks: seq<Phase>, id: nat, q: Phase, p: Phase)
    requires id < |tasks|
    ensures Count(tasks[id := q], p)
         == Count(tasks, p) - (if tasks[id] == p then 1 else 0) + (if q == p then 1 else 0)
  {
    var n := |tasks| - 1;
    if id == n {
      assert tasks[id := q][..n] == tasks[..n];
    } else {
      assert tasks[id := q][..n] == tasks[..n][id := q];
      CountUpdate(tasks[..n], id, q, p);
    }
  }

  lemma CountAppend(tasks: seq<Phase>, q: Phase, p: Phase)
    ensures Count(tasks + [q], p) == Count(tasks, p) + (if q == p then 1 else 0)
  {
    assert (tasks + [q])[..|tasks|] == tasks;
  }

  /******* Accounting at every interleaving *******/

  ghost predicate Accounts(s: State) {
    && s.capacity >= 1
    && s.waiting == Count(s.tasks, Counting) + Count(s.tasks, Queued) + Count(s.tasks, Granted)
    && s.running == Count(s.tasks, Recording) + Count(s.tasks, Running) + Count(s.tasks, Released)
    && s.free == s.capacity - Count(s.tasks, Granted) - Count(s.tasks, Recording) - Count(s.tasks, Running)
    && s.free >= 0
    && Count(s.tasks, Counting) + Count(s.tasks, Recording) + Count(s.tasks, Leaving) == (if s.locked then 1 else 0)
  }

  // The counters as they were before the holder of the lock, if any, changed them.
  function ShownRunning(s: State): int {
    s.running - Count(s.tasks, Recording) + Count(s.tasks, Leaving)
  }

  function ShownWaiting(s: State): int {
    s.waiting - Count(s.tasks, Counting) + Count(s.tasks, Recording)
  }

  ghost predicate Inv(s: State) {
    Accounts(s) && s.gauges == Synced(ShownRunning(s), ShownWaiting(s), s.capacity)
  }

  // How the counts of the phases that matter move with one task.
  lemma Recount(tasks: seq<Phase>, id: nat, q: Phase)
    requires id < |tasks|
    ensures var t, o := tasks[id := q], tasks[id];
      && Count(t, Counting) == Count(tasks, Counting) - (if o.Counting? then 1 else 0) + (if q.Counting? then 1 else 0)
      && Count(t, Queued) == Count(tasks, Queued) - (if o.Queued? then 1 else 0) + (if q.Queued? then 1 else 0)
      && Count(t, Granted) == Count(tasks, Granted) - (if o.Granted? then 1 else 0) + (if q.Granted? then 1 else 0)
      && Count(t, Recording)
           == Count(tasks, Recording) - (if o.Recording? then 1 else 0) + (if q.Recording? then 1 else 0)
      && Count(t, Running) == Count(tasks, Running) - (if o.Running? then 1 else 0) + (if q.Running? then 1 else 0)
      && Count(t, Released) == Count(tasks, Released) - (if o.Released? then 1 else 0) + (if q.Released? then 1 else 0)
      && Count(t, Leaving) == Count(tasks, Leaving) - (if o.Leaving? then 1 else 0) + (if q.Leaving? then 1 else 0)
  {
    CountUpdate(tasks, id, q, Counting); CountUpdate(tasks, id, q, Queued); CountUpdate(tasks, id, q, Granted);
    CountUpdate(tasks, id, q, Recording); CountUpdate(tasks, id, q, Running); CountUpdate(tasks, id, q, Released);
    CountUpdate(tasks, id, q, Leaving);
  }

  lemma SyncAccounts(s: State, id: nat)
    requires Accounts(s) && Enabled(s, Sync(id))
    ensures var s' := Apply(s, Sync(id));
      Accounts(s') && ShownRunning(s') == s'.running && ShownWaiting(s') == s'.waiting
  {
    Recount(s.tasks, id, AfterSync(s.tasks[id]));
    CountMember(s.tasks, id);
  }

  // What every step short of Sync does to the accounts.
  ghost predicate Moves(s: State, s': State) {
    Accounts(s') && ShownRunning(s') == ShownRunning(s) && ShownWaiting(s') == ShownWaiting(s) && s'.gauges == s.gauges
  }

  lemma ArrivalCountsNothing(tasks: seq<Phase>)
    ensures var t := tasks + [Arrived];
      && Count(t, Counting) == Count(tasks, Counting) && Count(t, Queued) == Count(tasks, Queued)
      && Count(t, Granted) == Count(tasks, Granted) && Count(t, Recording) == Count(tasks, Recording)
      && Count(t, Running) == Count(tasks, Running) && Count(t, Released) == Count(tasks, Released)
      && Count(t, Leaving) == Count(tasks, Leaving)
  {
    CountAppend(tasks, Arrived, Counting); CountAppend(tasks, Arrived, Queued); CountAppend(tasks, Arrived, Granted);
    CountAppend(tasks, Arrived, Recording); CountAppend(tasks, Arrived, Running);
    CountAppend(tasks, Arrived, Released); CountAppend(tasks, Arrived, Leaving);
  }

  lemma ArrivingAccounts(s: State)
    requires Accounts(s)
    ensures Moves(s, Apply(s, Arrive))
  {
    ArrivalCountsNothing(s.tasks);
  }

  lemma EnterAccounts(s: State, id: nat)
    requires Accounts(s) && Enabled(s, Enter(id))
    ensures Moves(s, Apply(s, Enter(id)))
  {
    Recount(s.tasks, id, Counting);
  }

  lemma AcquireAccounts(s: State, id: nat)
    requires Accounts(s) && Enabled(s, Acquire(id))
    ensures Moves(s, Apply(s, Acquire(id)))
  {
    Recount(s.tasks, id, Granted);
  }

  lemma RecordAccounts(s: State, id: nat)
    requires Accounts(s) && Enabled(s, Record(id))
    ensures Moves(s, Apply(s, Record(id)))
  {
    Recount(s.tasks, id, Recording);
  }

  lemma ReleaseAccounts(s: State, id: nat)
    requires Accounts(s) && Enabled(s, Release(id))
    ensures Moves(s, Apply(s, Release(id)))
  {
    Recount(s.tasks, id, Released);
  }

  lemma LeaveAccounts(s: State, id: nat)
    requires Accounts(s) && Enabled(s, Leave(id))
    ensures Moves(s, Apply(s, Leave(id)))
  {
    Recount(s.tasks, id, Leaving);
  }

  lemma ApplyKeeps(s: State, a: Action)
    requires Inv(s)
    ensures Inv(Apply(s, a))
  {
    if Enabled(s, a) {
      match a
      case Arrive => ArrivingAccounts(s);
      case Sync(id) => SyncAccounts(s, id);
      case Enter(id) => EnterAccounts(s, id);
      case Acquire(id) => AcquireAccounts(s, id);
      case Record(id) => RecordAccounts(s, id);
      case Release(id) => ReleaseAccounts(s, id);
      case Leave(id) => LeaveAccounts(s, id);
    }
  }

  lemma {:induction false} CountMember(tasks: seq<Phase>, id: nat)
    requires id < |tasks|
    ensures Count(tasks, tasks[id]) > 0
  {
    if id < |tasks| - 1 { CountMember(tasks[..|tasks| - 1], id); }
  }

  lemma {:induction false} RunInv(capacity: nat, actions: seq<Action>)
    requires capacity >= 1
    ensures Inv(Run(capacity, actions))
  {
    if actions != [] {
      RunInv(capacity, actions[..|actions| - 1]);
      ApplyKeeps(Run(capacity, actions[..|actions| - 1]), actions[|actions| - 1]);
    }
  }

  // The gauges show the counters exactly while nobody holds the lock, and are never off by more than the one
  // task that does. KV usage is a fraction, full exactly when the running gauge reaches capacity.
  lemma GaugesCurrentIff(capacity: nat, actions: seq<Action>)
    requires capacity >= 1
    ensures var s := Run(capacity, actions);
      && (s.gauges == Synced(s.running, s.waiting, capacity) <==> !s.locked)
      && -1 <= s.gauges.running - s.running <= 1 && -1 <= s.gauges.waiting - s.waiting <= 1
      && s.gauges.running >= 0 && s.gauges.waiting >= 0
      && 0.0 <= s.gauges.kv <= 1.0 && (s.gauges.kv == 1.0 <==> s.gauges.running >= capacity)
  {
    RunInv(capacity, actions);
    KvUsageRange(Run(capacity, actions).gauges.running, capacity);
  }

  // KV usage is the share of the slots that run, at most all of them.
  lemma KvIsTheShare(capacity: nat, actions: seq<Action>)
    requires capacity >= 1
    ensures var g := Run(capacity, actions).gauges;
      Share(g.kv, if g.running <= capacity then g.running else capacity, capacity)
  {
    var s := Run(capacity, actions);
    RunInv(capacity, actions);
    KvGauge(s);
    KvShare(s.gauges.running, capacity);
  }

  predicate Share(kv: real, used: int, capacity: nat) {
    kv * capacity as real == used as real
  }

  lemma KvGauge(s: State)
    requires Inv(s)
    ensures s.gauges.running >= 0 && s.gauges.kv == KvUsage(s.gauges.running, s.capacity)
  {
  }

  lemma KvShare(running: nat, capacity: nat)
    requires capacity >= 1
    ensures Share(KvUsage(running, capacity), if running <= capacity then running else capacity, capacity)
  {
    KvUsageRange(running, capacity);
  }

  lemma KvUsageRange(running: nat, capacity: nat)
    requires capacity >= 1
    ensures 0.0 <= KvUsage(running, capacity) <= 1.0
    ensures KvUsage(running, capacity) == 1.0 <==> running >= capacity
    ensures running <= capacity ==> KvUsage(running, capacity) * capacity as real == running as real
  {
    Quotient(running as real, capacity as real);
  }

  lemma Quotient(a: real, b: real)
    requires a >= 0.0 && b > 0.0
    ensures a / b >= 0.0
    ensures a / b >= 1.0 <==> a >= b
  {
    var q := a / b;
    assert q * b == a;
    if q >= 1.0 { Product(q - 1.0, b); } else { Product(1.0 - q, b); }
  }

  lemma Product(x: real, b: real)
    requires x >= 0.0 && b > 0.0
    ensures x * b >= 0.0 && (x > 0.0 ==> x * b > 0.0)
    ensures (x + 1.0) * b == x * b + b && (1.0 - x) * b == b - x * b
  {
  }

  // How far the running count can be from the truth: it exceeds capacity by exactly the tasks that have
  // released but not yet left, less the slots those have freed and nobody has recorded.
  lemma RunningWithinCapacityIff(capacity: nat, actions: seq<Action>)
    requires capacity >= 1
    ensures var s := Run(capacity, actions);
      && s.running - capacity == Count(s.tasks, Released) - Count(s.tasks, Granted) - s.free
      && (s.running <= capacity <==> Count(s.tasks, Released) <= Count(s.tasks, Granted) + s.free)
      && (Count(s.tasks, Released) == 0 ==> s.running <= capacity)
  {
    RunInv(capacity, actions);
  }

  lemma RunSnoc(capacity: nat, actions: seq<Action>, a: Action)
    requires capacity >= 1
    ensures Run(capacity, actions + [a]) == Apply(Run(capacity, actions), a)
  {
    assert (actions + [a])[..|actions|] == actions;
  }

  /******* Switching only where an await has to wait *******/

  // asyncio takes a free lock without switching and never switches inside `_sync_gauges`, so a task runs these
  // stretches whole.
  datatype Stretch = Comes | Queues(id: nat) | GetsSlot(id: nat) | Starts(id: nat) | Departs(id: nat)

  function Steps(x: Stretch): seq<Action> {
    match x
    case Comes => [Arrive]
    case Queues(id) => [Enter(id), Sync(id)]
    case GetsSlot(id) => [Acquire(id)]
    case Starts(id) => [Record(id), Sync(id)]
    case Departs(id) => [Release(id), Leave(id), Sync(id)]
  }

  function Unrolled(stretches: seq<Stretch>): seq<Action> {
    if stretches == [] then [] else Unrolled(stretches[..|stretches| - 1]) + Steps(stretches[|stretches| - 1])
  }

  // Nobody is inside the lock or between giving a slot back and being uncounted.
  ghost predicate Quiet(s: State) {
    Inv(s) && !s.locked && Count(s.tasks, Released) == 0
  }

  function AfterStretch(s: State, x: Stretch): State
    requires s.capacity >= 1
  {
    match x
    case Comes => Apply(s, Arrive)
    case Queues(id) => Apply(Apply(s, Enter(id)), Sync(id))
    case GetsSlot(id) => Apply(s, Acquire(id))
    case Starts(id) => Apply(Apply(s, Record(id)), Sync(id))
    case Departs(id) => Apply(Apply(Apply(s, Release(id)), Leave(id)), Sync(id))
  }

  lemma RunTwo(capacity: nat, before: seq<Action>, a: Action, b: Action)
    requires capacity >= 1
    ensures Run(capacity, before + [a, b]) == Apply(Apply(Run(capacity, before), a), b)
  {
    RunSnoc(capacity, before, a);
    RunSnoc(capacity, before + [a], b);
    assert before + [a] + [b] == before + [a, b];
  }

  lemma RunThree(capacity: nat, before: seq<Action>, a: Action, b: Action, c: Action)
    requires capacity >= 1
    ensures Run(capacity, before + [a, b, c]) == Apply(Apply(Apply(Run(capacity, before), a), b), c)
  {
    RunTwo(capacity, before, a, b);
    RunSnoc(capacity, before + [a, b], c);
    assert before + [a, b] + [c] == before + [a, b, c];
  }

  lemma RunStretch(capacity: nat, before: seq<Action>, x: Stretch)
    requires capacity >= 1
    ensures Run(capacity, before + Steps(x)) == AfterStretch(Run(capacity, before), x)
  {
    match x
    case Comes => RunSnoc(capacity, before, Arrive);
    case Queues(id) => RunTwo(capacity, before, Enter(id), Sync(id));
    case GetsSlot(id) => RunSnoc(capacity, before, Acquire(id));
    case Starts(id) => RunTwo(capacity, before, Record(id), Sync(id));
    case Departs(id) => RunThree(capacity, before, Release(id), Leave(id), Sync(id));
  }

  // The system whose steps are whole stretches.
  function Whole(s: State, x: Stretch): State
    requires s.capacity >= 1
  {
    match x
    case Comes => s.(tasks := s.tasks + [Arrived])
    case Queues(id) => if In(s, id, Arrived) then Counted(s, s.waiting + 1, s.running, s.free, id, Queued) else s
    case GetsSlot(id) =>
      if In(s, id, Queued) && s.free > 0 then s.(free := s.free - 1, tasks := s.tasks[id := Granted]) else s
    case Starts(id) => if In(s, id, Granted) then Counted(s, s.waiting - 1, s.running + 1, s.free, id, Running) else s
    case Departs(id) => if In(s, id, Running) then Counted(s, s.waiting, s.running - 1, s.free + 1, id, Finished) else s
  }

  function Counted(s: State, waiting: int, running: int, free: int, id: nat, p: Phase): State
    requires s.capacity >= 1 && id < |s.tasks|
  {
    s.(waiting := waiting, running := running, free := free, gauges := Synced(running, waiting, s.capacity),
       tasks := s.tasks[id := p])
  }

  lemma QuietNobody(s: State, id: nat)
    requires Quiet(s) && id < |s.tasks|
    ensures !Holds(s.tasks[id]) && !s.tasks[id].Released?
  {
    CountMember(s.tasks, id);
  }

  lemma StretchIsWhole(s: State, x: Stretch)
    requires Quiet(s)
    ensures AfterStretch(s, x) == Whole(s, x)
  {
    if !x.Comes? && x.id < |s.tasks| {
      QuietNobody(s, x.id);
      assert forall p, q {:trigger s.tasks[x.id := p][x.id := q]} ::
        s.tasks[x.id := p][x.id := q] == s.tasks[x.id := q];
    }
  }

  lemma AfterStretchKeeps(s: State, x: Stretch)
    requires Inv(s)
    ensures Inv(AfterStretch(s, x))
  {
    match x
    case Comes => ApplyKeeps(s, Arrive);
    case GetsSlot(id) => ApplyKeeps(s, Acquire(id));
    case Queues(id) => ApplyKeeps(s, Enter(id)); ApplyKeeps(Apply(s, Enter(id)), Sync(id));
    case Starts(id) => ApplyKeeps(s, Record(id)); ApplyKeeps(Apply(s, Record(id)), Sync(id));
    case Departs(id) =>
      var s1 := Apply(s, Release(id));
      ApplyKeeps(s, Release(id)); ApplyKeeps(s1, Leave(id)); ApplyKeeps(Apply(s1, Leave(id)), Sync(id));
  }

  lemma StretchKeepsQuiet(s: State, x: Stretch)
    requires Quiet(s)
    ensures Quiet(AfterStretch(s, x)) && AfterStretch(s, x) == Whole(s, x)
  {
    StretchIsWhole(s, x);
    AfterStretchKeeps(s, x);
    var s' := Whole(s, x);
    if x.Comes? {
      CountAppend(s.tasks, Arrived, Released);
    } else if x.id < |s.tasks| && s' != s {
      CountUpdate(s.tasks, x.id, s'.tasks[x.id], Released);
    }
  }

  lemma {:induction false} StretchesKeepQuiet(capacity: nat, stretches: seq<Stretch>)
    requires capacity >= 1
    ensures Quiet(Run(capacity, Unrolled(stretches)))
  {
    if stretches != [] {
      StretchesKeepQuiet(capacity, stretches[..|stretches| - 1]);
      var before, x := Unrolled(stretches[..|stretches| - 1]), stretches[|stretches| - 1];
      RunStretch(capacity, before, x);
      StretchKeepsQuiet(Run(capacity, before), x);
    } else {
      RunInv(capacity, []);
    }
  }

  // In such a schedule whoever looks between two stretches finds at most `capacity` running, and gauges
  // that show the counters.
  lemma WholeStretchesNeverOvershoot(capacity: nat, stretches: seq<Stretch>)
    requires capacity >= 1
    ensures var s := Run(capacity, Unrolled(stretches));
      && 0 <= s.running <= capacity && s.gauges == Synced(s.running, s.waiting, capacity)
      && s.capacity - s.free == Count(s.tasks, Granted) + s.running
  {
    StretchesKeepQuiet(capacity, stretches);
  }

  /******* Overshoot *******/

  // `gone` tasks released, then `held` running, nobody else.
  function Tableau(gone: nat, held: nat): (t: seq<Phase>)
    ensures |t| == gone + held
  {
    seq(gone, i => Released) + seq(held, i => Running)
  }

  lemma OneMoreHolds(capacity: nat, before: seq<Action>, gone: nat, held: nat) returns (actions: seq<Action>)
    requires capacity >= 1 && held < capacity
    requires var s := Run(capacity, before); s.tasks == Tableau(gone, held) && s.free == capacity - held && !s.locked
    ensures var s, s0 := Run(capacity, actions), Run(capacity, before);
      s.tasks == Tableau(gone, held + 1) && s.free == capacity - (held + 1) && s.running == s0.running + 1 && !s.locked
  {
    NewcomerRuns(Run(capacity, before));
    actions := RunNewcomer(capacity, before, gone + held);
    assert Tableau(gone, held + 1) == Tableau(gone, held) + [Running];
  }

  lemma RunNewcomer(capacity: nat, before: seq<Action>, id: nat) returns (actions: seq<Action>)
    requires capacity >= 1
    ensures Run(capacity, actions) == AfterStretch(AfterStretch(AfterStretch(AfterStretch(Run(capacity, before), Comes),
                                                   Queues(id)), GetsSlot(id)), Starts(id))
  {
    RunStretch(capacity, before, Comes);
    actions := before + Steps(Comes);
    RunStretch(capacity, actions, Queues(id));
    actions := actions + Steps(Queues(id));
    RunStretch(capacity, actions, GetsSlot(id));
    actions := actions + Steps(GetsSlot(id));
    RunStretch(capacity, actions, Starts(id));
    actions := actions + Steps(Starts(id));
  }

  lemma NewcomerRuns(s: State)
    requires s.capacity >= 1 && !s.locked && s.free > 0
    ensures var id := |s.tasks|;
      AfterStretch(AfterStretch(AfterStretch(AfterStretch(s, Comes), Queues(id)), GetsSlot(id)), Starts(id))
      == s.(free := s.free - 1, running := s.running + 1, gauges := Synced(s.running + 1, s.waiting, s.capacity),
            tasks := s.tasks + [Running])
  {
    var id, t := |s.tasks|, s.tasks;
    assert forall p, q {:trigger (t + [p])[id := q]} :: (t + [p])[id := q] == t + [q];
    var s1 := AfterStretch(s, Comes);
    var s2 := AfterStretch(s1, Queues(id));
    assert s2 == s.(waiting := s.waiting + 1, gauges := Synced(s.running, s.waiting + 1, s.capacity),
      tasks := t + [Queued]);
    var s3 := AfterStretch(s2, GetsSlot(id));
    assert s3 == s2.(free := s.free - 1, tasks := t + [Granted]);
  }

  // If the event loop does switch between release and decrement, tasks can push the running count any
  // distance past capacity.
  lemma {:induction false} RunningCanOvershoot(capacity: nat, gone: nat, held: nat) returns (actions: seq<Action>)
    requires capacity >= 1 && held <= capacity
    ensures var s := Run(capacity, actions);
      s.tasks == Tableau(gone, held) && s.free == capacity - held && s.running == gone + held && !s.locked
    decreases gone, held
  {
    if gone == 0 && held == 0 {
      actions := [];
    } else if held > 0 {
      actions := RunningCanOvershoot(capacity, gone, held - 1);
      actions := OneMoreHolds(capacity, actions, gone, held - 1);
    } else {
      actions := RunningCanOvershoot(capacity, gone - 1, 1);
      RunSnoc(capacity, actions, Release(gone - 1));
      actions := actions + [Release(gone - 1)];
      assert Run(capacity, actions).tasks == Tableau(gone, 0);
    }
  }

  /******* Nobody waits for ever *******/

  predicate AllFinished(s: State) {
    forall id :: 0 <= id < |s.tasks| ==> s.tasks[id].Finished?
  }

  lemma {:induction false} CountPositive(tasks: seq<Phase>, p: Phase) returns (id: nat)
    requires Count(tasks, p) > 0
    ensures id < |tasks| && tasks[id] == p
  {
    if tasks[|tasks| - 1] == p {
      id := |tasks| - 1;
    } else {
      id := CountPositive(tasks[..|tasks| - 1], p);
    }
  }

  lemma {:induction false} CountZero(tasks: seq<Phase>, p: Phase)
    requires forall id :: 0 <= id < |tasks| ==> tasks[id] != p
    ensures Count(tasks, p) == 0
  {
    if tasks != [] { CountZero(tasks[..|tasks| - 1], p); }
  }

  // With at least one slot there is no deadlock: somebody short of Finished can always move.
  lemma SomeoneCanMove(s: State) returns (a: Action)
    requires Inv(s) && !AllFinished(s)
    ensures !a.Arrive? && Enabled(s, a)
  {
    if s.locked {
      var p :=
        if Count(s.tasks, Counting) > 0 then Counting
        else if Count(s.tasks, Recording) > 0 then Recording
        else Leaving;
      var holder := CountPositive(s.tasks, p);
      return Sync(holder);
    }
    var id: nat :| id < |s.tasks| && !s.tasks[id].Finished?;
    CountMember(s.tasks, id);
    match s.tasks[id]
    case Arrived => a := Enter(id);
    case Granted => a := Record(id);
    case Running => a := Release(id);
    case Released => a := Leave(id);
    case Queued =>
      if s.free > 0 {
        a := Acquire(id);
      } else if Count(s.tasks, Granted) > 0 {
        var other := CountPositive(s.tasks, Granted);
        a := Record(other);
      } else {
        var other := CountPositive(s.tasks, Running);
        a := Release(other);
      }
  }

  function Weight(p: Phase): nat {
    match p
    case Arrived => 8 case Counting => 7 case Queued => 6 case Granted => 5 case Recording => 4
    case Running => 3 case Released => 2 case Leaving => 1 case Finished => 0
  }

  function WorkLeft(tasks: seq<Phase>): (w: nat)
    ensures w <= 8 * |tasks|
  {
    if tasks == [] then 0 else WorkLeft(tasks[..|tasks| - 1]) + Weight(tasks[|tasks| - 1])
  }

  lemma {:induction false} WorkUpdate(tasks: seq<Phase>, id: nat, q: Phase)
    requires id < |tasks|
    ensures WorkLeft(tasks[id := q]) == WorkLeft(tasks) - Weight(tasks[id]) + Weight(q)
  {
    var n := |tasks| - 1;
    if id == n {
      assert tasks[id := q][..n] == tasks[..n];
    } else {
      assert tasks[id := q][..n] == tasks[..n][id := q];
      WorkUpdate(tasks[..n], id, q);
    }
  }

  lemma EveryMoveIsOneLess(s: State, a: Action)
    requires Inv(s) && !a.Arrive? && Enabled(s, a)
    ensures WorkLeft(Apply(s, a).tasks) == WorkLeft(s.tasks) - 1
  {
    WorkUpdate(s.tasks, a.id, Apply(s, a).tasks[a.id]);
  }

  // Once every task is through, both counters are back at zero, every slot is free and the gauges say so.
  lemma CountersReturnToZero(capacity: nat, actions: seq<Action>)
    requires capacity >= 1 && AllFinished(Run(capacity, actions))
    ensures var s := Run(capacity, actions);
      s.waiting == 0 && s.running == 0 && s.free == capacity && !s.locked && s.gauges == Gauges(0, 0, 0.0)
  {
    RunInv(capacity, actions);
    FinishedIsIdle(Run(capacity, actions));
  }

  lemma FinishedIsIdle(s: State)
    requires Inv(s) && AllFinished(s)
    ensures s.waiting == 0 && s.running == 0 && s.free == s.capacity && !s.locked && s.gauges == Gauges(0, 0, 0.0)
  {
    CountZero(s.tasks, Counting); CountZero(s.tasks, Queued); CountZero(s.tasks, Granted);
    CountZero(s.tasks, Recording);
    CountZero(s.tasks, Running); CountZero(s.tasks, Released); CountZero(s.tasks, Leaving);
    KvUsageRange(0, s.capacity);
    assert 0.0 / s.capacity as real == 0.0;
  }

  // From every reachable state the tasks present can all finish, in at most eight moves each.
  lemma {:induction false} EveryoneFinishes(capacity: nat, before: seq<Action>) returns (actions: seq<Action>)
    requires capacity >= 1
    ensures before <= actions && AllFinished(Run(capacity, actions))
    ensures |actions| - |before| == WorkLeft(Run(capacity, before).tasks) <= 8 * |Run(capacity, before).tasks|
    decreases WorkLeft(Run(capacity, before).tasks)
  {
    var s := Run(capacity, before);
    RunInv(capacity, before);
    if AllFinished(s) {
      actions := before;
      NoWorkLeft(s.tasks);
    } else {
      var a := SomeoneCanMove(s);
      EveryMoveIsOneLess(s, a);
      RunSnoc(capacity, before, a);
      actions := EveryoneFinishes(capacity, before + [a]);
    }
  }

  lemma {:induction false} NoWorkLeft(tasks: seq<Phase>)
    requires forall id :: 0 <= id < |tasks| ==> tasks[id].Finished?
    ensures WorkLeft(tasks) == 0
  {
    if tasks != [] { NoWorkLeft(tasks[..|tasks| - 1]); }
  }

  /******* The shared state as an object *******/

  // The module-level counters, lock, semaphore and gauges. Each of the small methods is one stretch of
  // Slot.__aenter__ or Slot.__aexit__ between two awaits; `tasks` is only there to say which task is where.
  class Engine {
    const capacity: nat
    var free: int
    var waiting: int
    var running: int
    var locked: bool
    var gauges: Gauges
    ghost var tasks: seq<Phase>

    ghost function Value(): State
      reads this
    {
      State(capacity, free, waiting, running, locked, gauges, tasks)
    }

    constructor (capacity: nat)
      requires capacity >= 1
      ensures Value() == Init(capacity)
    {
      this.capacity, free, waiting, running := capacity, capacity, 0, 0;
      locked, gauges := false, Gauges(0, 0, 0.0);
      tasks := [];
    }

    // _sync_gauges and the end of the locked block around it.
    method SyncGauges(ghost id: nat)
      requires Inv(Value()) && Enabled(Value(), Sync(id))
      modifies this
      ensures Value() == Apply(old(Value()), Sync(id)) && Inv(Value())
    {
      ApplyKeeps(Value(), Sync(id));
      var used := running as real / capacity as real;
      gauges := Gauges(running, waiting, if used < 1.0 then used else 1.0);
      locked := false;
      tasks := tasks[id := AfterSync(tasks[id])];
    }

    method EnterQueue(ghost id: nat)
      requires Inv(Value()) && Enabled(Value(), Enter(id))
      modifies this
      ensures Value() == Apply(old(Value()), Enter(id)) && Inv(Value())
    {
      ApplyKeeps(Value(), Enter(id));
      locked := true;
      waiting := waiting + 1;
      tasks := tasks[id := Counting];
    }

    method TakeSlot(ghost id: nat)
      requires Inv(Value()) && Enabled(Value(), Acquire(id))
      modifies this
      ensures Value() == Apply(old(Value()), Acquire(id)) && Inv(Value())
    {
      ApplyKeeps(Value(), Acquire(id));
      free := free - 1;
      tasks := tasks[id := Granted];
    }

    method RecordRunning(ghost id: nat)
      requires Inv(Value()) && Enabled(Value(), Record(id))
      modifies this
      ensures Value() == Apply(old(Value()), Record(id)) && Inv(Value())
    {
      ApplyKeeps(Value(), Record(id));
      locked := true;
      waiting := waiting - 1;
      running := running + 1;
      tasks := tasks[id := Recording];
    }

    method GiveSlotBack(ghost id: nat)
      requires Inv(Value()) && Enabled(Value(), Release(id))
      modifies this
      ensures Value() == Apply(old(Value()), Release(id)) && Inv(Value())
    {
      ApplyKeeps(Value(), Release(id));
      free := free + 1;
      tasks := tasks[id := Released];
    }

    method RecordLeft(ghost id: nat)
      requires Inv(Value()) && Enabled(Value(), Leave(id))
      modifies this
      ensures Value() == Apply(old(Value()), Leave(id)) && Inv(Value())
    {
      ApplyKeeps(Value(), Leave(id));
      locked := true;
      running := running - 1;
      tasks := tasks[id := Leaving];
    }

    // __aenter__ up to the acquire, when the lock is free.
    method JoinQueue(ghost id: nat)
      requires Inv(Value()) && In(Value(), id, Arrived) && !locked
      modifies this
      ensures Inv(Value()) && !locked && waiting == old(waiting) + 1 && running == old(running) && free == old(free)
      ensures gauges == Synced(running, waiting, capacity) && tasks == old(tasks)[id := Queued]
    {
      EnterQueue(id);
      SyncGauges(id);
    }

    // __aenter__ after the acquire, when the lock is free.
    method BeginRunning(ghost id: nat)
      requires Inv(Value()) && In(Value(), id, Granted) && !locked
      modifies this
      ensures Inv(Value()) && !locked && waiting == old(waiting) - 1 && running == old(running) + 1 && free == old(free)
      ensures gauges == Synced(running, waiting, capacity) && tasks == old(tasks)[id := Running]
    {
      RecordRunning(id);
      SyncGauges(id);
    }

    // __aexit__ under the lock, when it is free.
    method CountOut(ghost id: nat)
      requires Inv(Value()) && In(Value(), id, Released) && !locked
      modifies this
      ensures Inv(Value()) && Value() == Counted(old(Value()), old(waiting), old(running) - 1, old(free), id, Finished)
    {
      RecordLeft(id);
      SyncGauges(id);
    }

    // __aenter__ as far as the task gets without waiting: not at all if the lock is held, into the queue if no
    // slot is free, and otherwise all the way.
    method AEnter(ghost id: nat) returns (admitted: bool)
      requires Inv(Value()) && In(Value(), id, Arrived)
      modifies this
      ensures Inv(Value()) && (admitted <==> !old(locked) && old(free) > 0)
      ensures old(locked) ==> Value() == old(Value())
      ensures !old(locked) && old(free) == 0 ==>
        Value() == Counted(old(Value()), old(waiting) + 1, old(running), 0, id, Queued)
      ensures admitted ==>
        Value() == Counted(old(Value()), old(waiting), old(running) + 1, old(free) - 1, id, Running)
    {
      if locked {
        return false;
      }
      JoinQueue(id);
      admitted := free > 0;
      if admitted {
        TakeSlot(id);
        BeginRunning(id);
      }
    }

    // __aexit__ as far as the task gets without waiting: if the lock is held it has only given its slot back.
    method AExit(ghost id: nat) returns (gone: bool)
      requires Inv(Value()) && In(Value(), id, Running)
      modifies this
      ensures Inv(Value()) && (gone <==> !old(locked))
      ensures gone ==> Value() == Counted(old(Value()), old(waiting), old(running) - 1, old(free) + 1, id, Finished)
      ensures !gone ==> Value() == old(Value()).(free := old(free) + 1, tasks := old(tasks)[id := Released])
    {
      GiveSlotBack(id);
      gone := !locked;
      if gone {
        CountOut(id);
      }
    }

    // `async with Slot()` undoes itself: a task that is admitted and leaves with nobody in between has changed
    // nothing but its own place. One that is not admitted is where AEnter left it.
    method Serve(ghost id: nat) returns (served: bool)
      requires Inv(Value()) && In(Value(), id, Arrived)
      modifies this
      ensures Inv(Value()) && (served <==> !old(locked) && old(free) > 0)
      ensures served ==> Value() == old(Value()).(tasks := old(tasks)[id := Finished])
      ensures !served && old(locked) ==> Value() == old(Value())
      ensures !served && !old(locked) ==>
        Value() == Counted(old(Value()), old(waiting) + 1, old(running), old(free), id, Queued)
    {
      served := AEnter(id);
      if served {
        served := AExit(id);
      }
    }
  }
}
