// local/mock-vllm/app.py chat, streaming: a producer task decodes n tokens into a queue, counts the finished
// request and queues a sentinel; the response generator drains the queue, awaits the producer and ends the stream.
// Tokens carry their index so that order can be stated.
module Sse {
  datatype Item = Token(index: nat) | Sentinel

  datatype Line = Chunk(index: nat) | DoneLine

  // Decoding: at the top of the loop. Putting: counted, about to queue. Stopped: counted the request,
  // about to queue the sentinel.
  datatype Producer = Decoding | Putting | Stopped | Exited

  datatype Consumer = Draining | Joining | Closed

  datatype State = State(
    producer: Producer, emitted: nat,
    queue: seq<Item>,
    consumer: Consumer, output: seq<Line>,
    generated: nat, stops: nat)

  datatype Action = Decode | Put | Stop | PutSentinel | Get | Finish

  // range(n): a negative request yields nothing.
  function Tokens(n: int): nat {
    if n < 0 then 0 else n
  }

  function Init(): State {
    State(Decoding, 0, [], Draining, [], 0, 0)
  }

  predicate Enabled(n: int, s: State, a: Action) {
    match a
    case Decode => s.producer.Decoding? && s.emitted < n
    case Put => s.producer.Putting?
    case Stop => s.producer.Decoding? && s.emitted >= n
    case PutSentinel => s.producer.Stopped?
    case Get => s.consumer.Draining? && s.queue != []
    case Finish => s.consumer.Joining? && s.producer.Exited?
  }

  function Apply(n: int, s: State, a: Action): State {
    if !Enabled(n, s, a) then s
    else
      match a
      case Decode => s.(producer := Putting, generated := s.generated + 1)
      case Put => s.(producer := Decoding, queue := s.queue + [Token(s.emitted)], emitted := s.emitted + 1)
      case Stop => s.(producer := Stopped, stops := s.stops + 1)
      case PutSentinel => s.(producer := Exited, queue := s.queue + [Sentinel])
      case Get =>
        (match s.queue[0]
         case Token(i) => s.(queue := s.queue[1..], output := s.output + [Chunk(i)])
         case Sentinel => s.(queue := s.queue[1..], consumer := Joining))
      case Finish => s.(consumer := Closed, output := s.output + [DoneLine])
  }

  function Run(n: int, schedule: seq<Action>): State {
    if schedule == [] then Init()
    else Apply(n, Run(n, schedule[..|schedule| - 1]), schedule[|schedule| - 1])
  }

  function Chunks(k: nat): seq<Line> {
    seq(k, i requires 0 <= i => Chunk(i))
  }

  function Pending(lo: nat, hi: nat): seq<Item>
    requires lo <= hi
  {
    seq(hi - lo, i requires 0 <= i => Token(lo + i))
  }

  // What the client must receive.
  function Expected(n: int): seq<Line> {
    Chunks(Tokens(n)) + [DoneLine]
  }

  /******* Every interleaving *******/

  // `sent` tokens are out, the rest of the emitted ones are queued in order, and the sentinel, once
  // the producer has exited, is last in the queue until it is taken.
  ghost predicate Inv(n: int, s: State) {
    var sent := if s.consumer.Draining? then |s.output| else s.emitted;
    && sent <= s.emitted <= Tokens(n)
    && (!s.producer.Decoding? && !s.producer.Putting? ==> s.emitted == Tokens(n))
    && (s.producer.Putting? ==> s.emitted < Tokens(n))
    && s.generated == s.emitted + (if s.producer.Putting? then 1 else 0)
    && s.stops == (if s.producer.Stopped? || s.producer.Exited? then 1 else 0)
    && s.output == Chunks(sent) + (if s.consumer.Closed? then [DoneLine] else [])
    && s.queue == Pending(sent, s.emitted) + (if s.producer.Exited? && s.consumer.Draining? then [Sentinel] else [])
    && (!s.consumer.Draining? ==> s.producer.Exited?)
  }

  lemma GetKeeps(n: int, s: State)
    requires Inv(n, s) && Enabled(n, s, Get)
    ensures Inv(n, Apply(n, s, Get))
  {
    var sent := |s.output|;
    if sent < s.emitted {
      assert Pending(sent, s.emitted)[1..] == Pending(sent + 1, s.emitted);
      assert s.queue[0] == Token(sent);
      assert Chunks(sent) + [Chunk(sent)] == Chunks(sent + 1);
    } else {
      assert Pending(sent, s.emitted) == [];
      assert s.queue == [Sentinel];
    }
  }

  lemma PutKeeps(n: int, s: State)
    requires Inv(n, s) && Enabled(n, s, Put)
    ensures Inv(n, Apply(n, s, Put))
  {
    assert Pending(|s.output|, s.emitted) + [Token(s.emitted)] == Pending(|s.output|, s.emitted + 1);
  }

  lemma ApplyKeeps(n: int, s: State, a: Action)
    requires Inv(n, s)
    ensures Inv(n, Apply(n, s, a))
  {
    if Enabled(n, s, a) {
      match a
      case Get => GetKeeps(n, s);
      case Put => PutKeeps(n, s);
      case _ =>
    }
  }

  lemma {:induction false} RunInv(n: int, schedule: seq<Action>)
    ensures Inv(n, Run(n, schedule))
  {
    if schedule != [] {
      RunInv(n, schedule[..|schedule| - 1]);
      ApplyKeeps(n, Run(n, schedule[..|schedule| - 1]), schedule[|schedule| - 1]);
    }
  }

  // At every moment the client has a prefix of the expected stream; when it is closed it has all of it,
  // so exactly one [DONE], after the last chunk.
  lemma OutputIsExact(n: int, schedule: seq<Action>)
    ensures var s := Run(n, schedule); s.output <= Expected(n) && (s.consumer.Closed? <==> s.output == Expected(n))
  {
    RunInv(n, schedule);
    var s := Run(n, schedule);
    if s.consumer.Draining? {
      assert Chunks(|s.output|) <= Chunks(Tokens(n));
    }
  }

  // The request is counted as finished before the sentinel can be seen, exactly once, and the token counter has
  // risen by the number of chunks when the stream closes.
  lemma CountersAreExact(n: int, schedule: seq<Action>)
    ensures var s := Run(n, schedule);
      && s.stops <= 1 && (Sentinel in s.queue || !s.consumer.Draining? ==> s.stops == 1)
      && |s.output| <= s.generated + 1 && s.generated <= Tokens(n)
      && (s.consumer.Closed? ==> s.generated == Tokens(n) == |s.output| - 1)
  {
    RunInv(n, schedule);
  }

  // Steps left: at most two per token to produce, one to consume, and the four at the end.
  function Rank(n: int, s: State): int {
    2 * (Tokens(n) - s.emitted) + (if s.producer.Putting? then -1 else 0)
    + (match s.producer case Decoding => 2 case Putting => 2 case Stopped => 1 case Exited => 0)
    + (match s.consumer case Draining => Tokens(n) - |s.output| + 2 case Joining => 1 case Closed => 0)
  }

  lemma EveryStepCounts(n: int, s: State, a: Action)
    requires Inv(n, s) && Enabled(n, s, a)
    ensures 0 <= Rank(n, Apply(n, s, a)) == Rank(n, s) - 1
  {
    if a.Get? && |s.output| < s.emitted {
      assert s.queue[0] == Token(|s.output|);
    }
    ApplyKeeps(n, s, a);
  }

  // The stream is stuck exactly when it is closed.
  lemma StuckIffClosed(n: int, schedule: seq<Action>)
    ensures var s := Run(n, schedule); (forall a :: !Enabled(n, s, a)) <==> s.consumer.Closed?
  {
    RunInv(n, schedule);
    var s := Run(n, schedule);
    if !s.consumer.Closed? {
      assert Enabled(n, s, Decode) || Enabled(n, s, Put) || Enabled(n, s, Stop) || Enabled(n, s, PutSentinel)
          || Enabled(n, s, Get) || Enabled(n, s, Finish);
    }
  }

  /******* The stream as an object *******/

  // The queue and counters of one streaming request; each method is one stretch of the producer or of
  // the response generator between two suspension points.
  class Pump {
    const n: int
    var producer: Producer
    var emitted: nat
    var queue: seq<Item>
    var consumer: Consumer
    var output: seq<Line>
    var generated: nat
    var stops: nat

    function Snapshot(): State
      reads this
    {
      State(producer, emitted, queue, consumer, output, generated, stops)
    }

    constructor (n: int)
      ensures this.n == n && Snapshot() == Init() && Inv(n, Snapshot())
    {
      this.n := n;
      producer, emitted, queue := Decoding, 0, [];
      consumer, output, generated, stops := Draining, [], 0, 0;
    }

    // One decode step; false when the loop is over.
    method DecodeToken() returns (more: bool)
      requires Inv(n, Snapshot()) && producer.Decoding?
      modifies this
      ensures Inv(n, Snapshot())
      ensures more <==> old(emitted) < n
      ensures Snapshot() == if more then Apply(n, old(Snapshot()), Decode) else old(Snapshot())
    {
      more := emitted < n;
      if more {
        ApplyKeeps(n, Snapshot(), Decode);
        generated := generated + 1;
        producer := Putting;
      }
    }

    method PutToken()
      requires Inv(n, Snapshot()) && producer.Putting?
      modifies this
      ensures Inv(n, Snapshot()) && Snapshot() == Apply(n, old(Snapshot()), Put)
    {
      ApplyKeeps(n, Snapshot(), Put);
      queue := queue + [Token(emitted)];
      emitted := emitted + 1;
      producer := Decoding;
    }

    method CountRequest()
      requires Inv(n, Snapshot()) && producer.Decoding? && emitted >= n
      modifies this
      ensures Inv(n, Snapshot()) && Snapshot() == Apply(n, old(Snapshot()), Stop)
    {
      ApplyKeeps(n, Snapshot(), Stop);
      stops := stops + 1;
      producer := Stopped;
    }

    method PutEnd()
      requires Inv(n, Snapshot()) && producer.Stopped?
      modifies this
      ensures Inv(n, Snapshot()) && Snapshot() == Apply(n, old(Snapshot()), PutSentinel)
    {
      ApplyKeeps(n, Snapshot(), PutSentinel);
      queue := queue + [Sentinel];
      producer := Exited;
    }

    // One turn of the producer task, up to its next await.
    method Produce()
      requires Inv(n, Snapshot()) && !producer.Exited?
      modifies this
      ensures Inv(n, Snapshot()) && Rank(n, Snapshot()) < old(Rank(n, Snapshot())) && 0 <= Rank(n, Snapshot())
    {
      match producer
      case Putting =>
        EveryStepCounts(n, Snapshot(), Put);
        PutToken();
      case Stopped =>
        EveryStepCounts(n, Snapshot(), PutSentinel);
        PutEnd();
      case Decoding =>
        EveryStepCounts(n, Snapshot(), if emitted < n then Decode else Stop);
        var more := DecodeToken();
        if !more { CountRequest(); }
    }

    method TakeItem()
      requires Inv(n, Snapshot()) && consumer.Draining? && queue != []
      modifies this
      ensures Inv(n, Snapshot()) && Snapshot() == Apply(n, old(Snapshot()), Get)
    {
      ApplyKeeps(n, Snapshot(), Get);
      var item := queue[0];
      queue := queue[1..];
      match item
      case Token(i) => output := output + [Chunk(i)];
      case Sentinel => consumer := Joining;
    }

    method EndStream()
      requires Inv(n, Snapshot()) && consumer.Joining? && producer.Exited?
      modifies this
      ensures Inv(n, Snapshot()) && Snapshot() == Apply(n, old(Snapshot()), Finish)
    {
      ApplyKeeps(n, Snapshot(), Finish);
      output := output + [DoneLine];
      consumer := Closed;
    }
  }

  // A whole streaming response, the event loop choosing at every turn which side runs when both can: whatever it
  // chooses, the client gets exactly the expected stream and the counters rise by exactly its worth.
  method Stream(n: int, clientFirst: nat -> bool) returns (lines: seq<Line>, generated: nat, stops: nat)
    ensures lines == Expected(n) && generated == Tokens(n) && stops == 1
    ensures var tokens := if n < 0 then 0 else n;
      && |lines| == tokens + 1 && generated == tokens
      && (forall i :: 0 <= i < tokens ==> lines[i] == Chunk(i)) && lines[tokens] == DoneLine
  {
    var pump := new Pump(n);
    var turn := 0;
    while pump.consumer != Closed
      invariant fresh(pump) && pump.n == n && Inv(n, pump.Snapshot())
      decreases Rank(n, pump.Snapshot())
    {
      var clientCan := if pump.consumer == Draining then pump.queue != [] else pump.producer == Exited;
      if clientCan && (clientFirst(turn) || pump.producer == Exited) {
        EveryStepCounts(n, pump.Snapshot(), if pump.consumer == Draining then Get else Finish);
        if pump.consumer == Draining { pump.TakeItem(); } else { pump.EndStream(); }
      } else {
        pump.Produce();
      }
      turn := turn + 1;
    }
    lines, generated, stops := pump.output, pump.generated, pump.stops;
  }

  /******* Non-streaming *******/

  // The same decode loop with the tokens accumulated. The usage field reports the requested n, which is
  // the number of tokens generated exactly when the request was not negative.
  method Accumulate(n: int) returns (parts: seq<nat>, generated: nat, usage: int)
    ensures |parts| == generated == Tokens(n) && forall i :: 0 <= i < |parts| ==> parts[i] == i
    ensures usage == n && (usage == generated <==> n >= 0)
  {
    parts, generated := [], 0;
    while generated < n
      invariant |parts| == generated <= Tokens(n)
      invariant forall i :: 0 <= i < |parts| ==> parts[i] == i
    {
      parts := parts + [generated];
      generated := generated + 1;
    }
    usage := n;
  }
}
