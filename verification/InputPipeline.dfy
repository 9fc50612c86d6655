/** A player's inputs from the network to the car: de-duplication, jitter queue, one input a tick. */
module InputPipeline {
  import opened Basics
  import opened CarStates

  const TICK_RESET_WINDOW: nat := 120
  const MAX_QUEUED_INPUTS: nat := 8192
  const INPUT_REDUNDANCY: nat := 5

  datatype PlayerInput = PlayerInput(playerId: int, input: CarInput)

  // ---- the network layer --------------------------------------------------

  // Newer than the last one seen, or so far behind that the sender must have restarted.
  predicate Acceptable(lastTick: map<int, nat>, player: int, tick: nat) {
    player in lastTick ==> tick > lastTick[player] || tick + TICK_RESET_WINDOW < lastTick[player]
  }

  // On overflow the older half goes.
  function Bounded(queued: seq<PlayerInput>): seq<PlayerInput> {
    if |queued| > MAX_QUEUED_INPUTS then queued[|queued| / 2..] else queued
  }

  // What the network layer holds for all players together.
  datatype Network = Network(lastTick: map<int, nat>, queued: seq<PlayerInput>)

  function NetAccept(n: Network, from: PlayerInput): Network {
    if Acceptable(n.lastTick, from.playerId, from.input.tick)
    then Network(n.lastTick[from.playerId := from.input.tick], Bounded(n.queued + [from]))
    else n
  }

  class InputCore {
    var lastInputTick: map<int, nat>
    var inInputs: seq<PlayerInput>

    function State(): Network
      reads this
    {
      Network(lastInputTick, inInputs)
    }

    constructor ()
      ensures lastInputTick == map[] && inInputs == []
    {
      lastInputTick, inInputs := map[], [];
    }

    method AcceptInput(player: int, input: CarInput)
      modifies this
      ensures Acceptable(old(lastInputTick), player, input.tick) ==>
                && lastInputTick == old(lastInputTick)[player := input.tick]
                && inInputs == Bounded(old(inInputs) + [PlayerInput(player, input)])
      ensures !Acceptable(old(lastInputTick), player, input.tick) ==>
                lastInputTick == old(lastInputTick) && inInputs == old(inInputs)
      ensures State() == NetAccept(old(State()), PlayerInput(player, input))
    {
      if player in lastInputTick {
        var last := lastInputTick[player];
        var newer := input.tick > last;
        var reset := input.tick + TICK_RESET_WINDOW < last;
        if !newer && !reset {
          return;
        }
      }
      lastInputTick := lastInputTick[player := input.tick];
      inInputs := inInputs + [PlayerInput(player, input)];
      if |inInputs| > MAX_QUEUED_INPUTS {
        inInputs := inInputs[|inInputs| / 2..];
      }
    }

    method TakeInputs() returns (inputs: seq<PlayerInput>)
      modifies this`inInputs
      ensures inputs == old(inInputs) && inInputs == []
    {
      inputs := inInputs;
      inInputs := [];
    }
  }

  // ---- the host's queue of one car ------------------------------------------

  datatype HostQueue = HostQueue(queue: seq<CarInput>, last: CarInput, lastApplied: nat, lastQueued: nat)

  function Enqueue(q: HostQueue, input: CarInput): HostQueue {
    if input.tick <= q.lastQueued then q
    else q.(queue := q.queue + [input], lastQueued := input.tick)
  }

  function EnqueueAll(q: HostQueue, inputs: seq<CarInput>): HostQueue {
    if inputs == [] then q
    else Enqueue(EnqueueAll(q, inputs[..|inputs| - 1]), inputs[|inputs| - 1])
  }

  // A queue beyond the limit is cut down to its newest two.
  function Trimmed(queue: seq<CarInput>, maxBuffered: int): seq<CarInput> {
    if |queue| > maxBuffered && |queue| > 2 then queue[|queue| - 2..] else queue
  }

  // One input a tick; with none waiting the last one stays in force.
  function Consume(q: HostQueue, maxBuffered: int): HostQueue {
    var queue := Trimmed(q.queue, maxBuffered);
    if queue == [] then q.(queue := queue)
    else q.(queue := queue[1..], last := queue[0], lastApplied := queue[0].tick)
  }

  // What the queue keeps: ticks strictly increasing, newer than the last one applied,
  // up to the last one queued.
  ghost predicate QueueOk(q: HostQueue) {
    && q.lastApplied <= q.lastQueued
    && (forall i | 0 <= i < |q.queue| :: q.lastApplied < q.queue[i].tick <= q.lastQueued)
    && (forall i, j | 0 <= i < j < |q.queue| :: q.queue[i].tick < q.queue[j].tick)
  }

  class HostInputs {
    var cars: map<int, HostQueue>
    const localId: int
    const bots: set<int>
    const maxBufferedInputs: int
    var hostDroppedInputs: nat
    var hostStarvedTicks: nat

    constructor (localId: int, bots: set<int>, maxBufferedInputs: int, cars: map<int, HostQueue>)
      ensures this.localId == localId && this.bots == bots && this.maxBufferedInputs == maxBufferedInputs
      ensures this.cars == cars && hostDroppedInputs == 0 && hostStarvedTicks == 0
    {
      this.localId, this.bots, this.maxBufferedInputs, this.cars := localId, bots, maxBufferedInputs, cars;
      hostDroppedInputs, hostStarvedTicks := 0, 0;
    }

    predicate Remote(player: int)
      reads this
    {
      player in cars && player != localId && player !in bots
    }

    // The taken inputs, sorted into the queues of the cars driven from elsewhere.
    method Receive(inputs: seq<PlayerInput>)
      modifies this`cars
      ensures cars.Keys == old(cars).Keys
      ensures forall player | player in cars :: cars[player] ==
                if old(Remote(player)) then EnqueueAll(old(cars)[player], InputsOf(inputs, player)) else old(cars)[player]
    {
      ghost var was := cars;
      for i := 0 to |inputs|
        invariant cars.Keys == was.Keys
        invariant forall player | player in cars :: cars[player] ==
                    if player != localId && player !in bots then EnqueueAll(was[player], InputsOf(inputs[..i], player)) else was[player]
      {
        var pi := inputs[i];
        assert inputs[..i + 1][..i] == inputs[..i];
        if pi.playerId != localId && pi.playerId in cars && pi.playerId !in bots {
          var hc := cars[pi.playerId];
          if pi.input.tick > hc.lastQueued {
            cars := cars[pi.playerId := hc.(queue := hc.queue + [pi.input], lastQueued := pi.input.tick)];
          }
        }
      }
      assert inputs[..|inputs|] == inputs;
    }

    // A long queue, a burst after a stall, is cut to its two newest inputs.
    method TrimQueue(queue: seq<CarInput>) returns (kept: seq<CarInput>)
      modifies `hostDroppedInputs
      ensures kept == Trimmed(queue, maxBufferedInputs)
      ensures hostDroppedInputs == old(hostDroppedInputs) + |queue| - |kept|
    {
      kept := queue;
      if |kept| > maxBufferedInputs {
        while |kept| > 2
          invariant |kept| <= |queue| && kept == queue[|queue| - |kept|..] && (if |queue| > 2 then |kept| >= 2 else kept == queue)
          invariant hostDroppedInputs == old(hostDroppedInputs) + |queue| - |kept|
        {
          kept := kept[1..];
          hostDroppedInputs := hostDroppedInputs + 1;
        }
      }
    }

    // The input a remote car is driven with this tick.
    method NextInput(player: int) returns (input: CarInput)
      requires Remote(player)
      modifies this
      ensures cars == old(cars)[player := Consume(old(cars)[player], maxBufferedInputs)] && input == cars[player].last
      ensures hostDroppedInputs == old(hostDroppedInputs)
                + |old(cars)[player].queue| - |Trimmed(old(cars)[player].queue, maxBufferedInputs)|
      ensures hostStarvedTicks == old(hostStarvedTicks) + if old(cars)[player].queue == [] then 1 else 0
      ensures old(cars)[player].queue != [] ==>
                NextOf(old(cars)[player].queue, maxBufferedInputs, input, cars[player].queue) && cars[player].lastApplied == input.tick
      ensures old(cars)[player].queue == [] ==> input == old(cars)[player].last && cars[player].lastApplied == old(cars)[player].lastApplied
    {
      var hc := cars[player];
      var kept := TrimQueue(hc.queue);
      hc := hc.(queue := kept);
      if hc.queue != [] {
        hc := hc.(last := hc.queue[0], queue := hc.queue[1..], lastApplied := hc.queue[0].tick);
      } else {
        hostStarvedTicks := hostStarvedTicks + 1;
      }
      cars := cars[player := hc];
      input := hc.last;
    }
  }

  // A player's inputs among those of all players, in order.
  function InputsOf(inputs: seq<PlayerInput>, player: int): seq<CarInput> {
    if inputs == [] then []
    else
      var front, pi := InputsOf(inputs[..|inputs| - 1], player), inputs[|inputs| - 1];
      if pi.playerId == player then front + [pi.input] else front
  }

  // ---- every run of one car's queue -------------------------------------------

  function TicksOf(queue: seq<CarInput>): seq<nat> {
    seq(|queue|, i requires 0 <= i < |queue| => queue[i].tick)
  }

  // A queue with the ticks it has ever queued, applied and trimmed away.
  datatype Ledger = Ledger(q: HostQueue, queued: seq<nat>, applied: seq<nat>, trimmed: seq<nat>)

  function Received(l: Ledger, input: CarInput): Ledger {
    if input.tick <= l.q.lastQueued then l
    else l.(q := Enqueue(l.q, input), queued := l.queued + [input.tick])
  }

  function ReceivedAll(l: Ledger, inputs: seq<CarInput>): (l': Ledger)
    ensures l'.q == EnqueueAll(l.q, inputs)
  {
    if inputs == [] then l
    else Received(ReceivedAll(l, inputs[..|inputs| - 1]), inputs[|inputs| - 1])
  }

  function Consumed(l: Ledger, maxBuffered: int): (l': Ledger)
    ensures l'.q == Consume(l.q, maxBuffered)
  {
    var kept := Trimmed(l.q.queue, maxBuffered);
    Ledger(Consume(l.q, maxBuffered), l.queued,
           if kept == [] then l.applied else l.applied + [kept[0].tick],
           l.trimmed + TicksOf(l.q.queue[..|l.q.queue| - |kept|]))
  }

  // A run: the inputs taken before each tick of the host, in any order, with any losses
  // and repetitions.
  function RunQueue(l: Ledger, batches: seq<seq<CarInput>>, maxBuffered: int): Ledger {
    if batches == [] then l
    else Consumed(ReceivedAll(RunQueue(l, batches[..|batches| - 1], maxBuffered), batches[|batches| - 1]), maxBuffered)
  }

  ghost predicate LedgerOk(l: Ledger) {
    && QueueOk(l.q)
    && Increasing(l.queued) && (forall i | 0 <= i < |l.queued| :: l.queued[i] <= l.q.lastQueued)
    && Increasing(l.applied) && (forall i | 0 <= i < |l.applied| :: l.applied[i] <= l.q.lastApplied)
    && multiset(l.queued) == multiset(l.applied) + multiset(l.trimmed) + multiset(TicksOf(l.q.queue))
  }

  lemma TicksAppend(queue: seq<CarInput>, input: CarInput)
    ensures TicksOf(queue + [input]) == TicksOf(queue) + [input.tick]
  {
  }

  lemma ReceivedKeeps(l: Ledger, input: CarInput)
    requires LedgerOk(l)
    ensures LedgerOk(Received(l, input)) && l.q.lastQueued <= Received(l, input).q.lastQueued
    ensures Received(l, input).q.lastApplied == l.q.lastApplied
  {
    TicksAppend(l.q.queue, input);
  }

  lemma {:induction false} ReceivedAllKeeps(l: Ledger, inputs: seq<CarInput>)
    requires LedgerOk(l)
    ensures LedgerOk(ReceivedAll(l, inputs)) && ReceivedAll(l, inputs).q.lastApplied == l.q.lastApplied
  {
    if inputs != [] {
      ReceivedAllKeeps(l, inputs[..|inputs| - 1]);
      ReceivedKeeps(ReceivedAll(l, inputs[..|inputs| - 1]), inputs[|inputs| - 1]);
    }
  }

  lemma TicksSplit(queue: seq<CarInput>, n: nat)
    requires n <= |queue|
    ensures multiset(TicksOf(queue)) == multiset(TicksOf(queue[..n])) + multiset(TicksOf(queue[n..]))
  {
    assert TicksOf(queue) == TicksOf(queue[..n]) + TicksOf(queue[n..]);
  }

  lemma ConsumedKeeps(l: Ledger, maxBuffered: int)
    requires LedgerOk(l)
    ensures LedgerOk(Consumed(l, maxBuffered)) && l.q.lastApplied <= Consumed(l, maxBuffered).q.lastApplied
    ensures |Consumed(l, maxBuffered).q.queue| <= (if maxBuffered < 2 then 1 else maxBuffered - 1)
  {
    ConsumedQueue(l.q, maxBuffered);
    ConsumedTicks(l, maxBuffered);
  }

  lemma ConsumedQueue(q: HostQueue, maxBuffered: int)
    requires QueueOk(q)
    ensures QueueOk(Consume(q, maxBuffered)) && q.lastApplied <= Consume(q, maxBuffered).lastApplied
    ensures q.queue != [] ==> Trimmed(q.queue, maxBuffered) != [] && q.lastApplied < Trimmed(q.queue, maxBuffered)[0].tick
  {
  }

  lemma OneTick(input: CarInput)
    ensures TicksOf([input]) == [input.tick]
  {
  }

  lemma ConsumedTicks(l: Ledger, maxBuffered: int)
    ensures var l' := Consumed(l, maxBuffered);
      multiset(l'.applied) + multiset(l'.trimmed) + multiset(TicksOf(l'.q.queue))
        == multiset(l.applied) + multiset(l.trimmed) + multiset(TicksOf(l.q.queue))
  {
    hide TicksOf, Trimmed, Consume;
    var kept, l' := Trimmed(l.q.queue, maxBuffered), Consumed(l, maxBuffered);
    QueueSplit(l.q.queue, maxBuffered);
    var cut := l.q.queue[..|l.q.queue| - |kept|];
    HeadTaken(l.q, maxBuffered);
    BagOfTwo(l.trimmed, TicksOf(cut));
    var head := if kept == [] then [] else [kept[0].tick];
    assert l'.applied == l.applied + head;
    BagOfTwo(l.applied, head);
    Regrouped(multiset(l.applied), multiset(l.trimmed), multiset(TicksOf(l'.q.queue)), multiset(head), multiset(TicksOf(cut)));
  }

  lemma BagOfTwo(a: seq<nat>, b: seq<nat>)
    ensures multiset(a + b) == multiset(a) + multiset(b)
  {
  }

  lemma Regrouped(a: multiset<nat>, t: multiset<nat>, q: multiset<nat>, head: multiset<nat>, cut: multiset<nat>)
    ensures (a + head) + (t + cut) + q == a + t + (cut + (head + q))
  {
  }

  lemma QueueSplit(queue: seq<CarInput>, maxBuffered: int)
    ensures var kept := Trimmed(queue, maxBuffered);
            |kept| <= |queue| && multiset(TicksOf(queue)) == multiset(TicksOf(queue[..|queue| - |kept|])) + multiset(TicksOf(kept))
  {
    hide TicksOf;
    var kept := Trimmed(queue, maxBuffered);
    assert kept == queue[|queue| - |kept|..];
    TicksSplit(queue, |queue| - |kept|);
  }

  lemma HeadTaken(q: HostQueue, maxBuffered: int)
    ensures var kept := Trimmed(q.queue, maxBuffered);
            multiset(TicksOf(kept)) == multiset(if kept == [] then [] else [kept[0].tick]) + multiset(TicksOf(Consume(q, maxBuffered).queue))
  {
    hide TicksOf, Trimmed;
    var kept := Trimmed(q.queue, maxBuffered);
    if kept != [] {
      TicksSplit(kept, 1);
      OneTick(kept[0]);
      assert kept[..1] == [kept[0]];
    } else {
      NoTicks();
    }
  }

  lemma NoTicks()
    ensures TicksOf([]) == []
  {
  }

  // Over every run: what is queued is applied at most once and in order, or trimmed, or
  // still waiting; the last tick applied never goes back; and a tick of the host
  // leaves at most the limit less one behind.
  lemma {:induction false} RunQueueKeeps(l: Ledger, batches: seq<seq<CarInput>>, maxBuffered: int)
    requires LedgerOk(l)
    ensures LedgerOk(RunQueue(l, batches, maxBuffered))
    ensures l.q.lastApplied <= RunQueue(l, batches, maxBuffered).q.lastApplied
    ensures batches != [] ==> |RunQueue(l, batches, maxBuffered).q.queue| <= (if maxBuffered < 2 then 1 else maxBuffered - 1)
  {
    if batches != [] {
      var front := batches[..|batches| - 1];
      RunQueueKeeps(l, front, maxBuffered);
      var before := RunQueue(l, front, maxBuffered);
      ReceivedAllKeeps(before, batches[|batches| - 1]);
      ConsumedKeeps(ReceivedAll(before, batches[|batches| - 1]), maxBuffered);
    }
  }

  // ---- which input drives the car ---------------------------------------------

  // The queue as a host tick finds it, and the ledger as the tick leaves it.
  function Found(l: Ledger, batches: seq<seq<CarInput>>, k: nat, maxBuffered: int): Ledger
    requires k < |batches|
  {
    ReceivedAll(RunQueue(l, batches[..k], maxBuffered), batches[k])
  }

  function Left(l: Ledger, batches: seq<seq<CarInput>>, k: nat, maxBuffered: int): Ledger
    requires k <= |batches|
  {
    RunQueue(l, batches[..k], maxBuffered)
  }

  ghost predicate WasReceived(l: Ledger, batches: seq<seq<CarInput>>, k: nat, input: CarInput) {
    input in l.q.queue || exists j :: 0 <= j < |batches| && j < k && input in batches[j]
  }

  lemma {:induction false} ReceivedFrom(l: Ledger, inputs: seq<CarInput>, input: CarInput)
    requires input in ReceivedAll(l, inputs).q.queue
    ensures input in l.q.queue || input in inputs
  {
    if inputs != [] {
      var front := inputs[..|inputs| - 1];
      if input in ReceivedAll(l, front).q.queue {
        ReceivedFrom(l, front, input);
      }
    }
  }

  // Whatever waits was received, whole.
  lemma {:induction false} WaitingReceived(l: Ledger, batches: seq<seq<CarInput>>, k: nat, maxBuffered: int, input: CarInput)
    requires k <= |batches|
    ensures input in Left(l, batches, k, maxBuffered).q.queue ==> WasReceived(l, batches, k, input)
    ensures k < |batches| && input in Found(l, batches, k, maxBuffered).q.queue ==> WasReceived(l, batches, k + 1, input)
  {
    hide ReceivedAll, Consumed;
    if k > 0 {
      WaitingReceived(l, batches, k - 1, maxBuffered, input);
      TickLeaves(l, batches, k - 1, maxBuffered);
      ConsumedFrom(Found(l, batches, k - 1, maxBuffered), maxBuffered, input);
    }
    if k < |batches| && input in Found(l, batches, k, maxBuffered).q.queue {
      ReceivedFrom(Left(l, batches, k, maxBuffered), batches[k], input);
    }
  }

  lemma TickLeaves(l: Ledger, batches: seq<seq<CarInput>>, k: nat, maxBuffered: int)
    requires k < |batches|
    ensures Left(l, batches, k + 1, maxBuffered) == Consumed(Found(l, batches, k, maxBuffered), maxBuffered)
  {
    hide ReceivedAll, Consumed;
    assert batches[..k + 1][..k] == batches[..k];
  }

  lemma ConsumedFrom(l: Ledger, maxBuffered: int, input: CarInput)
    ensures input in Consumed(l, maxBuffered).q.queue ==> input in l.q.queue
  {
  }

  // The oldest input waiting is next; after a burst, with more waiting than are buffered, the
  // older of the two newest, and those before it are gone.
  ghost predicate NextOf(waiting: seq<CarInput>, maxBuffered: int, next: CarInput, rest: seq<CarInput>) {
    exists i | 0 <= i < |waiting| ::
      && i == (if |waiting| > maxBuffered && |waiting| > 2 then |waiting| - 2 else 0)
      && next == waiting[i] && rest == waiting[i + 1..]
  }

  // What a tick drives the car with: with inputs waiting, the next of them, whole, as it was
  // received, whose tick is then the last one applied; with none, the input in force.
  lemma DrivenBy(l: Ledger, batches: seq<seq<CarInput>>, k: nat, maxBuffered: int)
    requires k < |batches|
    ensures var found, left := Found(l, batches, k, maxBuffered), Left(l, batches, k + 1, maxBuffered);
            && (found.q.queue != [] ==>
                  && NextOf(found.q.queue, maxBuffered, left.q.last, left.q.queue) && WasReceived(l, batches, k + 1, left.q.last)
                  && left.q.lastApplied == left.q.last.tick && left.applied == found.applied + [left.q.last.tick])
            && (found.q.queue == [] ==> left.q.queue == [] && left.q.last == found.q.last && left.q.lastApplied == found.q.lastApplied && left.applied == found.applied)
  {
    hide RunQueue, ReceivedAll, Found, Left;
    TickLeaves(l, batches, k, maxBuffered);
    WaitingReceived(l, batches, k, maxBuffered, Left(l, batches, k + 1, maxBuffered).q.last);
  }

  lemma {:induction false} ReceivingKeeps(l: Ledger, inputs: seq<CarInput>)
    ensures ReceivedAll(l, inputs).q.last == l.q.last && ReceivedAll(l, inputs).applied == l.applied
  {
    if inputs != [] {
      ReceivingKeeps(l, inputs[..|inputs| - 1]);
    }
  }

  // The inputs the car is driven with, tick by tick, starved ticks aside.
  function Drove(l: Ledger, batches: seq<seq<CarInput>>, k: nat, maxBuffered: int): seq<CarInput>
    requires k <= |batches|
  {
    if k == 0 then []
    else Drove(l, batches, k - 1, maxBuffered) +
         (if Found(l, batches, k - 1, maxBuffered).q.queue == [] then [] else [Left(l, batches, k, maxBuffered).q.last])
  }

  // Over every run: the inputs the car was driven with are received ones, each once, in the
  // order of their ticks, and exactly those that were applied; on a starved tick it is driven
  // with the last of them again.
  lemma {:induction false} DroveApplied(l: Ledger, batches: seq<seq<CarInput>>, k: nat, maxBuffered: int)
    requires LedgerOk(l) && k <= |batches|
    ensures var drove, left := Drove(l, batches, k, maxBuffered), Left(l, batches, k, maxBuffered);
            && left.applied == l.applied + TicksOf(drove) && Increasing(left.applied)
            && left.q.last == (if drove == [] then l.q.last else drove[|drove| - 1])
            && forall i | 0 <= i < |drove| :: WasReceived(l, batches, k, drove[i])
  {
    hide Found, Left, ReceivedAll, RunQueue, LedgerOk, WasReceived;
    if k == 0 {
      NothingDriven(l, batches, maxBuffered);
    } else {
      DroveApplied(l, batches, k - 1, maxBuffered);
      DrivenBy(l, batches, k - 1, maxBuffered);
      FoundKeeps(l, batches, k - 1, maxBuffered);
      var before := Drove(l, batches, k - 1, maxBuffered);
      forall i | 0 <= i < |before|
        ensures WasReceived(l, batches, k, before[i])
      {
        ReceivedStill(l, batches, k - 1, before[i]);
      }
      TicksAppend(before, Left(l, batches, k, maxBuffered).q.last);
      LeftIncreasing(l, batches, k, maxBuffered);
    }
  }

  lemma NothingDriven(l: Ledger, batches: seq<seq<CarInput>>, maxBuffered: int)
    requires LedgerOk(l)
    ensures Left(l, batches, 0, maxBuffered) == l && TicksOf([]) == [] && l.applied == l.applied + [] && Increasing(l.applied)
  {
  }

  lemma FoundKeeps(l: Ledger, batches: seq<seq<CarInput>>, k: nat, maxBuffered: int)
    requires k < |batches|
    ensures Found(l, batches, k, maxBuffered).q.last == Left(l, batches, k, maxBuffered).q.last
    ensures Found(l, batches, k, maxBuffered).applied == Left(l, batches, k, maxBuffered).applied
  {
    hide RunQueue, ReceivedAll;
    ReceivingKeeps(Left(l, batches, k, maxBuffered), batches[k]);
  }

  lemma ReceivedStill(l: Ledger, batches: seq<seq<CarInput>>, k: nat, input: CarInput)
    requires WasReceived(l, batches, k, input)
    ensures WasReceived(l, batches, k + 1, input)
  {
  }

  lemma LeftIncreasing(l: Ledger, batches: seq<seq<CarInput>>, k: nat, maxBuffered: int)
    requires LedgerOk(l) && k <= |batches|
    ensures Increasing(Left(l, batches, k, maxBuffered).applied)
  {
    hide RunQueue;
    RunQueueKeeps(l, batches[..k], maxBuffered);
  }

  // ---- lost packets ---------------------------------------------------------

  // A packet carries the newest inputs up to tick n, oldest first; base is the tick
  // before the first input of the match.
  ghost predicate IsPacket(packet: seq<CarInput>, n: nat, base: nat) {
    && base < n && |packet| == (if n - base < INPUT_REDUNDANCY then n - base else INPUT_REDUNDANCY)
    && forall i | 0 <= i < |packet| :: packet[i].tick == n - |packet| + 1 + i
  }

  // The network layer of one player: the last tick seen, if any, and what waits to be taken.
  datatype Seen = Seen(last: int, waiting: seq<CarInput>)

  const NONE := -1

  function Accept(c: Seen, input: CarInput): Seen {
    if c.last == NONE || input.tick > c.last || input.tick + TICK_RESET_WINDOW < c.last
    then Seen(input.tick, c.waiting + [input])
    else c
  }

  function AcceptAll(c: Seen, inputs: seq<CarInput>): Seen {
    if inputs == [] then c
    else Accept(AcceptAll(c, inputs[..|inputs| - 1]), inputs[|inputs| - 1])
  }

  // Both layers: taking what waits into the queue.
  function Taken(l: Ledger, c: Seen): Ledger {
    ReceivedAll(l, c.waiting)
  }

  ghost predicate Upto(s: seq<nat>, base: nat, n: nat) {
    |s| == n - base && forall i | 0 <= i < |s| :: s[i] == base + 1 + i
  }

  // So far every tick from base + 1 to n has been queued, or would be on taking what waits.
  ghost predicate CaughtUp(l: Ledger, c: Seen, base: nat, n: nat) {
    && base <= n && c.last <= n
    && Upto(Taken(l, c).queued, base, n)
    && (if n == base then Taken(l, c).q.lastQueued <= base else Taken(l, c).q.lastQueued == n)
  }

  lemma {:induction false} ReceivedAllAppends(l: Ledger, inputs: seq<CarInput>, input: CarInput)
    ensures ReceivedAll(l, inputs + [input]) == Received(ReceivedAll(l, inputs), input)
  {
    assert (inputs + [input])[..|inputs|] == inputs;
  }

  // One input of a packet: nothing new, or exactly the next tick.
  lemma AcceptCatchesUp(l: Ledger, c: Seen, base: nat, n: nat, input: CarInput)
    requires CaughtUp(l, c, base, n) && base < input.tick <= n + 1
    ensures CaughtUp(l, Accept(c, input), base, if input.tick <= n then n else n + 1)
  {
    ReceivedAllAppends(l, c.waiting, input);
  }

  lemma {:induction false} PacketCatchesUp(l: Ledger, c: Seen, base: nat, n: nat, packet: seq<CarInput>, first: nat)
    requires CaughtUp(l, c, base, n) && base < first <= n + 1
    requires forall i | 0 <= i < |packet| :: packet[i].tick == first + i
    ensures CaughtUp(l, AcceptAll(c, packet), base, if first + |packet| <= n + 1 then n else first + |packet| - 1)
  {
    if packet != [] {
      var front := packet[..|packet| - 1];
      PacketCatchesUp(l, c, base, n, front, first);
      var m := if first + |front| <= n + 1 then n else first + |front| - 1;
      AcceptCatchesUp(l, AcceptAll(c, front), base, m, packet[|packet| - 1]);
    }
  }

  // Packet n after any packet that is at most four behind, or any packet at all that
  // is not newer: no tick is lost, and none is queued twice.
  lemma NoTickLost(l: Ledger, c: Seen, base: nat, m: nat, packet: seq<CarInput>, n: nat)
    requires CaughtUp(l, c, base, m) && IsPacket(packet, n, base) && n <= m + INPUT_REDUNDANCY
    ensures CaughtUp(l, AcceptAll(c, packet), base, if n <= m then m else n)
  {
    PacketCatchesUp(l, c, base, m, packet, n - |packet| + 1);
  }

  // With one more packet missing a tick is lost for good.
  lemma GapLosesTick(l: Ledger, c: Seen, base: nat, m: nat, packet: seq<CarInput>, n: nat)
    requires CaughtUp(l, c, base, m) && IsPacket(packet, n, base) && n > m + INPUT_REDUNDANCY
    ensures m + 1 !in Taken(l, AcceptAll(c, packet)).queued
    ensures Taken(l, AcceptAll(c, packet)).q.lastQueued > m + 1
  {
    OnlyPacketQueued(l, c, packet, m + 1);
  }

  lemma {:induction false} OnlyPacketQueued(l: Ledger, c: Seen, packet: seq<CarInput>, tick: nat)
    requires tick !in Taken(l, c).queued && c.last < tick && Taken(l, c).q.lastQueued < tick
    requires forall i | 0 <= i < |packet| :: packet[i].tick > tick
    requires forall i, j | 0 <= i < j < |packet| :: packet[i].tick < packet[j].tick
    ensures tick !in Taken(l, AcceptAll(c, packet)).queued
    ensures packet != [] ==> AcceptAll(c, packet).last == packet[|packet| - 1].tick
    ensures packet != [] ==> Taken(l, AcceptAll(c, packet)).q.lastQueued == packet[|packet| - 1].tick
  {
    hide Accept, Taken;
    if packet != [] {
      var front, input := packet[..|packet| - 1], packet[|packet| - 1];
      OnlyPacketQueued(l, c, front, tick);
      assert front != [] ==> front[|front| - 1].tick < input.tick;
      NewerQueued(l, AcceptAll(c, front), input);
    }
  }

  // An input newer than everything is accepted and queued.
  lemma NewerQueued(l: Ledger, c: Seen, input: CarInput)
    requires c.last < input.tick && Taken(l, c).q.lastQueued < input.tick
    ensures Accept(c, input).last == input.tick && Taken(l, Accept(c, input)).q.lastQueued == input.tick
    ensures Taken(l, Accept(c, input)).queued == Taken(l, c).queued + [input.tick]
  {
    hide ReceivedAll;
    ReceivedAllAppends(l, c.waiting, input);
  }

  // The network layer of all players, as one of them sees it.
  function SeenOf(n: Network, player: int): Seen {
    Seen(if player in n.lastTick then n.lastTick[player] else NONE, InputsOf(n.queued, player))
  }

  // The inputs an overflow throws away.
  function Lost(n: Network, from: PlayerInput): seq<PlayerInput> {
    var all := n.queued + [from];
    if Acceptable(n.lastTick, from.playerId, from.input.tick) && |all| > MAX_QUEUED_INPUTS then all[..|all| / 2] else []
  }

  lemma {:induction false} InputsOfJoins(a: seq<PlayerInput>, b: seq<PlayerInput>, player: int)
    ensures InputsOf(a + b, player) == InputsOf(a, player) + InputsOf(b, player)
  {
    if b == [] {
      assert a + b == a;
    } else {
      assert (a + b)[..|a + b| - 1] == a + b[..|b| - 1];
      InputsOfJoins(a, b[..|b| - 1], player);
    }
  }

  // To each player the shared layer is its own: an input of another player changes nothing,
  // an input of its own is accepted as if it were alone, and an overflow takes away the
  // oldest of what waits for it.
  lemma AcceptProjects(n: Network, from: PlayerInput, player: int)
    ensures var c := if from.playerId == player then Accept(SeenOf(n, player), from.input) else SeenOf(n, player);
            var lost := InputsOf(Lost(n, from), player);
            && lost <= c.waiting
            && SeenOf(NetAccept(n, from), player) == c.(waiting := c.waiting[|lost|..])
  {
    hide InputsOf;
    var all := n.queued + [from];
    InputsOfJoins(n.queued, [from], player);
    OneInput(from, player);
    HalfLost(all, |all| / 2, player);
    NoInputs(player);
  }

  lemma NoInputs(player: int)
    ensures InputsOf([], player) == []
  {
  }

  lemma HalfLost(all: seq<PlayerInput>, half: nat, player: int)
    requires half <= |all|
    ensures var lost := InputsOf(all[..half], player);
            lost <= InputsOf(all, player) && InputsOf(all[half..], player) == InputsOf(all, player)[|lost|..]
  {
    hide InputsOf;
    assert all == all[..half] + all[half..];
    InputsOfJoins(all[..half], all[half..], player);
  }

  lemma OneInput(from: PlayerInput, player: int)
    ensures InputsOf([from], player) == if from.playerId == player then [from.input] else []
  {
    assert [from][..0] == [];
    assert InputsOf([], player) == [];
  }

  // What happens to one player's packets: one arrives, or the host takes and consumes.
  datatype Happening = Packet(n: nat, inputs: seq<CarInput>) | HostTick

  function Happened(l: Ledger, c: Seen, h: Happening, maxBuffered: int): (Ledger, Seen) {
    match h
    case Packet(n, inputs) => (l, AcceptAll(c, inputs))
    case HostTick => (Consumed(Taken(l, c), maxBuffered), c.(waiting := []))
  }

  function Run(l: Ledger, c: Seen, hs: seq<Happening>, maxBuffered: int): (Ledger, Seen) {
    if hs == [] then (l, c)
    else
      var (l', c') := Run(l, c, hs[..|hs| - 1], maxBuffered);
      Happened(l', c', hs[|hs| - 1], maxBuffered)
  }

  function NewestPacket(hs: seq<Happening>, base: nat): nat {
    if hs == [] then base
    else
      var n, h := NewestPacket(hs[..|hs| - 1], base), hs[|hs| - 1];
      if h.Packet? && h.n > n then h.n else n
  }

  // Packets come in any order and any number of times, but between two that bring
  // something new at most four are missing.
  ghost predicate FewLost(hs: seq<Happening>, base: nat) {
    forall k | 0 <= k < |hs| && hs[k].Packet? ::
      IsPacket(hs[k].inputs, hs[k].n, base) && hs[k].n <= NewestPacket(hs[..k], base) + INPUT_REDUNDANCY
  }

  // Every tick up to the newest packet is queued exactly once, in order.
  lemma {:induction false} EveryTickQueued(l: Ledger, c: Seen, hs: seq<Happening>, base: nat, maxBuffered: int)
    requires CaughtUp(l, c, base, base) && FewLost(hs, base)
    ensures CaughtUp(Run(l, c, hs, maxBuffered).0, Run(l, c, hs, maxBuffered).1, base, NewestPacket(hs, base))
  {
    if hs != [] {
      var front := hs[..|hs| - 1];
      assert forall k | 0 <= k < |front| :: front[..k] == hs[..k];
      EveryTickQueued(l, c, front, base, maxBuffered);
      var (l', c') := Run(l, c, front, maxBuffered);
      match hs[|hs| - 1]
      case Packet(n, inputs) => NoTickLost(l', c', base, NewestPacket(front, base), inputs, n);
      case HostTick =>
    }
  }

  // ---- all players over the one network layer -----------------------------------

  function NetAcceptAll(n: Network, player: int, inputs: seq<CarInput>): Network {
    if inputs == [] then n
    else NetAccept(NetAcceptAll(n, player, inputs[..|inputs| - 1]), PlayerInput(player, inputs[|inputs| - 1]))
  }

  // The network layer and the queue of every remote car.
  datatype Room = Room(net: Network, ledgers: map<int, Ledger>)

  datatype RoomEvent = Arrives(player: int, n: nat, inputs: seq<CarInput>) | RoomTick

  function RoomAfter(r: Room, e: RoomEvent, maxBuffered: int): Room {
    match e
    case Arrives(player, n, inputs) => r.(net := NetAcceptAll(r.net, player, inputs))
    case RoomTick =>
      Room(r.net.(queued := []),
           map player | player in r.ledgers :: Consumed(ReceivedAll(r.ledgers[player], InputsOf(r.net.queued, player)), maxBuffered))
  }

  function RoomRun(r: Room, es: seq<RoomEvent>, maxBuffered: int): Room {
    if es == [] then r else RoomAfter(RoomRun(r, es[..|es| - 1], maxBuffered), es[|es| - 1], maxBuffered)
  }

  // What of it happens to one player.
  function OwnEvents(es: seq<RoomEvent>, player: int): seq<Happening> {
    if es == [] then []
    else
      var before := OwnEvents(es[..|es| - 1], player);
      match es[|es| - 1]
      case Arrives(p, n, inputs) => if p == player then before + [Packet(n, inputs)] else before
      case RoomTick => before + [HostTick]
  }

  // Between two host ticks no more arrives than the network layer holds.
  ghost predicate Roomy(r: Room, es: seq<RoomEvent>, maxBuffered: int) {
    forall k | 0 <= k < |es| && es[k].Arrives? ::
      |RoomRun(r, es[..k], maxBuffered).net.queued| + |es[k].inputs| <= MAX_QUEUED_INPUTS
  }

  lemma {:induction false} PacketProjects(n: Network, from: int, inputs: seq<CarInput>, player: int)
    requires |n.queued| + |inputs| <= MAX_QUEUED_INPUTS
    ensures |NetAcceptAll(n, from, inputs).queued| <= |n.queued| + |inputs|
    ensures SeenOf(NetAcceptAll(n, from, inputs), player)
              == if from == player then AcceptAll(SeenOf(n, player), inputs) else SeenOf(n, player)
  {
    hide Accept, SeenOf;
    if inputs != [] {
      var front := inputs[..|inputs| - 1];
      PacketProjects(n, from, front, player);
      AcceptProjects(NetAcceptAll(n, from, front), PlayerInput(from, inputs[|inputs| - 1]), player);
    }
  }

  // One event, as one player sees it.
  lemma RoomStep(r: Room, e: RoomEvent, player: int, maxBuffered: int)
    requires player in r.ledgers && (e.Arrives? ==> |r.net.queued| + |e.inputs| <= MAX_QUEUED_INPUTS)
    ensures var t, l, c := RoomAfter(r, e, maxBuffered), r.ledgers[player], SeenOf(r.net, player);
            && player in t.ledgers
            && (t.ledgers[player], SeenOf(t.net, player)) ==
                 match e
                 case Arrives(p, n, inputs) => if p == player then Happened(l, c, Packet(n, inputs), maxBuffered) else (l, c)
                 case RoomTick => Happened(l, c, HostTick, maxBuffered)
  {
    hide Consumed, ReceivedAll, AcceptAll, NetAcceptAll;
    match e
    case Arrives(p, n, inputs) => PacketProjects(r.net, p, inputs, player);
    case RoomTick => NoInputs(player);
  }

  // Every player's queue and ticks are those of a run of its own, whatever the others send.
  lemma {:induction false} RoomProjects(r: Room, es: seq<RoomEvent>, player: int, maxBuffered: int)
    requires player in r.ledgers && Roomy(r, es, maxBuffered)
    ensures var t := RoomRun(r, es, maxBuffered);
            && player in t.ledgers
            && (t.ledgers[player], SeenOf(t.net, player))
                 == Run(r.ledgers[player], SeenOf(r.net, player), OwnEvents(es, player), maxBuffered)
  {
    hide RoomAfter, SeenOf, Happened;
    if es == [] {
    } else {
      var n := |es| - 1;
      var front, e := es[..n], es[n];
      assert forall k | 0 <= k < n :: front[..k] == es[..k] && front[k] == es[k];
      RoomProjects(r, front, player, maxBuffered);
      assert e.Arrives? ==> |RoomRun(r, es[..n], maxBuffered).net.queued| + |es[n].inputs| <= MAX_QUEUED_INPUTS;
      RoomStep(RoomRun(r, front, maxBuffered), e, player, maxBuffered);
      var own := OwnEvents(front, player);
      match e
      case Arrives(from, m, inputs) =>
        if from == player {
          RunMore(r.ledgers[player], SeenOf(r.net, player), own, Packet(m, inputs), maxBuffered);
        }
      case RoomTick =>
        RunMore(r.ledgers[player], SeenOf(r.net, player), own, HostTick, maxBuffered);
    }
  }

  lemma RunMore(l: Ledger, c: Seen, hs: seq<Happening>, h: Happening, maxBuffered: int)
    ensures Run(l, c, hs + [h], maxBuffered)
              == Happened(Run(l, c, hs, maxBuffered).0, Run(l, c, hs, maxBuffered).1, h, maxBuffered)
  {
    assert (hs + [h])[..|hs|] == hs;
  }

  // So in a room of any number of players, every one of them with few enough packets lost
  // gets every tick up to its newest packet queued exactly once and in order.
  lemma EveryPlayersTicks(r: Room, es: seq<RoomEvent>, player: int, base: nat, maxBuffered: int)
    requires player in r.ledgers && Roomy(r, es, maxBuffered)
    requires CaughtUp(r.ledgers[player], SeenOf(r.net, player), base, base) && FewLost(OwnEvents(es, player), base)
    ensures var t := RoomRun(r, es, maxBuffered);
            && player in t.ledgers
            && CaughtUp(t.ledgers[player], SeenOf(t.net, player), base, NewestPacket(OwnEvents(es, player), base))
  {
    hide CaughtUp, FewLost, Roomy, Run, RoomRun;
    RoomProjects(r, es, player, maxBuffered);
    EveryTickQueued(r.ledgers[player], SeenOf(r.net, player), OwnEvents(es, player), base, maxBuffered);
  }
}
