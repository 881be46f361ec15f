/** The two lock-free counters, `GenerationCapacity` (counting what is left) and the connection
    slots (counting what is taken), under every interleaving of their threads. */
module Permits {
  import opened Wrappers

  const MAX_CONNECTION_WORKERS: nat := 128

  datatype Counter = Permits(limit: nat) | Slots(limit: nat)

  const CONNECTION_SLOTS := Slots(MAX_CONNECTION_WORKERS)

  function StartValue(k: Counter): int {
    if k.Permits? then k.limit else 0
  }

  predicate Exhausted(k: Counter, value: int) {
    if k.Permits? then value == 0 else value >= k.limit
  }

  function Taken(k: Counter, value: int): int {
    if k.Permits? then value - 1 else value + 1
  }

  function PutBack(k: Counter, value: int): int {
    if k.Permits? then value + 1 else value - 1
  }

  function InUse(k: Counter, value: int): int {
    if k.Permits? then k.limit - value else value
  }

  /** A thread between calls, inside the loop with the value it last saw, or holding a permit. */
  datatype Thread = Outside | Trying(observed: int) | Holding

  datatype State = State(value: int, threads: seq<Thread>)

  /** The atomic steps: the load, a compare-exchange that succeeds, one that fails (for whatever
      reason: it is a weak one), giving up, and dropping the permit. */
  datatype Event = Load(i: nat) | Exchange(i: nat) | Fail(i: nat) | GiveUp(i: nat) | Drop(i: nat)

  /** The state after an event, or nothing if it cannot happen. */
  function Step(k: Counter, s: State, e: Event): Option<State> {
    if e.i >= |s.threads| then None
    else
      var thread := s.threads[e.i];
      match e
      case Load(i) => if thread.Outside? then Some(s.(threads := s.threads[i := Trying(s.value)])) else None
      case Exchange(i) =>
        if thread.Trying? && !Exhausted(k, thread.observed) && s.value == thread.observed
        then Some(State(Taken(k, thread.observed), s.threads[i := Holding]))
        else None
      case Fail(i) =>
        if thread.Trying? && !Exhausted(k, thread.observed)
        then Some(s.(threads := s.threads[i := Trying(s.value)]))
        else None
      case GiveUp(i) =>
        if thread.Trying? && Exhausted(k, thread.observed)
        then Some(s.(threads := s.threads[i := Outside]))
        else None
      case Drop(i) =>
        if thread.Holding? then Some(State(PutBack(k, s.value), s.threads[i := Outside])) else None
  }

  function Execute(k: Counter, s: State, events: seq<Event>): Option<State>
    decreases |events|
  {
    if events == [] then Some(s)
    else
      match Step(k, s, events[0])
      case None => None
      case Some(next) => Execute(k, next, events[1..])
  }

  function StartState(k: Counter, threads: nat): State {
    State(StartValue(k), seq(threads, i requires 0 <= i < threads => Outside))
  }

  // ------------------------------------------------------- atomic semaphore

  /** What a caller sees: a permit granted, a refusal, a permit returned, each in one step. */
  datatype Act = Grant(i: nat) | Refuse(i: nat) | Return(i: nat)

  function Held(holders: seq<bool>): nat {
    if holders == [] then 0 else (if holders[0] then 1 else 0) + Held(holders[1..])
  }

  /** A permit is refused only when all are out. */
  function Act1(limit: nat, holders: seq<bool>, a: Act): Option<seq<bool>> {
    if a.i >= |holders| then None
    else
      match a
      case Grant(i) => if !holders[i] && Held(holders) < limit then Some(holders[i := true]) else None
      case Refuse(i) => if !holders[i] && Held(holders) == limit then Some(holders) else None
      case Return(i) => if holders[i] then Some(holders[i := false]) else None
  }

  function Perform(limit: nat, holders: seq<bool>, acts: seq<Act>): Option<seq<bool>>
    decreases |acts|
  {
    if acts == [] then Some(holders)
    else
      match Act1(limit, holders, acts[0])
      case None => None
      case Some(next) => Perform(limit, next, acts[1..])
  }

  // -------------------------------------------------------------- refinement

  /** Where each call takes effect: a refusal at the reading that shows nothing left. */
  function Effect(k: Counter, s: State, e: Event): seq<Act> {
    match e
    case Load(i) => if Exhausted(k, s.value) then [Refuse(i)] else []
    case Exchange(i) => [Grant(i)]
    case Fail(i) => if Exhausted(k, s.value) then [Refuse(i)] else []
    case GiveUp(_) => []
    case Drop(i) => [Return(i)]
  }

  function Effects(k: Counter, s: State, events: seq<Event>): seq<Act>
    decreases |events|
  {
    if events == [] then []
    else
      match Step(k, s, events[0])
      case None => []
      case Some(next) => Effect(k, s, events[0]) + Effects(k, next, events[1..])
  }

  function Holders(s: State): (r: seq<bool>)
    ensures |r| == |s.threads|
  {
    seq(|s.threads|, i requires 0 <= i < |s.threads| => s.threads[i].Holding?)
  }

  /** Permits left and permits held always add up. */
  ghost predicate Conserved(k: Counter, s: State) {
    InUse(k, s.value) == Held(Holders(s)) <= k.limit
  }

  lemma {:induction false} HeldUpdate(holders: seq<bool>, i: nat, b: bool)
    requires i < |holders|
    ensures Held(holders[i := b]) == Held(holders) - (if holders[i] then 1 else 0) + (if b then 1 else 0)
  {
    var updated := holders[i := b];
    if i == 0 {
      assert updated[1..] == holders[1..];
    } else {
      HeldUpdate(holders[1..], i - 1, b);
      assert updated[1..] == holders[1..][i - 1 := b];
    }
  }

  lemma StepRefines(k: Counter, s: State, e: Event)
    requires Conserved(k, s) && Step(k, s, e).Some?
    ensures var next := Step(k, s, e).value;
            && Conserved(k, next)
            && Perform(k.limit, Holders(s), Effect(k, s, e)) == Some(Holders(next))
  {
    var next := Step(k, s, e).value;
    var thread := next.threads[e.i];
    HeldUpdate(Holders(s), e.i, thread.Holding?);
    assert Holders(next) == Holders(s)[e.i := thread.Holding?];
    var acts := Effect(k, s, e);
    if acts == [] {
      assert Holders(next) == Holders(s);
    } else {
      assert acts[1..] == [];
      match e {
        case Load(i) => assert Holders(next) == Holders(s);
        case Fail(i) => assert Holders(next) == Holders(s);
        case _ =>
      }
    }
  }

  lemma {:induction false} PerformConcat(limit: nat, holders: seq<bool>, a: seq<Act>, b: seq<Act>)
    ensures Perform(limit, holders, a + b)
         == match Perform(limit, holders, a) case None => None case Some(mid) => Perform(limit, mid, b)
    decreases |a|
  {
    if a == [] {
      assert a + b == b;
    } else {
      assert (a + b)[0] == a[0] && (a + b)[1..] == a[1..] + b;
      match Act1(limit, holders, a[0]) {
        case None =>
        case Some(next) => PerformConcat(limit, next, a[1..], b);
      }
    }
  }

  lemma {:induction false} ExecuteRefines(k: Counter, s: State, events: seq<Event>)
    requires Conserved(k, s) && Execute(k, s, events).Some?
    ensures var end := Execute(k, s, events).value;
            && Conserved(k, end)
            && Perform(k.limit, Holders(s), Effects(k, s, events)) == Some(Holders(end))
    decreases |events|
  {
    if events != [] {
      StepRefines(k, s, events[0]);
      var next := Step(k, s, events[0]).value;
      ExecuteRefines(k, next, events[1..]);
      PerformConcat(k.limit, Holders(s), Effect(k, s, events[0]), Effects(k, next, events[1..]));
    }
  }

  lemma {:induction false} NobodyHolds(n: nat)
    ensures Held(seq(n, i requires 0 <= i < n => false)) == 0
  {
    if n > 0 {
      NobodyHolds(n - 1);
      assert seq(n, i requires 0 <= i < n => false)[1..] == seq(n - 1, i requires 0 <= i < n - 1 => false);
    }
  }

  /** However the threads interleave and however often an exchange fails, the counter behaves as
      one that grants, refuses and takes back permits in single steps: never more than `limit` are
      held, what is left and what is held add up, and only an exhausted counter refuses. */
  lemma InterleavingsAreAtomic(k: Counter, threads: nat, events: seq<Event>)
    requires Execute(k, StartState(k, threads), events).Some?
    ensures var start := StartState(k, threads);
            var end := Execute(k, start, events).value;
            && InUse(k, end.value) == Held(Holders(end)) && 0 <= InUse(k, end.value) <= k.limit
            && Perform(k.limit, Holders(start), Effects(k, start, events)) == Some(Holders(end))
  {
    var start := StartState(k, threads);
    NobodyHolds(threads);
    assert Holders(start) == seq(threads, i requires 0 <= i < threads => false);
    ExecuteRefines(k, start, events);
  }

  /** So no more than 128 connections are ever served at once, and the count is exact. */
  lemma ConnectionSlotsAreBounded(threads: nat, events: seq<Event>)
    requires Execute(CONNECTION_SLOTS, StartState(CONNECTION_SLOTS, threads), events).Some?
    ensures var end := Execute(CONNECTION_SLOTS, StartState(CONNECTION_SLOTS, threads), events).value;
            0 <= end.value == Held(Holders(end)) <= MAX_CONNECTION_WORKERS
  {
    InterleavingsAreAtomic(CONNECTION_SLOTS, threads, events);
  }

  /** The value a thread saw was there to be seen: who gives up was refused, when it last looked,
      by a counter with every permit out. */
  lemma {:induction false} GivingUpWasRefused(k: Counter, s: State, events: seq<Event>, i: nat)
    requires i < |s.threads| && !s.threads[i].Trying?
    requires Execute(k, s, events).Some? && Step(k, Execute(k, s, events).value, GiveUp(i)).Some?
    ensures Refuse(i) in Effects(k, s, events)
    decreases |events|
  {
    if events != [] {
      var next := Step(k, s, events[0]).value;
      if !next.threads[i].Trying? {
        GivingUpWasRefused(k, next, events[1..], i);
      } else if !Exhausted(k, next.threads[i].observed) {
        TryingToTheEnd(k, next, events[1..], i);
      } else {
        assert Refuse(i) in Effect(k, s, events[0]);
      }
    }
  }

  lemma {:induction false} TryingToTheEnd(k: Counter, s: State, events: seq<Event>, i: nat)
    requires i < |s.threads| && s.threads[i].Trying? && !Exhausted(k, s.threads[i].observed)
    requires Execute(k, s, events).Some? && Step(k, Execute(k, s, events).value, GiveUp(i)).Some?
    ensures Refuse(i) in Effects(k, s, events)
    decreases |events|
  {
    if events != [] {
      var next := Step(k, s, events[0]).value;
      if next.threads[i].Trying? && !Exhausted(k, next.threads[i].observed) {
        TryingToTheEnd(k, next, events[1..], i);
      } else if !next.threads[i].Trying? {
        GivingUpWasRefused(k, next, events[1..], i);
      } else {
        assert Refuse(i) in Effect(k, s, events[0]);
      }
    }
  }
}
