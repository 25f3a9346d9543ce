/** The bounded telemetry queue with its emitters, its background worker and any number of flushes. */
module Telemetry {
  import opened Basics

  /** The queue, what each draining thread has taken but not yet written, what each emitter that met a full queue is
      about to write, and the files. A failed disk write is logged and the event is lost. The rest is history:
      everything emitted, everything the queue accepted, and, by position in `accepted`, how much was taken, who holds
      what, and in what order the main file received it. */
  datatype Pipe<E> = Pipe(
    queue: seq<E>, hands: map<nat, E>, spills: map<nat, E>,
    written: seq<E>, overflow: seq<E>, lost: seq<E>,
    emitted: seq<E>, accepted: seq<E>, taken: nat, tickets: map<nat, nat>, order: seq<nat>)

  /** The moves of the threads, each under its number; `ok` is whether the disk write goes through. Emitting is a put
      and, when the queue is full, a write; draining, by the worker or by a flush, is a take and a write. */
  datatype Step<E> =
    | Emit(thread: nat, event: E)
    | Spill(thread: nat, ok: bool)
    | Take(thread: nat)
    | Write(thread: nat, ok: bool)

  /** Python's queue: a bound that is not positive is no bound. */
  predicate Full<E>(p: Pipe<E>, bound: int) { 0 < bound <= |p.queue| }

  function StepPipe<E>(p: Pipe<E>, bound: int, s: Step<E>): Pipe<E> {
    match s
    case Emit(t, e) =>
      if t in p.spills then p
      else if Full(p, bound) then p.(emitted := p.emitted + [e], spills := p.spills[t := e])
      else p.(emitted := p.emitted + [e], queue := p.queue + [e], accepted := p.accepted + [e])
    case Spill(t, ok) =>
      if t !in p.spills then p
      else if ok then p.(spills := p.spills - {t}, overflow := p.overflow + [p.spills[t]])
      else p.(spills := p.spills - {t}, lost := p.lost + [p.spills[t]])
    case Take(d) =>
      if d in p.hands || p.queue == [] then p
      else p.(hands := p.hands[d := p.queue[0]], queue := p.queue[1..],
              taken := p.taken + 1, tickets := p.tickets[d := p.taken])
    case Write(d, ok) =>
      if d !in p.hands then p
      else
        var p' := p.(hands := p.hands - {d}, tickets := p.tickets - {d});
        if ok then p'.(written := p.written + [p.hands[d]],
                       order := p.order + if d in p.tickets then [p.tickets[d]] else [])
        else p'.(lost := p.lost + [p.hands[d]])
  }

  function Start<E>(): Pipe<E> { Pipe([], map[], map[], [], [], [], [], [], 0, map[], []) }

  function Run<E>(bound: int, steps: seq<Step<E>>): Pipe<E> {
    if steps == [] then Start() else StepPipe(Run(bound, steps[..|steps| - 1]), bound, steps[|steps| - 1])
  }

  /** An emitted event is queued unless the bound is positive and reached; then it is the emitter's to write to the
      overflow file. A draining thread takes the oldest event. */
  lemma EmitExactly<E>(p: Pipe<E>, bound: int, t: nat, e: E)
    requires t !in p.spills
    ensures var p' := StepPipe(p, bound, Emit(t, e));
            && p'.emitted == p.emitted + [e] && p'.written == p.written && p'.overflow == p.overflow
            && p'.lost == p.lost
            && (if bound <= 0 || |p.queue| < bound
                then p'.queue == p.queue + [e] && p'.spills == p.spills
                else p'.queue == p.queue && p'.spills == p.spills[t := e])
    ensures var full := StepPipe(p, bound, Emit(t, e));
            t in full.spills ==> StepPipe(full, bound, Spill(t, true)).overflow == p.overflow + [e]
    ensures t !in p.hands && p.queue != [] ==>
              var p' := StepPipe(p, bound, Take(t));
              p'.hands == p.hands[t := p.queue[0]] && p.queue == [p.queue[0]] + p'.queue
    ensures t in p.hands ==> StepPipe(p, bound, Write(t, true)).written == p.written + [p.hands[t]]
  {
  }

  // ---------------------------------------------------------------- conservation

  ghost function Occurrences<E>(s: seq<E>, x: E): nat { multiset(s)[x] }

  /** The threads that hold `x`. */
  ghost function Holders<E>(m: map<nat, E>, x: E): set<nat> { set k | k in m && m[k] == x }

  lemma {:induction false} OneMore<E>(s: seq<E>, e: E, x: E)
    ensures Occurrences(s + [e], x) == Occurrences(s, x) + if x == e then 1 else 0
  {
  }

  lemma {:induction false} OneLess<E>(s: seq<E>, x: E)
    requires s != []
    ensures Occurrences(s[1..], x) + (if x == s[0] then 1 else 0) == Occurrences(s, x)
  {
    assert s == [s[0]] + s[1..];
  }

  lemma HoldersPut<E>(m: map<nat, E>, k: nat, e: E, x: E)
    requires k !in m
    ensures |Holders(m[k := e], x)| == |Holders(m, x)| + if x == e then 1 else 0
  {
    assert Holders(m[k := e], x) == if x == e then Holders(m, x) + {k} else Holders(m, x);
  }

  lemma HoldersDrop<E>(m: map<nat, E>, k: nat, x: E)
    requires k in m
    ensures |Holders(m - {k}, x)| + (if x == m[k] then 1 else 0) == |Holders(m, x)|
  {
    assert Holders(m - {k}, x) == Holders(m, x) - {k};
  }

  /** How often an event is found in all places together. */
  ghost function Found<E>(p: Pipe<E>, x: E): nat {
    Occurrences(p.queue, x) + |Holders(p.hands, x)| + |Holders(p.spills, x)|
    + Occurrences(p.written, x) + Occurrences(p.overflow, x) + Occurrences(p.lost, x)
  }

  lemma StepConserves<E>(p: Pipe<E>, bound: int, s: Step<E>, x: E)
    ensures Found(StepPipe(p, bound, s), x) - Occurrences(StepPipe(p, bound, s).emitted, x)
            == Found(p, x) - Occurrences(p.emitted, x)
  {
    hide Occurrences, Holders;
    match s
    case Emit(t, e) =>
      OneMore(p.emitted, e, x);
      OneMore(p.queue, e, x);
      if t !in p.spills { HoldersPut(p.spills, t, e, x); }
    case Spill(t, _) =>
      if t in p.spills {
        HoldersDrop(p.spills, t, x);
        OneMore(p.overflow, p.spills[t], x);
        OneMore(p.lost, p.spills[t], x);
      }
    case Take(d) =>
      if d !in p.hands && p.queue != [] {
        OneLess(p.queue, x);
        HoldersPut(p.hands, d, p.queue[0], x);
      }
    case Write(d, _) =>
      if d in p.hands {
        HoldersDrop(p.hands, d, x);
        OneMore(p.written, p.hands[d], x);
        OneMore(p.lost, p.hands[d], x);
      }
  }

  /** Under any interleaving of emitters, worker and flushes, every emitted event is in exactly one place, as often as
      it was emitted: queued, in the hands of a thread, in the main file, in the overflow file, or lost to a failed
      write. */
  lemma {:induction false} EveryEventAccountedFor<E>(bound: int, steps: seq<Step<E>>, x: E)
    ensures Found(Run(bound, steps), x) == multiset(Run(bound, steps).emitted)[x]
  {
    if steps == [] {
    } else {
      EveryEventAccountedFor(bound, steps[..|steps| - 1], x);
      StepConserves(Run(bound, steps[..|steps| - 1]), bound, steps[|steps| - 1], x);
      hide StepPipe;
    }
  }

  /** The queue never outgrows its bound. */
  lemma {:induction false} QueueBounded<E>(bound: int, steps: seq<Step<E>>)
    requires 0 < bound
    ensures |Run(bound, steps).queue| <= bound
  {
    if steps == [] {
    } else {
      QueueBounded(bound, steps[..|steps| - 1]);
    }
  }

  /** The step is a disk write that has something to write and fails. */
  predicate FailedWrite<E>(p: Pipe<E>, s: Step<E>) {
    (s.Spill? && s.thread in p.spills && !s.ok) || (s.Write? && s.thread in p.hands && !s.ok)
  }

  function FailedWrites<E>(bound: int, steps: seq<Step<E>>): nat {
    if steps == [] then 0
    else
      var before := steps[..|steps| - 1];
      FailedWrites(bound, before) + if FailedWrite(Run(bound, before), steps[|steps| - 1]) then 1 else 0
  }

  /** Events are lost to failed disk writes and to nothing else: as many as writes failed, so none exactly when none
      did. */
  lemma {:induction false} LossIsFailedWrites<E>(bound: int, steps: seq<Step<E>>)
    ensures |Run(bound, steps).lost| == FailedWrites(bound, steps)
  {
    if steps == [] {
    } else {
      LossIsFailedWrites(bound, steps[..|steps| - 1]);
    }
  }

  // ---------------------------------------------------------------- the order of the main file

  /** The histories by position describe the events themselves, and no position is in two places. */
  ghost predicate Tracked<E>(p: Pipe<E>) {
    && p.taken <= |p.accepted| && p.queue == p.accepted[p.taken..]
    && p.tickets.Keys == p.hands.Keys
    && (forall d | d in p.tickets :: p.tickets[d] < p.taken && p.hands[d] == p.accepted[p.tickets[d]])
    && (forall c, d | c in p.tickets && d in p.tickets && c != d :: p.tickets[c] != p.tickets[d])
    && |p.order| == |p.written|
    && (forall i | 0 <= i < |p.order| :: p.order[i] < p.taken && p.written[i] == p.accepted[p.order[i]])
    && (forall i, j | 0 <= i < j < |p.order| :: p.order[i] != p.order[j])
    && (forall d | d in p.tickets :: p.tickets[d] !in p.order)
  }

  lemma TakeTracked<E>(p: Pipe<E>, bound: int, d: nat)
    requires Tracked(p)
    ensures Tracked(StepPipe(p, bound, Take(d)))
  {
    var p' := StepPipe(p, bound, Take(d));
    if d !in p.hands && p.queue != [] {
      assert p' == p.(hands := p.hands[d := p.queue[0]], queue := p.queue[1..],
                      taken := p.taken + 1, tickets := p.tickets[d := p.taken]);
      hide StepPipe;
      assert p.accepted[p.taken..][1..] == p.accepted[p.taken + 1..];
      assert p'.tickets.Keys == p.tickets.Keys + {d} && p'.hands.Keys == p.hands.Keys + {d};
      assert p.queue[0] == p.accepted[p.taken];
    }
  }

  lemma WriteTracked<E>(p: Pipe<E>, bound: int, d: nat, ok: bool)
    requires Tracked(p)
    ensures Tracked(StepPipe(p, bound, Write(d, ok)))
  {
    var p' := StepPipe(p, bound, Write(d, ok));
    if d in p.hands {
      assert p'.tickets.Keys == p.tickets.Keys - {d} && p'.hands.Keys == p.hands.Keys - {d};
      assert forall t :: t in p'.order ==> t in p.order || t == p.tickets[d];
    }
  }

  lemma EmitTracked<E>(p: Pipe<E>, bound: int, s: Step<E>)
    requires Tracked(p) && (s.Emit? || s.Spill?)
    ensures Tracked(StepPipe(p, bound, s))
  {
    var p' := StepPipe(p, bound, s);
    assert p.accepted <= p'.accepted && p' == p.(
      queue := p'.queue, spills := p'.spills, overflow := p'.overflow, lost := p'.lost,
      emitted := p'.emitted, accepted := p'.accepted);
    assert p'.queue == p'.accepted[p.taken..];
    hide StepPipe;
    assert forall t: nat | t < p.taken :: p'.accepted[t] == p.accepted[t];
  }

  lemma StepTracked<E>(p: Pipe<E>, bound: int, s: Step<E>)
    requires Tracked(p)
    ensures Tracked(StepPipe(p, bound, s))
    ensures p.order <= StepPipe(p, bound, s).order && p.taken <= StepPipe(p, bound, s).taken
  {
    hide Tracked;
    match s
    case Take(d) => TakeTracked(p, bound, d);
    case Write(d, ok) => WriteTracked(p, bound, d, ok);
    case _ => EmitTracked(p, bound, s);
  }

  lemma {:induction false} RunTracked<E>(bound: int, steps: seq<Step<E>>)
    ensures Tracked(Run(bound, steps))
  {
    if steps == [] {
    } else {
      RunTracked(bound, steps[..|steps| - 1]);
      StepTracked(Run(bound, steps[..|steps| - 1]), bound, steps[|steps| - 1]);
      hide StepPipe, Tracked;
    }
  }

  /** The main file is in the order in which the queue accepted its events. */
  predicate InOrder(order: seq<nat>) { forall i, j | 0 <= i < j < |order| :: order[i] < order[j] }

  /** Step `i` writes an event to the main file while another thread holds an older one that reaches the file later. */
  ghost predicate Overtakes<E>(bound: int, steps: seq<Step<E>>, i: int) {
    && 0 <= i < |steps| && steps[i].Write? && steps[i].ok
    && var p := Run(bound, steps[..i]);
       && steps[i].thread in p.tickets
       && exists d | d in p.tickets ::
            p.tickets[d] < p.tickets[steps[i].thread] && p.tickets[d] in Run(bound, steps).order
  }

  /** The event at this position has left the queue for good without reaching the main file. */
  predicate Gone<E>(p: Pipe<E>, t: nat) { t < p.taken && t !in p.tickets.Values && t !in p.order }

  lemma StepKeepsGone<E>(p: Pipe<E>, bound: int, s: Step<E>, t: nat)
    requires Gone(p, t)
    ensures Gone(StepPipe(p, bound, s), t)
  {
    var p' := StepPipe(p, bound, s);
    assert forall d | d in p'.tickets :: p'.tickets[d] == p.taken || p'.tickets[d] in p.tickets.Values;
    assert forall u :: u in p'.order ==> u in p.order || u in p.tickets.Values;
  }

  /** What later steps keep: the file so far, and what is gone. */
  lemma {:induction false} RunKeeps<E>(bound: int, steps: seq<Step<E>>, n: nat, t: nat)
    requires n <= |steps|
    ensures Run(bound, steps[..n]).order <= Run(bound, steps).order
    ensures Gone(Run(bound, steps[..n]), t) ==> Gone(Run(bound, steps), t)
  {
    if n == |steps| {
      assert steps[..n] == steps;
    } else {
      var before, last := steps[..|steps| - 1], steps[|steps| - 1];
      assert before[..n] == steps[..n];
      RunKeeps(bound, before, n, t);
      RunTracked(bound, before);
      hide StepPipe, Tracked, Gone;
      StepTracked(Run(bound, before), bound, last);
      if Gone(Run(bound, before), t) {
        StepKeepsGone(Run(bound, before), bound, last, t);
      }
    }
  }

  /** The step that wrote place `a` of the main file. */
  lemma {:induction false} WrittenAt<E>(bound: int, steps: seq<Step<E>>, a: nat) returns (i: nat)
    requires a < |Run(bound, steps).order|
    ensures i < |steps| && steps[i].Write? && steps[i].ok
    ensures var p := Run(bound, steps[..i]);
            && p.order == Run(bound, steps).order[..a]
            && steps[i].thread in p.tickets && p.tickets[steps[i].thread] == Run(bound, steps).order[a]
  {
    var before, last := steps[..|steps| - 1], steps[|steps| - 1];
    RunTracked(bound, before);
    OrderStep(Run(bound, before), bound, last);
    hide StepPipe, Tracked;
    if a < |Run(bound, before).order| {
      i := WrittenAt(bound, before, a);
      assert before[..i] == steps[..i];
    } else {
      i := |before|;
    }
  }

  /** The main file grows by what a writing thread held, or not at all. */
  lemma OrderStep<E>(p: Pipe<E>, bound: int, s: Step<E>)
    requires Tracked(p)
    ensures var order := StepPipe(p, bound, s).order;
            order == p.order || (s.Write? && s.ok && s.thread in p.tickets && order == p.order + [p.tickets[s.thread]])
  {
  }

  lemma {:induction false} WriteAppends<E>(bound: int, steps: seq<Step<E>>, i: nat)
    requires i < |steps| && steps[i].Write? && steps[i].ok && steps[i].thread in Run(bound, steps[..i]).tickets
    ensures Run(bound, steps[..i + 1]).order == Run(bound, steps[..i]).order
            + [Run(bound, steps[..i]).tickets[steps[i].thread]]
  {
    RunTracked(bound, steps[..i]);
    assert steps[..i + 1][..i] == steps[..i];
  }

  /** What an overtaking write leaves behind: an older event later in the file. */
  lemma {:induction false} OvertakingDisorders<E>(bound: int, steps: seq<Step<E>>, i: int)
    requires Overtakes(bound, steps, i)
    ensures !InOrder(Run(bound, steps).order)
  {
    hide Run;
    var p, order := Run(bound, steps[..i]), Run(bound, steps).order;
    var t := p.tickets[steps[i].thread];
    var d :| d in p.tickets && p.tickets[d] < t && p.tickets[d] in order;
    RunTracked(bound, steps[..i]);
    RunKeeps(bound, steps, i + 1, 0);
    WriteAppends(bound, steps, i);
    var a := |p.order|;
    assert order[..a + 1] == p.order + [t];
    hide Tracked;
    assert forall k | 0 <= k <= a :: order[k] == order[..a + 1][k];
    assert forall k | 0 <= k <= a :: order[k] != p.tickets[d];
    var b :| 0 <= b < |order| && order[b] == p.tickets[d];
    assert order[a] == t;
  }

  /** Under any interleaving, the main file is out of the order of acceptance exactly when some write to it went through
      while another thread held an older event that was written later. */
  lemma {:induction false} FileOrderExactly<E>(bound: int, steps: seq<Step<E>>)
    ensures var p := Run(bound, steps);
            |p.order| == |p.written| && forall i | 0 <= i < |p.order| ::
              p.order[i] < |p.accepted| && p.written[i] == p.accepted[p.order[i]]
    ensures !InOrder(Run(bound, steps).order) <==> exists i :: Overtakes(bound, steps, i)
  {
    RunTracked(bound, steps);
    var order := Run(bound, steps).order;
    if !InOrder(order) {
      var a: nat, b: nat :| a < b < |order| && order[a] >= order[b];
      var i := WrittenAt(bound, steps, a);
      OlderIsHeld(bound, steps, i, a, b);
      assert Overtakes(bound, steps, i);
    }
    if i :| Overtakes(bound, steps, i) {
      OvertakingDisorders(bound, steps, i);
    }
  }

  /** An older event that reaches the file after place `a` was in some thread's hands when place `a` was written. */
  lemma {:induction false} OlderIsHeld<E>(bound: int, steps: seq<Step<E>>, i: nat, a: nat, b: nat)
    requires i < |steps| && a < b < |Run(bound, steps).order|
    requires var p, order := Run(bound, steps[..i]), Run(bound, steps).order;
             && p.order == order[..a] && order[b] <= order[a]
             && steps[i].thread in p.tickets && p.tickets[steps[i].thread] == order[a]
    ensures exists d | d in Run(bound, steps[..i]).tickets ::
              Run(bound, steps[..i]).tickets[d] == Run(bound, steps).order[b] < Run(bound, steps).order[a]
  {
    var p, order := Run(bound, steps[..i]), Run(bound, steps).order;
    RunTracked(bound, steps);
    RunTracked(bound, steps[..i]);
    RunKeeps(bound, steps, i, order[b]);
    hide Run;
    assert order[b] !in p.order;
    assert order[b] < p.taken;
    assert !Gone(p, order[b]);
  }

  /** While one thread alone drains the queue, the main file is in order, failed writes or not. */
  lemma {:induction false} OneDrainerKeepsOrder<E>(bound: int, steps: seq<Step<E>>, d: nat)
    requires forall i | 0 <= i < |steps| && steps[i].Take? :: steps[i].thread == d
    ensures InOrder(Run(bound, steps).order)
  {
    FileOrderExactly(bound, steps);
    if i :| Overtakes(bound, steps, i) {
      OnlyDrainerHolds(bound, steps[..i], d);
    }
  }

  lemma {:induction false} OnlyDrainerHolds<E>(bound: int, steps: seq<Step<E>>, d: nat)
    requires forall i | 0 <= i < |steps| && steps[i].Take? :: steps[i].thread == d
    ensures Run(bound, steps).tickets.Keys <= {d}
  {
    if steps == [] {
    } else {
      OnlyDrainerHolds(bound, steps[..|steps| - 1], d);
    }
  }

  function Held<E>(p: Pipe<E>, d: nat): seq<E> { if d in p.hands then [p.hands[d]] else [] }

  /** If moreover no write of it fails, the main file is first in, first out: it holds what was accepted, from the
      start. */
  lemma {:induction false} OneDrainerIsFifo<E>(bound: int, steps: seq<Step<E>>, d: nat)
    requires forall i | 0 <= i < |steps| && steps[i].Take? :: steps[i].thread == d
    requires forall i | 0 <= i < |steps| && steps[i].Write? :: steps[i].ok
    ensures var p := Run(bound, steps);
            p.hands.Keys <= {d} && p.written + Held(p, d) + p.queue == p.accepted
  {
    if steps == [] {
    } else {
      OneDrainerIsFifo(bound, steps[..|steps| - 1], d);
      var p := Run(bound, steps[..|steps| - 1]);
      FifoStep(p, bound, steps[|steps| - 1], d);
    }
  }

  lemma FifoStep<E>(p: Pipe<E>, bound: int, s: Step<E>, d: nat)
    requires p.hands.Keys <= {d} && p.written + Held(p, d) + p.queue == p.accepted
    requires (s.Take? ==> s.thread == d) && (s.Write? ==> s.ok)
    ensures var p' := StepPipe(p, bound, s);
            p'.hands.Keys <= {d} && p'.written + Held(p', d) + p'.queue == p'.accepted
  {
    var p' := StepPipe(p, bound, s);
    match s
    case Emit(_, e) =>
      assert p.written + Held(p, d) + (p.queue + [e]) == p.written + Held(p, d) + p.queue + [e];
    case Take(_) =>
      if d !in p.hands && p.queue != [] {
        assert p.written + [] + p.queue == p.written + [p.queue[0]] + p.queue[1..];
      }
    case Write(t, _) =>
      if t in p.hands {
        assert p.written + [p.hands[d]] + [] == p.written + [p.hands[d]];
      }
    case Spill(_, _) =>
  }

  /** Overtaking is within reach: a flush overtakes the event that the worker holds. */
  lemma FlushCanOvertake<E>(a: E, b: E)
    ensures Run(0, [Emit(0, a), Emit(0, b), Take(0), Take(1), Write(1, true), Write(0, true)]).written == [b, a]
  {
    hide Run;
    var s: seq<Step<E>> := [Emit(0, a), Emit(0, b), Take(0), Take(1), Write(1, true), Write(0, true)];
    RunNext(0, s, 0);
    RunNext(0, s, 1);
    RunNext(0, s, 2);
    RunNext(0, s, 3);
    RunNext(0, s, 4);
    RunNext(0, s, 5);
    assert Run(0, s[..1]).queue == [a];
    assert Run(0, s[..2]).queue == [a, b];
    assert Run(0, s[..3]).queue == [b] && Run(0, s[..3]).hands == map[0 := a];
    assert Run(0, s[..4]).hands == map[0 := a, 1 := b];
    assert s[..6] == s;
  }

  lemma {:induction false} RunNext<E>(bound: int, steps: seq<Step<E>>, n: nat)
    requires n < |steps|
    ensures Run(bound, steps[..n + 1]) == StepPipe(Run(bound, steps[..n]), bound, steps[n])
    ensures Run<E>(bound, steps[..0]) == Start()
  {
    assert steps[..n + 1][..n] == steps[..n];
  }

  // ---------------------------------------------------------------- the pipeline object

  /** What is left of the queue once thread `d`, which holds nothing, has drained it. */
  function Drained<E>(p: Pipe<E>, bound: int, d: nat, disk: E -> bool): Pipe<E>
    requires d !in p.hands
    decreases |p.queue|
  {
    if p.queue == [] then p
    else Drained(StepPipe(StepPipe(p, bound, Take(d)), bound, Write(d, disk(p.queue[0]))), bound, d, disk)
  }

  /** A flush whose writes succeed moves the whole queue, in order, to the end of the main file. */
  lemma {:induction false} DrainedInOrder<E>(p: Pipe<E>, bound: int, d: nat, disk: E -> bool)
    requires d !in p.hands && forall i | 0 <= i < |p.queue| :: disk(p.queue[i])
    ensures var p' := Drained(p, bound, d, disk);
            p'.queue == [] && p'.written == p.written + p.queue && p'.lost == p.lost && p'.hands == p.hands
    decreases |p.queue|
  {
    if p.queue != [] {
      var p' := StepPipe(StepPipe(p, bound, Take(d)), bound, Write(d, disk(p.queue[0])));
      assert p'.hands == p.hands;
      DrainedInOrder(p', bound, d, disk);
      assert p.written + p.queue == p.written + [p.queue[0]] + p.queue[1..];
    }
  }

  class TelemetryPipeline<E> {
    const bound: int
    var queue: seq<E>
    var hands: map<nat, E>
    var written: seq<E>
    var overflow: seq<E>
    ghost var spills: map<nat, E>
    ghost var lost: seq<E>
    ghost var emitted: seq<E>
    ghost var accepted: seq<E>
    ghost var taken: nat
    ghost var tickets: map<nat, nat>
    ghost var order: seq<nat>

    constructor (bound: int)
      ensures this.bound == bound && View() == Run(bound, [])
    {
      this.bound := bound;
      queue, hands, written, overflow := [], map[], [], [];
      spills, lost, emitted, accepted, taken, tickets, order := map[], [], [], [], 0, map[], [];
    }

    ghost function View(): Pipe<E>
      reads this
    {
      Pipe(queue, hands, spills, written, overflow, lost, emitted, accepted, taken, tickets, order)
    }

    /** Put the event on the queue, or write it to the overflow file if the queue is full. */
    method EmitEvent(ghost thread: nat, event: E, ok: bool)
      requires thread !in spills
      modifies this
      ensures View() == StepPipe(StepPipe(old(View()), bound, Emit(thread, event)), bound, Spill(thread, ok))
    {
      emitted := emitted + [event];
      if bound <= 0 || |queue| < bound {
        queue := queue + [event];
        accepted := accepted + [event];
      } else {
        assert spills[thread := event] - {thread} == spills;
        if ok {
          overflow := overflow + [event];
        } else {
          lost := lost + [event];
        }
      }
    }

    /** A draining thread takes the oldest event. */
    method TakeOldest(d: nat)
      modifies this
      ensures View() == StepPipe(old(View()), bound, Take(d))
    {
      if d !in hands && queue != [] {
        hands, queue := hands[d := queue[0]], queue[1..];
        tickets, taken := tickets[d := taken], taken + 1;
      }
    }

    /** A draining thread writes what it holds. */
    method WriteHeld(d: nat, ok: bool)
      modifies this
      ensures View() == StepPipe(old(View()), bound, Write(d, ok))
    {
      if d in hands {
        if ok {
          written := written + [hands[d]];
          order := order + if d in tickets then [tickets[d]] else [];
        } else {
          lost := lost + [hands[d]];
        }
        hands, tickets := hands - {d}, tickets - {d};
      }
    }

    /** Drain the queue in the calling thread. */
    method Flush(d: nat, disk: E -> bool)
      requires d !in hands
      modifies this
      ensures View() == Drained(old(View()), bound, d, disk) && queue == []
    {
      hide StepPipe;
      while queue != []
        invariant d !in hands && Drained(View(), bound, d, disk) == Drained(old(View()), bound, d, disk)
        decreases |queue|
      {
        TakeAndWrite(View(), bound, d, disk(queue[0]));
        TakeOldest(d);
        WriteHeld(d, disk(hands[d]));
      }
    }
  }

  lemma TakeAndWrite<E>(p: Pipe<E>, bound: int, d: nat, ok: bool)
    requires d !in p.hands && p.queue != []
    ensures var held := StepPipe(p, bound, Take(d));
            && d in held.hands && held.hands[d] == p.queue[0] && held.queue == p.queue[1..]
            && d !in StepPipe(held, bound, Write(d, ok)).hands
            && StepPipe(held, bound, Write(d, ok)).queue == p.queue[1..]
  {
  }
}
