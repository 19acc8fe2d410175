/** The pause gate of one filter: `pause`, `resume` and `listen`.

    In the connector, `listen` runs on the feed's callback thread before each
    record is handed on; while the gate is paused it blocks that thread on a
    condition until `resume` signals it. Here the blocking is made sequential:
    a record that reaches a paused gate is appended to a queue of held records,
    and `resume` releases the whole queue, in arrival order. */

module Gate {

  /** The gate state: the paused flag and the records held back while paused. */
  datatype Gate<T> = Gate(paused: bool, held: seq<T>)

  /** Only a paused gate holds anything back. */
  predicate Valid<T>(g: Gate<T>) {
    !g.paused ==> g.held == []
  }

  /** A freshly constructed gate: not paused, nothing held. */
  function Fresh<T>(): (g: Gate<T>)
    ensures Valid(g) && !g.paused && g.held == []
  {
    Gate(false, [])
  }

  /** `pause`: sets the flag; records already held stay held. */
  function Pause<T>(g: Gate<T>): (r: Gate<T>)
    ensures r.paused && r.held == g.held
    ensures Valid(r)
  {
    g.(paused := true)
  }

  /** `resume`: clears the flag and wakes every waiter.  The second component
      is what the woken callbacks go on to deliver. */
  function Resume<T>(g: Gate<T>): (r: (Gate<T>, seq<T>))
    ensures !r.0.paused && Valid(r.0)
    ensures r.1 == g.held
  {
    (Gate(false, []), g.held)
  }

  /** `listen` for one record: passes it on at once when the gate is open,
      holds it back when the gate is paused. */
  function Listen<T>(g: Gate<T>, x: T): (r: (Gate<T>, seq<T>))
    ensures r.0.paused == g.paused
    ensures Valid(g) ==> Valid(r.0) && r.1 + r.0.held == g.held + [x]
    ensures g.paused ==> r.1 == [] && r.0.held == g.held + [x]
    ensures !g.paused ==> r.1 == [x] && r.0 == g
  {
    if g.paused then (g.(held := g.held + [x]), []) else (g, [x])
  }

  /** `listen` lets a record straight through exactly when the gate is open. */
  lemma ListenPassesIffOpen<T>(g: Gate<T>, x: T)
    requires Valid(g)
    ensures Listen(g, x).1 == [x] <==> !g.paused
    ensures g.paused <==> Listen(g, x).1 == []
  {
  }

  /** Pausing twice is pausing once. */
  lemma PauseIdempotent<T>(g: Gate<T>)
    ensures Pause(Pause(g)) == Pause(g)
  {
  }

  /** Resuming twice is resuming once, and the second resume releases nothing. */
  lemma ResumeIdempotent<T>(g: Gate<T>)
    ensures Resume(Resume(g).0).0 == Resume(g).0
    ensures Resume(Resume(g).0).1 == []
  {
  }

  /** Whatever was held before a pause is still held after it and released by
      the following resume. */
  lemma PauseThenResume<T>(g: Gate<T>)
    ensures Resume(Pause(g)).1 == g.held
    ensures Resume(Pause(g)).0 == Fresh()
  {
  }

  /** One thing that can happen to a gate. */
  datatype Signal<T> = PauseSignal | ResumeSignal | Arrival(item: T)

  /** The effect of one signal: the new gate and the records passed on. */
  function Step<T>(g: Gate<T>, s: Signal<T>): (r: (Gate<T>, seq<T>))
    ensures Valid(g) ==> Valid(r.0)
  {
    match s
    case PauseSignal => (Pause(g), [])
    case ResumeSignal => Resume(g)
    case Arrival(x) => Listen(g, x)
  }

  /** Runs a sequence of signals; the second component is everything passed
      on, in the order it was passed on. */
  function Run<T>(g: Gate<T>, ops: seq<Signal<T>>): (r: (Gate<T>, seq<T>))
    decreases |ops|
  {
    if ops == [] then (g, [])
    else
      var (g1, out1) := Step(g, ops[0]);
      var (g2, out2) := Run(g1, ops[1..]);
      (g2, out1 + out2)
  }

  /** The record a signal brings, if it brings one. */
  function Arrived<T>(s: Signal<T>): (xs: seq<T>)
    ensures |xs| <= 1
  {
    if s.Arrival? then [s.item] else []
  }

  /** The records that arrive in a sequence of signals, in order. */
  function Arrivals<T>(ops: seq<Signal<T>>): (xs: seq<T>)
    ensures |xs| <= |ops|
    decreases |ops|
  {
    if ops == [] then [] else Arrived(ops[0]) + Arrivals(ops[1..])
  }

  /** One step conserves records: what it passes on, followed by what the gate
      then holds, is what the gate held followed by what arrived. */
  lemma StepConserves<T>(g: Gate<T>, s: Signal<T>)
    requires Valid(g)
    ensures Step(g, s).1 + Step(g, s).0.held == g.held + Arrived(s)
  {
  }

  /** A valid gate stays valid, whatever happens to it. */
  lemma {:induction false} RunValid<T>(g: Gate<T>, ops: seq<Signal<T>>)
    requires Valid(g)
    ensures Valid(Run(g, ops).0)
    decreases |ops|
  {
    if ops != [] {
      RunValid(Step(g, ops[0]).0, ops[1..]);
    }
  }

  /** Nothing is dropped and nothing is reordered: what the gate passed on,
      followed by what it still holds, is what it held at the start followed by
      every record that arrived. */
  lemma {:induction false} RunConserves<T>(g: Gate<T>, ops: seq<Signal<T>>)
    requires Valid(g)
    ensures Run(g, ops).1 + Run(g, ops).0.held == g.held + Arrivals(ops)
    decreases |ops|
  {
    if ops != [] {
      var (g1, out1) := Step(g, ops[0]);
      var (g2, out2) := Run(g1, ops[1..]);
      StepConserves(g, ops[0]);
      RunConserves(g1, ops[1..]);
      Chain(out1, out2, g.held, g1.held, g2.held, Arrived(ops[0]), Arrivals(ops[1..]));
    }
  }

  /** Two conservation steps chain into one. */
  lemma Chain<T>(out1: seq<T>, out2: seq<T>, h0: seq<T>, h1: seq<T>, h2: seq<T>, a: seq<T>, rest: seq<T>)
    requires out1 + h1 == h0 + a
    requires out2 + h2 == h1 + rest
    ensures (out1 + out2) + h2 == h0 + (a + rest)
  {
    calc {
      (out1 + out2) + h2;
      out1 + (out2 + h2);
      out1 + (h1 + rest);
      (out1 + h1) + rest;
      (h0 + a) + rest;
    }
  }

  /** Running two sequences one after the other is running their
      concatenation. */
  lemma {:induction false} RunAppend<T>(g: Gate<T>, ops1: seq<Signal<T>>, ops2: seq<Signal<T>>)
    ensures Run(g, ops1 + ops2).0 == Run(Run(g, ops1).0, ops2).0
    ensures Run(g, ops1 + ops2).1 == Run(g, ops1).1 + Run(Run(g, ops1).0, ops2).1
    decreases |ops1|
  {
    if ops1 == [] {
      assert ops1 + ops2 == ops2;
    } else {
      assert (ops1 + ops2)[0] == ops1[0];
      assert (ops1 + ops2)[1..] == ops1[1..] + ops2;
      RunAppend(Step(g, ops1[0]).0, ops1[1..], ops2);
    }
  }

  /** After a final resume nothing is held, so everything that was held at the
      start or arrived on the way has been passed on, in order. */
  lemma ResumeReleasesEverything<T>(g: Gate<T>, ops: seq<Signal<T>>)
    requires Valid(g)
    ensures Run(g, ops + [ResumeSignal]).0 == Fresh()
    ensures Run(g, ops + [ResumeSignal]).1 == g.held + Arrivals(ops)
  {
    RunAppend(g, ops, [ResumeSignal]);
    RunConserves(g, ops);
    var (g1, out1) := Run(g, ops);
    var last: seq<Signal<T>> := [ResumeSignal];
    assert last[1..] == [];
    assert Run(Fresh(), last[1..]) == (Fresh(), []);
    assert Step(g1, last[0]) == (Fresh(), g1.held);
    assert Run(g1, last) == (Fresh(), g1.held + []);
  }

  /** An open gate that is never paused passes every record straight on. */
  lemma {:induction false} NeverPausedPassesAll<T>(g: Gate<T>, ops: seq<Signal<T>>)
    requires Valid(g) && !g.paused
    requires forall i :: 0 <= i < |ops| ==> !ops[i].PauseSignal?
    ensures Run(g, ops) == (g, Arrivals(ops))
    decreases |ops|
  {
    if ops != [] {
      NeverPausedPassesAll(Step(g, ops[0]).0, ops[1..]);
    }
  }
}
