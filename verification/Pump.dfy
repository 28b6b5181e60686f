/** The queue discipline that the websocket session and the multi resolver share:
    items wait in a queue, one asynchronous operation works on the front item, and
    the operation's completion pops the queue and starts the next operation.

    The environment is the sequence `ops` of outstanding operations. An operation is
    either a lambda waiting on a strand or an operation in flight; a completion and
    the run of its handler are one move, since nothing can observe the gap. */
module Pumps {
  import opened Seqs

  datatype Stage = Dispatched | InFlight

  datatype Op<T> = Op(stage: Stage, item: T)

  /** `submitted`, `done` and `wire` are logs: items accepted, items disposed of, and
      items for which an operation was really started. `skipped` records that some
      item was disposed of without ever being started. */
  datatype Pump<T> = Pump(
    queue: seq<T>,
    ops: seq<Op<T>>,
    submitted: seq<T>,
    done: seq<T>,
    wire: seq<T>,
    skipped: bool)

  datatype Move<T> =
    | Submit(item: T, direct: bool)
    | Dispatch(op: nat)
    | Finish(op: nat, goOn: bool)
    | Drain

  function Empty<T>(): Pump<T> {
    Pump([], [], [], [], [], false)
  }

  function Launch<T>(p: Pump<T>, item: T, direct: bool): Pump<T> {
    if direct
    then p.(ops := p.ops + [Op(InFlight, item)], wire := p.wire + [item])
    else p.(ops := p.ops + [Op(Dispatched, item)])
  }

  predicate Enabled<T>(p: Pump<T>, m: Move<T>) {
    match m
    case Submit(_, _) => true
    case Dispatch(i) => i < |p.ops| && p.ops[i].stage.Dispatched?
    case Finish(i, _) => i < |p.ops| && p.ops[i].stage.InFlight?
    case Drain => true
  }

  function Step<T>(p: Pump<T>, m: Move<T>): Pump<T>
    requires Enabled(p, m)
  {
    match m
    case Submit(x, direct) =>
      var q := p.(queue := p.queue + [x], submitted := p.submitted + [x]);
      if |q.queue| < 2 then Launch(q, x, direct) else q
    case Dispatch(i) =>
      p.(ops := p.ops[i := Op(InFlight, p.ops[i].item)], wire := p.wire + [p.ops[i].item])
    case Finish(i, goOn) =>
      var q := p.(ops := Remove(p.ops, i));
      if |q.queue| == 0 then q
      else
        var r := q.(queue := q.queue[1..], done := q.done + [p.ops[i].item]);
        if |r.queue| == 0 then r
        else if goOn then Launch(r, r.queue[0], true)
        else r.(queue := [], done := r.done + r.queue, skipped := true)
    case Drain =>
      p.(queue := [], done := p.done + p.queue, skipped := p.skipped || |p.queue| > 1)
  }

  predicate Legal<T>(p: Pump<T>, moves: seq<Move<T>>)
    decreases |moves|
  {
    |moves| == 0 || (Enabled(p, moves[0]) && Legal(Step(p, moves[0]), moves[1..]))
  }

  function Exec<T>(p: Pump<T>, moves: seq<Move<T>>): Pump<T>
    requires Legal(p, moves)
    decreases |moves|
  {
    if |moves| == 0 then p else Exec(Step(p, moves[0]), moves[1..])
  }

  /** A submission is safe unless it meets an empty queue with an operation still
      outstanding, which only a drain can bring about. */
  predicate Guard<T>(p: Pump<T>, m: Move<T>) {
    m.Submit? && |p.queue| == 0 ==> |p.ops| == 0
  }

  predicate Guarded<T>(p: Pump<T>, moves: seq<Move<T>>)
    requires Legal(p, moves)
    decreases |moves|
  {
    |moves| == 0 || (Guard(p, moves[0]) && Guarded(Step(p, moves[0]), moves[1..]))
  }

  predicate NoDrain<T>(moves: seq<Move<T>>) {
    forall i :: 0 <= i < |moves| ==> !moves[i].Drain?
  }

  predicate NoSubmit<T>(moves: seq<Move<T>>) {
    forall i :: 0 <= i < |moves| ==> !moves[i].Submit?
  }

  // ---------- invariants

  /** Nothing lost, duplicated or reordered, and at most one operation, which belongs
      to the front of a non-empty queue. */
  ghost predicate ExactlyOnce<T>(p: Pump<T>) {
    p.submitted == p.done + p.queue
  }

  ghost predicate SingleFlight<T>(p: Pump<T>) {
    && |p.ops| <= 1
    && (|p.queue| > 0 ==> |p.ops| == 1 && p.ops[0].item == p.queue[0])
  }

  /** Without a drain an operation is outstanding exactly when the queue is non-empty. */
  ghost predicate Tight<T>(p: Pump<T>) {
    |p.queue| == 0 ==> |p.ops| == 0
  }

  /** What keeps the owner alive: queued items are never without an operation. */
  ghost predicate Attended<T>(p: Pump<T>) {
    |p.queue| > 0 ==> |p.ops| > 0
  }

  ghost predicate IsSubseq<T>(a: seq<T>, b: seq<T>)
    decreases |b|
  {
    || |a| == 0
    || (&& |b| > 0
        && (|| (a[|a| - 1] == b[|b| - 1] && IsSubseq(a[..|a| - 1], b[..|b| - 1]))
            || IsSubseq(a, b[..|b| - 1])))
  }

  /** Items started, or about to be started by a waiting lambda. */
  ghost function Started<T>(p: Pump<T>): seq<T> {
    if |p.ops| == 1 && p.ops[0].stage.Dispatched? then p.wire + [p.ops[0].item] else p.wire
  }

  /** How much of the submission log can have been started. */
  ghost function Horizon<T>(p: Pump<T>): nat {
    |p.done| + if |p.queue| > 0 then 1 else 0
  }

  /** Items were started in the order of the log `all`, none after position `k`, and unless
      some were skipped without a gap. */
  ghost predicate Ordered<T>(started: seq<T>, all: seq<T>, k: nat, skipped: bool) {
    k <= |all| && IsSubseq(started, all[..k]) && (!skipped ==> started == all[..k])
  }

  ghost predicate WireOrdered<T>(p: Pump<T>) {
    Ordered(Started(p), p.submitted, Horizon(p), p.skipped)
  }

  ghost predicate Inv<T>(p: Pump<T>) {
    ExactlyOnce(p) && SingleFlight(p)
  }

  // ---------- subsequences

  lemma {:induction false} SubseqAppend<T>(a: seq<T>, b: seq<T>, x: T)
    requires IsSubseq(a, b)
    ensures IsSubseq(a + [x], b + [x])
  {
    assert (a + [x])[..|a|] == a && (b + [x])[..|b|] == b;
  }

  lemma {:induction false} SubseqExtend<T>(a: seq<T>, b: seq<T>, c: seq<T>)
    requires IsSubseq(a, b)
    ensures IsSubseq(a, b + c)
    decreases |c|
  {
    if |c| == 0 {
      assert b + c == b;
    } else {
      SubseqExtend(a, b, c[..|c| - 1]);
      assert (b + c)[..|b + c| - 1] == b + c[..|c| - 1];
    }
  }

  // ---------- the order of starts, on plain sequences

  lemma OrderedNext<T>(started: seq<T>, all: seq<T>, k: nat, skipped: bool)
    requires Ordered(started, all, k, skipped) && k < |all|
    ensures Ordered(started + [all[k]], all, k + 1, skipped)
  {
    assert all[..k + 1] == all[..k] + [all[k]];
    SubseqAppend(started, all[..k], all[k]);
  }

  lemma OrderedAppend<T>(started: seq<T>, all: seq<T>, k: nat, skipped: bool, x: T)
    requires Ordered(started, all, k, skipped)
    ensures Ordered(started, all + [x], k, skipped)
  {
    assert (all + [x])[..k] == all[..k];
  }

  /** Items up to the end of the log are given up. */
  lemma OrderedSkip<T>(started: seq<T>, all: seq<T>, k: nat, skipped: bool)
    requires Ordered(started, all, k, skipped)
    ensures Ordered(started, all, |all|, skipped || k < |all|)
  {
    assert all[..|all|] == all == all[..k] + all[k..];
    SubseqExtend(started, all[..k], all[k..]);
  }

  // ---------- every guarded move keeps the invariant

  /** The completion finds more work and an open stream: the next item is started. */
  lemma ContinueForm<T>(p: Pump<T>)
    requires SingleFlight(p) && Enabled(p, Finish(0, true)) && |p.queue| > 1
    ensures Step(p, Finish(0, true))
         == p.(queue := p.queue[1..], ops := [Op(InFlight, p.queue[1])],
               done := p.done + [p.queue[0]], wire := p.wire + [p.queue[1]])
  {
    assert Remove(p.ops, 0) == [];
  }

  /** The completion is the last one, or clears the queue: nothing is started. */
  lemma LastForm<T>(p: Pump<T>, goOn: bool)
    requires Inv(p) && Enabled(p, Finish(0, goOn)) && |p.queue| > 0 && (|p.queue| == 1 || !goOn)
    ensures Step(p, Finish(0, goOn))
         == p.(queue := [], ops := [], done := p.submitted, skipped := p.skipped || |p.queue| > 1)
  {
    assert Remove(p.ops, 0) == [];
    assert p.done + p.queue == p.done + [p.queue[0]] + p.queue[1..];
    assert |p.queue| == 1 ==> p.queue == [p.queue[0]];
  }

  /** A completion that meets an empty queue changes nothing else. */
  lemma StaleForm<T>(p: Pump<T>, goOn: bool)
    requires SingleFlight(p) && Enabled(p, Finish(0, goOn)) && |p.queue| == 0
    ensures Step(p, Finish(0, goOn)) == p.(ops := [])
  {
    assert Remove(p.ops, 0) == [];
  }

  lemma StepKeepsInv<T>(p: Pump<T>, m: Move<T>)
    requires Inv(p) && Enabled(p, m) && Guard(p, m)
    ensures Inv(Step(p, m))
  {
    match m
    case Submit(x, _) =>
      assert p.submitted + [x] == p.done + (p.queue + [x]);
    case Dispatch(_) =>
    case Finish(i, goOn) =>
      assert i == 0;
      if |p.queue| > 1 && goOn {
        ContinueForm(p);
        NextOfLog(p.submitted, p.done, p.queue);
      } else if |p.queue| == 0 {
        StaleForm(p, goOn);
      } else {
        LastForm(p, goOn);
      }
    case Drain =>
  }

  lemma NextOfLog<T>(all: seq<T>, done: seq<T>, queue: seq<T>)
    requires all == done + queue && |queue| > 1
    ensures all == done + [queue[0]] + queue[1..] && all[|done| + 1] == queue[1]
  {
  }

  // ---------- every guarded move keeps the order of starts

  lemma OrderedFirst<T>(started: seq<T>, all: seq<T>, skipped: bool, x: T)
    requires Ordered(started, all, |all|, skipped)
    ensures Ordered(started + [x], all + [x], |all| + 1, skipped)
  {
    OrderedAppend(started, all, |all|, skipped, x);
    OrderedNext(started, all + [x], |all|, skipped);
  }

  lemma SubmitStarts<T>(p: Pump<T>, x: T, direct: bool)
    requires Inv(p) && Guard(p, Submit(x, direct))
    ensures var q := Step(p, Submit(x, direct));
            && q.submitted == p.submitted + [x] && q.skipped == p.skipped
            && (if |p.queue| == 0
                then Started(q) == Started(p) + [x] && Horizon(p) == |p.submitted| && Horizon(q) == |p.submitted| + 1
                else Started(q) == Started(p) && Horizon(q) == Horizon(p))
  {
  }

  lemma SubmitKeepsOrder<T>(p: Pump<T>, x: T, direct: bool)
    requires Inv(p) && WireOrdered(p) && Guard(p, Submit(x, direct))
    ensures WireOrdered(Step(p, Submit(x, direct)))
  {
    SubmitStarts(p, x, direct);
    if |p.queue| == 0 {
      OrderedFirst(Started(p), p.submitted, p.skipped, x);
    } else {
      OrderedAppend(Started(p), p.submitted, Horizon(p), p.skipped, x);
    }
  }

  /** What a completion or a drain starts, and up to where it disposes of items. */
  lemma OtherStarts<T>(p: Pump<T>, m: Move<T>)
    requires Inv(p) && Enabled(p, m) && !m.Submit?
    ensures var q := Step(p, m);
            && q.submitted == p.submitted && Horizon(p) <= |p.submitted|
            && (if m.Finish? && m.goOn && |p.queue| > 1
                then Horizon(p) < |p.submitted| && Horizon(q) == Horizon(p) + 1 && q.skipped == p.skipped
                     && Started(q) == Started(p) + [p.submitted[Horizon(p)]]
                else Started(q) == Started(p)
                     && (|| (Horizon(q) == Horizon(p) && q.skipped == p.skipped)
                         || (Horizon(q) == |p.submitted| && q.skipped == (p.skipped || Horizon(p) < |p.submitted|))))
  {
    match m
    case Finish(i, goOn) =>
      assert i == 0;
      if |p.queue| > 1 && goOn {
        ContinueForm(p);
        NextOfLog(p.submitted, p.done, p.queue);
      } else if |p.queue| == 0 {
        StaleForm(p, goOn);
      } else {
        LastForm(p, goOn);
      }
    case Dispatch(_) =>
    case Drain =>
  }

  lemma StepKeepsOrder<T>(p: Pump<T>, m: Move<T>)
    requires Inv(p) && WireOrdered(p) && Enabled(p, m) && Guard(p, m)
    ensures WireOrdered(Step(p, m))
  {
    if m.Submit? {
      SubmitKeepsOrder(p, m.item, m.direct);
    } else {
      OtherStarts(p, m);
      if m.Finish? && m.goOn && |p.queue| > 1 {
        OrderedNext(Started(p), p.submitted, Horizon(p), p.skipped);
      } else {
        OrderedSkip(Started(p), p.submitted, Horizon(p), p.skipped);
      }
    }
  }

  // ---------- whole runs

  /** Over every guarded run, drains included, disposal is exactly once and in order, and
      operations never overlap. */
  lemma {:induction false} GuardedRunKeepsInv<T>(p: Pump<T>, moves: seq<Move<T>>)
    requires Inv(p) && Legal(p, moves) && Guarded(p, moves)
    ensures Inv(Exec(p, moves))
    decreases |moves|
  {
    if |moves| > 0 {
      StepKeepsInv(p, moves[0]);
      GuardedRunKeepsInv(Step(p, moves[0]), moves[1..]);
    }
  }

  /** And items are started in the order of their submission. */
  lemma {:induction false} GuardedRunKeepsOrder<T>(p: Pump<T>, moves: seq<Move<T>>)
    requires Inv(p) && WireOrdered(p) && Legal(p, moves) && Guarded(p, moves)
    ensures WireOrdered(Exec(p, moves))
    decreases |moves|
  {
    if |moves| > 0 {
      StepKeepsInv(p, moves[0]);
      StepKeepsOrder(p, moves[0]);
      GuardedRunKeepsOrder(Step(p, moves[0]), moves[1..]);
    }
  }

  lemma StepKeepsTight<T>(p: Pump<T>, m: Move<T>)
    requires SingleFlight(p) && Tight(p) && Enabled(p, m) && !m.Drain?
    ensures Guard(p, m) && Tight(Step(p, m))
  {
    match m
    case Submit(_, _) =>
    case Dispatch(_) =>
    case Finish(i, _) => assert i == 0 && Remove(p.ops, 0) == [];
  }

  /** Runs without a drain are guarded whatever is submitted, and an operation is
      outstanding exactly while the queue is non-empty. */
  lemma {:induction false} DrainFreeRunsAreGuarded<T>(p: Pump<T>, moves: seq<Move<T>>)
    requires Inv(p) && Tight(p) && Legal(p, moves) && NoDrain(moves)
    ensures Guarded(p, moves)
    ensures Inv(Exec(p, moves)) && Tight(Exec(p, moves))
    decreases |moves|
  {
    if |moves| > 0 {
      assert !moves[0].Drain?;
      StepKeepsTight(p, moves[0]);
      StepKeepsInv(p, moves[0]);
      assert NoDrain(moves[1..]);
      DrainFreeRunsAreGuarded(Step(p, moves[0]), moves[1..]);
    }
  }

  /** Over every run, guarded or not, a non-empty queue has an operation outstanding. */
  lemma {:induction false} QueueAlwaysAttended<T>(p: Pump<T>, moves: seq<Move<T>>)
    requires Attended(p) && Legal(p, moves)
    ensures Attended(Exec(p, moves))
    decreases |moves|
  {
    if |moves| > 0 {
      QueueAlwaysAttended(Step(p, moves[0]), moves[1..]);
    }
  }

  // ---------- termination once submissions stop

  ghost function Weight<T>(ops: seq<Op<T>>): nat {
    if |ops| == 0 then 0
    else (if ops[0].stage.Dispatched? then 2 else 1) + Weight(ops[1..])
  }

  ghost function Measure<T>(p: Pump<T>): nat {
    2 * |p.queue| + Weight(p.ops)
  }

  lemma {:induction false} WeightConcat<T>(a: seq<Op<T>>, b: seq<Op<T>>)
    ensures Weight(a + b) == Weight(a) + Weight(b)
    decreases |a|
  {
    if |a| == 0 {
      assert a + b == b;
    } else {
      WeightConcat(a[1..], b);
      assert (a + b)[1..] == a[1..] + b;
    }
  }

  lemma WeightSplit<T>(ops: seq<Op<T>>, i: nat)
    requires i < |ops|
    ensures Weight(ops) == Weight(ops[..i]) + Weight([ops[i]]) + Weight(ops[i + 1..])
    ensures Weight(Remove(ops, i)) == Weight(ops[..i]) + Weight(ops[i + 1..])
  {
    assert ops == ops[..i] + [ops[i]] + ops[i + 1..];
    WeightConcat(ops[..i] + [ops[i]], ops[i + 1..]);
    WeightConcat(ops[..i], [ops[i]]);
    WeightConcat(ops[..i], ops[i + 1..]);
  }

  lemma MeasureDecreases<T>(p: Pump<T>, m: Move<T>)
    requires Enabled(p, m) && !m.Submit?
    ensures Measure(Step(p, m)) <= Measure(p)
    ensures !m.Drain? ==> Measure(Step(p, m)) < Measure(p)
  {
    match m
    case Submit(_, _) =>
    case Dispatch(i) =>
      var q := Step(p, m);
      WeightSplit(p.ops, i);
      WeightSplit(q.ops, i);
      assert q.ops[..i] == p.ops[..i] && q.ops[i + 1..] == p.ops[i + 1..];
    case Finish(i, goOn) =>
      WeightSplit(p.ops, i);
      if |p.queue| > 1 && goOn {
        WeightConcat(Remove(p.ops, i), [Op(InFlight, p.queue[1])]);
      }
    case Drain =>
  }

  /** The number of lambdas run and completions handled in a run. */
  ghost function Work<T>(moves: seq<Move<T>>): nat {
    if |moves| == 0 then 0
    else (if moves[0].Dispatch? || moves[0].Finish? then 1 else 0) + Work(moves[1..])
  }

  ghost function Completions<T>(moves: seq<Move<T>>): nat {
    if |moves| == 0 then 0
    else (if moves[0].Finish? then 1 else 0) + Completions(moves[1..])
  }

  /** Once submissions stop: the work left is bounded, each completion shortens the
      queue, so it is empty after as many completions as it had items, and after a
      single completion that finds the stream closed. */
  lemma {:induction false} PumpTerminates<T>(p: Pump<T>, moves: seq<Move<T>>)
    requires Legal(p, moves) && NoSubmit(moves)
    ensures Work(moves) + Measure(Exec(p, moves)) <= Measure(p)
    ensures |Exec(p, moves).queue| == 0 || |Exec(p, moves).queue| + Completions(moves) <= |p.queue|
    ensures (exists i :: 0 <= i < |moves| && moves[i].Finish? && !moves[i].goOn) ==> |Exec(p, moves).queue| == 0
    ensures |p.queue| == 0 ==> |Exec(p, moves).queue| == 0
    decreases |moves|
  {
    if |moves| > 0 {
      var m := moves[0];
      assert !m.Submit?;
      MeasureDecreases(p, m);
      forall i | 0 <= i < |moves[1..]| ensures !moves[1..][i].Submit? {
        assert moves[1..][i] == moves[i + 1];
      }
      PumpTerminates(Step(p, m), moves[1..]);
      forall i | 0 <= i < |moves| && moves[i].Finish? && !moves[i].goOn
        ensures |Exec(p, moves).queue| == 0
      {
        if i > 0 {
          assert moves[1..][i - 1] == moves[i];
        }
      }
    }
  }
}
