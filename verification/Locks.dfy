/** The two mutexes of a session: which thread can block which. */
module Locks {
  import opened Wrappers

  datatype Lock = QueueLock | StatsLock

  /** The operations that take a lock. */
  datatype Kind = WriteCall | WriteCompletion | ReadMessage | ReadEnd

  datatype Act = Acquire(lock: Lock) | Release(lock: Lock)

  /** What the user's callbacks do: whether on_write_done and on_read call write. */
  datatype Callbacks = Callbacks(doneWrites: bool, readWrites: bool)

  const WRITE := [Acquire(QueueLock), Release(QueueLock)]

  function Program(k: Kind, cb: Callbacks): seq<Act> {
    var inDone := if cb.doneWrites then WRITE else [];
    var inRead := if cb.readWrites then WRITE else [];
    match k
    case WriteCall => WRITE
    case WriteCompletion =>
      [Acquire(QueueLock), Acquire(StatsLock)] + inDone + [Release(StatsLock), Release(QueueLock)]
    case ReadMessage =>
      [Acquire(StatsLock)] + inRead + [Release(StatsLock)]
    case ReadEnd => [Acquire(QueueLock)] + inDone + [Release(QueueLock)] + inRead
  }

  datatype Thread = Thread(kind: Kind, pc: nat)

  datatype State = State(threads: seq<Thread>, queueOwner: Option<nat>, statsOwner: Option<nat>)

  function Init(kinds: seq<Kind>): State {
    State(seq(|kinds|, i requires 0 <= i < |kinds| => Thread(kinds[i], 0)), None, None)
  }

  function Owner(s: State, l: Lock): Option<nat> {
    if l == QueueLock then s.queueOwner else s.statsOwner
  }

  function SetOwner(s: State, l: Lock, o: Option<nat>): State {
    if l == QueueLock then s.(queueOwner := o) else s.(statsOwner := o)
  }

  predicate Unfinished(cb: Callbacks, s: State, i: nat) {
    i < |s.threads| && s.threads[i].pc < |Program(s.threads[i].kind, cb)|
  }

  predicate Enabled(cb: Callbacks, s: State, i: nat) {
    Unfinished(cb, s, i) &&
    match Program(s.threads[i].kind, cb)[s.threads[i].pc]
    case Acquire(l) => Owner(s, l) == None
    case Release(_) => true
  }

  function Next(cb: Callbacks, s: State, i: nat): State
    requires Enabled(cb, s, i)
  {
    var t := s.(threads := s.threads[i := Thread(s.threads[i].kind, s.threads[i].pc + 1)]);
    match Program(s.threads[i].kind, cb)[s.threads[i].pc]
    case Acquire(l) => SetOwner(t, l, Some(i))
    case Release(l) => SetOwner(t, l, None)
  }

  predicate Legal(cb: Callbacks, s: State, run: seq<nat>)
    decreases |run|
  {
    |run| == 0 || (Enabled(cb, s, run[0]) && Legal(cb, Next(cb, s, run[0]), run[1..]))
  }

  function Exec(cb: Callbacks, s: State, run: seq<nat>): State
    requires Legal(cb, s, run)
    decreases |run|
  {
    if |run| == 0 then s else Exec(cb, Next(cb, s, run[0]), run[1..])
  }

  /** Some thread has not finished, and none can take a step. */
  ghost predicate Stuck(cb: Callbacks, s: State) {
    && (exists i: nat :: Unfinished(cb, s, i))
    && (forall i: nat :: !Enabled(cb, s, i))
  }

  ghost predicate DeadlockFree(cb: Callbacks) {
    forall kinds, run :: Legal(cb, Init(kinds), run) ==> !Stuck(cb, Exec(cb, Init(kinds), run))
  }

  // ---------- without re-entrant callbacks

  const QUIET := Callbacks(false, false)

  predicate HoldsQueue(t: Thread) {
    match t.kind
    case WriteCall => t.pc == 1
    case WriteCompletion => 1 <= t.pc <= 3
    case ReadMessage => false
    case ReadEnd => t.pc == 1
  }

  predicate HoldsStats(t: Thread) {
    match t.kind
    case WriteCompletion => t.pc == 2
    case ReadMessage => t.pc == 1
    case _ => false
  }

  ghost predicate Inv(s: State) {
    && (forall i: nat :: i < |s.threads| ==> (HoldsQueue(s.threads[i]) <==> s.queueOwner == Some(i)))
    && (forall i: nat :: i < |s.threads| ==> (HoldsStats(s.threads[i]) <==> s.statsOwner == Some(i)))
    && (s.queueOwner.Some? ==> s.queueOwner.value < |s.threads|)
    && (s.statsOwner.Some? ==> s.statsOwner.value < |s.threads|)
  }

  lemma StepKeepsInv(s: State, i: nat)
    requires Inv(s) && Enabled(QUIET, s, i)
    ensures Inv(Next(QUIET, s, i))
  {
    var t := Next(QUIET, s, i);
    forall j: nat | j < |t.threads|
      ensures HoldsQueue(t.threads[j]) <==> t.queueOwner == Some(j)
      ensures HoldsStats(t.threads[j]) <==> t.statsOwner == Some(j)
    {
      assert HoldsQueue(s.threads[j]) <==> s.queueOwner == Some(j);
      assert HoldsStats(s.threads[j]) <==> s.statsOwner == Some(j);
    }
  }

  /** The lock order: whoever has the stats lock waits for nothing, and whoever has only
      the queue lock waits at most for the stats lock. */
  lemma OrderedMeansNotStuck(s: State)
    requires Inv(s)
    ensures !Stuck(QUIET, s)
  {
    if s.statsOwner.Some? {
      assert HoldsStats(s.threads[s.statsOwner.value]);
      assert Enabled(QUIET, s, s.statsOwner.value);
    } else if s.queueOwner.Some? {
      assert HoldsQueue(s.threads[s.queueOwner.value]);
      assert Enabled(QUIET, s, s.queueOwner.value);
    } else {
      forall i: nat | Unfinished(QUIET, s, i) ensures Enabled(QUIET, s, i) {
        assert !HoldsQueue(s.threads[i]) && !HoldsStats(s.threads[i]);
      }
    }
  }

  lemma {:induction false} QuietRunKeepsInv(s: State, run: seq<nat>)
    requires Inv(s) && Legal(QUIET, s, run)
    ensures Inv(Exec(QUIET, s, run))
    decreases |run|
  {
    if |run| > 0 {
      StepKeepsInv(s, run[0]);
      QuietRunKeepsInv(Next(QUIET, s, run[0]), run[1..]);
    }
  }

  /** So no two threads are ever in a section under the same lock. */
  lemma SectionsExclude(kinds: seq<Kind>, run: seq<nat>, i: nat, j: nat)
    requires Legal(QUIET, Init(kinds), run) && i < j < |Exec(QUIET, Init(kinds), run).threads|
    ensures var s := Exec(QUIET, Init(kinds), run);
            && !(HoldsQueue(s.threads[i]) && HoldsQueue(s.threads[j]))
            && !(HoldsStats(s.threads[i]) && HoldsStats(s.threads[j]))
  {
    QuietRunKeepsInv(Init(kinds), run);
  }

  // ---------- with re-entrant callbacks

  lemma ExecTwo(cb: Callbacks, s: State, i: nat, j: nat)
    requires Enabled(cb, s, i) && Enabled(cb, Next(cb, s, i), j)
    ensures Legal(cb, s, [i, j]) && Exec(cb, s, [i, j]) == Next(cb, Next(cb, s, i), j)
  {
    assert [i, j][1..] == [j] && [j][1..] == [];
    var t := Next(cb, s, i);
    assert Exec(cb, t, [j]) == Exec(cb, Next(cb, t, j), []);
  }

  /** on_write_done runs under the queue lock: a write from it waits for itself. */
  lemma WritingFromWriteDoneBlocks(cb: Callbacks)
    requires cb.doneWrites
    ensures !DeadlockFree(cb)
  {
    var kinds := [WriteCompletion];
    var s := Init(kinds);
    var t := Next(cb, s, 0);
    var u := Next(cb, t, 0);
    ExecTwo(cb, s, 0, 0);
    assert u.threads[0] == Thread(WriteCompletion, 2) && Unfinished(cb, u, 0);
    assert Stuck(cb, u);
  }

  /** on_read runs under the stats lock: a write from it and a write completion can each
      hold what the other waits for. */
  lemma WritingFromReadBlocks(cb: Callbacks)
    requires cb.readWrites
    ensures !DeadlockFree(cb)
  {
    var kinds := [WriteCompletion, ReadMessage];
    var s := Init(kinds);
    var t := Next(cb, s, 0);
    var u := Next(cb, t, 1);
    ExecTwo(cb, s, 0, 1);
    assert u.threads == [Thread(WriteCompletion, 1), Thread(ReadMessage, 1)];
    assert Unfinished(cb, u, 0);
    assert forall i: nat :: !Enabled(cb, u, i);
    assert Stuck(cb, u);
  }

  /** Any number of threads running any mix of the operations is free of deadlock if and
      only if neither callback calls write. */
  lemma DeadlockFreedomExact(cb: Callbacks)
    ensures DeadlockFree(cb) <==> !cb.doneWrites && !cb.readWrites
  {
    if cb.doneWrites {
      WritingFromWriteDoneBlocks(cb);
    } else if cb.readWrites {
      WritingFromReadBlocks(cb);
    } else {
      forall kinds, run | Legal(cb, Init(kinds), run)
        ensures !Stuck(cb, Exec(cb, Init(kinds), run))
      {
        assert cb == QUIET;
        QuietRunKeepsInv(Init(kinds), run);
        OrderedMeansNotStuck(Exec(cb, Init(kinds), run));
      }
    }
  }

  // ---------- one thread alone

  /** Whether a program gets through without ever taking a lock it holds. */
  predicate Passes(program: seq<Act>, queue: bool, stats: bool) {
    || |program| == 0
    || match program[0]
       case Acquire(QueueLock) => !queue && Passes(program[1..], true, stats)
       case Acquire(StatsLock) => !stats && Passes(program[1..], queue, true)
       case Release(QueueLock) => Passes(program[1..], false, stats)
       case Release(StatsLock) => Passes(program[1..], queue, false)
  }

  function Zeros(n: nat): seq<nat> {
    seq(n, i requires 0 <= i < n => 0)
  }

  lemma {:induction false} LoneRun(cb: Callbacks, s: State)
    requires |s.threads| == 1 && s.threads[0].pc <= |Program(s.threads[0].kind, cb)|
    ensures var program := Program(s.threads[0].kind, cb)[s.threads[0].pc..];
            Legal(cb, s, Zeros(|program|)) <==> Passes(program, s.queueOwner != None, s.statsOwner != None)
    decreases |Program(s.threads[0].kind, cb)| - s.threads[0].pc
  {
    var program := Program(s.threads[0].kind, cb)[s.threads[0].pc..];
    if |program| > 0 {
      assert Zeros(|program|)[0] == 0 && Zeros(|program|)[1..] == Zeros(|program| - 1);
      assert program[0] == Program(s.threads[0].kind, cb)[s.threads[0].pc];
      if Enabled(cb, s, 0) {
        var t := Next(cb, s, 0);
        assert program[1..] == Program(t.threads[0].kind, cb)[t.threads[0].pc..];
        LoneRun(cb, t);
      }
    }
  }

  /** A write made while the queue lock is held waits for itself; otherwise it gets through,
      and so does everything after it. */
  lemma WriteInside(rest: seq<Act>, queue: bool, stats: bool)
    ensures Passes(WRITE + rest, queue, stats) <==> !queue && Passes(rest, false, stats)
  {
    assert (WRITE + rest)[1..] == [Release(QueueLock)] + rest;
    assert ([Release(QueueLock)] + rest)[1..] == rest;
  }

  lemma ReadMessagePasses(cb: Callbacks)
    ensures Passes(Program(ReadMessage, cb), false, false)
    ensures |Program(ReadMessage, cb)| == if cb.readWrites then 4 else 2
  {
    var tail := [Release(StatsLock)];
    assert tail[1..] == [];
    assert Passes(tail, false, true);
    if cb.readWrites {
      WriteInside(tail, false, true);
      assert Program(ReadMessage, cb)[1..] == WRITE + tail;
    } else {
      assert Program(ReadMessage, cb)[1..] == tail;
    }
  }

  lemma ReadEndPasses(cb: Callbacks)
    ensures Passes(Program(ReadEnd, cb), false, false) <==> !cb.doneWrites
    ensures |Program(ReadEnd, cb)| == 2 + (if cb.doneWrites then 2 else 0) + if cb.readWrites then 2 else 0
  {
    var inRead := if cb.readWrites then WRITE else [];
    var tail := [Release(QueueLock)] + inRead;
    if cb.doneWrites {
      WriteInside(tail, true, false);
      assert Program(ReadEnd, cb)[1..] == WRITE + tail;
    } else {
      assert Program(ReadEnd, cb)[1..] == tail && tail[1..] == inRead;
      WriteInside([], false, false);
      assert WRITE + [] == WRITE;
    }
  }

  lemma CompletionPasses(cb: Callbacks)
    ensures Passes(Program(WriteCompletion, cb), false, false) <==> !cb.doneWrites
    ensures |Program(WriteCompletion, cb)| == if cb.doneWrites then 6 else 4
  {
    var tail := [Release(StatsLock), Release(QueueLock)];
    var program := Program(WriteCompletion, cb);
    assert tail[1..] == [Release(QueueLock)] && tail[1..][1..] == [];
    assert Passes(tail, true, true);
    assert program[1..][0] == Acquire(StatsLock);
    if cb.doneWrites {
      WriteInside(tail, true, true);
      assert program[1..][1..] == WRITE + tail;
    } else {
      assert program[1..][1..] == tail;
    }
  }

  /** A thread that is alone runs its operation to the end, in so many lock operations, if
      and only if it does not write from on_write_done: that callback runs under the queue
      lock, while on_read never does. */
  lemma LoneThreadExact(k: Kind, cb: Callbacks)
    ensures Legal(cb, Init([k]), Zeros(|Program(k, cb)|))
       <==> !(cb.doneWrites && (k == WriteCompletion || k == ReadEnd))
    ensures |Program(k, cb)|
         == match k
            case WriteCall => 2
            case WriteCompletion => if cb.doneWrites then 6 else 4
            case ReadMessage => if cb.readWrites then 4 else 2
            case ReadEnd => 2 + (if cb.doneWrites then 2 else 0) + if cb.readWrites then 2 else 0
  {
    LoneRun(cb, Init([k]));
    assert Program(k, cb)[0..] == Program(k, cb);
    match k
    case WriteCall =>
      WriteInside([], false, false);
      assert WRITE + [] == WRITE;
    case WriteCompletion => CompletionPasses(cb);
    case ReadMessage => ReadMessagePasses(cb);
    case ReadEnd => ReadEndPasses(cb);
  }
}
