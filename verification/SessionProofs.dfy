/** What holds over whole runs of the session. */
module SessionProofs {
  import opened Allocation
  import opened Buffers
  import opened Pumps
  import opened Seqs
  import opened SessionModel
  import opened Wrappers
  import M = SessionModel
  import Spec = StatsSpec

  // ---------- the session refines the pump and the statistics

  function AsSeq<T>(o: Option<T>): seq<T> {
    match o case None => [] case Some(x) => [x]
  }

  function Moves(s: Session, acts: seq<Action>): seq<Move<Msg>>
    requires M.Legal(s, acts)
    decreases |acts|
  {
    if |acts| == 0 then []
    else AsSeq(MoveOf(s.hooks, s.open, s.ctl, acts[0])) + Moves(M.Next(s, acts[0]), acts[1..])
  }

  function Counts(s: Session, acts: seq<Action>): seq<Spec.Action>
    requires M.Legal(s, acts)
    decreases |acts|
  {
    if |acts| == 0 then [] else AsSeq(CountOf(acts[0])) + Counts(M.Next(s, acts[0]), acts[1..])
  }

  /** Every run of the session is, on its write queue, a run of the pump, in which a
      drain happens only with on_write_done set and careful means guarded. */
  lemma {:induction false} RunRefinesPump(s: Session, acts: seq<Action>)
    requires M.Legal(s, acts)
    ensures Pumps.Legal(s.outb.pump, Moves(s, acts))
    ensures M.Exec(s, acts).outb.pump == Pumps.Exec(s.outb.pump, Moves(s, acts))
    ensures !s.hooks.writeDone ==> NoDrain(Moves(s, acts))
    ensures Careful(s, acts) <==> Guarded(s.outb.pump, Moves(s, acts))
    decreases |acts|
  {
    if |acts| > 0 {
      var t := M.Next(s, acts[0]);
      RunRefinesPump(t, acts[1..]);
      match MoveOf(s.hooks, s.open, s.ctl, acts[0]) {
        case None =>
          assert Moves(s, acts) == Moves(t, acts[1..]);
        case Some(m) =>
          assert Moves(s, acts)[0] == m && Moves(s, acts)[1..] == Moves(t, acts[1..]);
          assert m.Submit? <==> acts[0].Write?;
      }
    }
  }

  lemma {:induction false} RunRefinesStats(s: Session, acts: seq<Action>)
    requires M.Legal(s, acts)
    ensures Spec.Legal(s.stats, Counts(s, acts))
    ensures M.Exec(s, acts).stats == Spec.Exec(s.stats, Counts(s, acts))
    decreases |acts|
  {
    if |acts| > 0 {
      var t := M.Next(s, acts[0]);
      RunRefinesStats(t, acts[1..]);
      match CountOf(acts[0]) {
        case None =>
          assert Counts(s, acts) == Counts(t, acts[1..]);
        case Some(x) =>
          assert Counts(s, acts)[0] == x && Counts(s, acts)[1..] == Counts(t, acts[1..]);
      }
    }
  }

  // ---------- disposal of written messages

  /** Where disposed messages went. */
  ghost predicate Routed(h: Hooks, o: Outbound) {
    if h.writeDone then o.handed == o.pump.done && o.freed == []
    else o.freed == o.pump.done && o.handed == []
  }

  lemma OutboundStepRoutes(h: Hooks, o: Outbound, move: Option<Move<Msg>>)
    requires Routed(h, o) && (move.Some? ==> Pumps.Enabled(o.pump, move.value))
    ensures Routed(h, NextOutbound(h, o, move))
  {
    if move.Some? {
      var p := Step(o.pump, move.value);
      assert p.done == o.pump.done + p.done[|o.pump.done|..];
    }
  }

  lemma {:induction false} RunRoutes(s: Session, acts: seq<Action>)
    requires Routed(s.hooks, s.outb) && M.Legal(s, acts)
    ensures Routed(s.hooks, M.Exec(s, acts).outb) && M.Exec(s, acts).hooks == s.hooks
    decreases |acts|
  {
    if |acts| > 0 {
      OutboundStepRoutes(s.hooks, s.outb, MoveOf(s.hooks, s.open, s.ctl, acts[0]));
      RunRoutes(M.Next(s, acts[0]), acts[1..]);
    }
  }

  /** The invariant of the write queue over the runs of a careful caller. */
  lemma QueueInv(hooks: Hooks, acts: seq<Action>)
    requires M.Legal(Init(hooks), acts) && Careful(Init(hooks), acts)
    ensures Pumps.Inv(M.Exec(Init(hooks), acts).outb.pump)
    ensures Routed(hooks, M.Exec(Init(hooks), acts).outb)
  {
    RunRefinesPump(Init(hooks), acts);
    RunRoutes(Init(hooks), acts);
    GuardedRunKeepsInv(Init(hooks).outb.pump, Moves(Init(hooks), acts));
  }

  /** Until the first drain every caller is a careful one, and a write is outstanding
      exactly while the queue is non-empty. */
  lemma DrainFreeIsCareful(hooks: Hooks, acts: seq<Action>)
    requires M.Legal(Init(hooks), acts) && NoDrain(Moves(Init(hooks), acts))
    ensures Careful(Init(hooks), acts)
    ensures Tight(M.Exec(Init(hooks), acts).outb.pump)
  {
    RunRefinesPump(Init(hooks), acts);
    DrainFreeRunsAreGuarded(Init(hooks).outb.pump, Moves(Init(hooks), acts));
  }

  /** Nothing lost, duplicated or reordered: what was submitted is what was handed over or
      given back, followed by the queue, and every message went the installed way. */
  ghost predicate DisposesExactly(h: Hooks, o: Outbound) {
    && o.pump.submitted == (if h.writeDone then o.handed else o.freed) + o.pump.queue
    && (if h.writeDone then o.freed else o.handed) == []
  }

  /** One write outstanding, for the front message, exactly while the queue is non-empty. */
  ghost predicate WritesFront(p: Pump<Msg>) {
    if |p.queue| == 0 then |p.ops| == 0 else |p.ops| == 1 && p.ops[0].item == p.queue[0]
  }

  /** For every session and every caller, until the first drain. */
  lemma ExactUntilDrain(hooks: Hooks, acts: seq<Action>)
    requires M.Legal(Init(hooks), acts) && NoDrain(Moves(Init(hooks), acts))
    ensures var o := M.Exec(Init(hooks), acts).outb; DisposesExactly(hooks, o) && WritesFront(o.pump)
  {
    DrainFreeIsCareful(hooks, acts);
    QueueInv(hooks, acts);
  }

  /** The stream reports that the peer closed it. */
  predicate CleanEnd(a: Action) {
    a.ReadFail? && (a.ec == WebsocketClosed || a.ec == Code(89))
  }

  ghost predicate NoCleanEnd(acts: seq<Action>) {
    forall i :: 0 <= i < |acts| ==> !CleanEnd(acts[i])
  }

  /** What a caller can see: before a clean end of reading nothing was drained. */
  lemma {:induction false} OnlyCleanEndsDrain(s: Session, acts: seq<Action>)
    requires M.Legal(s, acts) && NoCleanEnd(acts) && ErrorTail(true) !in s.ctl.tokens
    ensures NoDrain(Moves(s, acts))
    decreases |acts|
  {
    if |acts| > 0 {
      var t := M.Next(s, acts[0]);
      assert !CleanEnd(acts[0]);
      NoCleanTail(s.hooks, s.open, s.ctl, acts[0]);
      assert NoCleanEnd(acts[1..]);
      OnlyCleanEndsDrain(t, acts[1..]);
      match MoveOf(s.hooks, s.open, s.ctl, acts[0]) {
        case None =>
          assert Moves(s, acts) == Moves(t, acts[1..]);
        case Some(m) =>
          assert Moves(s, acts)[0] == m && Moves(s, acts)[1..] == Moves(t, acts[1..]);
      }
    }
  }

  lemma NoCleanTail(h: Hooks, open: bool, c: Control, a: Action)
    requires ControlEnabled(c, a) && !CleanEnd(a) && ErrorTail(true) !in c.tokens
    ensures ErrorTail(true) !in NextControl(h, open, c, a).tokens
  {
  }

  /** Without on_write_done, as in the client, in every interleaving; and with it until the
      stream reports a clean close, whatever is written when. */
  lemma DisposesExactlyOnce(hooks: Hooks, acts: seq<Action>)
    requires M.Legal(Init(hooks), acts) && (hooks.writeDone ==> NoCleanEnd(acts))
    ensures var o := M.Exec(Init(hooks), acts).outb; DisposesExactly(hooks, o) && WritesFront(o.pump)
    ensures Careful(Init(hooks), acts)
  {
    if hooks.writeDone {
      OnlyCleanEndsDrain(Init(hooks), acts);
    } else {
      RunRefinesPump(Init(hooks), acts);
    }
    ExactUntilDrain(hooks, acts);
    DrainFreeIsCareful(hooks, acts);
  }

  /** With drains: a careful caller still gets one call per message, in order, even for a
      message that was in flight, and writes never overlap. */
  lemma DrainDisposesExactlyOnce(hooks: Hooks, acts: seq<Action>)
    requires M.Legal(Init(hooks), acts) && Careful(Init(hooks), acts)
    ensures var o := M.Exec(Init(hooks), acts).outb; DisposesExactly(hooks, o) && SingleFlight(o.pump)
  {
    QueueInv(hooks, acts);
  }

  lemma {:induction false} SubseqDropLast<T>(a: seq<T>, x: T, b: seq<T>)
    requires IsSubseq(a + [x], b)
    ensures IsSubseq(a, b)
    decreases |b|
  {
    var c := b[..|b| - 1];
    assert b == c + [b[|b| - 1]];
    if (a + [x])[|a|] == b[|b| - 1] && IsSubseq((a + [x])[..|a|], c) {
      assert (a + [x])[..|a|] == a;
    } else {
      SubseqDropLast(a, x, c);
    }
    SubseqExtend(a, c, [b[|b| - 1]]);
  }

  /** Messages are started in submission order, and, until some message is disposed of
      unstarted, without a gap. */
  lemma WireKeepsOrder(hooks: Hooks, acts: seq<Action>)
    requires M.Legal(Init(hooks), acts)
    requires !hooks.writeDone || NoCleanEnd(acts) || Careful(Init(hooks), acts)
    ensures var p := M.Exec(Init(hooks), acts).outb.pump;
            && IsSubseq(p.wire, p.submitted)
            && (!p.skipped ==> p.wire <= p.submitted)
  {
    if !hooks.writeDone || NoCleanEnd(acts) {
      DisposesExactlyOnce(hooks, acts);
    }
    RunRefinesPump(Init(hooks), acts);
    GuardedRunKeepsOrder(Init(hooks).outb.pump, Moves(Init(hooks), acts));
    OrderedWire(M.Exec(Init(hooks), acts).outb.pump);
  }

  lemma OrderedWire<T>(p: Pump<T>)
    requires WireOrdered(p)
    ensures IsSubseq(p.wire, p.submitted)
    ensures !p.skipped ==> p.wire <= p.submitted
  {
    var k := Horizon(p);
    assert p.submitted == p.submitted[..k] + p.submitted[k..];
    if |p.ops| == 1 && p.ops[0].stage.Dispatched? {
      SubseqDropLast(p.wire, p.ops[0].item, p.submitted[..k]);
    }
    SubseqExtend(p.wire, p.submitted[..k], p.submitted[k..]);
  }

  // ---------- the lifetime of a message that is being written

  /** Every outstanding write is of a message that is still queued. */
  ghost predicate OwnsWrites(p: Pump<Msg>) {
    forall i :: 0 <= i < |p.ops| ==> p.ops[i].item in p.queue
  }

  lemma OwnsWhenTight(p: Pump<Msg>)
    requires SingleFlight(p)
    ensures OwnsWrites(p) <==> Tight(p)
  {
    if |p.ops| > 0 && OwnsWrites(p) {
      assert p.ops[0].item in p.queue;
    }
  }

  /** After a careful run, the condition on the next write is also what keeps the session
      the owner of every message it is writing. */
  lemma OwnsWritesExact(hooks: Hooks, acts: seq<Action>)
    requires M.Legal(Init(hooks), acts) && Careful(Init(hooks), acts)
    ensures var s := M.Exec(Init(hooks), acts); OwnsWrites(s.outb.pump) <==> MayWrite(s)
  {
    QueueInv(hooks, acts);
    OwnsWhenTight(M.Exec(Init(hooks), acts).outb.pump);
  }

  lemma PumpLosesWrite(p: Pump<Msg>, m: Move<Msg>)
    requires Pumps.Inv(p) && OwnsWrites(p) && Pumps.Enabled(p, m)
    ensures var q := Step(p, m);
            && (OwnsWrites(q) <==> !(m.Drain? && |p.ops| > 0))
            && (m.Drain? && |p.ops| > 0 ==> |q.ops| == 1 && q.ops[0].item in q.done)
  {
    OwnsWhenTight(p);
    StepKeepsInv(p, m);
    OwnsWhenTight(Step(p, m));
  }

  /** The one step by which a message is handed over while it is being written: a drain
      that meets an outstanding write. */
  lemma DrainLosesWrite(hooks: Hooks, acts: seq<Action>, a: Action)
    requires M.Legal(Init(hooks), acts) && Careful(Init(hooks), acts)
    requires var s := M.Exec(Init(hooks), acts); OwnsWrites(s.outb.pump) && M.Enabled(s, a)
    ensures var s := M.Exec(Init(hooks), acts);
            var o := M.Next(s, a).outb;
            if MoveOf(hooks, s.open, s.ctl, a) == Some(Drain) && |s.outb.pump.ops| > 0
            then !OwnsWrites(o.pump) && |o.pump.ops| == 1 && o.pump.ops[0].item in o.handed
            else OwnsWrites(o.pump)
  {
    QueueInv(hooks, acts);
    RunRoutes(Init(hooks), acts);
    var s := M.Exec(Init(hooks), acts);
    OutboundLosesWrite(hooks, s.outb, MoveOf(hooks, s.open, s.ctl, a));
  }

  lemma OutboundLosesWrite(h: Hooks, o: Outbound, move: Option<Move<Msg>>)
    requires Pumps.Inv(o.pump) && Routed(h, o) && OwnsWrites(o.pump)
    requires move.Some? ==> Pumps.Enabled(o.pump, move.value) && (move.value.Drain? ==> h.writeDone)
    ensures var q := NextOutbound(h, o, move);
            if move == Some(Drain) && |o.pump.ops| > 0
            then !OwnsWrites(q.pump) && |q.pump.ops| == 1 && q.pump.ops[0].item in q.handed
            else OwnsWrites(q.pump)
  {
    OutboundStepRoutes(h, o, move);
    if move.Some? {
      PumpLosesWrite(o.pump, move.value);
    }
  }

  // ---------- destruction

  /** Nothing holds a shared pointer to the session any more. */
  predicate Unreferenced(s: Session) {
    |s.outb.pump.ops| == 0 && |s.ctl.tokens| == 0 && |s.ctl.closes| == 0
  }

  /** In every run, drains and careless writes included, queued messages have a write
      outstanding, so a session that no operation keeps alive has an empty queue. */
  lemma DestructionFindsQueueEmpty(hooks: Hooks, acts: seq<Action>)
    requires M.Legal(Init(hooks), acts)
    ensures var s := M.Exec(Init(hooks), acts);
            && Attended(s.outb.pump)
            && (Unreferenced(s) ==> |s.outb.pump.queue| == 0)
  {
    RunRefinesPump(Init(hooks), acts);
    QueueAlwaysAttended(Init(hooks).outb.pump, Moves(Init(hooks), acts));
  }

  // ---------- termination of the write queue

  function WritesHandled(acts: seq<Action>): nat {
    if |acts| == 0 then 0
    else (if acts[0].WriteDone? then 1 else 0) + WritesHandled(acts[1..])
  }

  ghost predicate Quiet(acts: seq<Action>) {
    forall i :: 0 <= i < |acts| ==> !acts[i].Write?
  }

  lemma {:induction false} QuietMoves(s: Session, acts: seq<Action>)
    requires M.Legal(s, acts) && Quiet(acts)
    ensures NoSubmit(Moves(s, acts))
    ensures Completions(Moves(s, acts)) == WritesHandled(acts)
    decreases |acts|
  {
    if |acts| > 0 {
      var t := M.Next(s, acts[0]);
      assert !acts[0].Write?;
      assert Quiet(acts[1..]);
      QuietMoves(t, acts[1..]);
      match MoveOf(s.hooks, s.open, s.ctl, acts[0]) {
        case None =>
          assert Moves(s, acts) == Moves(t, acts[1..]);
        case Some(m) =>
          assert Moves(s, acts)[0] == m && Moves(s, acts)[1..] == Moves(t, acts[1..]);
      }
    }
  }

  /** Once the caller stops writing, the queue is empty after at most as many write
      completions as it has messages. */
  lemma QueueEmpties(hooks: Hooks, before: seq<Action>, acts: seq<Action>)
    requires M.Legal(Init(hooks), before)
    requires var s := M.Exec(Init(hooks), before);
             && M.Legal(s, acts) && Quiet(acts)
             && WritesHandled(acts) >= |s.outb.pump.queue|
    ensures |M.Exec(M.Exec(Init(hooks), before), acts).outb.pump.queue| == 0
  {
    var s := M.Exec(Init(hooks), before);
    QuietMoves(s, acts);
    RunRefinesPump(s, acts);
    PumpTerminates(s.outb.pump, Moves(s, acts));
  }

  /** A queue that is not empty always has a write whose next stage can run, and one
      completion that finds the stream closed leaves the queue empty. */
  lemma QueueNeverStuck(hooks: Hooks, acts: seq<Action>)
    requires M.Legal(Init(hooks), acts)
    ensures var s := M.Exec(Init(hooks), acts);
            && (|s.outb.pump.queue| > 0 ==> M.Enabled(s, RunWrite(0)) || M.Enabled(s, WriteDone(0, 0)))
            && (forall i: nat, bytes: nat :: M.Enabled(s, WriteDone(i, bytes)) && !s.open ==>
                  |M.Next(s, WriteDone(i, bytes)).outb.pump.queue| == 0)
  {
    DestructionFindsQueueEmpty(hooks, acts);
  }

  // ---------- the read loop and the connection outcome

  predicate Opening(t: Token) {
    t.Connecting? || t.Handshaking? || t.Accepting?
  }

  /** The read loop is alive: a read is pending, or a handler is about to start one. */
  predicate Looping(t: Token) {
    BeforeRead(t) || t.ReadQueued? || t.Reading?
  }

  ghost predicate OnlineOnce(log: seq<Status>) {
    forall i, j :: 0 <= i < j < |log| ==> log[i] != ONLINE || log[j] != ONLINE
  }

  ghost predicate LoopInv(c: Control) {
    && |c.tokens| <= c.attempts <= 1
    && |c.statusLog| > 0 && c.statusLog[|c.statusLog| - 1] == c.status
    && (c.status == ONLINE ==> |c.tokens| == 1 && Looping(c.tokens[0]))
    && OnlineOnce(c.statusLog)
    && (c.attempts == 0 || (|c.tokens| == 1 && Opening(c.tokens[0])) ==> ONLINE !in c.statusLog)
    && (|c.tokens| == 1 && Looping(c.tokens[0]) ==> ONLINE in c.statusLog)
    && (c.endCalls > 0 ==> c.attempts == 1 && |c.tokens| == 0)
    && c.endCalls <= 1
  }

  /** on_ready has not been called yet for the current attempt. */
  predicate AwaitsReady(c: Control) {
    |c.tokens| == 1 && (Opening(c.tokens[0]) || c.tokens[0].AcceptTail?)
  }

  ghost predicate ReadyInv(h: Hooks, c: Control) {
    if !h.ready || c.attempts == 0 || AwaitsReady(c) then c.readyLog == []
    else |c.readyLog| == 1 && (c.readyLog[0] == Success <==> ONLINE in c.statusLog)
  }

  lemma LogGrows(log: seq<Status>, st: Status)
    ensures OnlineOnce(log) && (st == ONLINE ==> ONLINE !in log) ==> OnlineOnce(log + [st])
    ensures ONLINE in log + [st] <==> ONLINE in log || st == ONLINE
  {
  }

  ghost predicate ControlInv(h: Hooks, c: Control) {
    LoopInv(c) && ReadyInv(h, c)
  }

  lemma OpeningStep(h: Hooks, open: bool, c: Control, a: Action)
    requires ControlInv(h, c) && ControlEnabled(c, a) && (a.Connect? || a.Accept? || a.Connected?)
    ensures ControlInv(h, NextControl(h, open, c, a))
  {
    LogGrows(c.statusLog, NextControl(h, open, c, a).status);
  }

  lemma OpenedStep(h: Hooks, open: bool, c: Control, a: Action)
    requires ControlInv(h, c) && ControlEnabled(c, a) && (a.Handshaken? || a.Accepted?)
    ensures ControlInv(h, NextControl(h, open, c, a))
  {
    LogGrows(c.statusLog, NextControl(h, open, c, a).status);
  }

  lemma ReadingStep(h: Hooks, open: bool, c: Control, a: Action)
    requires ControlInv(h, c) && ControlEnabled(c, a) && (a.RunRead? || a.ReadOk?)
    ensures ControlInv(h, NextControl(h, open, c, a))
  {
  }

  lemma ContinueStep(h: Hooks, open: bool, c: Control, a: Action)
    requires ControlInv(h, c) && ControlEnabled(c, a) && a.ContinueRead?
    ensures ControlInv(h, NextControl(h, open, c, a))
  {
    assert |c.tokens| == 1 && a.at == 0 && Remove(c.tokens, 0) == [];
  }

  lemma EndingStep(h: Hooks, open: bool, c: Control, a: Action)
    requires ControlInv(h, c) && ControlEnabled(c, a) && (a.ReadFail? || a.ReportEnd?)
    ensures ControlInv(h, NextControl(h, open, c, a))
  {
    LogGrows(c.statusLog, NextControl(h, open, c, a).status);
  }

  lemma ControlStep(h: Hooks, open: bool, c: Control, a: Action)
    requires ControlInv(h, c) && ControlEnabled(c, a)
    ensures ControlInv(h, NextControl(h, open, c, a))
  {
    if a.Connect? || a.Accept? || a.Connected? {
      OpeningStep(h, open, c, a);
    } else if a.Handshaken? || a.Accepted? {
      OpenedStep(h, open, c, a);
    } else if a.RunRead? || a.ReadOk? {
      ReadingStep(h, open, c, a);
    } else if a.ContinueRead? {
      ContinueStep(h, open, c, a);
    } else if a.ReadFail? || a.ReportEnd? {
      EndingStep(h, open, c, a);
    } else if a.CloseDone? {
      LogGrows(c.statusLog, OFFLINE);
    }
  }

  lemma {:induction false} ControlRun(s: Session, acts: seq<Action>)
    requires ControlInv(s.hooks, s.ctl) && M.Legal(s, acts)
    ensures ControlInv(s.hooks, M.Exec(s, acts).ctl)
    decreases |acts|
  {
    if |acts| > 0 {
      ControlStep(s.hooks, s.open, s.ctl, acts[0]);
      ControlRun(M.Next(s, acts[0]), acts[1..]);
    }
  }

  /** Between handlers: no handler is halfway through. */
  predicate Settled(c: Control) {
    forall i :: 0 <= i < |c.tokens| ==> !BeforeRead(c.tokens[i]) && !c.tokens[i].ErrorTail?
  }

  function PendingReads(tokens: seq<Token>): nat {
    if |tokens| == 0 then 0
    else (if tokens[0].ReadQueued? || tokens[0].Reading? then 1 else 0) + PendingReads(tokens[1..])
  }

  lemma PendingReadsOfFew(tokens: seq<Token>)
    requires |tokens| <= 1
    ensures PendingReads(tokens) == if |tokens| == 1 && (tokens[0].ReadQueued? || tokens[0].Reading?) then 1 else 0
  {
    if |tokens| == 1 {
      assert PendingReads(tokens[1..]) == 0;
    }
  }

  /** Between handlers ONLINE implies exactly one read queued or in flight, and any other
      status at most one; a session with nothing pending is not ONLINE; a session that
      left ONLINE never returns to it; the end of reading is reported at most once. */
  lemma ReadLoopNeverStuck(hooks: Hooks, acts: seq<Action>)
    requires M.Legal(Init(hooks), acts)
    ensures var c := M.Exec(Init(hooks), acts).ctl;
            && PendingReads(c.tokens) <= 1
            && (Settled(c) && c.status == ONLINE ==> PendingReads(c.tokens) == 1)
            && (|c.tokens| == 0 ==> c.status != ONLINE)
            && OnlineOnce(c.statusLog)
            && c.endCalls <= 1
  {
    ControlRun(Init(hooks), acts);
    PendingReadsOfFew(M.Exec(Init(hooks), acts).ctl.tokens);
  }

  predicate LeftOnline(c: Control) {
    c.status != ONLINE && ONLINE in c.statusLog
  }

  /** Off ONLINE no step starts another read, and no step leads back. */
  lemma LeftOnlineStep(h: Hooks, open: bool, c: Control, a: Action)
    requires ControlInv(h, c) && ControlEnabled(c, a) && LeftOnline(c)
    ensures var d := NextControl(h, open, c, a);
            && LeftOnline(d)
            && PendingReads(d.tokens) + (if a.ReadOk? then 1 else 0) <= PendingReads(c.tokens)
  {
    ControlStep(h, open, c, a);
    PendingReadsOfFew(c.tokens);
    PendingReadsOfFew(NextControl(h, open, c, a).tokens);
  }

  lemma {:induction false} LeftOnlineRun(s: Session, acts: seq<Action>)
    requires ControlInv(s.hooks, s.ctl) && LeftOnline(s.ctl) && M.Legal(s, acts)
    ensures var t := M.Exec(s, acts);
            && LeftOnline(t.ctl)
            && |t.inb.received| + PendingReads(t.ctl.tokens) <= |s.inb.received| + PendingReads(s.ctl.tokens)
    decreases |acts|
  {
    if |acts| > 0 {
      LeftOnlineStep(s.hooks, s.open, s.ctl, acts[0]);
      ControlStep(s.hooks, s.open, s.ctl, acts[0]);
      FramesGrow(s.hooks, s.inb, acts[0]);
      LeftOnlineRun(M.Next(s, acts[0]), acts[1..]);
    }
  }

  /** Once a session left ONLINE it stays off, and receives at most one more message:
      the one whose read was already pending. */
  lemma LeavingOnlineEndsReading(hooks: Hooks, before: seq<Action>, acts: seq<Action>)
    requires M.Legal(Init(hooks), before)
    requires var s := M.Exec(Init(hooks), before); LeftOnline(s.ctl) && M.Legal(s, acts)
    ensures var s := M.Exec(Init(hooks), before);
            var t := M.Exec(s, acts);
            && LeftOnline(t.ctl)
            && |t.inb.received| <= |s.inb.received| + PendingReads(s.ctl.tokens) <= |s.inb.received| + 1
  {
    ControlRun(Init(hooks), before);
    var s := M.Exec(Init(hooks), before);
    RunRoutes(Init(hooks), before);
    PendingReadsOfFew(s.ctl.tokens);
    LeftOnlineRun(s, acts);
  }

  /** An attempt that is over has called on_ready exactly once, with success exactly
      when it set ONLINE; an attempt that is not over has not called it. */
  lemma ConnectionOutcome(hooks: Hooks, acts: seq<Action>)
    requires hooks.ready && M.Legal(Init(hooks), acts)
    ensures var c := M.Exec(Init(hooks), acts).ctl;
            if c.attempts == 0 || AwaitsReady(c) then c.readyLog == []
            else |c.readyLog| == 1 && (c.readyLog[0] == Success <==> ONLINE in c.statusLog)
  {
    ControlRun(Init(hooks), acts);
  }

  function OpeningRank(c: Control): nat {
    if |c.tokens| != 1 then 0
    else match c.tokens[0]
      case Connecting => 2
      case Handshaking => 1
      case Accepting => 2
      case AcceptTail => 1
      case _ => 0
  }

  /** A handler on the way from connect or accept to on_ready. */
  predicate Opens(c: Control, a: Action) {
    a.Connected? || a.Handshaken? || a.Accepted? || (a.ContinueRead? && AwaitsReady(c))
  }

  predicate CanOpen(c: Control) {
    || ControlEnabled(c, Connected(0, Success)) || ControlEnabled(c, Handshaken(0, Success))
    || ControlEnabled(c, Accepted(0, Success)) || ControlEnabled(c, ContinueRead(0, true))
  }

  lemma AwaitingIsRanked(c: Control)
    ensures AwaitsReady(c) <==> OpeningRank(c) > 0
    ensures AwaitsReady(c) ==> CanOpen(c)
  {
  }

  /** Each opening handler brings on_ready nearer, and no other step puts it off. */
  lemma AttemptProgresses(h: Hooks, open: bool, c: Control, a: Action)
    requires LoopInv(c) && c.attempts == 1 && ControlEnabled(c, a)
    ensures var d := NextControl(h, open, c, a);
            d.attempts == 1 && OpeningRank(d) + (if Opens(c, a) then 1 else 0) <= OpeningRank(c)
  {
    if |c.tokens| == 1 {
      assert Remove(c.tokens, 0) == [];
    }
  }

  /** The handlers of a run that belong to opening the connection. */
  function OpeningSteps(s: Session, acts: seq<Action>): nat
    requires M.Legal(s, acts)
    decreases |acts|
  {
    if |acts| == 0 then 0
    else (if Opens(s.ctl, acts[0]) then 1 else 0) + OpeningSteps(M.Next(s, acts[0]), acts[1..])
  }

  lemma {:induction false} AttemptRun(s: Session, acts: seq<Action>)
    requires ControlInv(s.hooks, s.ctl) && s.ctl.attempts == 1 && M.Legal(s, acts)
    ensures OpeningSteps(s, acts) + OpeningRank(M.Exec(s, acts).ctl) <= OpeningRank(s.ctl)
    ensures M.Exec(s, acts).ctl.attempts == 1
    decreases |acts|
  {
    if |acts| > 0 {
      AttemptProgresses(s.hooks, s.open, s.ctl, acts[0]);
      ControlStep(s.hooks, s.open, s.ctl, acts[0]);
      AttemptRun(M.Next(s, acts[0]), acts[1..]);
    }
  }

  /** Every attempt comes to its end: whatever else runs in between, at most two handlers
      open the connection; until on_ready was called the next of them can run, so after
      two of them, if not after one, it was called, once. */
  lemma AttemptCompletes(hooks: Hooks, before: seq<Action>, acts: seq<Action>)
    requires hooks.ready && M.Legal(Init(hooks), before)
    requires var s := M.Exec(Init(hooks), before); s.ctl.attempts == 1 && M.Legal(s, acts)
    ensures var s := M.Exec(Init(hooks), before);
            var t := M.Exec(s, acts);
            && OpeningSteps(s, acts) <= 2
            && (OpeningSteps(s, acts) == 2 ==> |t.ctl.readyLog| == 1)
            && (if |t.ctl.readyLog| == 1 then !AwaitsReady(t.ctl)
                else |t.ctl.readyLog| == 0 && CanOpen(t.ctl))
  {
    var s := M.Exec(Init(hooks), before);
    ControlRun(Init(hooks), before);
    RunRoutes(Init(hooks), before);
    AttemptRun(s, acts);
    ControlRun(s, acts);
    RunRoutes(s, acts);
    var t := M.Exec(s, acts);
    AwaitingIsRanked(t.ctl);
  }

  // ---------- framing of inbound messages

  ghost predicate Faithful(frames: seq<Frame>, deliveries: seq<Delivery>) {
    && |frames| == |deliveries|
    && forall i :: 0 <= i < |frames| ==>
         && deliveries[i].data == (if frames[i].text then [] else frames[i].payload)
         && deliveries[i].bytes == |frames[i].payload|
  }

  ghost predicate FrameInv(h: Hooks, c: Control, b: Inbound) {
    && (c.attempts == 0 || (|c.tokens| == 1 && !c.tokens[0].ErrorTail?) ==> Flatten(b.buffer) == [])
    && (if h.read then Faithful(b.received, b.delivered) else b.delivered == [])
  }

  /** A received message is consumed whole, and delivered whole if it is binary. */
  lemma ReceivedKeepsFrames(h: Hooks, b: Inbound, a: Action)
    requires a.ReadOk? && Flatten(b.buffer) == []
    requires if h.read then Faithful(b.received, b.delivered) else b.delivered == []
    ensures var n := NextInbound(h, b, a);
            && Flatten(n.buffer) == []
            && (if h.read then Faithful(n.received, n.delivered) else n.delivered == [])
  {
    FlattenConcat(b.buffer, a.chunks);
    var all := b.buffer + a.chunks;
    assert Flatten(all) == Flatten(a.chunks);
    ConsumeDropsPrefix(all, |Flatten(a.chunks)|);
  }

  lemma InboundStep(h: Hooks, open: bool, c: Control, b: Inbound, a: Action)
    requires LoopInv(c) && FrameInv(h, c, b) && ControlEnabled(c, a)
    ensures FrameInv(h, NextControl(h, open, c, a), NextInbound(h, b, a))
  {
    if a.ReadOk? {
      ReceivedKeepsFrames(h, b, a);
    }
  }

  lemma {:induction false} InboundRun(s: Session, acts: seq<Action>)
    requires ControlInv(s.hooks, s.ctl) && FrameInv(s.hooks, s.ctl, s.inb) && M.Legal(s, acts)
    ensures FrameInv(s.hooks, M.Exec(s, acts).ctl, M.Exec(s, acts).inb)
    decreases |acts|
  {
    if |acts| > 0 {
      ControlStep(s.hooks, s.open, s.ctl, acts[0]);
      InboundStep(s.hooks, s.open, s.ctl, s.inb, acts[0]);
      InboundRun(M.Next(s, acts[0]), acts[1..]);
    }
  }

  /** The buffer is empty before every read, and the sequence delivered is the sequence
      received: each binary message holds exactly the bytes of one received message,
      whatever its chunk boundaries were; text messages arrive without data. */
  lemma FramingIsFaithful(hooks: Hooks, acts: seq<Action>)
    requires M.Legal(Init(hooks), acts)
    ensures var s := M.Exec(Init(hooks), acts);
            && (PendingReads(s.ctl.tokens) > 0 ==> Flatten(s.inb.buffer) == [])
            && (if hooks.read then Faithful(s.inb.received, s.inb.delivered) else s.inb.delivered == [])
  {
    InboundRun(Init(hooks), acts);
    ControlRun(Init(hooks), acts);
    PendingReadsOfFew(M.Exec(Init(hooks), acts).ctl.tokens);
  }

  // ---------- the timer of close

  /** At most one wait can still run out, every wait and every forced close belongs to a
      call of close, and the latest call is answered or has a wait that will force it. */
  ghost predicate TimerInv(t: CloseTimer) {
    && (forall i, j :: 0 <= i < j < |t.waits| ==> !t.waits[i].Armed? || !t.waits[j].Armed?)
    && |t.waits| + |t.forced| <= t.asked
    && (!t.settled ==> exists i :: 0 <= i < |t.waits| && !t.waits[i].Aborted?)
  }

  lemma RemoveKeepsOthers(waits: seq<Spec.Wait>, i: nat, j: nat)
    requires i < |waits| && j < |waits| && i != j
    ensures Remove(waits, i)[if j < i then j else j - 1] == waits[j]
  {
  }

  lemma TimeoutStep(open: bool, t: CloseTimer, i: nat, sockets: Sockets)
    requires TimerInv(t) && TimerEnabled(t, CloseTimeout(i, sockets))
    ensures TimerInv(NextTimer(open, t, CloseTimeout(i, sockets)))
  {
    if t.waits[i].Aborted? && !t.settled {
      var j :| 0 <= j < |t.waits| && !t.waits[j].Aborted?;
      RemoveKeepsOthers(t.waits, i, j);
    }
  }

  lemma TimerStep(open: bool, t: CloseTimer, a: Action)
    requires TimerInv(t) && TimerEnabled(t, a)
    ensures TimerInv(NextTimer(open, t, a))
  {
    var u := NextTimer(open, t, a);
    if a.CloseTimeout? {
      TimeoutStep(open, t, a.wait, a.sockets);
    } else if a.Close? {
      assert u.waits[|t.waits|].Armed?;
    } else if a.CloseExpire? {
      assert u.waits[a.wait].Due?;
    }
  }

  lemma {:induction false} TimerRun(s: Session, acts: seq<Action>)
    requires TimerInv(s.timer) && M.Legal(s, acts)
    ensures TimerInv(M.Exec(s, acts).timer)
    decreases |acts|
  {
    if |acts| > 0 {
      TimerStep(s.open, s.timer, acts[0]);
      TimerRun(M.Next(s, acts[0]), acts[1..]);
    }
  }

  /** The wait can still run out, or its callback is about to force the close. */
  predicate WillForce(open: bool, t: CloseTimer, i: nat, sockets: Sockets) {
    || TimerEnabled(t, CloseExpire(i))
    || (TimerEnabled(t, CloseTimeout(i, sockets))
        && NextTimer(open, t, CloseTimeout(i, sockets)).forced == t.forced + [ForcedCalls(open, sockets)])
  }

  /** In every run a call of close is not forgotten: until a close completed or was forced
      after the latest call, a timer wait is left that will force it, whatever the sockets;
      and there are never more forced closes than calls. */
  lemma CloseIsBacked(hooks: Hooks, acts: seq<Action>, sockets: Sockets)
    requires M.Legal(Init(hooks), acts)
    ensures var s := M.Exec(Init(hooks), acts);
            && |s.timer.forced| <= s.timer.asked
            && (!s.timer.settled ==>
                  exists i: nat :: i < |s.timer.waits| && WillForce(s.open, s.timer, i, sockets))
  {
    TimerRun(Init(hooks), acts);
    var s := M.Exec(Init(hooks), acts);
    SomeWaitForces(s.open, s.timer, sockets);
  }

  lemma SomeWaitForces(open: bool, t: CloseTimer, sockets: Sockets)
    requires TimerInv(t)
    ensures !t.settled ==> exists i: nat :: i < |t.waits| && WillForce(open, t, i, sockets)
  {
    if !t.settled {
      var i :| 0 <= i < |t.waits| && !t.waits[i].Aborted?;
      assert WillForce(open, t, i, sockets);
    }
  }

  ghost predicate Disarmed(t: CloseTimer) {
    forall i :: 0 <= i < |t.waits| ==> t.waits[i].Aborted?
  }

  ghost predicate NoClose(acts: seq<Action>) {
    forall i :: 0 <= i < |acts| ==> !acts[i].Close?
  }

  lemma {:induction false} StaysDisarmed(s: Session, acts: seq<Action>)
    requires Disarmed(s.timer) && M.Legal(s, acts) && NoClose(acts)
    ensures Disarmed(M.Exec(s, acts).timer) && M.Exec(s, acts).timer.forced == s.timer.forced
    decreases |acts|
  {
    if |acts| > 0 {
      assert !acts[0].Close? && NoClose(acts[1..]);
      StaysDisarmed(M.Next(s, acts[0]), acts[1..]);
    }
  }

  /** A close that completes before a timer wait was due is not forced any more, until
      close is called again. */
  lemma CompletedCloseIsNotForced(s: Session, close: nat, acts: seq<Action>)
    requires M.Enabled(s, CloseDone(close)) && Spec.Due !in s.timer.waits
    requires M.Legal(M.Next(s, CloseDone(close)), acts) && NoClose(acts)
    ensures M.Exec(M.Next(s, CloseDone(close)), acts).timer.forced == s.timer.forced
  {
    StaysDisarmed(M.Next(s, CloseDone(close)), acts);
  }

  // ---------- statistics of a session

  /** The enable flag agrees with the timer and no count is lost, over session runs. */
  lemma SessionStatsSound(hooks: Hooks, acts: seq<Action>)
    requires M.Legal(Init(hooks), acts)
    ensures Spec.Agrees(M.Exec(Init(hooks), acts).stats)
    ensures Spec.AllConserved(M.Exec(Init(hooks), acts).stats)
  {
    RunRefinesStats(Init(hooks), acts);
    Spec.FlagAgreesWithTimer(Spec.INIT, Counts(Init(hooks), acts));
    Spec.CountsAreConserved(Spec.INIT, Counts(Init(hooks), acts));
  }

  function PayloadBytes(frames: seq<Frame>): nat {
    if |frames| == 0 then 0
    else PayloadBytes(frames[..|frames| - 1]) + |frames[|frames| - 1].payload|
  }

  /** The byte counts reported by the write completions of a run. */
  function BytesWritten(acts: seq<Action>): nat {
    if |acts| == 0 then 0
    else (if acts[0].WriteDone? then acts[0].bytes else 0) + BytesWritten(acts[1..])
  }

  /** What the counters gained is what went over the stream. */
  ghost predicate Counted(before: Session, after: Session, writes: nat, bytes: nat) {
    && after.stats.inData.added + PayloadBytes(before.inb.received)
       == before.stats.inData.added + PayloadBytes(after.inb.received)
    && after.stats.inMsgs.added + |before.inb.received| == before.stats.inMsgs.added + |after.inb.received|
    && after.stats.outMsgs.added == before.stats.outMsgs.added + writes
    && after.stats.outData.added == before.stats.outData.added + bytes
  }

  lemma FramesGrow(h: Hooks, b: Inbound, a: Action)
    ensures var r := NextInbound(h, b, a).received;
            && PayloadBytes(r) == PayloadBytes(b.received) + (if a.ReadOk? then |Flatten(a.chunks)| else 0)
            && |r| == |b.received| + if a.ReadOk? then 1 else 0
  {
    if a.ReadOk? {
      assert (b.received + [Frame(a.text, Flatten(a.chunks))])[..|b.received|] == b.received;
    }
  }

  lemma CountersGain(st: Spec.Stats, count: Option<Spec.Action>)
    requires count.Some? ==> Spec.Enabled(st, count.value) && count.value != Spec.SetEnabled(true)
    ensures var n := NextStats(st, count);
            var inBytes := if count.Some? && count.value.Inbound? then count.value.bytes else 0;
            var outBytes := if count.Some? && count.value.Outbound? then count.value.bytes else 0;
            && n.inData.added == st.inData.added + inBytes
            && n.outData.added == st.outData.added + outBytes
            && n.inMsgs.added == st.inMsgs.added + (if count.Some? && count.value.Inbound? then 1 else 0)
            && n.outMsgs.added == st.outMsgs.added + if count.Some? && count.value.Outbound? then 1 else 0
  {
  }

  lemma StepCounts(s: Session, a: Action)
    requires M.Enabled(s, a) && !a.EnableStats?
    ensures Counted(s, M.Next(s, a), if a.WriteDone? then 1 else 0, if a.WriteDone? then a.bytes else 0)
  {
    FramesGrow(s.hooks, s.inb, a);
    CountersGain(s.stats, CountOf(a));
  }

  /** Between two calls that may reset the statistics, the counters gain exactly one
      message and its bytes for every message received and every write completed; with
      SessionStatsSound this is what the published values add up to. */
  lemma {:induction false} CountersMatchTraffic(s: Session, acts: seq<Action>)
    requires M.Legal(s, acts) && forall i :: 0 <= i < |acts| ==> !acts[i].EnableStats?
    ensures Counted(s, M.Exec(s, acts), WritesHandled(acts), BytesWritten(acts))
    decreases |acts|
  {
    if |acts| > 0 {
      StepCounts(s, acts[0]);
      forall i | 0 <= i < |acts[1..]| ensures !acts[1..][i].EnableStats? {
        assert acts[1..][i] == acts[i + 1];
      }
      CountersMatchTraffic(M.Next(s, acts[0]), acts[1..]);
    }
  }
}
