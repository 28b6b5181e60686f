/** Writing while a drained message is still in flight. */
module LateWrites {
  import opened Allocation
  import opened Pumps
  import opened Seqs
  import opened SessionModel
  import opened SessionProofs
  import M = SessionModel

  // ---------- the exact condition on writing after a drain

  lemma ExecOne(s: Session, a: Action)
    requires M.Enabled(s, a)
    ensures M.Legal(s, [a]) && M.Exec(s, [a]) == M.Next(s, a)
    ensures !a.Write? ==> Careful(s, [a])
  {
    assert [a][1..] == [];
  }

  lemma ExecTwo(s: Session, a: Action, b: Action)
    requires M.Enabled(s, a) && M.Enabled(M.Next(s, a), b)
    ensures M.Legal(s, [a, b]) && M.Exec(s, [a, b]) == M.Next(M.Next(s, a), b)
    ensures !a.Write? && !b.Write? ==> Careful(s, [a, b])
  {
    assert [a, b][1..] == [b];
    ExecOne(M.Next(s, a), b);
  }

  lemma ExecBefore(s: Session, a: Action, acts: seq<Action>)
    requires M.Enabled(s, a) && M.Legal(M.Next(s, a), acts)
    ensures M.Legal(s, [a] + acts) && M.Exec(s, [a] + acts) == M.Exec(M.Next(s, a), acts)
    ensures Careful(s, [a] + acts) <==> (a.Write? ==> MayWrite(s)) && Careful(M.Next(s, a), acts)
  {
    assert ([a] + acts)[1..] == acts;
  }

  lemma {:induction false} RunConcat(s: Session, a: seq<Action>, b: seq<Action>)
    requires M.Legal(s, a) && M.Legal(M.Exec(s, a), b)
    ensures M.Legal(s, a + b) && M.Exec(s, a + b) == M.Exec(M.Exec(s, a), b)
    decreases |a|
  {
    if |a| == 0 {
      assert a + b == b;
    } else {
      var t := M.Next(s, a[0]);
      RunConcat(t, a[1..], b);
      ExecBefore(s, a[0], a[1..] + b);
      ConcatUnfolds(a, b);
    }
  }

  /** Whatever a careful caller and the environment do from here on, disposal stays exactly
      once and in order. */
  ghost predicate StaysExact(s: Session) {
    forall acts :: M.Legal(s, acts) && Careful(s, acts) ==> ExactlyOnce(M.Exec(s, acts).outb.pump)
  }

  lemma CarefulContinuation(s: Session)
    requires Pumps.Inv(s.outb.pump)
    ensures StaysExact(s)
  {
    forall acts | M.Legal(s, acts) && Careful(s, acts)
      ensures ExactlyOnce(M.Exec(s, acts).outb.pump)
    {
      RunRefinesPump(s, acts);
      GuardedRunKeepsInv(s.outb.pump, Moves(s, acts));
    }
  }

  lemma BreaksNow(s: Session)
    requires !ExactlyOnce(s.outb.pump)
    ensures !StaysExact(s)
  {
    assert M.Legal(s, []) && M.Exec(s, []) == s && Careful(s, []);
  }

  /** One careful step further, disposal can go wrong. */
  lemma BreaksAfter(s: Session, a: Action)
    requires M.Enabled(s, a) && (a.Write? ==> MayWrite(s)) && !StaysExact(M.Next(s, a))
    ensures !StaysExact(s)
  {
    var t := M.Next(s, a);
    var acts :| M.Legal(t, acts) && Careful(t, acts) && !ExactlyOnce(M.Exec(t, acts).outb.pump);
    ExecBefore(s, a, acts);
    assert M.Legal(s, [a] + acts) && Careful(s, [a] + acts);
  }

  /** A message was written while the write of a drained one is outstanding. */
  ghost predicate TwoOutstanding(p: Pump<Msg>, drained: Msg, m: Msg) {
    && ExactlyOnce(p) && p.queue == [m]
    && |p.ops| == 2 && p.ops[0].item == drained && p.ops[1].item == m
  }

  /** The completion of the drained message meets another one: the drained message is
      disposed of a second time, in its place. */
  lemma OtherInFlightBreaks(s: Session, drained: Msg, m: Msg)
    requires TwoOutstanding(s.outb.pump, drained, m) && s.outb.pump.ops[0].stage.InFlight?
    requires drained != m
    ensures !StaysExact(s)
  {
    var p := s.outb.pump;
    var t := M.Next(s, WriteDone(0, 0));
    var q := t.outb.pump;
    assert q.done == p.done + [drained] && q.queue == [];
    assert (q.done + q.queue)[|p.done|] != q.submitted[|p.done|];
    BreaksNow(t);
    BreaksAfter(s, WriteDone(0, 0));
  }

  /** Both writes are of the same message: its first completion starts the next message,
      whose place the second completion takes. */
  lemma SameInFlightBreaks(s: Session, m: Msg)
    requires TwoOutstanding(s.outb.pump, m, m) && s.open
    requires s.outb.pump.ops[0].stage.InFlight? && s.outb.pump.ops[1].stage.InFlight?
    ensures !StaysExact(s)
  {
    var t := M.Next(s, Write(m + 1, true));
    assert t.outb.pump.queue == [m, m + 1];
    NextTakesPlace(t, m);
    BreaksAfter(s, Write(m + 1, true));
  }

  lemma NextTakesPlace(s: Session, m: Msg)
    requires s.open && s.outb.pump.ops == [Op(InFlight, m), Op(InFlight, m)]
    requires ExactlyOnce(s.outb.pump) && s.outb.pump.queue == [m, m + 1]
    ensures !StaysExact(s)
  {
    var p := s.outb.pump;
    var t := M.Next(s, WriteDone(0, 0));
    assert t.outb.pump == p.(queue := [m + 1], ops := [Op(InFlight, m), Op(InFlight, m + 1)],
                             done := p.done + [m], wire := p.wire + [m + 1]);
    assert p.submitted == p.done + [m] + [m + 1];
    SecondTakesPlace(t, p.done, m);
    BreaksAfter(s, WriteDone(0, 0));
  }

  lemma SecondTakesPlace(s: Session, done: seq<Msg>, m: Msg)
    requires s.outb.pump.ops == [Op(InFlight, m), Op(InFlight, m + 1)] && s.outb.pump.queue == [m + 1]
    requires s.outb.pump.done == done + [m] && s.outb.pump.submitted == done + [m] + [m + 1]
    ensures !StaysExact(s)
  {
    var t := M.Next(s, WriteDone(0, 0));
    var q := t.outb.pump;
    assert q.done == done + [m] + [m] && q.queue == [];
    assert (q.done + q.queue)[|done| + 1] != q.submitted[|done| + 1];
    BreaksNow(t);
    BreaksAfter(s, WriteDone(0, 0));
  }

  /** The dispatched lambda of an outstanding write runs. */
  lemma LaunchedBreaks(s: Session, i: nat)
    requires i < |s.outb.pump.ops| && s.outb.pump.ops[i].stage.Dispatched?
    requires !StaysExact(M.Next(s, RunWrite(i)))
    ensures !StaysExact(s)
  {
    BreaksAfter(s, RunWrite(i));
  }

  lemma OtherBreaks(s: Session, drained: Msg, m: Msg)
    requires TwoOutstanding(s.outb.pump, drained, m) && drained != m
    ensures !StaysExact(s)
  {
    if s.outb.pump.ops[0].stage.InFlight? {
      OtherInFlightBreaks(s, drained, m);
    } else {
      OtherInFlightBreaks(M.Next(s, RunWrite(0)), drained, m);
      LaunchedBreaks(s, 0);
    }
  }

  lemma SameOpenBreaks(s: Session, m: Msg)
    requires TwoOutstanding(s.outb.pump, m, m) && s.open && s.outb.pump.ops[0].stage.InFlight?
    ensures !StaysExact(s)
  {
    if s.outb.pump.ops[1].stage.InFlight? {
      SameInFlightBreaks(s, m);
    } else {
      SameInFlightBreaks(M.Next(s, RunWrite(1)), m);
      LaunchedBreaks(s, 1);
    }
  }

  lemma SameBreaks(s: Session, m: Msg)
    requires TwoOutstanding(s.outb.pump, m, m)
    ensures !StaysExact(s)
  {
    var t := M.Next(s, StreamIs(true));
    if t.outb.pump.ops[0].stage.InFlight? {
      SameOpenBreaks(t, m);
    } else {
      SameOpenBreaks(M.Next(t, RunWrite(0)), m);
      LaunchedBreaks(t, 0);
    }
    BreaksAfter(s, StreamIs(true));
  }

  lemma LateWriteMeetsDrained(s: Session, m: Msg, onIo: bool)
    requires Pumps.Inv(s.outb.pump) && !MayWrite(s)
    ensures TwoOutstanding(M.Next(s, Write(m, onIo)).outb.pump, s.outb.pump.ops[0].item, m)
  {
    PumpMeetsDrained(s.outb.pump, m, onIo);
  }

  lemma PumpMeetsDrained(p: Pump<Msg>, m: Msg, onIo: bool)
    requires Pumps.Inv(p) && |p.queue| == 0 && |p.ops| > 0
    ensures TwoOutstanding(Step(p, Submit(m, onIo)), p.ops[0].item, m)
  {
    assert p.queue + [m] == [m];
    assert p.submitted + [m] == p.done + [m];
  }

  /** The exact condition: after any careful run, writing keeps disposal exact, whatever
      follows, if and only if the caller may write, that is, unless the queue is empty
      with a write outstanding; also when the message is the one still outstanding. */
  lemma LateWriteExact(hooks: Hooks, before: seq<Action>, m: Msg, onIo: bool)
    requires M.Legal(Init(hooks), before) && Careful(Init(hooks), before)
    ensures var s := M.Exec(Init(hooks), before);
            StaysExact(M.Next(s, Write(m, onIo))) <==> MayWrite(s)
  {
    var s := M.Exec(Init(hooks), before);
    var t := M.Next(s, Write(m, onIo));
    QueueInv(hooks, before);
    if MayWrite(s) {
      StepKeepsInv(s.outb.pump, Submit(m, onIo));
      CarefulContinuation(t);
    } else {
      var drained := s.outb.pump.ops[0].item;
      LateWriteMeetsDrained(s, m, onIo);
      if drained == m {
        SameBreaks(t, m);
      } else {
        OtherBreaks(t, drained, m);
      }
    }
  }

  const DRAINING := Hooks(false, false, false, true)

  /** A session that was accepted, reads, and has message 1 in flight. */
  function WritingExample(): Session {
    Init(DRAINING).(ctl := Control(ONLINE, [BLOCKED, ONLINE], [Reading], 1, [], [], 0, 0),
                    outb := Outbound(Pump([1], [Op(InFlight, 1)], [1], [], [1], false), [], []))
  }

  lemma WritingExampleReached() returns (acts: seq<Action>)
    ensures M.Legal(Init(DRAINING), acts) && M.Exec(Init(DRAINING), acts) == WritingExample()
  {
    var s0 := Init(DRAINING);
    var s1 := M.Next(s0, Accept);
    var s2 := M.Next(s1, Accepted(0, Success));
    assert s1.ctl == Control(BLOCKED, [BLOCKED], [Accepting], 1, [], [], 0, 0);
    assert s2 == s0.(ctl := Control(ONLINE, [BLOCKED, ONLINE], [AcceptTail], 1, [], [], 0, 0));
    ExecTwo(s0, Accept, Accepted(0, Success));
    ReadAndWrite(s2);
    acts := [Accept, Accepted(0, Success)] + [ContinueRead(0, true), Write(1, true)];
    RunConcat(s0, [Accept, Accepted(0, Success)], [ContinueRead(0, true), Write(1, true)]);
  }

  lemma ReadAndWrite(s: Session)
    requires s == Init(DRAINING).(ctl := Control(ONLINE, [BLOCKED, ONLINE], [AcceptTail], 1, [], [], 0, 0))
    ensures M.Legal(s, [ContinueRead(0, true), Write(1, true)])
    ensures M.Exec(s, [ContinueRead(0, true), Write(1, true)]) == WritingExample()
  {
    var t := M.Next(s, ContinueRead(0, true));
    assert t == s.(ctl := WritingExample().ctl);
    ExecTwo(s, ContinueRead(0, true), Write(1, true));
  }

  /** The stream is closed by the peer: message 1 is handed over while in flight. */
  lemma DrainExample(s: Session) returns (t: Session)
    requires s == WritingExample()
    ensures M.Legal(s, [ReadFail(0, WebsocketClosed, []), ReportEnd(0)])
    ensures t == M.Exec(s, [ReadFail(0, WebsocketClosed, []), ReportEnd(0)]) && t.hooks == DRAINING
    ensures t.outb == Outbound(Pump([], [Op(InFlight, 1)], [1], [1], [1], false), [1], [])
  {
    ExecTwo(s, ReadFail(0, WebsocketClosed, []), ReportEnd(0));
    t := M.Next(M.Next(s, ReadFail(0, WebsocketClosed, [])), ReportEnd(0));
  }

  lemma LateWriteStep(s: Session) returns (t: Session)
    requires s.hooks == DRAINING
    requires s.outb == Outbound(Pump([], [Op(InFlight, 1)], [1], [1], [1], false), [1], [])
    ensures t == M.Next(s, Write(2, true)) && t.hooks == DRAINING
    ensures t.outb == Outbound(Pump([2], [Op(InFlight, 1), Op(InFlight, 2)], [1, 2], [1], [1, 2], false), [1], [])
  {
    t := M.Next(s, Write(2, true));
  }

  lemma FirstCompletion(t: Session) returns (u: Session)
    requires t.hooks == DRAINING
    requires t.outb == Outbound(Pump([2], [Op(InFlight, 1), Op(InFlight, 2)], [1, 2], [1], [1, 2], false), [1], [])
    ensures M.Enabled(t, WriteDone(0, 0)) && u == M.Next(t, WriteDone(0, 0)) && u.hooks == DRAINING
    ensures u.outb == Outbound(Pump([], [Op(InFlight, 2)], [1, 2], [1, 1], [1, 2], false), [1, 1], [])
  {
    u := M.Next(t, WriteDone(0, 0));
  }

  lemma SecondCompletion(u: Session)
    requires u.hooks == DRAINING
    requires u.outb == Outbound(Pump([], [Op(InFlight, 2)], [1, 2], [1, 1], [1, 2], false), [1, 1], [])
    ensures M.Enabled(u, WriteDone(0, 0))
    ensures M.Next(u, WriteDone(0, 0)).outb == Outbound(Pump([], [], [1, 2], [1, 1], [1, 2], false), [1, 1], [])
  {
  }

  lemma LateCompletions(t: Session)
    requires t.hooks == DRAINING
    requires t.outb == Outbound(Pump([2], [Op(InFlight, 1), Op(InFlight, 2)], [1, 2], [1], [1, 2], false), [1], [])
    ensures M.Legal(t, [WriteDone(0, 0), WriteDone(0, 0)])
    ensures var o := M.Exec(t, [WriteDone(0, 0), WriteDone(0, 0)]).outb;
            o.pump.submitted == [1, 2] && o.handed == [1, 1] && o.pump.queue == [] && o.pump.ops == []
  {
    var u := FirstCompletion(t);
    SecondCompletion(u);
    ExecTwo(t, WriteDone(0, 0), WriteDone(0, 0));
  }

  /** Exactly-once disposal is not kept by every run: this one drains message 1 while it
      is in flight, then writes message 2, and ends with two calls of on_write_done for
      message 1, none for message 2, and nothing left that could make up for it. */
  lemma LateWriteExample() returns (acts: seq<Action>)
    ensures M.Legal(Init(DRAINING), acts)
    ensures var o := M.Exec(Init(DRAINING), acts).outb;
            o.pump.submitted == [1, 2] && o.handed == [1, 1] && o.pump.queue == [] && o.pump.ops == []
  {
    var writing := WritingExampleReached();
    var draining := [ReadFail(0, WebsocketClosed, []), ReportEnd(0)];
    var late := [WriteDone(0, 0), WriteDone(0, 0)];
    var s := DrainExample(WritingExample());
    var t := LateWriteStep(s);
    LateCompletions(t);
    ExecBefore(s, Write(2, true), late);
    RunConcat(WritingExample(), draining, [Write(2, true)] + late);
    acts := writing + (draining + ([Write(2, true)] + late));
    RunConcat(Init(DRAINING), writing, draining + ([Write(2, true)] + late));
  }
}
