/** What every log of a session records, told by the results of its handlers alone: the
    statuses, the calls of the four callbacks, the messages sent, received and delivered.
    Error codes and statuses are spelled out here, and not taken from the state machine. */
module SessionHistory {
  import opened Allocation
  import opened Buffers
  import opened Pumps
  import opened Seqs
  import opened SessionModel
  import opened SessionProofs
  import opened Words
  import opened Wrappers
  import M = SessionModel
  import Spec = StatsSpec

  // ---------- the status

  /** The status a handler sets. */
  function StatusSet(a: Action): seq<Status> {
    match a
    case Connect => [BLOCKED]
    case Connected(_, ec) => if ec == Success then [] else [ABORTED]
    case Handshaken(_, ec) => [if ec == Success then ONLINE else ABORTED]
    case Accepted(_, ec) => [if ec == Success then ONLINE else ABORTED]
    case ReadFail(_, ec, _) => [if ec == WebsocketClosed || ec == Code(89) then OFFLINE else ABORTED]
    case CloseDone(_) => [OFFLINE]
    case _ => []
  }

  function Statuses(acts: seq<Action>): seq<Status> {
    if |acts| == 0 then [] else StatusSet(acts[0]) + Statuses(acts[1..])
  }

  /** The one token there can be is the one a handler takes up. */
  lemma LoneToken(c: Control)
    ensures |c.tokens| == 1 ==> Drop(c, 0).tokens == []
  {
  }

  lemma StatusStep(h: Hooks, open: bool, c: Control, a: Action)
    requires ControlEnabled(c, a)
    ensures var d := NextControl(h, open, c, a);
            && d.statusLog == c.statusLog + StatusSet(a)
            && d.status == (if |StatusSet(a)| == 0 then c.status else StatusSet(a)[0])
  {
  }

  lemma {:induction false} StatusRun(s: Session, acts: seq<Action>)
    requires M.Legal(s, acts)
    ensures M.Exec(s, acts).ctl.statusLog == s.ctl.statusLog + Statuses(acts)
    decreases |acts|
  {
    if |acts| > 0 {
      StatusStep(s.hooks, s.open, s.ctl, acts[0]);
      StatusRun(M.Next(s, acts[0]), acts[1..]);
      ConcatAssociates(s.ctl.statusLog, StatusSet(acts[0]), Statuses(acts[1..]));
    }
  }

  /** The status is BLOCKED at first and then the one set last: ONLINE by a successful
      handshake or accept, ABORTED by a failed opening or a read error, OFFLINE by a close
      of the peer, error number 89, or a completed close. */
  lemma StatusHistory(hooks: Hooks, acts: seq<Action>)
    requires M.Legal(Init(hooks), acts)
    ensures var c := M.Exec(Init(hooks), acts).ctl;
            var log := [BLOCKED] + Statuses(acts);
            c.statusLog == log && c.status == log[|log| - 1]
  {
    StatusRun(Init(hooks), acts);
    ControlRun(Init(hooks), acts);
  }

  // ---------- the calls of on_ready

  /** The result of a handler that decides an attempt. */
  function Outcome(a: Action): seq<ErrorCode> {
    match a
    case Connected(_, ec) => if ec == Success then [] else [ec]
    case Handshaken(_, ec) => [ec]
    case Accepted(_, ec) => [ec]
    case _ => []
  }

  function Outcomes(acts: seq<Action>): seq<ErrorCode> {
    if |acts| == 0 then [] else Outcome(acts[0]) + Outcomes(acts[1..])
  }

  /** An accepted session calls on_ready only after it began to read. */
  function ReadyOwed(c: Control): seq<ErrorCode> {
    if |c.tokens| == 1 && c.tokens[0].AcceptTail? then [Success] else []
  }

  lemma ReadyStep(h: Hooks, open: bool, c: Control, a: Action)
    requires LoopInv(c) && ControlEnabled(c, a) && h.ready
    ensures var d := NextControl(h, open, c, a);
            d.readyLog + ReadyOwed(d) == c.readyLog + ReadyOwed(c) + Outcome(a)
  {
    LoneToken(c);
  }

  lemma {:induction false} ReadyRun(s: Session, acts: seq<Action>)
    requires ControlInv(s.hooks, s.ctl) && M.Legal(s, acts) && s.hooks.ready
    ensures var c := M.Exec(s, acts).ctl;
            c.readyLog + ReadyOwed(c) == s.ctl.readyLog + ReadyOwed(s.ctl) + Outcomes(acts)
    decreases |acts|
  {
    if |acts| > 0 {
      ReadyStep(s.hooks, s.open, s.ctl, acts[0]);
      ControlStep(s.hooks, s.open, s.ctl, acts[0]);
      ReadyRun(M.Next(s, acts[0]), acts[1..]);
      ConcatAssociates(s.ctl.readyLog + ReadyOwed(s.ctl), Outcome(acts[0]), Outcomes(acts[1..]));
    }
  }

  lemma OutcomeSetsStatus(a: Action)
    requires |Outcome(a)| > 0
    ensures StatusSet(a) == [if Outcome(a)[0] == Success then ONLINE else ABORTED]
  {
  }

  /** on_ready is called with exactly the result of the handler that decided the attempt,
      the error code included; and a handler that failed set ABORTED, one that succeeded
      ONLINE. Only an accepted session owes the call until its first read was begun. */
  lemma ReadyHistory(hooks: Hooks, acts: seq<Action>)
    requires M.Legal(Init(hooks), acts) && hooks.ready
    ensures var c := M.Exec(Init(hooks), acts).ctl;
            c.readyLog + ReadyOwed(c) == Outcomes(acts) && |Outcomes(acts)| <= 1
    ensures forall i :: 0 <= i < |acts| && |Outcome(acts[i])| > 0 ==>
              StatusSet(acts[i]) == [if Outcome(acts[i])[0] == Success then ONLINE else ABORTED]
  {
    ReadyRun(Init(hooks), acts);
    OneOutcome(hooks, acts);
    forall i | 0 <= i < |acts| && |Outcome(acts[i])| > 0
      ensures StatusSet(acts[i]) == [if Outcome(acts[i])[0] == Success then ONLINE else ABORTED]
    {
      OutcomeSetsStatus(acts[i]);
    }
  }

  lemma OneOutcome(hooks: Hooks, acts: seq<Action>)
    requires M.Legal(Init(hooks), acts) && hooks.ready
    ensures var c := M.Exec(Init(hooks), acts).ctl; |c.readyLog + ReadyOwed(c)| <= 1
  {
    ControlRun(Init(hooks), acts);
    RunRoutes(Init(hooks), acts);
  }

  // ---------- the operations that open a connection

  function Connects(acts: seq<Action>): nat {
    if |acts| == 0 then 0 else (if acts[0].Connect? then 1 else 0) + Connects(acts[1..])
  }

  function Accepts(acts: seq<Action>): nat {
    if |acts| == 0 then 0 else (if acts[0].Accept? then 1 else 0) + Accepts(acts[1..])
  }

  function ConnectsDone(acts: seq<Action>): nat {
    if |acts| == 0 then 0 else (if acts[0].Connected? then 1 else 0) + ConnectsDone(acts[1..])
  }

  function ConnectsWell(acts: seq<Action>): nat {
    if |acts| == 0 then 0
    else (if acts[0].Connected? && acts[0].ec == Success then 1 else 0) + ConnectsWell(acts[1..])
  }

  function HandshakesDone(acts: seq<Action>): nat {
    if |acts| == 0 then 0 else (if acts[0].Handshaken? then 1 else 0) + HandshakesDone(acts[1..])
  }

  function AcceptsDone(acts: seq<Action>): nat {
    if |acts| == 0 then 0 else (if acts[0].Accepted? then 1 else 0) + AcceptsDone(acts[1..])
  }

  function Pending(c: Control, t: Token): nat {
    if |c.tokens| == 1 && c.tokens[0] == t then 1 else 0
  }

  lemma OpenOperationsStep(h: Hooks, open: bool, c: Control, a: Action)
    requires LoopInv(c) && ControlEnabled(c, a)
    ensures var d := NextControl(h, open, c, a);
            && d.attempts == c.attempts + (if a.Connect? || a.Accept? then 1 else 0)
            && Pending(d, Connecting) + (if a.Connected? then 1 else 0)
               == Pending(c, Connecting) + (if a.Connect? then 1 else 0)
            && Pending(d, Handshaking) + (if a.Handshaken? then 1 else 0)
               == Pending(c, Handshaking) + (if a.Connected? && a.ec == Success then 1 else 0)
            && Pending(d, Accepting) + (if a.Accepted? then 1 else 0)
               == Pending(c, Accepting) + (if a.Accept? then 1 else 0)
  {
    LoneToken(c);
  }

  lemma {:induction false} OpenOperationsRun(s: Session, acts: seq<Action>)
    requires ControlInv(s.hooks, s.ctl) && M.Legal(s, acts)
    ensures var c := M.Exec(s, acts).ctl;
            && c.attempts == s.ctl.attempts + Connects(acts) + Accepts(acts)
            && Pending(c, Connecting) + ConnectsDone(acts) == Pending(s.ctl, Connecting) + Connects(acts)
            && Pending(c, Handshaking) + HandshakesDone(acts) == Pending(s.ctl, Handshaking) + ConnectsWell(acts)
            && Pending(c, Accepting) + AcceptsDone(acts) == Pending(s.ctl, Accepting) + Accepts(acts)
    decreases |acts|
  {
    if |acts| > 0 {
      OpenOperationsStep(s.hooks, s.open, s.ctl, acts[0]);
      ControlStep(s.hooks, s.open, s.ctl, acts[0]);
      OpenOperationsRun(M.Next(s, acts[0]), acts[1..]);
    }
  }

  /** connect starts one asynchronous connect, whose success starts one handshake; accept
      starts one accept; each is pending until its handler ran, and nothing else starts any. */
  lemma OpenOperationsHistory(hooks: Hooks, acts: seq<Action>)
    requires M.Legal(Init(hooks), acts)
    ensures var c := M.Exec(Init(hooks), acts).ctl;
            && c.attempts == Connects(acts) + Accepts(acts)
            && Pending(c, Connecting) + ConnectsDone(acts) == Connects(acts)
            && Pending(c, Handshaking) + HandshakesDone(acts) == ConnectsWell(acts)
            && Pending(c, Accepting) + AcceptsDone(acts) == Accepts(acts)
  {
    OpenOperationsRun(Init(hooks), acts);
  }

  // ---------- close and on_close

  /** The calls of close that find the stream open and the session ONLINE. */
  function AsyncCloses(s: Session, acts: seq<Action>): nat
    requires M.Legal(s, acts)
    decreases |acts|
  {
    if |acts| == 0 then 0
    else
      var starts := acts[0].Close? && s.open && s.ctl.status == ONLINE;
      (if starts then 1 else 0) + AsyncCloses(M.Next(s, acts[0]), acts[1..])
  }

  function ClosesDone(acts: seq<Action>): nat {
    if |acts| == 0 then 0 else (if acts[0].CloseDone? then 1 else 0) + ClosesDone(acts[1..])
  }

  function CloseCalls(acts: seq<Action>): nat {
    if |acts| == 0 then 0 else (if acts[0].Close? then 1 else 0) + CloseCalls(acts[1..])
  }

  lemma CloseStep(s: Session, a: Action)
    requires M.Enabled(s, a)
    ensures var t := M.Next(s, a);
            && |t.ctl.closes| + (if a.CloseDone? then 1 else 0)
               == |s.ctl.closes| + (if a.Close? && s.open && s.ctl.status == ONLINE then 1 else 0)
            && t.ctl.closeCalls == s.ctl.closeCalls + (if a.CloseDone? && s.hooks.close then 1 else 0)
            && t.timer.asked == s.timer.asked + (if a.Close? then 1 else 0)
  {
  }

  lemma {:induction false} CloseRun(s: Session, acts: seq<Action>)
    requires M.Legal(s, acts)
    ensures var t := M.Exec(s, acts);
            && |t.ctl.closes| + ClosesDone(acts) == |s.ctl.closes| + AsyncCloses(s, acts)
            && t.ctl.closeCalls == s.ctl.closeCalls + (if s.hooks.close then ClosesDone(acts) else 0)
            && t.timer.asked == s.timer.asked + CloseCalls(acts)
    decreases |acts|
  {
    if |acts| > 0 {
      CloseStep(s, acts[0]);
      CloseRun(M.Next(s, acts[0]), acts[1..]);
    }
  }

  /** Every close of an open ONLINE session starts one asynchronous close, and no other
      call does; each is pending until its completion, which calls on_close once. */
  lemma CloseHistory(hooks: Hooks, acts: seq<Action>)
    requires M.Legal(Init(hooks), acts)
    ensures var s := M.Exec(Init(hooks), acts);
            && |s.ctl.closes| + ClosesDone(acts) == AsyncCloses(Init(hooks), acts)
            && (hooks.close ==> |s.ctl.closes| + s.ctl.closeCalls == AsyncCloses(Init(hooks), acts))
            && (!hooks.close ==> s.ctl.closeCalls == 0)
            && s.timer.asked == CloseCalls(acts)
  {
    CloseRun(Init(hooks), acts);
  }

  function Place(c: SocketCall): nat {
    match c
    case CancelNext => 0
    case CloseNext => 1
    case CloseLowest => 2
  }

  /** A forced close cancels the next layer of an open stream, closes the next layer and then
      the lowest, each if it is open; the first call that throws is the last. */
  lemma ForcedInOrder(open: bool, k: Sockets)
    ensures var all := ForcedCalls(open, k.(returning := 3));
            && (CancelNext in all <==> open)
            && (CloseNext in all <==> k.nextOpen)
            && (CloseLowest in all <==> k.lowestOpen)
            && (forall i, j :: 0 <= i < j < |all| ==> Place(all[i]) < Place(all[j]))
            && ForcedCalls(open, k) == all[..if k.returning < |all| then k.returning + 1 else |all|]
  {
  }

  // ---------- the end of reading

  /** The code of the latest read error. */
  function Latest(last: Option<ErrorCode>, acts: seq<Action>): Option<ErrorCode>
    decreases |acts|
  {
    if |acts| == 0 then last
    else Latest(if acts[0].ReadFail? then Some(acts[0].ec) else last, acts[1..])
  }

  /** A handler after a read error knows whether that was a clean close. */
  ghost predicate KnowsEnd(c: Control, last: Option<ErrorCode>) {
    |c.tokens| == 1 && c.tokens[0].ErrorTail? ==>
      last.Some? && (c.tokens[0].clean <==> last.value == WebsocketClosed || last.value == Code(89))
  }

  lemma EndStep(h: Hooks, open: bool, c: Control, last: Option<ErrorCode>, a: Action)
    requires LoopInv(c) && KnowsEnd(c, last) && ControlEnabled(c, a)
    ensures KnowsEnd(NextControl(h, open, c, a), if a.ReadFail? then Some(a.ec) else last)
  {
    LoneToken(c);
  }

  lemma {:induction false} EndRun(s: Session, last: Option<ErrorCode>, acts: seq<Action>)
    requires ControlInv(s.hooks, s.ctl) && KnowsEnd(s.ctl, last) && M.Legal(s, acts)
    ensures KnowsEnd(M.Exec(s, acts).ctl, Latest(last, acts))
    decreases |acts|
  {
    if |acts| > 0 {
      EndStep(s.hooks, s.open, s.ctl, last, acts[0]);
      ControlStep(s.hooks, s.open, s.ctl, acts[0]);
      EndRun(M.Next(s, acts[0]), if acts[0].ReadFail? then Some(acts[0].ec) else last, acts[1..]);
    }
  }

  lemma DrainHandsOver(h: Hooks, o: Outbound, drained: bool)
    requires drained ==> h.writeDone
    ensures var t := NextOutbound(h, o, if drained then Some(Drain) else None);
            if drained
            then t.pump.queue == [] && t.handed == o.handed + o.pump.queue && t.freed == o.freed
                 && t.pump.ops == o.pump.ops && t.pump.wire == o.pump.wire
            else t == o
  {
    assert (o.pump.done + o.pump.queue)[|o.pump.done|..] == o.pump.queue;
  }

  /** The end of reading hands the whole queue over exactly when the read error was the
      peer's close or error number 89 and on_write_done is set; no other error touches it. */
  lemma EndDrainsExactly(hooks: Hooks, acts: seq<Action>, at: nat)
    requires M.Legal(Init(hooks), acts) && M.Enabled(M.Exec(Init(hooks), acts), ReportEnd(at))
    ensures Latest(None, acts).Some?
    ensures var o := M.Exec(Init(hooks), acts).outb;
            var t := M.Next(M.Exec(Init(hooks), acts), ReportEnd(at)).outb;
            var ec := Latest(None, acts).value;
            if hooks.writeDone && (ec == WebsocketClosed || ec == Code(89))
            then t.pump.queue == [] && t.handed == o.handed + o.pump.queue && t.freed == o.freed
                 && t.pump.ops == o.pump.ops && t.pump.wire == o.pump.wire
            else t == o
  {
    EndRun(Init(hooks), None, acts);
    RunRoutes(Init(hooks), acts);
    var s := M.Exec(Init(hooks), acts);
    ControlRun(Init(hooks), acts);
    assert at == 0 && s.ctl.tokens[0].ErrorTail?;
    DrainHandsOver(hooks, s.outb, s.ctl.tokens[at].clean && hooks.writeDone);
  }

  // ---------- the read loop

  function ReadErrors(acts: seq<Action>): nat {
    if |acts| == 0 then 0 else (if acts[0].ReadFail? then 1 else 0) + ReadErrors(acts[1..])
  }

  function Reads(acts: seq<Action>): nat {
    if |acts| == 0 then 0 else (if acts[0].ReadOk? || acts[0].ReadFail? then 1 else 0) + Reads(acts[1..])
  }

  function ReadLambdas(acts: seq<Action>): nat {
    if |acts| == 0 then 0 else (if acts[0].RunRead? then 1 else 0) + ReadLambdas(acts[1..])
  }

  /** A handler that goes on to read, in place or by a dispatched lambda. */
  predicate ReadsOn(c: Control, a: Action, inPlace: bool) {
    a.ContinueRead? && a.inPlace == inPlace && c.status == ONLINE
  }

  function ReadsOnIn(s: Session, acts: seq<Action>, inPlace: bool): nat
    requires M.Legal(s, acts)
    decreases |acts|
  {
    if |acts| == 0 then 0
    else (if ReadsOn(s.ctl, acts[0], inPlace) then 1 else 0) + ReadsOnIn(M.Next(s, acts[0]), acts[1..], inPlace)
  }

  function EndOwed(c: Control): nat {
    if |c.tokens| == 1 && c.tokens[0].ErrorTail? then 1 else 0
  }

  lemma ReadStep(h: Hooks, open: bool, c: Control, a: Action)
    requires LoopInv(c) && ControlEnabled(c, a)
    ensures Pending(NextControl(h, open, c, a), Reading) + (if a.ReadOk? || a.ReadFail? then 1 else 0)
         == Pending(c, Reading) + (if a.RunRead? || ReadsOn(c, a, true) then 1 else 0)
  {
    LoneToken(c);
  }

  lemma ReadLambdaStep(h: Hooks, open: bool, c: Control, a: Action)
    requires LoopInv(c) && ControlEnabled(c, a)
    ensures Pending(NextControl(h, open, c, a), ReadQueued) + (if a.RunRead? then 1 else 0)
         == Pending(c, ReadQueued) + (if ReadsOn(c, a, false) then 1 else 0)
  {
    LoneToken(c);
  }

  lemma EndCallStep(h: Hooks, open: bool, c: Control, a: Action)
    requires LoopInv(c) && ControlEnabled(c, a)
    ensures var d := NextControl(h, open, c, a);
            if h.read then d.endCalls + EndOwed(d) == c.endCalls + EndOwed(c) + (if a.ReadFail? then 1 else 0)
            else d.endCalls == c.endCalls
  {
  }

  lemma {:induction false} ReadRun(s: Session, acts: seq<Action>)
    requires ControlInv(s.hooks, s.ctl) && M.Legal(s, acts)
    ensures var c := M.Exec(s, acts).ctl;
            && Pending(c, Reading) + Reads(acts)
               == Pending(s.ctl, Reading) + ReadLambdas(acts) + ReadsOnIn(s, acts, true)
            && Pending(c, ReadQueued) + ReadLambdas(acts) == Pending(s.ctl, ReadQueued) + ReadsOnIn(s, acts, false)
            && (if s.hooks.read then c.endCalls + EndOwed(c) == s.ctl.endCalls + EndOwed(s.ctl) + ReadErrors(acts)
                else c.endCalls == s.ctl.endCalls)
    decreases |acts|
  {
    if |acts| > 0 {
      ReadStep(s.hooks, s.open, s.ctl, acts[0]);
      ReadLambdaStep(s.hooks, s.open, s.ctl, acts[0]);
      EndCallStep(s.hooks, s.open, s.ctl, acts[0]);
      ControlStep(s.hooks, s.open, s.ctl, acts[0]);
      ReadRun(M.Next(s, acts[0]), acts[1..]);
    }
  }

  /** Each handler that finds the session ONLINE begins one read, in place or by one lambda;
      every read that was begun is pending or completed; and every read error is reported to
      on_read once, or is about to be. */
  lemma ReadHistory(hooks: Hooks, acts: seq<Action>)
    requires M.Legal(Init(hooks), acts)
    ensures var c := M.Exec(Init(hooks), acts).ctl;
            && Pending(c, Reading) + Reads(acts) == ReadLambdas(acts) + ReadsOnIn(Init(hooks), acts, true)
            && Pending(c, ReadQueued) + ReadLambdas(acts) == ReadsOnIn(Init(hooks), acts, false)
            && (if hooks.read then c.endCalls + EndOwed(c) == ReadErrors(acts) else c.endCalls == 0)
  {
    ReadRun(Init(hooks), acts);
  }

  // ---------- messages received

  function Received(a: Action): seq<Frame> {
    if a.ReadOk? then [Frame(a.text, Flatten(a.chunks))] else []
  }

  function Frames(acts: seq<Action>): seq<Frame> {
    if |acts| == 0 then [] else Received(acts[0]) + Frames(acts[1..])
  }

  /** A message as on_read gets it: in the memory that was allocated for it. */
  function Delivered(a: Action): seq<Delivery> {
    if a.ReadOk? then [Delivery(a.addr, if a.text then [] else Flatten(a.chunks), |Flatten(a.chunks)|)] else []
  }

  function Deliveries(acts: seq<Action>): seq<Delivery> {
    if |acts| == 0 then [] else Delivered(acts[0]) + Deliveries(acts[1..])
  }

  /** The bytes that failed reads left in the buffer. */
  function LeftBy(a: Action): seq<byte> {
    if a.ReadFail? then Flatten(a.partial) else []
  }

  function Leftover(acts: seq<Action>): seq<byte> {
    if |acts| == 0 then [] else LeftBy(acts[0]) + Leftover(acts[1..])
  }

  lemma ReceivedStep(h: Hooks, b: Inbound, a: Action)
    ensures NextInbound(h, b, a).received == b.received + Received(a)
  {
  }

  lemma DeliveredStep(h: Hooks, c: Control, b: Inbound, a: Action)
    requires LoopInv(c) && FrameInv(h, c, b) && ControlEnabled(c, a)
    ensures NextInbound(h, b, a).delivered == b.delivered + (if h.read then Delivered(a) else [])
  {
    if a.ReadOk? {
      FlattenConcat(b.buffer, a.chunks);
      assert Flatten(b.buffer) == [];
      assert Flatten(b.buffer + a.chunks) == Flatten(a.chunks);
    }
  }

  lemma LeftoverStep(h: Hooks, c: Control, b: Inbound, a: Action)
    requires LoopInv(c) && FrameInv(h, c, b) && ControlEnabled(c, a)
    ensures Flatten(NextInbound(h, b, a).buffer) == Flatten(b.buffer) + LeftBy(a)
  {
    if a.ReadOk? {
      FlattenConcat(b.buffer, a.chunks);
      assert Flatten(b.buffer) == [];
      ConsumeDropsPrefix(b.buffer + a.chunks, |Flatten(a.chunks)|);
    } else if a.ReadFail? {
      FlattenConcat(b.buffer, a.partial);
    }
  }

  lemma {:induction false} ReceivedRun(s: Session, acts: seq<Action>)
    requires M.Legal(s, acts)
    ensures M.Exec(s, acts).inb.received == s.inb.received + Frames(acts)
    decreases |acts|
  {
    if |acts| > 0 {
      ReceivedStep(s.hooks, s.inb, acts[0]);
      ReceivedRun(M.Next(s, acts[0]), acts[1..]);
      ConcatAssociates(s.inb.received, Received(acts[0]), Frames(acts[1..]));
    }
  }

  lemma {:induction false} DeliveredRun(s: Session, acts: seq<Action>)
    requires ControlInv(s.hooks, s.ctl) && FrameInv(s.hooks, s.ctl, s.inb) && M.Legal(s, acts)
    ensures M.Exec(s, acts).inb.delivered == s.inb.delivered + (if s.hooks.read then Deliveries(acts) else [])
    decreases |acts|
  {
    if |acts| > 0 {
      DeliveredStep(s.hooks, s.ctl, s.inb, acts[0]);
      ControlStep(s.hooks, s.open, s.ctl, acts[0]);
      InboundStep(s.hooks, s.open, s.ctl, s.inb, acts[0]);
      DeliveredRun(M.Next(s, acts[0]), acts[1..]);
      ConcatAssociates(s.inb.delivered, Delivered(acts[0]), Deliveries(acts[1..]));
    }
  }

  lemma {:induction false} LeftoverRun(s: Session, acts: seq<Action>)
    requires ControlInv(s.hooks, s.ctl) && FrameInv(s.hooks, s.ctl, s.inb) && M.Legal(s, acts)
    ensures Flatten(M.Exec(s, acts).inb.buffer) == Flatten(s.inb.buffer) + Leftover(acts)
    decreases |acts|
  {
    if |acts| > 0 {
      LeftoverStep(s.hooks, s.ctl, s.inb, acts[0]);
      ControlStep(s.hooks, s.open, s.ctl, acts[0]);
      InboundStep(s.hooks, s.open, s.ctl, s.inb, acts[0]);
      LeftoverRun(M.Next(s, acts[0]), acts[1..]);
      ConcatAssociates(Flatten(s.inb.buffer), LeftBy(acts[0]), Leftover(acts[1..]));
    }
  }

  /** on_read gets every message that was received, in order, in the memory allocated for it,
      with its bytes if it is binary and none if it is text, and its number of bytes. */
  lemma DeliveryHistory(hooks: Hooks, acts: seq<Action>)
    requires M.Legal(Init(hooks), acts)
    ensures var b := M.Exec(Init(hooks), acts).inb;
            && b.received == Frames(acts)
            && b.delivered == (if hooks.read then Deliveries(acts) else [])
            && Flatten(b.buffer) == Leftover(acts)
  {
    ReceivedRun(Init(hooks), acts);
    DeliveredRun(Init(hooks), acts);
    LeftoverRun(Init(hooks), acts);
  }

  // ---------- messages written

  function WrittenBy(a: Action): seq<Msg> {
    if a.Write? then [a.msg] else []
  }

  function Written(acts: seq<Action>): seq<Msg> {
    if |acts| == 0 then [] else WrittenBy(acts[0]) + Written(acts[1..])
  }

  /** The write that a step starts: on an io thread at once if nothing was queued, else from
      the dispatched lambda, and after a completion the next message of an open stream. */
  function Starts(s: Session, a: Action): seq<Msg>
    requires M.Enabled(s, a)
  {
    match a
    case Write(m, onIo) => if onIo && |s.outb.pump.queue| == 0 then [m] else []
    case RunWrite(i) => [s.outb.pump.ops[i].item]
    case WriteDone(_, _) => if s.open && |s.outb.pump.queue| > 1 then [s.outb.pump.queue[1]] else []
    case _ => []
  }

  function StartedBy(s: Session, acts: seq<Action>): seq<Msg>
    requires M.Legal(s, acts)
    decreases |acts|
  {
    if |acts| == 0 then [] else Starts(s, acts[0]) + StartedBy(M.Next(s, acts[0]), acts[1..])
  }

  lemma WriteStep(s: Session, a: Action)
    requires M.Enabled(s, a)
    ensures var p := M.Next(s, a).outb.pump;
            && p.wire == s.outb.pump.wire + Starts(s, a)
            && p.submitted == s.outb.pump.submitted + WrittenBy(a)
  {
  }

  lemma {:induction false} WriteRun(s: Session, acts: seq<Action>)
    requires M.Legal(s, acts)
    ensures var p := M.Exec(s, acts).outb.pump;
            && p.wire == s.outb.pump.wire + StartedBy(s, acts)
            && p.submitted == s.outb.pump.submitted + Written(acts)
    decreases |acts|
  {
    if |acts| > 0 {
      var a := acts[0];
      WriteStep(s, a);
      WriteRun(M.Next(s, a), acts[1..]);
      ConcatAssociates(s.outb.pump.wire, Starts(s, a), StartedBy(M.Next(s, a), acts[1..]));
      ConcatAssociates(s.outb.pump.submitted, WrittenBy(a), Written(acts[1..]));
    }
  }

  /** The log of submissions is the messages written, in order, and writes are started on io
      threads and on the write strand only. */
  lemma WriteHistory(hooks: Hooks, acts: seq<Action>)
    requires M.Legal(Init(hooks), acts)
    ensures var p := M.Exec(Init(hooks), acts).outb.pump;
            p.submitted == Written(acts) && p.wire == StartedBy(Init(hooks), acts)
  {
    WriteRun(Init(hooks), acts);
  }

  // ---------- an open stream keeps sending

  /** Every write completion of the run finds the stream open. */
  predicate OpenWhenWritten(s: Session, acts: seq<Action>)
    requires M.Legal(s, acts)
    decreases |acts|
  {
    || |acts| == 0
    || ((acts[0].WriteDone? ==> s.open) && OpenWhenWritten(M.Next(s, acts[0]), acts[1..]))
  }

  predicate Drains(s: Session, a: Action) {
    MoveOf(s.hooks, s.open, s.ctl, a) == Some(Drain)
  }

  /** Messages are disposed of unsent by two kinds of step only: a completion that finds the
      stream closed, and a drain, with more in the queue than the message being sent. */
  lemma SkipExact(s: Session, a: Action)
    requires M.Enabled(s, a)
    ensures M.Next(s, a).outb.pump.skipped
       <==> || s.outb.pump.skipped
            || (((a.WriteDone? && !s.open) || Drains(s, a)) && |s.outb.pump.queue| > 1)
  {
  }

  lemma {:induction false} OpenRun(s: Session, acts: seq<Action>)
    requires M.Legal(s, acts) && OpenWhenWritten(s, acts) && NoDrain(Moves(s, acts)) && !s.outb.pump.skipped
    ensures !M.Exec(s, acts).outb.pump.skipped
    decreases |acts|
  {
    if |acts| > 0 {
      var t := M.Next(s, acts[0]);
      SkipExact(s, acts[0]);
      match MoveOf(s.hooks, s.open, s.ctl, acts[0]) {
        case None =>
          assert Moves(s, acts) == Moves(t, acts[1..]);
        case Some(m) =>
          assert Moves(s, acts)[0] == m && Moves(s, acts)[1..] == Moves(t, acts[1..]);
          assert !m.Drain?;
      }
      assert NoDrain(Moves(t, acts[1..]));
      OpenRun(t, acts[1..]);
    }
  }

  /** While completions find the stream open and nothing was drained, nothing is left out:
      the messages started, or about to be started by a waiting lambda, are all those
      written, up to and including the front of the queue. */
  lemma OpenStreamSendsAll(hooks: Hooks, acts: seq<Action>)
    requires M.Legal(Init(hooks), acts) && OpenWhenWritten(Init(hooks), acts)
    requires NoDrain(Moves(Init(hooks), acts))
    ensures var p := M.Exec(Init(hooks), acts).outb.pump;
            && !p.skipped && p.done + p.queue == Written(acts)
            && Started(p) <= Written(acts)
            && |Started(p)| == |p.done| + if |p.queue| > 0 then 1 else 0
  {
    OpenRun(Init(hooks), acts);
    DrainFreeIsCareful(hooks, acts);
    QueueInv(hooks, acts);
    RunRefinesPump(Init(hooks), acts);
    GuardedRunKeepsOrder(Init(hooks).outb.pump, Moves(Init(hooks), acts));
    WriteHistory(hooks, acts);
  }

  ghost predicate AllOnIo(acts: seq<Action>) {
    forall i :: 0 <= i < |acts| && acts[i].Write? ==> acts[i].onIo
  }

  ghost predicate NoneWaits(p: Pump<Msg>) {
    forall i :: 0 <= i < |p.ops| ==> p.ops[i].stage.InFlight?
  }

  lemma {:induction false} OnIoRun(s: Session, acts: seq<Action>)
    requires M.Legal(s, acts) && AllOnIo(acts) && NoneWaits(s.outb.pump)
    ensures NoneWaits(M.Exec(s, acts).outb.pump)
    decreases |acts|
  {
    if |acts| > 0 {
      OnIoStep(s, acts[0]);
      assert AllOnIo(acts[1..]);
      OnIoRun(M.Next(s, acts[0]), acts[1..]);
    }
  }

  lemma OnIoStep(s: Session, a: Action)
    requires M.Enabled(s, a) && (a.Write? ==> a.onIo) && NoneWaits(s.outb.pump)
    ensures NoneWaits(M.Next(s, a).outb.pump)
  {
  }

  /** And if every write is made on an io thread, they have all been started. */
  lemma OpenStreamStartsAll(hooks: Hooks, acts: seq<Action>)
    requires M.Legal(Init(hooks), acts) && OpenWhenWritten(Init(hooks), acts)
    requires NoDrain(Moves(Init(hooks), acts)) && AllOnIo(acts)
    ensures var p := M.Exec(Init(hooks), acts).outb.pump;
            p.wire <= Written(acts) && |p.wire| == |p.done| + if |p.queue| > 0 then 1 else 0
  {
    OpenStreamSendsAll(hooks, acts);
    OnIoRun(Init(hooks), acts);
  }

  // ---------- the stream

  /** What the stream said last. */
  function LastSaid(open: bool, acts: seq<Action>): bool
    decreases |acts|
  {
    if |acts| == 0 then open else LastSaid(if acts[0].StreamIs? then acts[0].nowOpen else open, acts[1..])
  }

  /** No handler opens or closes the stream by itself, and none replaces a callback. */
  lemma {:induction false} StreamHistory(s: Session, acts: seq<Action>)
    requires M.Legal(s, acts)
    ensures M.Exec(s, acts).open == LastSaid(s.open, acts) && M.Exec(s, acts).hooks == s.hooks
    decreases |acts|
  {
    if |acts| > 0 {
      StreamHistory(M.Next(s, acts[0]), acts[1..]);
    }
  }

  // ---------- the allocator

  lemma {:induction false} FreeAllCounts(alloc: Alloc, ms: seq<Msg>)
    requires alloc.count == Wrap(alloc.count)
    ensures alloc.FreeAll(ms).count == Wrap(alloc.count - |ms|)
    decreases |ms|
  {
    if |ms| > 0 {
      WrapAgain(alloc.count - 1, 0);
      FreeAllCounts(alloc.Free(ms[0]), ms[1..]);
      WrapAgain(alloc.count - 1, 1 - |ms|);
    }
  }

  function Memory(acts: seq<Action>): set<Msg> {
    if |acts| == 0 then {} else (if acts[0].ReadOk? then {acts[0].addr} else {}) + Memory(acts[1..])
  }

  lemma {:induction false} MemoryRun(s: Session, acts: seq<Action>)
    requires M.Legal(s, acts) && s.hooks.writeDone
    ensures M.Exec(s, acts).alloc.live == s.alloc.live + (if s.hooks.read then Memory(acts) else {})
    decreases |acts|
  {
    if |acts| > 0 {
      MemoryRun(M.Next(s, acts[0]), acts[1..]);
    }
  }

  /** With on_write_done set the session gives nothing back: its allocator holds the memory
      of every message delivered. */
  lemma HandedOverIsNotFreed(hooks: Hooks, acts: seq<Action>)
    requires M.Legal(Init(hooks), acts) && hooks.writeDone
    ensures M.Exec(Init(hooks), acts).alloc.live == if hooks.read then Memory(acts) else {}
  {
    MemoryRun(Init(hooks), acts);
  }

  lemma AllocPart(h: Hooks, alloc: Alloc, a: Action, disposed: seq<Msg>, n: int)
    requires alloc.count == Wrap(n)
    ensures NextAlloc(h, alloc, a, disposed).count
         == Wrap(n + (if a.ReadOk? && h.read then 1 else 0) - if a.ReadOk? || h.writeDone then 0 else |disposed|)
  {
    WrapAgain(n, 1);
    WrapAgain(n, 0);
    WrapAgain(n, -|disposed|);
    FreeAllCounts(alloc, disposed);
  }

  lemma FreedPart(h: Hooks, o: Outbound, move: Option<Move<Msg>>)
    requires move.Some? ==> Pumps.Enabled(o.pump, move.value)
    ensures |NextOutbound(h, o, move).freed| == |o.freed| + if h.writeDone then 0 else |Disposed(o, move)|
  {
  }

  lemma DeliveredPart(h: Hooks, b: Inbound, a: Action)
    ensures |NextInbound(h, b, a).delivered| == |b.delivered| + if a.ReadOk? && h.read then 1 else 0
  {
  }

  lemma AllocStep(s: Session, a: Action)
    requires M.Enabled(s, a) && s.alloc.count == Wrap(|s.inb.delivered| - |s.outb.freed|)
    ensures var t := M.Next(s, a); t.alloc.count == Wrap(|t.inb.delivered| - |t.outb.freed|)
  {
    var move := MoveOf(s.hooks, s.open, s.ctl, a);
    AllocPart(s.hooks, s.alloc, a, Disposed(s.outb, move), |s.inb.delivered| - |s.outb.freed|);
    FreedPart(s.hooks, s.outb, move);
    DeliveredPart(s.hooks, s.inb, a);
  }

  lemma {:induction false} AllocRun(s: Session, acts: seq<Action>)
    requires M.Legal(s, acts) && s.alloc.count == Wrap(|s.inb.delivered| - |s.outb.freed|)
    ensures var t := M.Exec(s, acts); t.alloc.count == Wrap(|t.inb.delivered| - |t.outb.freed|)
    decreases |acts|
  {
    if |acts| > 0 {
      AllocStep(s, acts[0]);
      AllocRun(M.Next(s, acts[0]), acts[1..]);
    }
  }

  /** For every session, the allocator's counter is the messages delivered less those given
      back, modulo 2^64. */
  lemma AllocHistory(hooks: Hooks, acts: seq<Action>)
    requires M.Legal(Init(hooks), acts)
    ensures var s := M.Exec(Init(hooks), acts); s.alloc.count == Wrap(|s.inb.delivered| - |s.outb.freed|)
  {
    AllocRun(Init(hooks), acts);
  }

  // ---------- statistics

  /** The handlers that end a connection, and close. */
  predicate Ends(a: Action) {
    match a
    case Connected(_, ec) => ec != Success
    case Handshaken(_, ec) => ec != Success
    case Accepted(_, ec) => ec != Success
    case ReadFail(_, _, _) => true
    case Close => true
    case _ => false
  }

  lemma EndCounts(a: Action)
    ensures if Ends(a) then CountOf(a) == Some(Spec.SetEnabled(false))
            else !a.EnableStats? && !a.StatsExpire? && !a.StatsCallback? ==>
              CountOf(a).None? || CountOf(a).value.Inbound? || CountOf(a).value.Outbound?
  {
  }

  lemma StoppedByEnd(st: Spec.Stats)
    requires Spec.Agrees(st)
    ensures var n := NextStats(st, Some(Spec.SetEnabled(false)));
            n.enabled == st.enabled && Spec.Armed !in n.waits
  {
  }

  lemma CountKeepsTimer(st: Spec.Stats, count: Option<Spec.Action>)
    requires count.None? || count.value.Inbound? || count.value.Outbound?
    ensures NextStats(st, count).enabled == st.enabled && NextStats(st, count).waits == st.waits
  {
  }

  /** In every run, the end of a connection and a call of close stop the statistics: no wait
      is left that could expire. Apart from the caller and the timer nothing else touches
      the flag or the waits. */
  lemma EndStopsStatistics(hooks: Hooks, acts: seq<Action>, a: Action)
    requires M.Legal(Init(hooks), acts) && M.Enabled(M.Exec(Init(hooks), acts), a)
    ensures var st := M.Exec(Init(hooks), acts).stats;
            var n := M.Next(M.Exec(Init(hooks), acts), a).stats;
            && (Ends(a) ==> Spec.Armed !in n.waits && n.enabled == st.enabled)
            && (!Ends(a) && !a.EnableStats? && !a.StatsExpire? && !a.StatsCallback? ==>
                  n.enabled == st.enabled && n.waits == st.waits)
  {
    SessionStatsSound(hooks, acts);
    EndCounts(a);
    if Ends(a) {
      StoppedByEnd(M.Exec(Init(hooks), acts).stats);
    } else if !a.EnableStats? && !a.StatsExpire? && !a.StatsCallback? {
      CountKeepsTimer(M.Exec(Init(hooks), acts).stats, CountOf(a));
    }
  }

  /** In every run the caller turns statistics on that are off, and stops those that are on;
      an expired wait lets the next callback publish what was counted, a cancelled one lets
      it turn the statistics off. */
  lemma StatisticsFollowTimer(hooks: Hooks, acts: seq<Action>, a: Action)
    requires M.Legal(Init(hooks), acts) && M.Enabled(M.Exec(Init(hooks), acts), a)
    ensures var st := M.Exec(Init(hooks), acts).stats;
            var n := M.Next(M.Exec(Init(hooks), acts), a).stats;
            match a
            case EnableStats(on) =>
              if st.enabled then n.enabled && Spec.Armed !in n.waits
              else n.enabled == on && (on ==> n.waits == [Spec.Armed])
            case StatsExpire(_) => n == st.(waits := [Spec.Due])
            case StatsCallback(_) =>
              if st.waits == [Spec.Due]
              then n.enabled && n.waits == [Spec.Armed]
                   && n.inData.last == st.inData.total && n.inMsgs.last == st.inMsgs.total
                   && n.outData.last == st.outData.total && n.outMsgs.last == st.outMsgs.total
              else !n.enabled && n.waits == []
            case _ => true
  {
    SessionStatsSound(hooks, acts);
    var st := M.Exec(Init(hooks), acts).stats;
    if a.EnableStats? || a.StatsExpire? || a.StatsCallback? {
      TimerMoves(st, CountOf(a).value);
    }
  }

  lemma TimerMoves(st: Spec.Stats, x: Spec.Action)
    requires Spec.Agrees(st) && Spec.Enabled(st, x)
    ensures var n := Spec.Next(st, x);
            match x
            case SetEnabled(on) =>
              if st.enabled then n.enabled && Spec.Armed !in n.waits
              else n.enabled == on && (on ==> n.waits == [Spec.Armed])
            case Expire(_) => n == st.(waits := [Spec.Due])
            case Callback(_) =>
              if st.waits == [Spec.Due]
              then n.enabled && n.waits == [Spec.Armed]
                   && n.inData.last == st.inData.total && n.inMsgs.last == st.inMsgs.total
                   && n.outData.last == st.outData.total && n.outMsgs.last == st.outMsgs.total
              else !n.enabled && n.waits == []
            case _ => true
  {
  }
}
