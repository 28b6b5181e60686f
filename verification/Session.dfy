/** The session class. Each method is a handler, or the part of one that runs without a
    break, and is proved to be the step of the state machine of the same name. */
module Sessions {
  import opened Allocation
  import opened Buffers
  import opened Pumps
  import opened Seqs
  import opened SessionModel
  import opened SessionStatistics
  import M = SessionModel
  import Spec = StatsSpec
  import Urls
  import Wrappers

  /** The logs after messages were disposed of. */
  function Noted(h: Hooks, o: Outbound, ms: seq<Msg>, skipping: bool): Outbound {
    Outbound(o.pump.(done := o.pump.done + ms, skipped := o.pump.skipped || skipping),
             o.handed + (if h.writeDone then ms else []),
             o.freed + if h.writeDone then [] else ms)
  }

  lemma NotedTwice(h: Hooks, o: Outbound, ms: seq<Msg>, m: Msg)
    ensures Noted(h, Noted(h, o, ms, false), [m], false) == Noted(h, o, ms + [m], false)
    ensures Noted(h, o, [], false) == o
  {
  }

  /** A completion that meets a non-empty queue, written out. */
  lemma FinishClosedForm(h: Hooks, o: Outbound, i: nat, goOn: bool)
    requires Pumps.Enabled(o.pump, Finish(i, goOn)) && |o.pump.queue| > 0
    ensures var move := Wrappers.Some(Finish(i, goOn));
            var ms := [o.pump.ops[i].item] + if goOn then [] else o.pump.queue[1..];
            var left := Noted(h, o.(pump := o.pump.(ops := Remove(o.pump.ops, i))), ms, !goOn && |o.pump.queue| > 1);
            var popped := left.pump.(queue := if goOn then o.pump.queue[1..] else []);
            && Disposed(o, move) == ms
            && NextOutbound(h, o, move)
            == left.(pump := if |popped.queue| > 0 then Launch(popped, popped.queue[0], true) else popped)
  {
    var ms := [o.pump.ops[i].item] + if goOn then [] else o.pump.queue[1..];
    var q := Step(o.pump, Finish(i, goOn));
    assert q.done == o.pump.done + ms;
    assert q.done[|o.pump.done|..] == ms;
  }

  /** A step that leaves the write queue and the allocator alone, written out. */
  lemma ControlForm(s: Session, a: Action)
    requires M.Enabled(s, a) && MoveOf(s.hooks, s.open, s.ctl, a).None? && !a.ReadOk? && !a.StreamIs?
    ensures Next(s, a) == s.(ctl := NextControl(s.hooks, s.open, s.ctl, a), inb := NextInbound(s.hooks, s.inb, a),
                             timer := NextTimer(s.open, s.timer, a), stats := NextStats(s.stats, CountOf(a)))
  {
  }

  lemma ReadOkLeavesTail(s: Session, at: nat, chunks: Chunks, text: bool, addr: Msg, inPlace: bool)
    requires M.Enabled(s, ReadOk(at, chunks, text, addr))
    ensures M.Enabled(Next(s, ReadOk(at, chunks, text, addr)), ContinueRead(|s.ctl.tokens| - 1, inPlace))
  {
  }

  /** A step that neither reads nor touches the timer, written out. */
  lemma OpeningForm(s: Session, a: Action)
    requires M.Enabled(s, a) && (a.Connected? || a.Handshaken? || a.Accepted? || a.ContinueRead?)
    ensures Next(s, a) == s.(ctl := NextControl(s.hooks, s.open, s.ctl, a), stats := NextStats(s.stats, CountOf(a)))
  {
    ControlForm(s, a);
  }

  /** Off ONLINE, with the rest of the error handler to come. */
  function Left(c: Control, at: nat, ec: ErrorCode): Control
    requires at < |c.tokens|
  {
    Put(M.SetStatus(Drop(c, at), if IsClean(ec) then OFFLINE else ABORTED), ErrorTail(IsClean(ec)))
  }

  lemma ReadFailForm(s: Session, at: nat, ec: ErrorCode, partial: Chunks)
    requires M.Enabled(s, ReadFail(at, ec, partial))
    ensures Next(s, ReadFail(at, ec, partial))
         == s.(ctl := Left(s.ctl, at, ec),
               inb := s.inb.(buffer := s.inb.buffer + partial),
               stats := Spec.Next(s.stats, Spec.SetEnabled(false)))
  {
    ControlForm(s, ReadFail(at, ec, partial));
  }

  /** What connect does to the status and the chain of operations. */
  function Begun(c: Control): Control {
    Put(M.SetStatus(c, BLOCKED), Connecting).(attempts := c.attempts + 1)
  }

  lemma ReadOkForm(s: Session, at: nat, chunks: Chunks, text: bool, addr: Msg)
    requires M.Enabled(s, ReadOk(at, chunks, text, addr))
    ensures Next(s, ReadOk(at, chunks, text, addr))
         == s.(ctl := Put(Drop(s.ctl, at), ReadTail),
               inb := NextInbound(s.hooks, s.inb, ReadOk(at, chunks, text, addr)),
               alloc := if s.hooks.read then s.alloc.Allocate(addr) else s.alloc,
               stats := Spec.Next(s.stats, Spec.Inbound(|Flatten(chunks)|)))
  {
  }

  lemma ReportEndForm(s: Session, at: nat, clean: bool)
    requires Has(s.ctl, at, ErrorTail(clean))
    ensures M.Enabled(s, ReportEnd(at))
    ensures var c := Drop(s.ctl, at);
            var drained := NextOutbound(s.hooks, s.outb, Wrappers.Some(Drain));
            Next(s, ReportEnd(at)) == s.(ctl := if s.hooks.read then c.(endCalls := c.endCalls + 1) else c,
                                         outb := if clean && s.hooks.writeDone then drained else s.outb)
  {
  }

  class WebsocketSession {
    const hooks: Hooks
    const stats: SessionStats
    const allocator: Allocator
    var msgQueue: seq<Msg>
    var status: Status
    var buffer: Chunks
    var streamOpen: bool

    // Pending operations and logs. Their status, queue and buffer are those above.
    ghost var timer: CloseTimer
    ghost var ctl: Control
    ghost var outb: Outbound
    ghost var inb: Inbound

    ghost predicate Valid() {
      && stats.Valid()
      && this !in stats.Repr() && allocator !in stats.Repr()
    }

    ghost function ControlView(): Control
      reads this
    {
      ctl.(status := status)
    }

    ghost function PumpView(): Pump<Msg>
      reads this
    {
      outb.pump.(queue := msgQueue)
    }

    ghost function OutboundView(): Outbound
      reads this
    {
      outb.(pump := PumpView())
    }

    ghost function InboundView(): Inbound
      reads this
    {
      inb.(buffer := buffer)
    }

    ghost function View(): Session
      requires Valid()
      reads this, stats.Repr(), allocator
    {
      Session(hooks, streamOpen, ControlView(), OutboundView(), InboundView(), timer, allocator.View(), stats.View())
    }

    constructor (hooks: Hooks, allocator: Allocator)
      ensures Valid() && fresh(stats.Repr())
      ensures this.hooks == hooks && this.allocator == allocator
      ensures View() == Init(hooks).(alloc := allocator.View())
    {
      this.hooks, this.allocator := hooks, allocator;
      stats := new SessionStats();
      msgQueue, status, buffer, streamOpen := [], BLOCKED, [], false;
      ctl, outb, inb, timer := Init(hooks).ctl, Init(hooks).outb, Init(hooks).inb, Init(hooks).timer;
    }

    // ---------- write operations

    method Write(message: Msg, onIo: bool)
      requires Valid()
      modifies this
      ensures View() == Next(old(View()), M.Write(message, onIo))
    {
      msgQueue := msgQueue + [message];
      outb := outb.(pump := outb.pump.(submitted := outb.pump.submitted + [message]));
      if |msgQueue| < 2 {
        PerformWrite(message, onIo);
      }
    }

    /** Starts the write at once on an io thread, and by a dispatched lambda elsewhere. */
    method PerformWrite(msg: Msg, onIo: bool)
      modifies this`outb
      ensures OutboundView() == old(OutboundView()).(pump := Launch(old(PumpView()), msg, onIo))
    {
      if onIo {
        AsyncWrite(msg);
      } else {
        outb := outb.(pump := outb.pump.(ops := outb.pump.ops + [Op(Dispatched, msg)]));
      }
    }

    ghost method AsyncWrite(msg: Msg)
      modifies this`outb
      ensures outb == old(outb).(pump := Launch(old(outb).pump, msg, true))
    {
      outb := outb.(pump := outb.pump.(ops := outb.pump.ops + [Op(InFlight, msg)], wire := outb.pump.wire + [msg]));
    }

    /** The lambda that perform_write dispatched. */
    method RunDispatchedWrite(msg: Msg, ghost i: nat)
      requires Valid() && i < |outb.pump.ops| && outb.pump.ops[i] == Op(Dispatched, msg)
      modifies this
      ensures View() == Next(old(View()), RunWrite(i))
    {
      var p := outb.pump;
      outb := outb.(pump := p.(ops := p.ops[i := Op(InFlight, msg)], wire := p.wire + [msg]));
    }

    method WriteCompleteHandler(bytes: nat, msg: Msg, ghost i: nat)
      requires Valid() && i < |outb.pump.ops| && outb.pump.ops[i] == Op(InFlight, msg)
      modifies this, stats.Repr(), allocator
      ensures View() == Next(old(View()), WriteDone(i, bytes))
    {
      stats.CountOutbound(bytes);
      FinishWrite(msg, i);
    }

    /** The queue part of the completion handler. */
    method FinishWrite(msg: Msg, ghost i: nat)
      requires Valid() && i < |outb.pump.ops| && outb.pump.ops[i] == Op(InFlight, msg)
      modifies this`outb, this`msgQueue, allocator
      ensures OutboundView() == NextOutbound(hooks, old(OutboundView()), Wrappers.Some(Finish(i, streamOpen)))
      ensures allocator.View()
           == if hooks.writeDone then old(allocator.View())
              else old(allocator.View()).FreeAll(Disposed(old(OutboundView()), Wrappers.Some(Finish(i, streamOpen))))
    {
      outb := outb.(pump := outb.pump.(ops := Remove(outb.pump.ops, i)));
      if |msgQueue| > 0 {
        FinishClosedForm(hooks, old(OutboundView()), i, streamOpen);
        PopFront(msg);
        if |msgQueue| > 0 {
          PerformWrite(msgQueue[0], true);
        }
      }
    }

    /** Pops the front, disposes of `msg`, and clears the rest if the stream is closed. */
    method PopFront(msg: Msg)
      requires Valid() && |msgQueue| > 0
      modifies this`outb, this`msgQueue, allocator
      ensures msgQueue == if streamOpen then old(msgQueue)[1..] else []
      ensures var ms := [msg] + if streamOpen then [] else old(msgQueue)[1..];
              && outb == Noted(hooks, old(outb), ms, !streamOpen && |old(msgQueue)| > 1)
              && allocator.View()
              == if hooks.writeDone then old(allocator.View()) else old(allocator.View()).FreeAll(ms)
    {
      msgQueue := msgQueue[1..];
      assert ([msg] + msgQueue)[1..] == msgQueue;
      DisposeOf(msg);
      if |msgQueue| > 0 && !streamOpen {
        ClearQueue();
        outb := outb.(pump := outb.pump.(skipped := true));
      }
    }

    /** Hands a message to on_write_done, or gives it back to the allocator. */
    method DisposeOf(msg: Msg)
      modifies this`outb, allocator
      ensures outb == Noted(hooks, old(outb), [msg], false)
      ensures allocator.View() == if hooks.writeDone then old(allocator.View()) else old(allocator.View()).Free(msg)
    {
      if hooks.writeDone {
        outb := outb.(handed := outb.handed + [msg]);
      } else {
        allocator.Deallocate(msg);
        outb := outb.(freed := outb.freed + [msg]);
      }
      outb := outb.(pump := outb.pump.(done := outb.pump.done + [msg]));
    }

    /** The loop that disposes of everything queued. */
    method ClearQueue()
      modifies this`outb, this`msgQueue, allocator
      ensures msgQueue == [] && outb == Noted(hooks, old(outb), old(msgQueue), false)
      ensures allocator.View()
           == if hooks.writeDone then old(allocator.View()) else old(allocator.View()).FreeAll(old(msgQueue))
    {
      ghost var gone: seq<Msg> := [];
      while |msgQueue| > 0
        invariant gone + msgQueue == old(msgQueue)
        invariant outb == Noted(hooks, old(outb), gone, false)
        invariant (if hooks.writeDone then allocator.View() else allocator.View().FreeAll(msgQueue))
               == (if hooks.writeDone then old(allocator.View()) else old(allocator.View()).FreeAll(old(msgQueue)))
        decreases |msgQueue|
      {
        NotedTwice(hooks, old(outb), gone, msgQueue[0]);
        gone := gone + [msgQueue[0]];
        DisposeOf(msgQueue[0]);
        msgQueue := msgQueue[1..];
      }
    }

    // ---------- opening

    /** A second call on a session does the same again, outside the runs of the state
        machine. */
    method Connect(url: Urls.Url)
      requires Valid() && Urls.Connectable(url)
      modifies this
      ensures View() == old(View()).(ctl := Begun(old(ControlView())))
      ensures old(ctl).attempts == 0 ==> View() == Next(old(View()), M.Connect)
    {
      if ctl.attempts == 0 {
        ControlForm(View(), M.Connect);
      }
      SetStatus(BLOCKED);
      ctl := Put(ctl, Connecting).(attempts := ctl.attempts + 1);
    }

    method Accept()
      requires Valid() && ctl.attempts == 0
      modifies this
      ensures View() == Next(old(View()), M.Accept)
    {
      ctl := Put(ctl, Accepting).(attempts := ctl.attempts + 1);
    }

    method SetStatus(st: Status)
      modifies this`status, this`ctl
      ensures ControlView() == M.SetStatus(old(ControlView()), st)
    {
      status := st;
      ctl := ctl.(statusLog := ctl.statusLog + [st]);
    }

    method CallReady(ec: ErrorCode)
      modifies this`ctl
      ensures ControlView() == M.CallReady(hooks, old(ControlView()), ec)
    {
      if hooks.ready {
        ctl := ctl.(readyLog := ctl.readyLog + [ec]);
      }
    }

    method AbortOpening(ec: ErrorCode)
      requires Valid()
      modifies this`status, this`ctl, stats.Repr()
      ensures ControlView() == Abort(hooks, old(ControlView()), ec)
      ensures stats.View() == Spec.Next(old(stats.View()), Spec.SetEnabled(false))
    {
      SetStatus(ABORTED);
      stats.SetEnabled(false);
      CallReady(ec);
    }

    method ConnectHandler(ec: ErrorCode, ghost at: nat)
      requires Valid() && Has(ControlView(), at, Connecting)
      modifies this, stats.Repr()
      ensures View() == Next(old(View()), Connected(at, ec))
    {
      OpeningForm(View(), Connected(at, ec));
      ctl := Drop(ctl, at);
      if ec == Success {
        ctl := Put(ctl, Handshaking);
      } else {
        AbortOpening(ec);
      }
    }

    method HandshakeHandler(ec: ErrorCode, inPlace: bool, ghost at: nat)
      requires Valid() && Has(ControlView(), at, Handshaking)
      modifies this, stats.Repr()
      ensures ec != Success ==> View() == Next(old(View()), Handshaken(at, ec))
      ensures ec == Success ==>
                View() == Next(Next(old(View()), Handshaken(at, ec)), ContinueRead(|old(ctl).tokens| - 1, inPlace))
    {
      HandshakeDone(ec, at);
      if ec == Success {
        PerformRead(inPlace, |ctl.tokens| - 1);
      }
    }

    /** The handshake handler up to perform_read. */
    method HandshakeDone(ec: ErrorCode, ghost at: nat)
      requires Valid() && Has(ControlView(), at, Handshaking)
      modifies this, stats.Repr()
      ensures View() == Next(old(View()), Handshaken(at, ec))
    {
      OpeningForm(View(), Handshaken(at, ec));
      ctl := Drop(ctl, at);
      if ec != Success {
        AbortOpening(ec);
      } else {
        SetStatus(ONLINE);
        CallReady(ec);
        ctl := Put(ctl, HandshakeTail);
      }
    }

    method AcceptedHandler(ec: ErrorCode, inPlace: bool, ghost at: nat)
      requires Valid() && Has(ControlView(), at, Accepting)
      modifies this, stats.Repr()
      ensures ec != Success ==> View() == Next(old(View()), Accepted(at, ec))
      ensures ec == Success ==>
                View() == Next(Next(old(View()), Accepted(at, ec)), ContinueRead(|old(ctl).tokens| - 1, inPlace))
    {
      AcceptDone(ec, at);
      if ec == Success {
        FinishAccept(inPlace, |ctl.tokens| - 1);
      }
    }

    /** The accept handler up to perform_read, or all of it after an error. */
    method AcceptDone(ec: ErrorCode, ghost at: nat)
      requires Valid() && Has(ControlView(), at, Accepting)
      modifies this, stats.Repr()
      ensures View() == Next(old(View()), Accepted(at, ec))
    {
      OpeningForm(View(), Accepted(at, ec));
      ctl := Drop(ctl, at);
      if ec != Success {
        AbortOpening(ec);
      } else {
        SetStatus(ONLINE);
        ctl := Put(ctl, AcceptTail);
      }
    }

    method FinishAccept(inPlace: bool, ghost at: nat)
      requires Valid() && Has(ControlView(), at, AcceptTail)
      modifies this
      ensures View() == Next(old(View()), ContinueRead(at, inPlace))
    {
      StartRead(inPlace, at);
      CallReady(Success);
    }

    // ---------- read operations

    method PerformRead(inPlace: bool, ghost at: nat)
      requires Valid() && at < |ctl.tokens| && BeforeRead(ctl.tokens[at]) && !ctl.tokens[at].AcceptTail?
      modifies this
      ensures View() == Next(old(View()), ContinueRead(at, inPlace))
    {
      StartRead(inPlace, at);
    }

    /** perform_read: only an ONLINE session reads on. The dispatched lambda may run in
        place, because the caller is on the read strand. */
    method StartRead(inPlace: bool, ghost at: nat)
      requires at < |ctl.tokens|
      modifies this`ctl
      ensures ControlView() == M.PerformRead(Drop(old(ControlView()), at), inPlace)
    {
      ctl := Drop(ctl, at);
      if status == ONLINE {
        if inPlace {
          ctl := Put(ctl, Reading);
        } else {
          ctl := Put(ctl, ReadQueued);
        }
      }
    }

    method RunDispatchedRead(ghost at: nat)
      requires Valid() && Has(ControlView(), at, ReadQueued)
      modifies this
      ensures View() == Next(old(View()), RunRead(at))
    {
      ctl := Put(Drop(ctl, at), Reading);
    }

    /** read_handler without an error; `chunks` is what the read put into the buffer. */
    method ReadHandler(chunks: Chunks, text: bool, addr: Msg, inPlace: bool, ghost at: nat)
      requires Valid() && Has(ControlView(), at, Reading) && (hooks.read ==> addr !in allocator.live)
      modifies this, stats.Repr(), allocator
      ensures View() == Next(Next(old(View()), ReadOk(at, chunks, text, addr)),
                             ContinueRead(|old(ctl).tokens| - 1, inPlace))
    {
      ReadOkLeavesTail(View(), at, chunks, text, addr, inPlace);
      ReceiveMessage(chunks, text, addr, at);
      PerformRead(inPlace, |ctl.tokens| - 1);
    }

    /** read_handler with an error. */
    method ReadErrorHandler(ec: ErrorCode, partial: Chunks, ghost at: nat)
      requires Valid() && Has(ControlView(), at, Reading) && ec != Success
      modifies this, stats.Repr(), allocator
      ensures View() == Next(Next(old(View()), ReadFail(at, ec, partial)), ReportEnd(|old(ctl).tokens| - 1))
    {
      FailRead(ec, partial, at);
      FinishReading(IsClean(ec), |ctl.tokens| - 1);
    }

    /** The read handler up to perform_read. */
    method ReceiveMessage(chunks: Chunks, text: bool, addr: Msg, ghost at: nat)
      requires Valid() && Has(ControlView(), at, Reading) && (hooks.read ==> addr !in allocator.live)
      modifies this, stats.Repr(), allocator
      ensures View() == Next(old(View()), ReadOk(at, chunks, text, addr))
      ensures |ctl.tokens| == |old(ctl).tokens| && ctl.tokens[|ctl.tokens| - 1] == ReadTail
    {
      ReadOkForm(View(), at, chunks, text, addr);
      CountAndTake(chunks, text, addr, at);
    }

    method CountAndTake(chunks: Chunks, text: bool, addr: Msg, ghost at: nat)
      requires Valid() && at < |ctl.tokens| && (hooks.read ==> addr !in allocator.live)
      modifies this`buffer, this`inb, this`ctl, stats.Repr(), allocator
      ensures stats.View() == Spec.Next(old(stats.View()), Spec.Inbound(|Flatten(chunks)|))
      ensures ControlView() == Put(Drop(old(ControlView()), at), ReadTail)
      ensures InboundView() == NextInbound(hooks, old(InboundView()), ReadOk(at, chunks, text, addr))
      ensures allocator.View() == if hooks.read then old(allocator.View()).Allocate(addr) else old(allocator.View())
    {
      stats.CountInbound(|Flatten(chunks)|);
      TakeMessage(chunks, text, addr, at);
    }

    /** Copies the whole buffer into a new message for on_read, then consumes the bytes
        of the received one. */
    method TakeMessage(chunks: Chunks, text: bool, addr: Msg, ghost at: nat)
      requires at < |ctl.tokens| && (hooks.read ==> addr !in allocator.live)
      modifies this`buffer, this`inb, this`ctl, allocator
      ensures ControlView() == Put(Drop(old(ControlView()), at), ReadTail)
      ensures InboundView() == NextInbound(hooks, old(InboundView()), ReadOk(at, chunks, text, addr))
      ensures allocator.View() == if hooks.read then old(allocator.View()).Allocate(addr) else old(allocator.View())
    {
      var bytes := |Flatten(chunks)|;
      buffer := buffer + chunks;
      if hooks.read {
        var newMsg := allocator.Allocate(addr);
        var contents := new MessageData();
        contents.FromConstBuffers(buffer, text);
        assert contents.data == if text then [] else Flatten(buffer);
        inb := inb.(delivered := inb.delivered + [Delivery(newMsg, contents.data, bytes)]);
      }
      buffer := Consume(buffer, bytes);
      inb := inb.(received := inb.received + [Frame(text, Flatten(chunks))]);
      ctl := Put(Drop(ctl, at), ReadTail);
    }

    /** The read error handler up to the drain. */
    method FailRead(ec: ErrorCode, partial: Chunks, ghost at: nat)
      requires Valid() && Has(ControlView(), at, Reading) && ec != Success
      modifies this, stats.Repr()
      ensures View() == Next(old(View()), ReadFail(at, ec, partial))
      ensures |ctl.tokens| == |old(ctl).tokens| && ctl.tokens[|ctl.tokens| - 1] == ErrorTail(IsClean(ec))
    {
      ReadFailForm(View(), at, ec, partial);
      KeepAndLeave(ec, partial, at);
    }

    /** What a failed read put into the buffer stays there. */
    method KeepAndLeave(ec: ErrorCode, partial: Chunks, ghost at: nat)
      requires Valid() && at < |ctl.tokens|
      modifies this`buffer, this`status, this`ctl, stats.Repr()
      ensures ControlView() == Left(old(ControlView()), at, ec)
      ensures InboundView() == old(InboundView()).(buffer := old(buffer) + partial)
      ensures stats.View() == Spec.Next(old(stats.View()), Spec.SetEnabled(false))
    {
      buffer := buffer + partial;
      LeaveOnline(ec, at);
    }

    method LeaveOnline(ec: ErrorCode, ghost at: nat)
      requires Valid() && at < |ctl.tokens|
      modifies this`status, this`ctl, stats.Repr()
      ensures ControlView() == Left(old(ControlView()), at, ec)
      ensures stats.View() == Spec.Next(old(stats.View()), Spec.SetEnabled(false))
    {
      ctl := Drop(ctl, at);
      if ec != WebsocketClosed && ec != Code(89) {
        SetStatus(ABORTED);
        stats.SetEnabled(false);
      } else {
        SetStatus(OFFLINE);
        stats.SetEnabled(false);
      }
      ctl := Put(ctl, ErrorTail(IsClean(ec)));
    }

    /** The drain after a clean close, and the report without a message. */
    method FinishReading(clean: bool, ghost at: nat)
      requires Valid() && Has(ControlView(), at, ErrorTail(clean))
      modifies this, allocator
      ensures View() == Next(old(View()), ReportEnd(at))
    {
      ReportEndForm(View(), at, clean);
      if clean && hooks.writeDone {
        DrainQueue();
      }
      ctl := Drop(ctl, at);
      if hooks.read {
        ctl := ctl.(endCalls := ctl.endCalls + 1);
      }
    }

    method DrainQueue()
      requires hooks.writeDone
      modifies this`outb, this`msgQueue, allocator
      ensures OutboundView() == NextOutbound(hooks, old(OutboundView()), Wrappers.Some(Drain))
      ensures allocator.View() == old(allocator.View())
    {
      ghost var p := PumpView();
      assert (p.done + p.queue)[|p.done|..] == p.queue;
      outb := outb.(pump := outb.pump.(skipped := outb.pump.skipped || |msgQueue| > 1));
      ClearQueue();
    }

    // ---------- control operations

    method Close()
      requires Valid()
      modifies this, stats.Repr()
      ensures View() == Next(old(View()), M.Close)
    {
      stats.SetEnabled(false);
      ArmCloseTimer();
      if streamOpen && status == ONLINE {
        ctl := ctl.(closes := ctl.closes + [Dispatched]);
      }
    }

    /** The new timer's destroyed predecessor cancels its wait. */
    ghost method ArmCloseTimer()
      modifies this`timer
      ensures timer == NextTimer(streamOpen, old(timer), M.Close)
    {
      timer := CloseTimer(Spec.Cancelled(timer.waits) + [Spec.Armed], timer.asked + 1, false, timer.forced);
    }

    /** The callback of the timer: unless the wait was cancelled it closes the sockets. */
    method CloseTimedOut(cancelled: bool, sockets: Sockets, ghost i: nat) returns (made: seq<SocketCall>)
      requires Valid() && i < |timer.waits| && !timer.waits[i].Armed? && (cancelled <==> timer.waits[i].Aborted?)
      modifies this
      ensures View() == Next(old(View()), CloseTimeout(i, sockets))
      ensures timer.forced == if cancelled then old(timer).forced else old(timer).forced + [made]
      ensures !cancelled && sockets.returning >= 3 ==>
                && (CancelNext in made <==> streamOpen)
                && (CloseNext in made <==> sockets.nextOpen)
                && (CloseLowest in made <==> sockets.lowestOpen)
    {
      timer := timer.(waits := Remove(timer.waits, i));
      made := [];
      if !cancelled {
        made := ForceSockets(sockets);
        timer := timer.(settled := true, forced := timer.forced + [made]);
      }
    }

    /** The calls on the layers under the stream; the first that throws ends them. */
    method ForceSockets(sockets: Sockets) returns (made: seq<SocketCall>)
      ensures made == ForcedCalls(streamOpen, sockets)
      ensures sockets.returning >= 3 ==>
                && (CancelNext in made <==> streamOpen)
                && (CloseNext in made <==> sockets.nextOpen)
                && (CloseLowest in made <==> sockets.lowestOpen)
    {
      made := [];
      if streamOpen {
        made := made + [CancelNext];
        if |made| > sockets.returning {
          return;
        }
      }
      if sockets.nextOpen {
        made := made + [CloseNext];
        if |made| > sockets.returning {
          return;
        }
      }
      if sockets.lowestOpen {
        made := made + [CloseLowest];
      }
    }

    method RunDispatchedClose(ghost i: nat)
      requires Valid() && i < |ctl.closes| && ctl.closes[i] == Dispatched
      modifies this
      ensures View() == Next(old(View()), RunClose(i))
    {
      ctl := ctl.(closes := ctl.closes[i := InFlight]);
    }

    method CloseHandler(ghost i: nat)
      requires Valid() && i < |ctl.closes| && ctl.closes[i] == InFlight
      modifies this
      ensures View() == Next(old(View()), CloseDone(i))
    {
      ctl := ctl.(closes := Remove(ctl.closes, i));
      CancelCloseTimer(i);
      SetStatus(OFFLINE);
      if hooks.close {
        ctl := ctl.(closeCalls := ctl.closeCalls + 1);
      }
    }

    ghost method CancelCloseTimer(i: nat)
      modifies this`timer
      ensures timer == NextTimer(streamOpen, old(timer), CloseDone(i))
    {
      timer := timer.(waits := Spec.Cancelled(timer.waits), settled := true);
    }

    /** The destructor. Without on_write_done its loop asks an unset handler for its
        value, which throws as soon as the queue holds a message. */
    method Destroy() returns (threw: bool)
      requires Valid()
      modifies this, allocator
      ensures threw <==> !hooks.writeDone && |old(msgQueue)| > 0
      ensures hooks.writeDone ==> msgQueue == [] && outb.handed == old(outb).handed + old(msgQueue)
      ensures !hooks.writeDone ==> msgQueue == old(msgQueue) && outb.handed == old(outb).handed
      ensures allocator.View() == old(allocator.View())
    {
      if hooks.writeDone {
        ClearQueue();
        threw := false;
      } else {
        threw := |msgQueue| > 0;
      }
    }
  }
}
