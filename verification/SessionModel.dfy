/** The websocket session as a state machine. The environment is the set of pending
    operations; every mutex-protected section is one step, and a handler that looks at
    the status again after releasing control is split into two steps. */
module SessionModel {
  import opened Allocation
  import opened Buffers
  import opened Pumps
  import opened Seqs
  import opened Wrappers
  import Spec = StatsSpec

  datatype Status = OFFLINE | ONLINE | BLOCKED | ABORTED | SUSPENDED

  datatype ErrorCode = Success | WebsocketClosed | Code(value: int)

  /** Which optional handlers are installed. */
  datatype Hooks = Hooks(ready: bool, read: bool, close: bool, writeDone: bool)

  /** A pending step of the connect, accept or read chain.
      HandshakeTail, AcceptTail, ReadTail: a handler about to call perform_read.
      ErrorTail: the read error handler after it changed the status. */
  datatype Token =
    | Connecting | Handshaking | Accepting
    | HandshakeTail | AcceptTail
    | ReadQueued | Reading | ReadTail
    | ErrorTail(clean: bool)

  /** One received websocket message. */
  datatype Frame = Frame(text: bool, payload: seq<byte>)

  /** One call of the read handler with a message. */
  datatype Delivery = Delivery(msg: Msg, data: seq<byte>, bytes: nat)

  /** Status, the connect, accept and read chain, and the pending closes. */
  datatype Control = Control(
    status: Status,
    statusLog: seq<Status>,
    tokens: seq<Token>,
    attempts: nat,            // calls of connect or accept
    closes: seq<Stage>,       // pending async_close operations
    readyLog: seq<ErrorCode>, // calls of on_ready
    closeCalls: nat,          // calls of on_close
    endCalls: nat)            // calls of on_read without a message

  /** msg_queue with its outstanding writes, and where disposed messages went. */
  datatype Outbound = Outbound(
    pump: Pump<Msg>,
    handed: seq<Msg>,         // calls of on_write_done
    freed: seq<Msg>)          // messages given back to the allocator

  datatype Inbound = Inbound(
    buffer: Chunks,
    received: seq<Frame>,     // messages the stream completed a read with
    delivered: seq<Delivery>)

  datatype SocketCall = CancelNext | CloseNext | CloseLowest

  /** What a forced close meets: which layers under the stream say they are open, and how
      many of its calls return before one throws. */
  datatype Sockets = Sockets(nextOpen: bool, lowestOpen: bool, returning: nat)

  /** The timer of close(): its waits, how often close was called, whether the latest call
      was answered by a completed or a forced close, and the socket calls of each forced
      close. */
  datatype CloseTimer = CloseTimer(waits: seq<Spec.Wait>, asked: nat, settled: bool, forced: seq<seq<SocketCall>>)

  datatype Session = Session(
    hooks: Hooks,
    open: bool,               // what the stream's is_open() would say
    ctl: Control,
    outb: Outbound,
    inb: Inbound,
    timer: CloseTimer,
    alloc: Alloc,
    stats: Spec.Stats)

  const INIT_CONTROL := Control(BLOCKED, [BLOCKED], [], 0, [], [], 0, 0)

  function Init(hooks: Hooks): Session {
    Session(hooks, false, INIT_CONTROL, Outbound(Empty(), [], []), Inbound([], [], []),
            CloseTimer([], 0, true, []), NO_MESSAGES, Spec.INIT)
  }

  datatype Action =
    | Write(msg: Msg, onIo: bool)
    | RunWrite(op: nat)
    | WriteDone(op: nat, bytes: nat)
    | Connect
    | Accept
    | Connected(at: nat, ec: ErrorCode)
    | Handshaken(at: nat, ec: ErrorCode)
    | Accepted(at: nat, ec: ErrorCode)
    | ContinueRead(at: nat, inPlace: bool)
    | RunRead(at: nat)
    | ReadOk(at: nat, chunks: Chunks, text: bool, addr: Msg)
    | ReadFail(at: nat, ec: ErrorCode, partial: Chunks)
    | ReportEnd(at: nat)
    | Close
    | RunClose(close: nat)
    | CloseDone(close: nat)
    | CloseExpire(wait: nat)
    | CloseTimeout(wait: nat, sockets: Sockets)
    | StreamIs(nowOpen: bool)
    | EnableStats(on: bool)
    | StatsExpire(wait: nat)
    | StatsCallback(wait: nat)

  // ---------- control

  function SetStatus(c: Control, st: Status): Control {
    c.(status := st, statusLog := c.statusLog + [st])
  }

  function CallReady(h: Hooks, c: Control, ec: ErrorCode): Control {
    if h.ready then c.(readyLog := c.readyLog + [ec]) else c
  }

  /** A failed connect, handshake or accept. */
  function Abort(h: Hooks, c: Control, ec: ErrorCode): Control {
    CallReady(h, SetStatus(c, ABORTED), ec)
  }

  function Drop(c: Control, at: nat): Control
    requires at < |c.tokens|
  {
    c.(tokens := Remove(c.tokens, at))
  }

  function Put(c: Control, t: Token): Control {
    c.(tokens := c.tokens + [t])
  }

  function PerformRead(c: Control, inPlace: bool): Control {
    if c.status == ONLINE then Put(c, if inPlace then Reading else ReadQueued) else c
  }

  /** A normal websocket close, or error number 89. */
  predicate IsClean(ec: ErrorCode) {
    ec == WebsocketClosed || ec == Code(89)
  }

  predicate BeforeRead(t: Token) {
    t.HandshakeTail? || t.AcceptTail? || t.ReadTail?
  }

  predicate Has(c: Control, at: nat, t: Token) {
    at < |c.tokens| && c.tokens[at] == t
  }

  predicate ControlEnabled(c: Control, a: Action) {
    match a
    case Connect => c.attempts == 0
    case Accept => c.attempts == 0
    case Connected(at, _) => Has(c, at, Connecting)
    case Handshaken(at, _) => Has(c, at, Handshaking)
    case Accepted(at, _) => Has(c, at, Accepting)
    case ContinueRead(at, _) => at < |c.tokens| && BeforeRead(c.tokens[at])
    case RunRead(at) => Has(c, at, ReadQueued)
    case ReadOk(at, _, _, _) => Has(c, at, Reading)
    case ReadFail(at, ec, _) => Has(c, at, Reading) && ec != Success
    case ReportEnd(at) => at < |c.tokens| && c.tokens[at].ErrorTail?
    case RunClose(i) => i < |c.closes| && c.closes[i] == Dispatched
    case CloseDone(i) => i < |c.closes| && c.closes[i] == InFlight
    case _ => true
  }

  function NextControl(h: Hooks, open: bool, c: Control, a: Action): Control
    requires ControlEnabled(c, a)
  {
    match a
    case Connect => Put(SetStatus(c, BLOCKED), Connecting).(attempts := c.attempts + 1)
    case Accept => Put(c, Accepting).(attempts := c.attempts + 1)
    case Connected(at, ec) =>
      if ec == Success then Put(Drop(c, at), Handshaking) else Abort(h, Drop(c, at), ec)
    case Handshaken(at, ec) =>
      if ec == Success then Put(CallReady(h, SetStatus(Drop(c, at), ONLINE), ec), HandshakeTail)
      else Abort(h, Drop(c, at), ec)
    case Accepted(at, ec) =>
      if ec == Success then Put(SetStatus(Drop(c, at), ONLINE), AcceptTail)
      else Abort(h, Drop(c, at), ec)
    case ContinueRead(at, inPlace) =>
      var d := PerformRead(Drop(c, at), inPlace);
      if c.tokens[at].AcceptTail? then CallReady(h, d, Success) else d
    case RunRead(at) => Put(Drop(c, at), Reading)
    case ReadOk(at, _, _, _) => Put(Drop(c, at), ReadTail)
    case ReadFail(at, ec, _) =>
      Put(SetStatus(Drop(c, at), if IsClean(ec) then OFFLINE else ABORTED), ErrorTail(IsClean(ec)))
    case ReportEnd(at) =>
      Drop(c, at).(endCalls := c.endCalls + if h.read then 1 else 0)
    case Close =>
      if open && c.status == ONLINE then c.(closes := c.closes + [Dispatched]) else c
    case RunClose(i) => c.(closes := c.closes[i := InFlight])
    case CloseDone(i) =>
      SetStatus(c, OFFLINE).(closes := Remove(c.closes, i),
                             closeCalls := c.closeCalls + if h.close then 1 else 0)
    case _ => c
  }

  // ---------- outbound messages

  /** What an action does to the write queue. */
  function MoveOf(h: Hooks, open: bool, c: Control, a: Action): Option<Move<Msg>> {
    match a
    case Write(m, onIo) => Some(Submit(m, onIo))
    case RunWrite(i) => Some(Dispatch(i))
    case WriteDone(i, _) => Some(Finish(i, open))
    case ReportEnd(at) => if Has(c, at, ErrorTail(true)) && h.writeDone then Some(Drain) else None
    case _ => None
  }

  /** The messages a move disposes of. */
  function Disposed(o: Outbound, move: Option<Move<Msg>>): seq<Msg>
    requires move.Some? ==> Pumps.Enabled(o.pump, move.value)
  {
    match move
    case None => []
    case Some(m) => Step(o.pump, m).done[|o.pump.done|..]
  }

  /** They go to on_write_done if that is set, and back to the allocator otherwise. */
  function NextOutbound(h: Hooks, o: Outbound, move: Option<Move<Msg>>): Outbound
    requires move.Some? ==> Pumps.Enabled(o.pump, move.value)
  {
    match move
    case None => o
    case Some(m) =>
      if h.writeDone then Outbound(Step(o.pump, m), o.handed + Disposed(o, move), o.freed)
      else Outbound(Step(o.pump, m), o.handed, o.freed + Disposed(o, move))
  }

  // ---------- inbound messages

  function NextInbound(h: Hooks, b: Inbound, a: Action): Inbound {
    match a
    case ReadOk(_, chunks, text, addr) =>
      var all := b.buffer + chunks;
      var n := |Flatten(chunks)|;
      Inbound(Consume(all, n), b.received + [Frame(text, Flatten(chunks))],
              if h.read then b.delivered + [Delivery(addr, if text then [] else Flatten(all), n)] else b.delivered)
    case ReadFail(_, _, partial) => b.(buffer := b.buffer + partial)
    case _ => b
  }

  /** Inbound messages are allocated, and disposed outbound ones may be given back. */
  function NextAlloc(h: Hooks, alloc: Alloc, a: Action, disposed: seq<Msg>): Alloc {
    if a.ReadOk? then (if h.read then alloc.Allocate(a.addr) else alloc)
    else if h.writeDone then alloc
    else alloc.FreeAll(disposed)
  }

  // ---------- the timer of close

  predicate TimerEnabled(t: CloseTimer, a: Action) {
    match a
    case CloseExpire(i) => i < |t.waits| && t.waits[i].Armed?
    case CloseTimeout(i, _) => i < |t.waits| && !t.waits[i].Armed?
    case _ => true
  }

  /** The calls that apply, up to and including the one that throws. */
  function ForcedCalls(open: bool, k: Sockets): seq<SocketCall> {
    var plan := (if open then [CancelNext] else [])
              + (if k.nextOpen then [CloseNext] else [])
              + (if k.lowestOpen then [CloseLowest] else []);
    if k.returning < |plan| then plan[..k.returning + 1] else plan
  }

  /** Each close replaces the timer, a completed close cancels it, and a wait that ran out
      closes the sockets under the stream. */
  function NextTimer(open: bool, t: CloseTimer, a: Action): CloseTimer
    requires TimerEnabled(t, a)
  {
    match a
    case Close => CloseTimer(Spec.Cancelled(t.waits) + [Spec.Armed], t.asked + 1, false, t.forced)
    case CloseDone(_) => t.(waits := Spec.Cancelled(t.waits), settled := true)
    case CloseExpire(i) => t.(waits := t.waits[i := Spec.Due])
    case CloseTimeout(i, k) =>
      if t.waits[i].Due?
      then t.(waits := Remove(t.waits, i), settled := true, forced := t.forced + [ForcedCalls(open, k)])
      else t.(waits := Remove(t.waits, i))
    case _ => t
  }

  // ---------- statistics

  function CountOf(a: Action): Option<Spec.Action> {
    match a
    case WriteDone(_, bytes) => Some(Spec.Outbound(bytes))
    case Connected(_, ec) => if ec == Success then None else Some(Spec.SetEnabled(false))
    case Handshaken(_, ec) => if ec == Success then None else Some(Spec.SetEnabled(false))
    case Accepted(_, ec) => if ec == Success then None else Some(Spec.SetEnabled(false))
    case ReadOk(_, chunks, _, _) => Some(Spec.Inbound(|Flatten(chunks)|))
    case ReadFail(_, _, _) => Some(Spec.SetEnabled(false))
    case Close => Some(Spec.SetEnabled(false))
    case EnableStats(on) => Some(Spec.SetEnabled(on))
    case StatsExpire(i) => Some(Spec.Expire(i))
    case StatsCallback(i) => Some(Spec.Callback(i))
    case _ => None
  }

  function NextStats(st: Spec.Stats, count: Option<Spec.Action>): Spec.Stats
    requires count.Some? ==> Spec.Enabled(st, count.value)
  {
    match count
    case None => st
    case Some(x) => Spec.Next(st, x)
  }

  // ---------- steps and runs

  predicate Enabled(s: Session, a: Action) {
    var move := MoveOf(s.hooks, s.open, s.ctl, a);
    && ControlEnabled(s.ctl, a)
    && TimerEnabled(s.timer, a)
    && (move.Some? ==> Pumps.Enabled(s.outb.pump, move.value))
    && (CountOf(a).Some? ==> Spec.Enabled(s.stats, CountOf(a).value))
    && (a.ReadOk? && s.hooks.read ==> a.addr !in s.alloc.live)
  }

  function Next(s: Session, a: Action): Session
    requires Enabled(s, a)
  {
    var move := MoveOf(s.hooks, s.open, s.ctl, a);
    Session(
      s.hooks,
      if a.StreamIs? then a.nowOpen else s.open,
      NextControl(s.hooks, s.open, s.ctl, a),
      NextOutbound(s.hooks, s.outb, move),
      NextInbound(s.hooks, s.inb, a),
      NextTimer(s.open, s.timer, a),
      NextAlloc(s.hooks, s.alloc, a, Disposed(s.outb, move)),
      NextStats(s.stats, CountOf(a)))
  }

  predicate Legal(s: Session, acts: seq<Action>)
    decreases |acts|
  {
    |acts| == 0 || (Enabled(s, acts[0]) && Legal(Next(s, acts[0]), acts[1..]))
  }

  function Exec(s: Session, acts: seq<Action>): Session
    requires Legal(s, acts)
    decreases |acts|
  {
    if |acts| == 0 then s else Exec(Next(s, acts[0]), acts[1..])
  }

  /** A caller may write unless the queue is empty with a write still outstanding. */
  predicate MayWrite(s: Session) {
    |s.outb.pump.queue| == 0 ==> |s.outb.pump.ops| == 0
  }

  /** Every write of the run is made when it may be. */
  predicate Careful(s: Session, acts: seq<Action>)
    requires Legal(s, acts)
    decreases |acts|
  {
    |acts| == 0 || ((acts[0].Write? ==> MayWrite(s)) && Careful(Next(s, acts[0]), acts[1..]))
  }
}
