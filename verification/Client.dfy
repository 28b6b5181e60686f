/** The client: who owns a message, across the caller, the session and the allocator. */
module ClientModel {
  import opened Allocation
  import opened Buffers
  import opened Pumps
  import opened Words
  import S = SessionModel

  // o::client installs every handler but on_write_done.
  const HOOKS := S.Hooks(true, true, true, false)

  /** `held` are the messages the caller owns. */
  datatype Client = Client(session: S.Session, held: set<Msg>)

  const INIT := Client(S.Init(HOOKS), {})

  datatype Action =
    | NewMsg(addr: Msg)
    | Send(msg: Msg, onIo: bool)
    | Release(msg: Msg)
    | Receive(at: nat, chunks: Chunks, text: bool, addr: Msg, back: Msg)
    | Run(step: S.Action)

  /** Callers send and release what they own; nothing is assumed about the message that
      handle_message gives back. */
  predicate Enabled(c: Client, a: Action) {
    match a
    case NewMsg(m) => m !in c.session.alloc.live
    case Send(m, _) => m in c.held
    case Release(m) => m in c.held
    case Receive(at, chunks, text, addr, _) => S.Enabled(c.session, S.ReadOk(at, chunks, text, addr))
    case Run(step) => !step.Write? && !step.ReadOk? && S.Enabled(c.session, step)
  }

  function Next(c: Client, a: Action): Client
    requires Enabled(c, a)
  {
    match a
    case NewMsg(m) => Client(c.session.(alloc := c.session.alloc.Allocate(m)), c.held + {m})
    case Send(m, onIo) => Client(S.Next(c.session, S.Write(m, onIo)), c.held - {m})
    case Release(m) => Client(c.session.(alloc := c.session.alloc.Free(m)), c.held - {m})
    case Receive(at, chunks, text, addr, back) =>
      var s := S.Next(c.session, S.ReadOk(at, chunks, text, addr));
      Client(s.(alloc := s.alloc.Free(back)), c.held + {addr} - {back})
    case Run(step) => Client(S.Next(c.session, step), c.held)
  }

  predicate Legal(c: Client, acts: seq<Action>)
    decreases |acts|
  {
    |acts| == 0 || (Enabled(c, acts[0]) && Legal(Next(c, acts[0]), acts[1..]))
  }

  function Exec(c: Client, acts: seq<Action>): Client
    requires Legal(c, acts)
    decreases |acts|
  {
    if |acts| == 0 then c else Exec(Next(c, acts[0]), acts[1..])
  }

  /** handle_message gives back the message it was given, or another the caller owns. */
  predicate GivesBackOwned(c: Client, a: Action) {
    a.Receive? ==> a.back in c.held + {a.addr}
  }

  predicate WellBehaved(c: Client, acts: seq<Action>)
    requires Legal(c, acts)
    decreases |acts|
  {
    |acts| == 0 || (GivesBackOwned(c, acts[0]) && WellBehaved(Next(c, acts[0]), acts[1..]))
  }

  // ---------- the allocator's books

  function Members(ms: seq<Msg>): set<Msg> {
    set m | m in ms
  }

  predicate Distinct(ms: seq<Msg>) {
    forall i, j :: 0 <= i < j < |ms| ==> ms[i] != ms[j]
  }

  /** Allocated messages are those of the caller and those queued, without overlap, and
      the counter counts them. */
  ghost predicate Balanced(alloc: Alloc, held: set<Msg>, queue: seq<Msg>) {
    && alloc.live == held + Members(queue)
    && held !! Members(queue)
    && Distinct(queue)
    && alloc.count == Wrap(|held| + |queue|)
  }

  ghost predicate QueueInv(s: S.Session) {
    s.hooks == HOOKS && Pumps.Inv(s.outb.pump) && Tight(s.outb.pump)
  }

  ghost predicate Inv(c: Client) {
    Balanced(c.session.alloc, c.held, c.session.outb.pump.queue) && QueueInv(c.session)
  }

  // ---------- what keeps the books balanced

  lemma NewBalances(alloc: Alloc, held: set<Msg>, queue: seq<Msg>, m: Msg)
    requires Balanced(alloc, held, queue) && m !in alloc.live
    ensures Balanced(alloc.Allocate(m), held + {m}, queue)
  {
    WrapAgain(|held| + |queue|, 1);
  }

  lemma ReleaseBalances(alloc: Alloc, held: set<Msg>, queue: seq<Msg>, m: Msg)
    requires Balanced(alloc, held, queue) && m in held
    ensures Balanced(alloc.Free(m), held - {m}, queue)
  {
    WrapAgain(|held| + |queue|, -1);
  }

  lemma MembersAppend(queue: seq<Msg>, m: Msg)
    requires Distinct(queue) && m !in Members(queue)
    ensures Members(queue + [m]) == Members(queue) + {m} && Distinct(queue + [m])
  {
    assert forall i :: 0 <= i < |queue| ==> queue[i] in Members(queue);
    assert (queue + [m])[|queue|] == m;
  }

  lemma SetMove<T>(a: set<T>, b: set<T>, x: T)
    requires a !! b && x in a
    ensures a + b == (a - {x}) + (b + {x}) && a - {x} !! b + {x}
    ensures |a - {x}| == |a| - 1
  {
  }

  lemma SendBalances(alloc: Alloc, held: set<Msg>, queue: seq<Msg>, m: Msg)
    requires Balanced(alloc, held, queue) && m in held
    ensures Balanced(alloc, held - {m}, queue + [m])
  {
    MembersAppend(queue, m);
    SetMove(held, Members(queue), m);
  }

  lemma MembersTail(queue: seq<Msg>)
    requires Distinct(queue) && |queue| > 0
    ensures queue[0] in Members(queue) && Members(queue[1..]) == Members(queue) - {queue[0]}
    ensures Distinct(queue[1..])
  {
    assert forall i :: 0 < i < |queue| ==> queue[i] == queue[1..][i - 1];
  }

  lemma SetMinus<T>(a: set<T>, b: set<T>, x: T)
    requires a !! b && x in b
    ensures a + b - {x} == a + (b - {x}) && a !! b - {x}
  {
  }

  lemma FreeHeadBalances(alloc: Alloc, held: set<Msg>, queue: seq<Msg>)
    requires Balanced(alloc, held, queue) && |queue| > 0
    ensures Balanced(alloc.Free(queue[0]), held, queue[1..])
  {
    MembersTail(queue);
    SetMinus(held, Members(queue), queue[0]);
    WrapAgain(|held| + |queue|, -1);
  }

  lemma {:induction false} FreeFrontBalances(alloc: Alloc, held: set<Msg>, front: seq<Msg>, rest: seq<Msg>)
    requires Balanced(alloc, held, front + rest)
    ensures Balanced(alloc.FreeAll(front), held, rest)
    decreases |front|
  {
    if |front| == 0 {
      assert front + rest == rest;
    } else {
      FreeHeadBalances(alloc, held, front + rest);
      assert (front + rest)[1..] == front[1..] + rest;
      FreeFrontBalances(alloc.Free(front[0]), held, front[1..], rest);
    }
  }

  lemma FrontIsLive(alloc: Alloc, held: set<Msg>, queue: seq<Msg>, k: nat)
    requires Balanced(alloc, held, queue) && k <= |queue|
    ensures Members(queue[..k]) <= alloc.live && Distinct(queue[..k])
  {
    assert forall i :: 0 <= i < k ==> queue[i] in Members(queue);
  }

  /** Receiving allocates one message and deallocates whatever came back. */
  lemma ReceiveBalancesExactly(alloc: Alloc, held: set<Msg>, queue: seq<Msg>, m: Msg, back: Msg)
    requires Balanced(alloc, held, queue) && m !in alloc.live
    ensures Balanced(alloc.Allocate(m).Free(back), held + {m} - {back}, queue) <==> back in held + {m}
  {
    NewBalances(alloc, held, queue, m);
    if back in held + {m} {
      ReleaseBalances(alloc.Allocate(m), held + {m}, queue, back);
    } else if back in queue {
      assert back in Members(queue) && back !in alloc.Allocate(m).Free(back).live;
    } else {
      assert held + {m} - {back} == held + {m} && |held + {m}| == |held| + 1;
      WrapAgain(|held| + |queue| + 1, -1);
      WrapSuccessor(|held| + |queue|);
    }
  }

  lemma WrapSuccessor(n: nat)
    ensures Wrap(n + 1) != Wrap(n)
  {
    WrapAgain(n, 1);
  }

  // ---------- steps

  /** What a move other than a submission or a drain gives back is the front of the queue. */
  lemma MoveFreesFront(p: Pump<Msg>, m: Move<Msg>) returns (k: nat)
    requires Pumps.Inv(p) && Tight(p) && Pumps.Enabled(p, m) && !m.Submit? && !m.Drain?
    ensures k <= |p.queue| && |p.done| <= |Step(p, m).done|
    ensures Step(p, m).queue == p.queue[k..] && Step(p, m).done[|p.done|..] == p.queue[..k]
    ensures Pumps.Inv(Step(p, m)) && Tight(Step(p, m))
  {
    StepKeepsInv(p, m);
    var q := Step(p, m);
    k := |p.queue| - |q.queue|;
    assert p.queue == p.queue[..k] + p.queue[k..];
    assert q.queue == p.queue[k..];
    assert p.done + p.queue == q.done + q.queue;
    assert q.done == (p.done + p.queue)[..|q.done|];
  }

  /** What the session gives back to the allocator in a step. */
  function Freed(s: S.Session, step: S.Action): seq<Msg>
    requires S.Enabled(s, step)
  {
    S.Disposed(s.outb, S.MoveOf(s.hooks, s.open, s.ctl, step))
  }

  lemma StepFreesFront(s: S.Session, step: S.Action) returns (k: nat)
    requires QueueInv(s) && S.Enabled(s, step) && !step.Write? && !step.ReadOk?
    ensures var t := S.Next(s, step);
            && k <= |s.outb.pump.queue|
            && t.outb.pump.queue == s.outb.pump.queue[k..]
            && Freed(s, step) == s.outb.pump.queue[..k]
            && t.alloc == s.alloc.FreeAll(s.outb.pump.queue[..k])
            && QueueInv(t)
  {
    var move := S.MoveOf(s.hooks, s.open, s.ctl, step);
    if move.None? {
      k := 0;
    } else {
      k := MoveFreesFront(s.outb.pump, move.value);
    }
  }

  lemma FreeSomeBalances(alloc: Alloc, held: set<Msg>, queue: seq<Msg>, k: nat)
    requires Balanced(alloc, held, queue) && k <= |queue|
    ensures Balanced(alloc.FreeAll(queue[..k]), held, queue[k..])
  {
    assert queue == queue[..k] + queue[k..];
    FreeFrontBalances(alloc, held, queue[..k], queue[k..]);
  }

  lemma RunStep(c: Client, step: S.Action)
    requires Inv(c) && Enabled(c, Run(step))
    ensures Inv(Next(c, Run(step)))
    ensures Members(Freed(c.session, step)) <= c.session.alloc.live && Distinct(Freed(c.session, step))
  {
    var k := StepFreesFront(c.session, step);
    FreeSomeBalances(c.session.alloc, c.held, c.session.outb.pump.queue, k);
    FrontIsLive(c.session.alloc, c.held, c.session.outb.pump.queue, k);
  }

  lemma SendStep(c: Client, m: Msg, onIo: bool)
    requires Inv(c) && Enabled(c, Send(m, onIo))
    ensures Inv(Next(c, Send(m, onIo)))
  {
    var s := c.session;
    StepKeepsInv(s.outb.pump, Submit(m, onIo));
    SubmitKeepsTight(s.outb.pump, m, onIo);
    SendBalances(s.alloc, c.held, s.outb.pump.queue, m);
    WriteEffect(s, m, onIo);
  }

  lemma SubmitKeepsTight(p: Pump<Msg>, m: Msg, onIo: bool)
    ensures Step(p, Submit(m, onIo)).queue == p.queue + [m] && Tight(Step(p, Submit(m, onIo)))
  {
  }

  lemma WriteEffect(s: S.Session, m: Msg, onIo: bool)
    requires s.hooks == HOOKS
    ensures var t := S.Next(s, S.Write(m, onIo));
            t.hooks == HOOKS && t.outb.pump == Step(s.outb.pump, Submit(m, onIo)) && t.alloc == s.alloc
  {
    var p := Step(s.outb.pump, Submit(m, onIo));
    assert p.done == s.outb.pump.done && p.done[|p.done|..] == [];
  }

  /** The exact condition on handle_message: the books balance after a message was
      received if and only if what it gave back was the caller's to give. */
  lemma HandleMessageExact(c: Client, a: Action)
    requires Inv(c) && a.Receive? && Enabled(c, a)
    ensures Inv(Next(c, a)) <==> GivesBackOwned(c, a)
  {
    var s := c.session;
    var t := S.Next(s, S.ReadOk(a.at, a.chunks, a.text, a.addr));
    assert t.hooks == HOOKS && t.outb == s.outb && t.alloc == s.alloc.Allocate(a.addr);
    ReceiveBalancesExactly(s.alloc, c.held, s.outb.pump.queue, a.addr, a.back);
  }

  lemma CallerStep(c: Client, a: Action)
    requires Inv(c) && Enabled(c, a) && (a.NewMsg? || a.Release?)
    ensures Inv(Next(c, a))
  {
    if a.NewMsg? {
      NewBalances(c.session.alloc, c.held, c.session.outb.pump.queue, a.addr);
    } else {
      ReleaseBalances(c.session.alloc, c.held, c.session.outb.pump.queue, a.msg);
    }
  }

  // ---------- whole runs

  lemma {:induction false} RunKeepsInv(c: Client, acts: seq<Action>)
    requires Inv(c) && Legal(c, acts) && WellBehaved(c, acts)
    ensures Inv(Exec(c, acts))
    decreases |acts|
  {
    if |acts| > 0 {
      match acts[0] {
        case Send(m, onIo) => SendStep(c, m, onIo);
        case Receive(_, _, _, _, _) => HandleMessageExact(c, acts[0]);
        case Run(step) => RunStep(c, step);
        case _ => CallerStep(c, acts[0]);
      }
      RunKeepsInv(Next(c, acts[0]), acts[1..]);
    }
  }

  lemma InitInv()
    ensures Inv(INIT)
  {
  }

  /** In every run, the allocation count is the number of messages the caller holds plus
      those queued, and once the caller holds nothing and no write is pending the count
      is zero, as the allocator asserts on its destruction. */
  lemma MessagesAreConserved(acts: seq<Action>)
    requires Legal(INIT, acts) && WellBehaved(INIT, acts)
    ensures var c := Exec(INIT, acts);
            && Balanced(c.session.alloc, c.held, c.session.outb.pump.queue)
            && (c.held == {} && |c.session.outb.pump.ops| == 0 ==> c.session.alloc == NO_MESSAGES)
  {
    InitInv();
    RunKeepsInv(INIT, acts);
  }

  lemma WritesAreLive(alloc: Alloc, held: set<Msg>, p: Pump<Msg>, i: nat)
    requires Balanced(alloc, held, p.queue) && SingleFlight(p) && Tight(p) && i < |p.ops|
    ensures p.ops[i].item in alloc.live && p.ops[i].item !in held
  {
    assert p.queue[0] in Members(p.queue);
  }

  /** A message is not given back while it is written: in every run, a message that is
      being written is allocated and not in the caller's hands. */
  lemma WritesUseLiveMessages(acts: seq<Action>, i: nat)
    requires Legal(INIT, acts) && WellBehaved(INIT, acts)
    requires i < |Exec(INIT, acts).session.outb.pump.ops|
    ensures var c := Exec(INIT, acts);
            var m := c.session.outb.pump.ops[i].item;
            m in c.session.alloc.live && m !in c.held
  {
    InitInv();
    RunKeepsInv(INIT, acts);
    var c := Exec(INIT, acts);
    WritesAreLive(c.session.alloc, c.held, c.session.outb.pump, i);
  }

  /** The count never underflows: in every run, the messages the session deallocates in
      its next step are allocated, and no message is among them twice. */
  lemma OnlyLiveMessagesAreFreed(acts: seq<Action>, step: S.Action)
    requires Legal(INIT, acts) && WellBehaved(INIT, acts) && Enabled(Exec(INIT, acts), Run(step))
    ensures var s := Exec(INIT, acts).session;
            Members(Freed(s, step)) <= s.alloc.live && Distinct(Freed(s, step))
  {
    InitInv();
    RunKeepsInv(INIT, acts);
    RunStep(Exec(INIT, acts), step);
  }
}

/** The client class. */
module Clients {
  import opened Allocation
  import opened Buffers
  import opened ClientModel
  import opened Sessions
  import opened Wrappers
  import M = ClientModel
  import S = SessionModel

  class WebsocketClient {
    const factory: Allocator
    const session: WebsocketSession
    ghost var held: set<Msg>

    ghost predicate Valid() {
      session.Valid() && session.allocator == factory && session.hooks == HOOKS && this !in session.stats.Repr()
    }

    ghost function View(): Client
      requires Valid()
      reads this, session, session.stats.Repr(), factory
    {
      Client(session.View(), held)
    }

    constructor ()
      ensures Valid() && View() == M.INIT
    {
      var messages := new Allocator();
      factory := messages;
      session := new WebsocketSession(HOOKS, messages);
      held := {};
    }

    method NewMessage(addr: Msg) returns (msg: Msg)
      requires Valid() && addr !in factory.live
      modifies this, factory
      ensures msg == addr && View() == Next(old(View()), NewMsg(addr))
    {
      msg := factory.Allocate(addr);
      held := held + {msg};
    }

    method SendMessage(msg: Msg, onIo: bool)
      requires Valid() && msg in held
      modifies this, session
      ensures View() == Next(old(View()), Send(msg, onIo))
    {
      session.Write(msg, onIo);
      held := held - {msg};
    }

    /** The read callback: `back` is what the virtual handle_message returned. */
    method HandleMessageWrapper(msg: Option<Msg>, back: Msg)
      modifies factory
      ensures factory.View() == if msg.Some? then old(factory.View()).Free(back) else old(factory.View())
    {
      if msg.Some? {
        factory.Deallocate(back);
      }
    }

    /** The critical section of the read handler with its callback. */
    method ReceiveMessage(chunks: Chunks, text: bool, addr: Msg, back: Msg, ghost at: nat)
      requires Valid() && S.Has(session.ControlView(), at, S.Reading) && addr !in factory.live
      modifies this, session, session.stats.Repr(), factory
      ensures View() == Next(old(View()), Receive(at, chunks, text, addr, back))
    {
      session.ReceiveMessage(chunks, text, addr, at);
      HandleMessageWrapper(Some(addr), back);
      held := held + {addr} - {back};
    }
  }
}
