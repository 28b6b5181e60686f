/** The accept loop: one shared socket, and a lock taken in one handler and released in
    the next. */
module ListenerModel {
  import opened Seqs
  import opened Wrappers

  type Connection = nat

  datatype Status = OPENING | OPEN | CLOSING | CLOSED

  datatype Code = Ok | Error(value: int)

  /** An accept in flight on the acceptor of that number, a completed accept whose handler
      has not run, or the posted hand-off of an accept's outcome. */
  datatype Pending = Accepting(acceptor: nat) | Completed(ec: Code) | Posted(ec: Code)

  /** One call of the new connection handler; the socket moved to it may be empty. */
  datatype Call = Call(ec: Code, socket: Option<Connection>)

  datatype Listener = Listener(
    status: Status,
    statusLog: seq<Status>,
    acceptor: Option<bool>,        // absent, or whether it listens
    starts: nat,                   // calls of start_listen, each with its own acceptor
    socket: Option<Connection>,
    locked: bool,
    pending: seq<Pending>,
    loops: nat,                    // calls of start_listen that succeeded
    accepted: seq<Connection>,
    calls: seq<Call>)

  const INIT := Listener(CLOSED, [], None, 0, None, false, [], 0, [], [])

  datatype Action =
    | Start(open: Code, option: Code, bind: Code, listen: Code)
    | Stop
    | Arrive(at: nat, connection: Connection)
    | Fail(at: nat, value: int)
    | Handle(at: nat)
    | HandOff(at: nat)

  function FirstError(codes: seq<Code>): Code {
    if |codes| == 0 then Ok
    else if codes[0] != Ok then codes[0]
    else FirstError(codes[1..])
  }

  lemma FirstOfFour(a: Code, b: Code, c: Code, d: Code)
    ensures FirstError([a, b, c, d]) == if a != Ok then a else if b != Ok then b else if c != Ok then c else d
  {
    assert [a, b, c, d][1..] == [b, c, d] && [b, c, d][1..] == [c, d] && [c, d][1..] == [d];
    assert FirstError([d]) == d;
    assert FirstError([c, d]) == if c != Ok then c else d;
  }

  /** A start_listen whose four calls on the acceptor all succeed. */
  predicate Opens(a: Action) {
    a.Start? && FirstError([a.open, a.option, a.bind, a.listen]) == Ok
  }

  /** Connections arrive at the newest acceptor only: start_listen destroys the one before.
      accept_handler can run only when its lock is free. */
  predicate Enabled(l: Listener, a: Action) {
    match a
    case Start(_, _, _, _) => true
    case Stop => l.acceptor.Some?
    case Arrive(i, _) =>
      i < |l.pending| && l.pending[i] == Accepting(l.starts) && l.acceptor == Some(true) && l.socket == None
    case Fail(i, _) => i < |l.pending| && l.pending[i].Accepting?
    case Handle(i) => i < |l.pending| && l.pending[i].Completed? && !l.locked
    case HandOff(i) => i < |l.pending| && l.pending[i].Posted?
  }

  function Next(l: Listener, a: Action): Listener
    requires Enabled(l, a)
  {
    match a
    case Start(_, _, _, _) =>
      var m := l.(starts := l.starts + 1, acceptor := Some(Opens(a)));
      if Opens(a) then
        m.(status := OPEN, statusLog := l.statusLog + [OPENING, OPEN],
           pending := l.pending + [Accepting(m.starts)], loops := l.loops + 1)
      else m.(status := CLOSED, statusLog := l.statusLog + [OPENING, CLOSED])
    case Stop =>
      l.(status := CLOSED, statusLog := l.statusLog + [CLOSING, CLOSED], acceptor := Some(false))
    case Arrive(i, c) =>
      l.(socket := Some(c), accepted := l.accepted + [c], pending := l.pending[i := Completed(Ok)])
    case Fail(i, v) => l.(pending := l.pending[i := Completed(Error(v))])
    case Handle(i) => l.(locked := true, pending := l.pending[i := Posted(l.pending[i].ec)])
    case HandOff(i) =>
      var ec := l.pending[i].ec;
      l.(calls := l.calls + [Call(ec, l.socket)], socket := None, locked := false,
         pending := Remove(l.pending, i) + if ec == Ok then [Accepting(l.starts)] else [])
  }

  predicate Legal(l: Listener, acts: seq<Action>)
    decreases |acts|
  {
    |acts| == 0 || (Enabled(l, acts[0]) && Legal(Next(l, acts[0]), acts[1..]))
  }

  function Exec(l: Listener, acts: seq<Action>): Listener
    requires Legal(l, acts)
    decreases |acts|
  {
    if |acts| == 0 then l else Exec(Next(l, acts[0]), acts[1..])
  }

  /** A loop is started only when the one before has ended. */
  predicate InTurn(l: Listener, a: Action) {
    Opens(a) ==> |l.pending| == 0
  }

  predicate Orderly(l: Listener, acts: seq<Action>)
    requires Legal(l, acts)
    decreases |acts|
  {
    |acts| == 0 || (InTurn(l, acts[0]) && Orderly(Next(l, acts[0]), acts[1..]))
  }

  // ---------- every loop ends with one error call

  function Errors(calls: seq<Call>): nat {
    if |calls| == 0 then 0
    else Errors(calls[..|calls| - 1]) + if calls[|calls| - 1].ec == Ok then 0 else 1
  }

  lemma ErrorsGrow(calls: seq<Call>, call: Call)
    ensures Errors(calls + [call]) == Errors(calls) + if call.ec == Ok then 0 else 1
  {
    assert (calls + [call])[..|calls|] == calls;
  }

  /** Over every run, however often it is started, the loops still going are those started
      less the error calls made. */
  lemma {:induction false} LoopsAreConserved(l: Listener, acts: seq<Action>)
    requires |l.pending| + Errors(l.calls) == l.loops && Legal(l, acts)
    ensures |Exec(l, acts).pending| + Errors(Exec(l, acts).calls) == Exec(l, acts).loops
    decreases |acts|
  {
    if |acts| > 0 {
      if acts[0].HandOff? {
        ErrorsGrow(l.calls, Call(l.pending[acts[0].at].ec, l.socket));
      }
      LoopsAreConserved(Next(l, acts[0]), acts[1..]);
    }
  }

  // ---------- the hand-off invariant

  /** The connections the handler was given, in order. */
  function Given(calls: seq<Call>): seq<Connection> {
    if |calls| == 0 then [] else Given(calls[..|calls| - 1]) + Held(calls[|calls| - 1].socket)
  }

  function Held(socket: Option<Connection>): seq<Connection> {
    match socket case None => [] case Some(c) => [c]
  }

  /** Successes carry a connection and errors none. */
  ghost predicate CallsFit(calls: seq<Call>) {
    forall i :: 0 <= i < |calls| ==> (calls[i].ec == Ok <==> calls[i].socket.Some?)
  }

  predicate EndedByError(calls: seq<Call>) {
    |calls| > 0 && calls[|calls| - 1].ec != Ok
  }

  ghost predicate Inv(l: Listener) {
    && |l.pending| <= 1
    && (|l.pending| == 0 ==> l.loops == 0 || EndedByError(l.calls))
    && (l.locked <==> |l.pending| == 1 && l.pending[0].Posted?)
    && (l.socket.Some? <==> |l.pending| == 1 && !l.pending[0].Accepting? && l.pending[0].ec == Ok)
    && l.accepted == Given(l.calls) + Held(l.socket)
    && CallsFit(l.calls)
  }

  lemma GivenGrows(calls: seq<Call>, call: Call)
    ensures Given(calls + [call]) == Given(calls) + Held(call.socket)
    ensures CallsFit(calls) && (call.ec == Ok <==> call.socket.Some?) ==> CallsFit(calls + [call])
  {
    assert (calls + [call])[..|calls|] == calls;
  }

  lemma HandOffKeepsInv(l: Listener, i: nat)
    requires Inv(l) && Enabled(l, HandOff(i))
    ensures Inv(Next(l, HandOff(i)))
  {
    GivenGrows(l.calls, Call(l.pending[i].ec, l.socket));
    assert Remove(l.pending, i) == [];
  }

  lemma StepKeepsInv(l: Listener, a: Action)
    requires Inv(l) && Enabled(l, a) && InTurn(l, a)
    ensures Inv(Next(l, a))
  {
    if a.HandOff? {
      HandOffKeepsInv(l, a.at);
    }
  }

  lemma {:induction false} RunKeepsInv(l: Listener, acts: seq<Action>)
    requires Inv(l) && Legal(l, acts) && Orderly(l, acts)
    ensures Inv(Exec(l, acts))
    decreases |acts|
  {
    if |acts| > 0 {
      StepKeepsInv(l, acts[0]);
      RunKeepsInv(Next(l, acts[0]), acts[1..]);
    }
  }

  /** In every run that starts one loop at a time, whenever stop_listen is called: until an
      error call ended the loop exactly one accept, waiting completion or hand-off is
      pending; the lock is held exactly while a hand-off is posted and never makes a
      handler wait; every accepted connection reaches the handler once and in order. */
  lemma HandOffIsExact(acts: seq<Action>)
    requires Legal(INIT, acts) && Orderly(INIT, acts)
    ensures var l := Exec(INIT, acts);
            && |l.pending| + Errors(l.calls) == l.loops && |l.pending| <= 1
            && (l.locked <==> |l.pending| == 1 && l.pending[0].Posted?)
            && l.accepted == Given(l.calls) + Held(l.socket)
            && CallsFit(l.calls)
            && (|l.pending| == 1 && l.pending[0].Completed? ==> Enabled(l, Handle(0)))
            && (|l.pending| == 1 && l.pending[0].Accepting? ==> l.socket == None)
  {
    RunKeepsInv(INIT, acts);
    LoopsAreConserved(INIT, acts);
  }

  // ---------- the status, and what the handler is told

  function StatusSet(a: Action): seq<Status> {
    match a
    case Start(open, option, bind, listen) =>
      [OPENING, if open == Ok && option == Ok && bind == Ok && listen == Ok then OPEN else CLOSED]
    case Stop => [CLOSING, CLOSED]
    case _ => []
  }

  function Statuses(acts: seq<Action>): seq<Status> {
    if |acts| == 0 then [] else StatusSet(acts[0]) + Statuses(acts[1..])
  }

  lemma StatusStep(l: Listener, a: Action)
    requires Enabled(l, a)
    ensures Next(l, a).statusLog == l.statusLog + StatusSet(a)
    ensures Next(l, a).status == if |StatusSet(a)| == 0 then l.status else StatusSet(a)[1]
  {
    if a.Start? {
      FirstOfFour(a.open, a.option, a.bind, a.listen);
    }
  }

  lemma {:induction false} StatusRun(l: Listener, acts: seq<Action>)
    requires Legal(l, acts) && (|l.statusLog| > 0 ==> l.status == l.statusLog[|l.statusLog| - 1])
    ensures var m := Exec(l, acts);
            && m.statusLog == l.statusLog + Statuses(acts)
            && (|m.statusLog| > 0 ==> m.status == m.statusLog[|m.statusLog| - 1])
            && (|Statuses(acts)| == 0 ==> m.status == l.status)
    decreases |acts|
  {
    if |acts| > 0 {
      StatusStep(l, acts[0]);
      StatusRun(Next(l, acts[0]), acts[1..]);
      ConcatAssociates(l.statusLog, StatusSet(acts[0]), Statuses(acts[1..]));
    }
  }

  /** In every run the status is CLOSED at first and then the one set last: OPEN exactly by a
      start_listen whose four calls all succeeded. */
  lemma StatusHistory(acts: seq<Action>)
    requires Legal(INIT, acts)
    ensures var l := Exec(INIT, acts);
            var log := [CLOSED] + Statuses(acts);
            l.statusLog == Statuses(acts) && l.status == log[|log| - 1]
  {
    StatusRun(INIT, acts);
  }

  /** Whether the newest acceptor listens. */
  function Listening(before: Option<bool>, acts: seq<Action>): Option<bool>
    decreases |acts|
  {
    if |acts| == 0 then before
    else match acts[0]
      case Start(open, option, bind, listen) =>
        Listening(Some(open == Ok && option == Ok && bind == Ok && listen == Ok), acts[1..])
      case Stop => Listening(Some(false), acts[1..])
      case _ => Listening(before, acts[1..])
  }

  /** Connections can arrive exactly after a start_listen whose four calls all succeeded, until
      stop_listen or another start_listen. */
  lemma {:induction false} AcceptorHistory(l: Listener, acts: seq<Action>)
    requires Legal(l, acts)
    ensures Exec(l, acts).acceptor == Listening(l.acceptor, acts)
    decreases |acts|
  {
    if |acts| > 0 {
      if acts[0].Start? {
        FirstOfFour(acts[0].open, acts[0].option, acts[0].bind, acts[0].listen);
      }
      AcceptorHistory(Next(l, acts[0]), acts[1..]);
    }
  }

  /** What the accepts of a run resulted in. */
  function Result(a: Action): seq<Call> {
    match a
    case Arrive(_, c) => [Call(Ok, Some(c))]
    case Fail(_, v) => [Call(Error(v), None)]
    case _ => []
  }

  function Results(acts: seq<Action>): seq<Call> {
    if |acts| == 0 then [] else Result(acts[0]) + Results(acts[1..])
  }

  /** The result on its way to the handler. */
  function Owed(l: Listener): seq<Call> {
    if |l.pending| == 1 && !l.pending[0].Accepting? then [Call(l.pending[0].ec, l.socket)] else []
  }

  lemma CallStep(l: Listener, a: Action)
    requires Inv(l) && Enabled(l, a) && InTurn(l, a)
    ensures Next(l, a).calls + Owed(Next(l, a)) == l.calls + Owed(l) + Result(a)
  {
    if a.HandOff? {
      assert Remove(l.pending, a.at) == [];
    }
  }

  lemma {:induction false} CallRun(l: Listener, acts: seq<Action>)
    requires Inv(l) && Legal(l, acts) && Orderly(l, acts)
    ensures Exec(l, acts).calls + Owed(Exec(l, acts)) == l.calls + Owed(l) + Results(acts)
    decreases |acts|
  {
    if |acts| > 0 {
      CallStep(l, acts[0]);
      StepKeepsInv(l, acts[0]);
      CallRun(Next(l, acts[0]), acts[1..]);
      ConcatAssociates(l.calls + Owed(l), Result(acts[0]), Results(acts[1..]));
    }
  }

  /** The handler is called for every completed accept, in order: with success and that very
      connection, or with that very error and no connection; one call may be on its way. */
  lemma CallHistory(acts: seq<Action>)
    requires Legal(INIT, acts) && Orderly(INIT, acts)
    ensures Exec(INIT, acts).calls + Owed(Exec(INIT, acts)) == Results(acts)
  {
    CallRun(INIT, acts);
  }

  // ---------- the exact condition on starting again

  /** Whatever follows, if loops are started one at a time, connections reach the handler
      with a success and errors without a connection. */
  ghost predicate StaysFit(l: Listener) {
    forall acts :: Legal(l, acts) && Orderly(l, acts) ==> CallsFit(Exec(l, acts).calls)
  }

  lemma ExecBefore(l: Listener, a: Action, acts: seq<Action>)
    requires Enabled(l, a) && !a.Start? && Legal(Next(l, a), acts)
    ensures Legal(l, [a] + acts) && Exec(l, [a] + acts) == Exec(Next(l, a), acts)
    ensures Orderly(Next(l, a), acts) ==> Orderly(l, [a] + acts)
  {
    assert ([a] + acts)[1..] == acts;
  }

  /** One step further a run is known that breaks the hand-off. */
  lemma BreaksAfter(l: Listener, a: Action)
    requires Enabled(l, a) && !a.Start? && !StaysFit(Next(l, a))
    ensures !StaysFit(l)
  {
    var acts :| Legal(Next(l, a), acts) && Orderly(Next(l, a), acts) && !CallsFit(Exec(Next(l, a), acts).calls);
    ExecBefore(l, a, acts);
    assert Legal(l, [a] + acts);
  }

  lemma BreaksNow(l: Listener)
    requires !CallsFit(l.calls)
    ensures !StaysFit(l)
  {
    assert Legal(l, []) && Exec(l, []) == l;
  }

  /** Two loops share one socket, the second waits for a connection. */
  ghost predicate Overlapping(l: Listener) {
    && |l.pending| == 2 && l.pending[1] == Accepting(l.starts) && l.acceptor == Some(true)
    && (l.locked <==> l.pending[0].Posted?)
    && (l.socket.Some? <==> !l.pending[0].Accepting? && l.pending[0].ec == Ok)
  }

  /** The failed hand-off of the first loop moves away the connection of the second. */
  lemma PostedErrorBreaks(l: Listener, v: int)
    requires Overlapping(l) && l.pending[0] == Posted(Error(v))
    ensures !StaysFit(l)
  {
    var m := Next(l, Arrive(1, 0));
    var n := Next(m, HandOff(0));
    assert n.calls[|l.calls|] == Call(Error(v), Some(0));
    BreaksNow(n);
    BreaksAfter(m, HandOff(0));
    BreaksAfter(l, Arrive(1, 0));
  }

  lemma CompletedErrorBreaks(l: Listener, v: int)
    requires Overlapping(l) && l.pending[0] == Completed(Error(v))
    ensures !StaysFit(l)
  {
    PostedErrorBreaks(Next(l, Handle(0)), v);
    BreaksAfter(l, Handle(0));
  }

  lemma AcceptingBreaks(l: Listener)
    requires Overlapping(l) && l.pending[0].Accepting?
    ensures !StaysFit(l)
  {
    CompletedErrorBreaks(Next(l, Fail(0, 1)), 1);
    BreaksAfter(l, Fail(0, 1));
  }

  lemma PostedOkBreaks(l: Listener)
    requires Overlapping(l) && l.pending[0] == Posted(Ok)
    ensures !StaysFit(l)
  {
    var m := Next(l, HandOff(0));
    assert m.pending == [Accepting(l.starts), Accepting(l.starts)];
    AcceptingBreaks(m);
    BreaksAfter(l, HandOff(0));
  }

  lemma OverlapBreaks(l: Listener)
    requires Overlapping(l)
    ensures !StaysFit(l)
  {
    match l.pending[0]
    case Accepting(_) => AcceptingBreaks(l);
    case Posted(ec) => if ec == Ok { PostedOkBreaks(l); } else { PostedErrorBreaks(l, ec.value); }
    case Completed(ec) =>
      if ec == Ok {
        PostedOkBreaks(Next(l, Handle(0)));
        BreaksAfter(l, Handle(0));
      } else {
        CompletedErrorBreaks(l, ec.value);
      }
  }

  /** The exact condition on starting again: after any orderly run, a start_listen that
      succeeds keeps the hand-off exact if and only if every loop before it has made its
      error call. */
  lemma StartAgainExact(before: seq<Action>, a: Action)
    requires Legal(INIT, before) && Orderly(INIT, before) && Opens(a)
    ensures var l := Exec(INIT, before);
            StaysFit(Next(l, a)) <==> Errors(l.calls) == l.loops
  {
    HandOffIsExact(before);
    RunKeepsInv(INIT, before);
    var l := Exec(INIT, before);
    if |l.pending| == 0 {
      StepKeepsInv(l, a);
      forall acts | Legal(Next(l, a), acts) && Orderly(Next(l, a), acts)
        ensures CallsFit(Exec(Next(l, a), acts).calls)
      {
        RunKeepsInv(Next(l, a), acts);
      }
    } else {
      OverlapBreaks(Next(l, a));
    }
  }

  /** Starting twice in a row: an error can take the second loop's connection away. */
  lemma TwoStartsBreak()
    ensures var a := Start(Ok, Ok, Ok, Ok);
            && Opens(a) && Legal(INIT, [a]) && Orderly(INIT, [a])
            && !StaysFit(Next(Exec(INIT, [a]), a))
  {
    var a := Start(Ok, Ok, Ok, Ok);
    FirstOfFour(Ok, Ok, Ok, Ok);
    assert [a][1..] == [] && Exec(INIT, [a]) == Exec(Next(INIT, a), []);
    OverlapBreaks(Next(Next(INIT, a), a));
  }

  // ---------- stopping ends the loop

  function Rank(l: Listener): nat {
    if |l.pending| == 0 then 0
    else match l.pending[0]
      case Accepting(_) => 3
      case Completed(ec) => if ec == Ok then 5 else 2
      case Posted(ec) => if ec == Ok then 4 else 1
  }

  ghost predicate Stopped(l: Listener) {
    Inv(l) && l.loops > 0 && l.acceptor == Some(false)
  }

  lemma StoppedStep(l: Listener, a: Action)
    requires Stopped(l) && Enabled(l, a) && !a.Start?
    ensures Stopped(Next(l, a))
    ensures if a.Stop? then Rank(Next(l, a)) == Rank(l) else Rank(Next(l, a)) < Rank(l)
  {
    StepKeepsInv(l, a);
  }

  function LoopSteps(acts: seq<Action>): nat {
    if |acts| == 0 then 0 else (if acts[0].Stop? then 0 else 1) + LoopSteps(acts[1..])
  }

  ghost predicate NoStart(acts: seq<Action>) {
    forall i :: 0 <= i < |acts| ==> !acts[i].Start?
  }

  lemma {:induction false} StoppedRun(l: Listener, acts: seq<Action>)
    requires Stopped(l) && Legal(l, acts) && NoStart(acts)
    ensures Stopped(Exec(l, acts)) && LoopSteps(acts) + Rank(Exec(l, acts)) <= Rank(l)
    decreases |acts|
  {
    if |acts| > 0 {
      StoppedStep(l, acts[0]);
      assert NoStart(acts[1..]);
      StoppedRun(Next(l, acts[0]), acts[1..]);
    }
  }

  /** Once stop_listen closed the acceptor of a started listener, and until it is started
      again, the loop takes at most five more steps, can always take the next one, and
      ends with an error call. */
  lemma StopEndsLoop(before: seq<Action>, acts: seq<Action>)
    requires Legal(INIT, before) && Orderly(INIT, before) && NoStart(acts)
    requires var l := Exec(INIT, before);
             l.loops > 0 && Enabled(l, Stop) && Legal(Next(l, Stop), acts)
    ensures LoopSteps(acts) <= 5
    ensures var l := Exec(Next(Exec(INIT, before), Stop), acts);
            if |l.pending| == 0 then EndedByError(l.calls)
            else Enabled(l, Fail(0, 0)) || Enabled(l, Handle(0)) || Enabled(l, HandOff(0))
  {
    RunKeepsInv(INIT, before);
    var l := Exec(INIT, before);
    StepKeepsInv(l, Stop);
    StoppedRun(Next(l, Stop), acts);
  }
}

/** The listener class. */
module Listeners {
  import opened ListenerModel
  import opened Seqs
  import opened Wrappers

  class ConnectionListener {
    var status: Status
    var acceptor: Option<bool>
    var socket: Option<Connection>
    var locked: bool
    ghost var pending: seq<Pending>
    ghost var statusLog: seq<Status>
    ghost var starts: nat
    ghost var loops: nat
    ghost var accepted: seq<Connection>
    ghost var calls: seq<Call>

    ghost function View(): Listener
      reads this
    {
      Listener(status, statusLog, acceptor, starts, socket, locked, pending, loops, accepted, calls)
    }

    constructor ()
      ensures View() == INIT
    {
      status, acceptor, socket, locked := CLOSED, None, None, false;
      pending, statusLog, starts, loops, accepted, calls := [], [], 0, 0, [], [];
    }

    method SetStatus(st: Status)
      modifies this`status, this`statusLog
      ensures status == st && statusLog == old(statusLog) + [st]
    {
      status := st;
      statusLog := statusLog + [st];
    }

    /** The arguments are what the acceptor's four calls report. */
    method StartListen(open: Code, option: Code, bind: Code, listen: Code) returns (ec: Code)
      modifies this
      ensures ec == FirstError([open, option, bind, listen])
      ensures View() == Next(old(View()), Start(open, option, bind, listen))
    {
      FirstOfFour(open, option, bind, listen);
      SetStatus(OPENING);
      acceptor := Some(false);
      starts := starts + 1;
      ec := open;
      if ec != Ok {
        SetStatus(CLOSED);
        return;
      }
      ec := option;
      if ec != Ok {
        SetStatus(CLOSED);
        return;
      }
      ec := bind;
      if ec != Ok {
        SetStatus(CLOSED);
        return;
      }
      ec := listen;
      if ec != Ok {
        SetStatus(CLOSED);
        return;
      }
      acceptor := Some(true);
      SetStatus(OPEN);
      AsyncAccept();
      loops := loops + 1;
    }

    ghost method AsyncAccept()
      modifies this`pending
      ensures pending == old(pending) + [Accepting(starts)]
    {
      pending := pending + [Accepting(starts)];
    }

    method StopListen()
      requires acceptor.Some?
      modifies this
      ensures View() == Next(old(View()), Stop)
    {
      SetStatus(CLOSING);
      acceptor := Some(false);
      SetStatus(CLOSED);
    }

    /** Takes the lock, which must be free, and posts the hand-off. */
    method AcceptHandler(ec: Code, ghost i: nat)
      requires i < |pending| && pending[i] == Completed(ec) && !locked
      modifies this
      ensures View() == Next(old(View()), Handle(i))
    {
      locked := true;
      pending := pending[i := Posted(ec)];
    }

    /** The posted lambda: moves the socket to the handler, releases the lock, and accepts
        again unless there was an error. */
    method RunHandOff(ec: Code, ghost i: nat)
      requires i < |pending| && pending[i] == Posted(ec)
      modifies this
      ensures View() == Next(old(View()), HandOff(i))
    {
      pending := Remove(pending, i);
      calls := calls + [Call(ec, socket)];
      socket := None;
      locked := false;
      if ec == Ok {
        AsyncAccept();
      }
    }
  }
}
