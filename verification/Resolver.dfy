/** The resolver queue: one lookup at a time, in the order of the requests. */
module ResolverModel {
  import opened Pumps
  import opened Seqs
  import opened Urls

  datatype LookupCode = Ok | Error(value: int)

  /** `handler` names the callback of the request. */
  datatype Request = Request(url: Url, handler: nat)

  datatype Lookup = Lookup(host: string, port: string)

  datatype Answer = Answer(ec: LookupCode, endpoints: seq<Endpoint>)

  datatype Callback = Callback(handler: nat, ec: LookupCode, url: Url)

  /** `lookups` are the lookups begun, `answers` the completions handled. */
  datatype Resolver = Resolver(
    pump: Pump<Request>,
    lookups: seq<Lookup>,
    answers: seq<Answer>,
    callbacks: seq<Callback>)

  const INIT := Resolver(Empty(), [], [], [])

  datatype Action =
    | Resolve(request: Request)
    | Complete(op: nat, answer: Answer)

  /** A failed lookup yields no endpoints; the handler pops a non-empty queue. */
  predicate Enabled(r: Resolver, a: Action) {
    match a
    case Resolve(_) => true
    case Complete(i, answer) =>
      i < |r.pump.ops| && |r.pump.queue| > 0 && (answer.ec != Ok ==> answer.endpoints == [])
  }

  /** The port text of the lookup can be computed: std::stoi does not throw. */
  predicate Usable(request: Request) {
    Port(request.url.port).Some?
  }

  /** begin_resolve: an exception leaves no lookup behind. */
  function Begin(r: Resolver, request: Request): Resolver {
    if Usable(request)
    then r.(pump := Launch(r.pump, request, true),
            lookups := r.lookups + [Lookup(request.url.host, Port(request.url.port).value)])
    else r
  }

  function Next(r: Resolver, a: Action): Resolver
    requires Enabled(r, a)
  {
    match a
    case Resolve(request) =>
      var s := r.(pump := r.pump.(queue := r.pump.queue + [request], submitted := r.pump.submitted + [request]));
      if |s.pump.queue| < 2 then Begin(s, s.pump.queue[0]) else s
    case Complete(i, answer) =>
      var item := r.pump.ops[i].item;
      var called := Callback(item.handler, answer.ec, item.url.(endpoints := answer.endpoints));
      var s := r.(answers := r.answers + [answer],
                  pump := r.pump.(ops := Remove(r.pump.ops, i), queue := r.pump.queue[1..],
                                  done := r.pump.done + [item]));
      if |s.pump.queue| > 0 && !Usable(s.pump.queue[0]) then s
      else
        var t := if |s.pump.queue| > 0 then Begin(s, s.pump.queue[0]) else s;
        t.(callbacks := t.callbacks + [called])
  }

  predicate Legal(r: Resolver, acts: seq<Action>)
    decreases |acts|
  {
    |acts| == 0 || (Enabled(r, acts[0]) && Legal(Next(r, acts[0]), acts[1..]))
  }

  function Exec(r: Resolver, acts: seq<Action>): Resolver
    requires Legal(r, acts)
    decreases |acts|
  {
    if |acts| == 0 then r else Exec(Next(r, acts[0]), acts[1..])
  }

  ghost predicate AllUsable(acts: seq<Action>) {
    forall i :: 0 <= i < |acts| && acts[i].Resolve? ==> Usable(acts[i].request)
  }

  // ---------- the invariant

  /** Every request served so far got its own callback, with its own URL and exactly the
      endpoints of its lookup. */
  ghost predicate Served(r: Resolver) {
    && |r.callbacks| == |r.answers| == |r.pump.done| <= |r.pump.submitted|
    && forall i :: 0 <= i < |r.callbacks| ==>
         var q := r.pump.submitted[i];
         r.callbacks[i] == Callback(q.handler, r.answers[i].ec, q.url.(endpoints := r.answers[i].endpoints))
  }

  /** Lookups are begun for the requests in order, each for its own host and port. */
  ghost predicate LookedUp(r: Resolver) {
    && |r.lookups| == |r.pump.done| + |r.pump.ops| <= |r.pump.submitted|
    && forall i :: 0 <= i < |r.lookups| ==>
         && Usable(r.pump.submitted[i])
         && r.lookups[i] == Lookup(r.pump.submitted[i].url.host, Port(r.pump.submitted[i].url.port).value)
  }

  ghost predicate QueueUsable(r: Resolver) {
    forall i :: 0 <= i < |r.pump.queue| ==> Usable(r.pump.queue[i])
  }

  ghost predicate Inv(r: Resolver) {
    && Pumps.Inv(r.pump) && Tight(r.pump)
    && (|r.pump.ops| > 0 ==> r.pump.ops[0].stage == InFlight)
    && Served(r) && LookedUp(r) && QueueUsable(r)
  }

  /** With usable ports every step is a step of the pump that never stops or drains. */
  lemma StepIsPumpStep(r: Resolver, a: Action)
    requires Inv(r) && Enabled(r, a) && (a.Resolve? ==> Usable(a.request))
    ensures var m := match a case Resolve(q) => Submit(q, true) case Complete(i, _) => Finish(i, true);
            Pumps.Enabled(r.pump, m) && Next(r, a).pump == Step(r.pump, m)
    ensures Pumps.Inv(Next(r, a).pump) && Tight(Next(r, a).pump)
  {
    match a
    case Resolve(q) =>
      StepKeepsInv(r.pump, Submit(q, true));
    case Complete(i, _) =>
      StepKeepsInv(r.pump, Finish(i, true));
      if |r.pump.queue| > 1 {
        assert Usable(r.pump.queue[1]);
      }
  }

  lemma ResolveKeepsLogs(r: Resolver, request: Request)
    requires Inv(r) && Usable(request)
    ensures var s := Next(r, Resolve(request));
            && s.callbacks == r.callbacks && s.answers == r.answers && s.pump.done == r.pump.done
            && s.pump.submitted == r.pump.submitted + [request] && s.pump.queue == r.pump.queue + [request]
            && (if |r.pump.queue| > 0 then s.pump.ops == r.pump.ops && s.lookups == r.lookups
                else s.pump.ops == [Op(InFlight, request)]
                     && s.lookups == r.lookups + [Lookup(request.url.host, Port(request.url.port).value)])
  {
  }

  lemma ResolveKeepsInv(r: Resolver, request: Request)
    requires Inv(r) && Usable(request)
    ensures Inv(Next(r, Resolve(request)))
  {
    StepIsPumpStep(r, Resolve(request));
    ResolveKeepsLogs(r, request);
    var s := Next(r, Resolve(request));
    assert Served(s);
    assert QueueUsable(s);
    if |r.pump.queue| == 0 {
      assert |r.lookups| == |r.pump.submitted|;
      assert s.pump.submitted[|r.lookups|] == request;
    }
    assert LookedUp(s);
  }

  lemma CompleteKeepsLogs(r: Resolver, i: nat, answer: Answer)
    requires Inv(r) && Enabled(r, Complete(i, answer))
    ensures var s := Next(r, Complete(i, answer));
            var q := r.pump.submitted[|r.pump.done|];
            && s.answers == r.answers + [answer] && s.pump.done == r.pump.done + [q]
            && s.callbacks == r.callbacks + [Callback(q.handler, answer.ec, q.url.(endpoints := answer.endpoints))]
            && s.pump.submitted == r.pump.submitted && s.pump.queue == r.pump.queue[1..]
            && (if |r.pump.queue| == 1 then s.pump.ops == [] && s.lookups == r.lookups
                else var n := r.pump.submitted[|r.pump.done| + 1];
                  && Usable(n) && s.pump.ops == [Op(InFlight, n)]
                  && s.lookups == r.lookups + [Lookup(n.url.host, Port(n.url.port).value)])
  {
    var p := r.pump;
    assert i == 0 && Remove(p.ops, 0) == [] && p.ops[0].item == p.queue[0] == p.submitted[|p.done|];
    if |p.queue| > 1 {
      assert Usable(p.queue[1]) && p.queue[1] == p.submitted[|p.done| + 1];
    }
  }

  lemma CompleteServes(r: Resolver, i: nat, answer: Answer)
    requires Inv(r) && Enabled(r, Complete(i, answer))
    ensures Served(Next(r, Complete(i, answer)))
  {
    CompleteKeepsLogs(r, i, answer);
  }

  lemma CompleteLooksUp(r: Resolver, i: nat, answer: Answer)
    requires Inv(r) && Enabled(r, Complete(i, answer))
    ensures LookedUp(Next(r, Complete(i, answer))) && QueueUsable(Next(r, Complete(i, answer)))
  {
    CompleteKeepsLogs(r, i, answer);
    if |r.pump.queue| > 1 {
      assert r.pump.submitted[|r.lookups|] == r.pump.submitted[|r.pump.done| + 1];
    }
  }

  lemma CompleteKeepsInv(r: Resolver, i: nat, answer: Answer)
    requires Inv(r) && Enabled(r, Complete(i, answer))
    ensures Inv(Next(r, Complete(i, answer)))
    ensures |Next(r, Complete(i, answer)).callbacks| == |r.callbacks| + 1
  {
    StepIsPumpStep(r, Complete(i, answer));
    CompleteKeepsLogs(r, i, answer);
    CompleteServes(r, i, answer);
    CompleteLooksUp(r, i, answer);
  }

  lemma {:induction false} RunKeepsInv(r: Resolver, acts: seq<Action>)
    requires Inv(r) && Legal(r, acts) && AllUsable(acts)
    ensures Inv(Exec(r, acts))
    decreases |acts|
  {
    if |acts| > 0 {
      match acts[0] {
        case Resolve(q) => ResolveKeepsInv(r, q);
        case Complete(i, answer) => CompleteKeepsInv(r, i, answer);
      }
      assert AllUsable(acts[1..]);
      RunKeepsInv(Next(r, acts[0]), acts[1..]);
    }
  }

  lemma InitInv()
    ensures Inv(INIT)
  {
  }

  /** In every run with usable ports: one lookup is outstanding, for the front request,
      exactly while requests wait; callbacks are made for a prefix of the requests, one
      each and in order, each with its own host, port and path and exactly the endpoints
      its lookup returned, and none if the lookup failed; the handler never pops an
      empty queue. */
  lemma ResolverServesInOrder(acts: seq<Action>)
    requires Legal(INIT, acts) && AllUsable(acts)
    ensures var r := Exec(INIT, acts);
            && r.pump.submitted == r.pump.done + r.pump.queue
            && |r.pump.ops| == (if |r.pump.queue| > 0 then 1 else 0)
            && (|r.pump.queue| > 0 ==> r.pump.ops[0].item == r.pump.queue[0])
            && Served(r) && LookedUp(r)
  {
    InitInv();
    RunKeepsInv(INIT, acts);
  }

  function Requests(acts: seq<Action>): seq<Request> {
    if |acts| == 0 then []
    else (if acts[0].Resolve? then [acts[0].request] else []) + Requests(acts[1..])
  }

  function Answers(acts: seq<Action>): seq<Answer> {
    if |acts| == 0 then []
    else (if acts[0].Complete? then [acts[0].answer] else []) + Answers(acts[1..])
  }

  lemma LogsStep(r: Resolver, a: Action)
    requires Enabled(r, a)
    ensures Next(r, a).pump.submitted == r.pump.submitted + (if a.Resolve? then [a.request] else [])
    ensures Next(r, a).answers == r.answers + (if a.Complete? then [a.answer] else [])
  {
  }

  lemma {:induction false} LogsRun(r: Resolver, acts: seq<Action>)
    requires Legal(r, acts)
    ensures Exec(r, acts).pump.submitted == r.pump.submitted + Requests(acts)
    ensures Exec(r, acts).answers == r.answers + Answers(acts)
    decreases |acts|
  {
    if |acts| > 0 {
      var a := acts[0];
      LogsStep(r, a);
      LogsRun(Next(r, a), acts[1..]);
      ConcatAssociates(r.pump.submitted, if a.Resolve? then [a.request] else [], Requests(acts[1..]));
      ConcatAssociates(r.answers, if a.Complete? then [a.answer] else [], Answers(acts[1..]));
    }
  }

  /** The i-th callback is of the i-th request: its own handler is called with the error code
      of the i-th lookup, and its own URL with the endpoints of that lookup. */
  lemma CallbackHistory(acts: seq<Action>, i: nat)
    requires Legal(INIT, acts) && AllUsable(acts) && i < |Exec(INIT, acts).callbacks|
    ensures |Exec(INIT, acts).callbacks| == |Answers(acts)| <= |Requests(acts)|
    ensures var q := Requests(acts)[i];
            var answer := Answers(acts)[i];
            Exec(INIT, acts).callbacks[i]
            == Callback(q.handler, answer.ec, Url(q.url.host, q.url.port, q.url.path, answer.endpoints))
  {
    ResolverServesInOrder(acts);
    LogsRun(INIT, acts);
  }

  /** What a callback gets can be connected to exactly if the request's URL was valid and
      its own lookup found an endpoint: the error code plays no part. */
  lemma CallbackConnectableExact(acts: seq<Action>, i: nat)
    requires Legal(INIT, acts) && AllUsable(acts) && i < |Exec(INIT, acts).callbacks|
    ensures var r := Exec(INIT, acts);
            && i < |r.answers| && i < |r.pump.submitted|
            && (Connectable(r.callbacks[i].url)
                <==> Valid(r.pump.submitted[i].url) && |r.answers[i].endpoints| > 0)
  {
    ResolverServesInOrder(acts);
  }

  // ---------- the exact condition on the port text

  /** Requests wait, and nothing is on its way that could ever serve them. */
  predicate Blocked(r: Resolver) {
    |r.pump.queue| > 0 && |r.pump.ops| == 0
  }

  const NO_ANSWER := Answer(Error(0), [])

  /** Completing the lookups ahead of an unusable request blocks the queue. */
  lemma {:induction false} RunIntoUnusable(r: Resolver, k: nat) returns (acts: seq<Action>)
    requires k < |r.pump.queue| && !Usable(r.pump.queue[k])
    requires forall i :: 0 <= i < k ==> Usable(r.pump.queue[i])
    requires if k == 0 then |r.pump.ops| == 0 else |r.pump.ops| == 1 && r.pump.ops[0].item == r.pump.queue[0]
    ensures Legal(r, acts) && AllUsable(acts) && Blocked(Exec(r, acts))
    decreases k
  {
    if k == 0 {
      acts := [];
    } else {
      var a := Complete(0, NO_ANSWER);
      var s := Next(r, a);
      assert s.pump.queue == r.pump.queue[1..] && Remove(r.pump.ops, 0) == [];
      assert k > 1 ==> Usable(r.pump.queue[1]);
      var rest := RunIntoUnusable(s, k - 1);
      acts := [a] + rest;
      assert acts[1..] == rest;
    }
  }

  /** After this request the resolver, with usable requests only, can never block. */
  ghost predicate NeverBlocks(r: Resolver, request: Request) {
    forall acts :: Legal(Next(r, Resolve(request)), acts) && AllUsable(acts)
      ==> !Blocked(Exec(Next(r, Resolve(request)), acts))
  }

  /** The exact condition: after any run with usable ports, one more request leaves the
      resolver unable to block if and only if that request's port is usable. */
  lemma UnusablePortBlocks(before: seq<Action>, request: Request)
    requires Legal(INIT, before) && AllUsable(before)
    ensures NeverBlocks(Exec(INIT, before), request) <==> Usable(request)
  {
    InitInv();
    RunKeepsInv(INIT, before);
    var r := Exec(INIT, before);
    var s := Next(r, Resolve(request));
    if Usable(request) {
      ResolveKeepsInv(r, request);
      forall acts | Legal(s, acts) && AllUsable(acts)
        ensures !Blocked(Exec(s, acts))
      {
        RunKeepsInv(s, acts);
      }
    } else {
      var k := |r.pump.queue|;
      assert forall i :: 0 <= i < k ==> s.pump.queue[i] == r.pump.queue[i];
      var acts := RunIntoUnusable(s, k);
    }
  }

  /** Such a request exists: the URL of this text passes for valid, and blocks the resolver
      at once. */
  lemma ParsedUrlBlocks(lits: Literals, handler: nat)
    requires !lits.v4("h")
    ensures |Tokens("ws://h:2147483648/")| > 0
    ensures var (u, result) := Parse(lits, "ws://h:2147483648/");
            && result == Done(SUCCESS) && Valid(u)
            && Legal(INIT, [Resolve(Request(u, handler))])
            && Blocked(Exec(INIT, [Resolve(Request(u, handler))]))
  {
    OverflowingTextParses(lits);
    var u := Parse(lits, "ws://h:2147483648/").0;
    var a := Resolve(Request(u, handler));
    assert [a][1..] == [] && !Usable(a.request);
    assert Exec(INIT, [a]) == Exec(Next(INIT, a), []);
  }

  /** The request ahead of an unusable one suffers too: its lookup is answered and it leaves
      the queue, but its callback is made if and only if the next lookup could begin. */
  lemma CallbackNeedsNextLookup(r: Resolver, i: nat, answer: Answer)
    requires Enabled(r, Complete(i, answer))
    ensures var s := Next(r, Complete(i, answer));
            && s.pump.queue == r.pump.queue[1..]
            && s.answers == r.answers + [answer]
            && |s.callbacks|
               == |r.callbacks| + if |r.pump.queue| > 1 && Port(r.pump.queue[1].url.port).None? then 0 else 1
  {
  }

  /** A blocked resolver stays blocked, and makes no callback any more. */
  lemma {:induction false} BlockedForever(r: Resolver, acts: seq<Action>)
    requires Blocked(r) && Legal(r, acts)
    ensures Blocked(Exec(r, acts)) && Exec(r, acts).callbacks == r.callbacks
    decreases |acts|
  {
    if |acts| > 0 {
      BlockedForever(Next(r, acts[0]), acts[1..]);
    }
  }
}

/** The resolver class. */
module Resolvers {
  import opened Pumps
  import opened ResolverModel
  import opened Seqs
  import opened Urls
  import M = ResolverModel

  class MultiResolver {
    var wsQueue: seq<Request>
    ghost var ops: seq<Op<Request>>
    ghost var submitted: seq<Request>
    ghost var done: seq<Request>
    ghost var wire: seq<Request>
    ghost var skipped: bool
    ghost var lookups: seq<Lookup>
    ghost var answers: seq<Answer>
    ghost var callbacks: seq<Callback>

    ghost function View(): Resolver
      reads this
    {
      Resolver(Pump(wsQueue, ops, submitted, done, wire, skipped), lookups, answers, callbacks)
    }

    constructor ()
      ensures View() == INIT
    {
      wsQueue, ops, submitted, done, wire, skipped := [], [], [], [], [], false;
      lookups, answers, callbacks := [], [], [];
    }

    /** `threw`: an exception leaves with the request queued and no lookup begun. */
    method ResolveUrl(url: Url, handler: nat) returns (threw: bool)
      modifies this
      ensures View() == Next(old(View()), Resolve(Request(url, handler)))
      ensures threw <==> |old(wsQueue)| == 0 && Port(url.port).None?
    {
      wsQueue := wsQueue + [Request(url, handler)];
      submitted := submitted + [Request(url, handler)];
      if |wsQueue| < 2 {
        threw := BeginResolve(wsQueue[0]);
      } else {
        threw := false;
      }
    }

    method BeginResolve(qelem: Request) returns (threw: bool)
      modifies this`ops, this`wire, this`lookups
      ensures View() == Begin(old(View()), qelem) && (threw <==> !Usable(qelem))
    {
      var port := Port(qelem.url.port);
      if port.None? {
        return true;
      }
      lookups := lookups + [Lookup(qelem.url.host, port.value)];
      ops := ops + [Op(InFlight, qelem)];
      wire := wire + [qelem];
      return false;
    }

    /** Pops the request, begins the next lookup, then calls back; an exception from the
        next lookup comes before the callback. */
    method ResolveHandler(answer: Answer, qelem: Request, ghost i: nat) returns (threw: bool)
      requires M.Enabled(View(), Complete(i, answer)) && ops[i].item == qelem
      modifies this
      ensures View() == Next(old(View()), Complete(i, answer))
      ensures threw <==> |wsQueue| > 0 && !Usable(wsQueue[0])
    {
      ops := Remove(ops, i);
      answers := answers + [answer];
      var resolved := qelem.url.(endpoints := answer.endpoints);
      wsQueue := wsQueue[1..];
      done := done + [qelem];
      threw := false;
      if |wsQueue| > 0 {
        threw := BeginResolve(wsQueue[0]);
      }
      if !threw {
        callbacks := callbacks + [Callback(qelem.handler, answer.ec, resolved)];
      }
    }
  }
}
