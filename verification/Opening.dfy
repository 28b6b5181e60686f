/** Opening a session: what the client does with a URL and with the resolver's answer. */
module OpeningModel {
  import opened Pumps
  import opened Seqs
  import opened Urls
  import R = ResolverModel

  /** A call of connect: on which session, for which session_create, with which URL. Both
      are numbered from one; the client keeps the newest session only. */
  datatype Call = Call(session: nat, number: nat, url: Url)

  /** `direct` are the calls from session_create itself, `looked` those from the callback
      of the resolver. */
  datatype Opener = Opener(resolver: R.Resolver, creates: seq<Url>, direct: seq<Call>, looked: seq<Call>)

  const INIT := Opener(R.INIT, [], [], [])

  datatype Action =
    | Create(url: Url)
    | Answered(op: nat, answer: R.Answer)

  predicate Enabled(o: Opener, a: Action) {
    match a
    case Create(_) => true
    case Answered(i, answer) => R.Enabled(o.resolver, R.Complete(i, answer))
  }

  function Next(o: Opener, a: Action): Opener
    requires Enabled(o, a)
  {
    match a
    case Create(url) =>
      var n := |o.creates| + 1;
      var p := o.(creates := o.creates + [url]);
      if IsResolved(url) then p.(direct := o.direct + [Call(n, n, url)])
      else p.(resolver := R.Next(o.resolver, R.Resolve(R.Request(url, n))))
    case Answered(i, answer) =>
      var r := R.Next(o.resolver, R.Complete(i, answer));
      var p := o.(resolver := r);
      if |r.callbacks| == |o.resolver.callbacks| then p
      else
        assert |r.callbacks| == |o.resolver.callbacks| + 1;
        var called := r.callbacks[|o.resolver.callbacks|];
        p.(looked := o.looked + [Call(|o.creates|, called.handler, called.url)])
  }

  predicate Legal(o: Opener, acts: seq<Action>)
    decreases |acts|
  {
    |acts| == 0 || (Enabled(o, acts[0]) && Legal(Next(o, acts[0]), acts[1..]))
  }

  function Exec(o: Opener, acts: seq<Action>): Opener
    requires Legal(o, acts)
    decreases |acts|
  {
    if |acts| == 0 then o else Exec(Next(o, acts[0]), acts[1..])
  }

  /** The URL needs no lookup, or one that can be begun. */
  predicate Usable(url: Url) {
    IsResolved(url) || Port(url.port).Some?
  }

  ghost predicate AllUsable(acts: seq<Action>) {
    forall i :: 0 <= i < |acts| && acts[i].Create? ==> Usable(acts[i].url)
  }

  // ---------- every session_create comes to one call of connect

  ghost predicate Numbered(calls: seq<Call>) {
    forall i, j :: 0 <= i < j < |calls| ==> calls[i].number < calls[j].number
  }

  /** Requests stand for the creates that need a lookup, in order. */
  ghost predicate RequestsFit(creates: seq<Url>, requests: seq<R.Request>) {
    && (forall i :: 0 <= i < |requests| ==>
          var q := requests[i];
          1 <= q.handler <= |creates| && q.url == creates[q.handler - 1] && !IsResolved(q.url))
    && forall i, j :: 0 <= i < j < |requests| ==> requests[i].handler < requests[j].handler
  }

  ghost predicate DirectFit(creates: seq<Url>, direct: seq<Call>) {
    && (forall i :: 0 <= i < |direct| ==>
          var c := direct[i];
          1 <= c.number <= |creates| && c.session == c.number
          && c.url == creates[c.number - 1] && IsResolved(c.url))
    && Numbered(direct)
  }

  ghost predicate LookedFit(looked: seq<Call>, callbacks: seq<R.Callback>) {
    && |looked| == |callbacks|
    && forall i :: 0 <= i < |looked| ==>
         looked[i].number == callbacks[i].handler && looked[i].url == callbacks[i].url
  }

  ghost predicate Inv(o: Opener) {
    && R.Inv(o.resolver)
    && |o.direct| + |o.resolver.pump.submitted| == |o.creates|
    && RequestsFit(o.creates, o.resolver.pump.submitted)
    && DirectFit(o.creates, o.direct)
    && LookedFit(o.looked, o.resolver.callbacks)
  }

  lemma RequestsGrow(creates: seq<Url>, requests: seq<R.Request>, url: Url)
    requires RequestsFit(creates, requests)
    ensures RequestsFit(creates + [url], requests)
    ensures !IsResolved(url) ==> RequestsFit(creates + [url], requests + [R.Request(url, |creates| + 1)])
  {
  }

  lemma DirectGrow(creates: seq<Url>, direct: seq<Call>, url: Url)
    requires DirectFit(creates, direct)
    ensures DirectFit(creates + [url], direct)
    ensures IsResolved(url) ==>
              DirectFit(creates + [url], direct + [Call(|creates| + 1, |creates| + 1, url)])
  {
  }

  /** A create that needs a lookup leaves the logs of the resolver's answers alone. */
  lemma LookupLogs(o: Opener, url: Url)
    requires R.Inv(o.resolver) && Usable(url) && !IsResolved(url)
    ensures var p := Next(o, Create(url));
            && p.creates == o.creates + [url] && p.direct == o.direct && p.looked == o.looked
            && p.resolver.callbacks == o.resolver.callbacks
            && p.resolver.pump.submitted == o.resolver.pump.submitted + [R.Request(url, |o.creates| + 1)]
            && p.resolver.pump.queue == o.resolver.pump.queue + [R.Request(url, |o.creates| + 1)]
            && R.Inv(p.resolver)
  {
    var q := R.Request(url, |o.creates| + 1);
    R.ResolveKeepsInv(o.resolver, q);
    R.ResolveKeepsLogs(o.resolver, q);
  }

  lemma CreateKeepsInv(o: Opener, url: Url)
    requires Inv(o) && Usable(url)
    ensures Inv(Next(o, Create(url)))
  {
    RequestsGrow(o.creates, o.resolver.pump.submitted, url);
    DirectGrow(o.creates, o.direct, url);
    if !IsResolved(url) {
      LookupLogs(o, url);
    }
  }

  lemma LookedGrow(looked: seq<Call>, callbacks: seq<R.Callback>, session: nat, c: R.Callback)
    requires LookedFit(looked, callbacks)
    ensures LookedFit(looked + [Call(session, c.handler, c.url)], callbacks + [c])
  {
  }

  /** Whose callback it is: that of the front request, on the newest session. */
  lemma AnsweredLogs(o: Opener, i: nat, answer: R.Answer) returns (c: R.Callback)
    requires R.Inv(o.resolver) && Enabled(o, Answered(i, answer))
    ensures var p := Next(o, Answered(i, answer));
            && p.creates == o.creates && p.direct == o.direct
            && p.looked == o.looked + [Call(|o.creates|, c.handler, c.url)]
            && p.resolver.callbacks == o.resolver.callbacks + [c]
            && p.resolver.pump.submitted == o.resolver.pump.submitted
            && p.resolver.pump.queue == o.resolver.pump.queue[1..]
            && c.handler == o.resolver.pump.queue[0].handler
            && R.Inv(p.resolver)
  {
    R.CompleteKeepsInv(o.resolver, i, answer);
    R.CompleteKeepsLogs(o.resolver, i, answer);
    var q := o.resolver.pump.submitted[|o.resolver.pump.done|];
    assert q == o.resolver.pump.queue[0];
    c := R.Callback(q.handler, answer.ec, q.url.(endpoints := answer.endpoints));
  }

  lemma AnsweredKeepsInv(o: Opener, i: nat, answer: R.Answer)
    requires Inv(o) && Enabled(o, Answered(i, answer))
    ensures Inv(Next(o, Answered(i, answer)))
  {
    var c := AnsweredLogs(o, i, answer);
    LookedGrow(o.looked, o.resolver.callbacks, |o.creates|, c);
  }

  lemma {:induction false} RunKeepsInv(o: Opener, acts: seq<Action>)
    requires Inv(o) && Legal(o, acts) && AllUsable(acts)
    ensures Inv(Exec(o, acts))
    decreases |acts|
  {
    if |acts| > 0 {
      match acts[0] {
        case Create(url) => CreateKeepsInv(o, url);
        case Answered(i, answer) => AnsweredKeepsInv(o, i, answer);
      }
      assert AllUsable(acts[1..]);
      RunKeepsInv(Next(o, acts[0]), acts[1..]);
    }
  }

  lemma InitInv()
    ensures Inv(INIT)
  {
    R.InitInv();
  }

  /** What the i-th callback of the resolver connects to: the URL of its own
      session_create, with the endpoints of its own lookup. */
  ghost predicate ServesLookup(o: Opener, i: nat)
    requires i < |o.looked| && i < |o.resolver.answers|
  {
    var c := o.looked[i];
    && 1 <= c.number <= |o.creates|
    && !IsResolved(o.creates[c.number - 1])
    && c.url == o.creates[c.number - 1].(endpoints := o.resolver.answers[i].endpoints)
    && (Connectable(c.url) <==> Valid(o.creates[c.number - 1]) && |o.resolver.answers[i].endpoints| > 0)
  }

  ghost predicate ServesDirect(o: Opener, c: Call) {
    && 1 <= c.number <= |o.creates| && c.session == c.number
    && c.url == o.creates[c.number - 1] && IsResolved(c.url)
    && (Connectable(c.url) <==> Valid(o.creates[c.number - 1]))
  }

  /** In every run, each session_create comes to exactly one call of connect, at once if
      its URL was resolved and otherwise when its lookup is answered, in order; and the
      assertions of connect hold exactly if the URL was valid and, when it needed the
      lookup, that yielded an endpoint. */
  lemma ConnectAssertionsExact(acts: seq<Action>)
    requires Legal(INIT, acts) && AllUsable(acts)
    ensures var o := Exec(INIT, acts);
            && |o.direct| + |o.looked| + |o.resolver.pump.queue| == |o.creates|
            && Numbered(o.direct) && Numbered(o.looked)
            && (forall i :: 0 <= i < |o.direct| ==> ServesDirect(o, o.direct[i]))
            && |o.looked| == |o.resolver.answers|
            && (forall i :: 0 <= i < |o.looked| ==> ServesLookup(o, i))
  {
    InitInv();
    RunKeepsInv(INIT, acts);
    var o := Exec(INIT, acts);
    assert |o.resolver.pump.submitted| == |o.resolver.pump.done| + |o.resolver.pump.queue|;
    LookupsServed(o);
    DirectServed(o);
  }

  lemma LookupServed(o: Opener, i: nat)
    requires R.Served(o.resolver) && RequestsFit(o.creates, o.resolver.pump.submitted)
    requires LookedFit(o.looked, o.resolver.callbacks) && i < |o.looked|
    ensures ServesLookup(o, i) && o.looked[i].number == o.resolver.pump.submitted[i].handler
  {
    assert o.resolver.callbacks[i].handler == o.resolver.pump.submitted[i].handler;
  }

  lemma LookupsServed(o: Opener)
    requires R.Served(o.resolver) && RequestsFit(o.creates, o.resolver.pump.submitted)
    requires LookedFit(o.looked, o.resolver.callbacks)
    ensures forall i :: 0 <= i < |o.looked| ==> ServesLookup(o, i)
    ensures Numbered(o.looked) && |o.looked| == |o.resolver.answers| == |o.resolver.pump.done|
  {
    forall i | 0 <= i < |o.looked|
      ensures ServesLookup(o, i) && o.looked[i].number == o.resolver.pump.submitted[i].handler
    {
      LookupServed(o, i);
    }
  }

  lemma DirectServed(o: Opener)
    requires DirectFit(o.creates, o.direct)
    ensures forall i :: 0 <= i < |o.direct| ==> ServesDirect(o, o.direct[i])
  {
  }

  const NAMED := Url("h", "", "/", [])

  /** A lookup that fails: its callback passes a valid URL without endpoints to connect. */
  lemma FailedLookupAsserts(code: int)
    ensures var acts := [Create(NAMED), Answered(0, R.Answer(R.Error(code), []))];
            && Legal(INIT, acts) && AllUsable(acts)
            && Exec(INIT, acts).looked == [Call(1, 1, NAMED)] && Valid(NAMED) && !Connectable(NAMED)
  {
    var fails := Answered(0, R.Answer(R.Error(code), []));
    var o := Next(INIT, Create(NAMED));
    var q := R.Request(NAMED, 1);
    assert o.resolver.pump.ops == [Op(InFlight, q)] && o.resolver.pump.queue == [q];
    assert [Create(NAMED), fails][1..] == [fails] && [fails][1..] == [];
    assert Next(o, fails).looked == [Call(1, 1, NAMED)];
    assert Exec(o, [fails]) == Exec(Next(o, fails), []);
  }

  function Created(acts: seq<Action>): seq<Url> {
    if |acts| == 0 then [] else (if acts[0].Create? then [acts[0].url] else []) + Created(acts[1..])
  }

  function Answers(acts: seq<Action>): seq<R.Answer> {
    if |acts| == 0 then [] else (if acts[0].Answered? then [acts[0].answer] else []) + Answers(acts[1..])
  }

  lemma LogsStep(o: Opener, a: Action)
    requires Enabled(o, a)
    ensures Next(o, a).creates == o.creates + (if a.Create? then [a.url] else [])
    ensures Next(o, a).resolver.answers == o.resolver.answers + (if a.Answered? then [a.answer] else [])
  {
  }

  lemma {:induction false} LogsRun(o: Opener, acts: seq<Action>)
    requires Legal(o, acts)
    ensures Exec(o, acts).creates == o.creates + Created(acts)
    ensures Exec(o, acts).resolver.answers == o.resolver.answers + Answers(acts)
    decreases |acts|
  {
    if |acts| > 0 {
      var a := acts[0];
      LogsStep(o, a);
      LogsRun(Next(o, a), acts[1..]);
      ConcatAssociates(o.creates, if a.Create? then [a.url] else [], Created(acts[1..]));
      ConcatAssociates(o.resolver.answers, if a.Answered? then [a.answer] else [], Answers(acts[1..]));
    }
  }

  /** The logs that the results above speak of are what was asked and what was answered. */
  lemma OpenerHistory(acts: seq<Action>)
    requires Legal(INIT, acts)
    ensures Exec(INIT, acts).creates == Created(acts)
    ensures Exec(INIT, acts).resolver.answers == Answers(acts)
  {
    LogsRun(INIT, acts);
  }

  // ---------- which session is connected

  /** Every call of connect is on the session that its session_create made. */
  ghost predicate OnOwnSession(o: Opener) {
    forall i :: 0 <= i < |o.looked| ==> o.looked[i].session == o.looked[i].number
  }

  /** A session is created only when no lookup is waited for. */
  predicate Patient(o: Opener, acts: seq<Action>)
    requires Legal(o, acts)
    decreases |acts|
  {
    || |acts| == 0
    || ((acts[0].Create? ==> |o.resolver.pump.queue| == 0) && Patient(Next(o, acts[0]), acts[1..]))
  }

  ghost predicate PatientInv(o: Opener) {
    && Inv(o) && OnOwnSession(o)
    && |o.resolver.pump.queue| <= 1
    && (|o.resolver.pump.queue| == 1 ==> o.resolver.pump.queue[0].handler == |o.creates|)
  }

  lemma PatientCreate(o: Opener, url: Url)
    requires PatientInv(o) && Usable(url) && |o.resolver.pump.queue| == 0
    ensures PatientInv(Next(o, Create(url)))
  {
    CreateKeepsInv(o, url);
    if !IsResolved(url) {
      LookupLogs(o, url);
    }
  }

  lemma PatientAnswered(o: Opener, i: nat, answer: R.Answer)
    requires PatientInv(o) && Enabled(o, Answered(i, answer))
    ensures PatientInv(Next(o, Answered(i, answer)))
  {
    AnsweredKeepsInv(o, i, answer);
    var c := AnsweredLogs(o, i, answer);
  }

  lemma {:induction false} PatientRun(o: Opener, acts: seq<Action>)
    requires PatientInv(o) && Legal(o, acts) && AllUsable(acts) && Patient(o, acts)
    ensures PatientInv(Exec(o, acts))
    decreases |acts|
  {
    if |acts| > 0 {
      match acts[0] {
        case Create(url) => PatientCreate(o, url);
        case Answered(i, answer) => PatientAnswered(o, i, answer);
      }
      assert AllUsable(acts[1..]);
      PatientRun(Next(o, acts[0]), acts[1..]);
    }
  }

  lemma CallsOnDifferentSessions(o: Opener, i: nat, j: nat)
    requires OnOwnSession(o) && i < |o.direct| && j < |o.looked| == |o.resolver.answers|
    requires ServesDirect(o, o.direct[i]) && ServesLookup(o, j)
    ensures o.direct[i].session != o.looked[j].session
  {
  }

  /** Then no session is ever connected twice. */
  lemma PatientConnectsOnce(acts: seq<Action>)
    requires Legal(INIT, acts) && AllUsable(acts) && Patient(INIT, acts)
    ensures var o := Exec(INIT, acts);
            && (forall i, j :: 0 <= i < j < |o.direct| ==> o.direct[i].session < o.direct[j].session)
            && (forall i, j :: 0 <= i < j < |o.looked| ==> o.looked[i].session < o.looked[j].session)
            && (forall i, j :: 0 <= i < |o.direct| && 0 <= j < |o.looked| ==>
                  o.direct[i].session != o.looked[j].session)
  {
    InitInv();
    PatientRun(INIT, acts);
    ConnectAssertionsExact(acts);
    DifferentSessions(Exec(INIT, acts));
  }

  lemma DifferentSessions(o: Opener)
    requires OnOwnSession(o) && Numbered(o.direct) && Numbered(o.looked) && |o.looked| == |o.resolver.answers|
    requires forall i :: 0 <= i < |o.direct| ==> ServesDirect(o, o.direct[i])
    requires forall i :: 0 <= i < |o.looked| ==> ServesLookup(o, i)
    ensures forall i, j :: 0 <= i < j < |o.direct| ==> o.direct[i].session < o.direct[j].session
    ensures forall i, j :: 0 <= i < j < |o.looked| ==> o.looked[i].session < o.looked[j].session
    ensures forall i, j :: 0 <= i < |o.direct| && 0 <= j < |o.looked| ==> o.direct[i].session != o.looked[j].session
  {
    forall i, j | 0 <= i < j < |o.direct| ensures o.direct[i].session < o.direct[j].session {
      assert ServesDirect(o, o.direct[i]) && ServesDirect(o, o.direct[j]);
    }
    forall i, j | 0 <= i < |o.direct| && 0 <= j < |o.looked| ensures o.direct[i].session != o.looked[j].session {
      CallsOnDifferentSessions(o, i, j);
    }
  }

  /** Whatever a patient caller and the environment do from here on. */
  ghost predicate StaysOnOwnSession(o: Opener) {
    forall acts :: Legal(o, acts) && AllUsable(acts) && Patient(o, acts) ==> OnOwnSession(Exec(o, acts))
  }

  lemma ExecOne(o: Opener, a: Action)
    requires Enabled(o, a) && (a.Create? ==> |o.resolver.pump.queue| == 0)
    ensures Legal(o, [a]) && Patient(o, [a]) && Exec(o, [a]) == Next(o, a)
  {
    var p := Next(o, a);
    assert [a][1..] == [];
    assert Legal(p, []) && Exec(p, []) == p && Patient(p, []);
  }

  /** The pending answer connects the new session for the earlier session_create. */
  lemma ImpatientCreateBreaks(o: Opener, url: Url)
    requires PatientInv(o) && Usable(url) && |o.resolver.pump.queue| > 0
    ensures !StaysOnOwnSession(Next(o, Create(url)))
  {
    var p := Next(o, Create(url));
    CreateKeepsInv(o, url);
    if !IsResolved(url) {
      LookupLogs(o, url);
    }
    LateAnswerBreaks(p);
  }

  lemma LateAnswerBreaks(p: Opener)
    requires R.Inv(p.resolver) && |p.resolver.pump.queue| > 0
    requires p.resolver.pump.queue[0].handler < |p.creates|
    ensures !StaysOnOwnSession(p)
  {
    var a := Answered(0, R.NO_ANSWER);
    var c := AnsweredLogs(p, 0, R.NO_ANSWER);
    assert Next(p, a).looked[|p.looked|].session != Next(p, a).looked[|p.looked|].number;
    ExecOne(p, a);
    assert Legal(p, [a]) && AllUsable([a]) && Patient(p, [a]) && !OnOwnSession(Exec(p, [a]));
  }

  /** Two calls of session_create in a row: the answer to the first lookup can connect the
      second session. */
  lemma TwoCreatesBreak()
    ensures Legal(INIT, [Create(NAMED)]) && AllUsable([Create(NAMED)]) && Patient(INIT, [Create(NAMED)])
    ensures !StaysOnOwnSession(Next(Exec(INIT, [Create(NAMED)]), Create(NAMED)))
  {
    InitInv();
    ExecOne(INIT, Create(NAMED));
    PatientCreate(INIT, NAMED);
    LookupLogs(INIT, NAMED);
    ImpatientCreateBreaks(Next(INIT, Create(NAMED)), NAMED);
  }

  /** The exact condition on session_create: after a patient run every later call of
      connect is on its own session, so that each session is connected once, if and only
      if no lookup was being waited for. */
  lemma CreateExact(before: seq<Action>, url: Url)
    requires Legal(INIT, before) && AllUsable(before) && Patient(INIT, before) && Usable(url)
    ensures var o := Exec(INIT, before);
            StaysOnOwnSession(Next(o, Create(url))) <==> |o.resolver.pump.queue| == 0
  {
    InitInv();
    PatientRun(INIT, before);
    var o := Exec(INIT, before);
    if |o.resolver.pump.queue| == 0 {
      PatientCreate(o, url);
      var p := Next(o, Create(url));
      forall acts | Legal(p, acts) && AllUsable(acts) && Patient(p, acts)
        ensures OnOwnSession(Exec(p, acts))
      {
        PatientRun(p, acts);
      }
    } else {
      ImpatientCreateBreaks(o, url);
    }
  }
}

/** The part of the client class that opens sessions. */
module Openings {
  import opened Allocation
  import opened OpeningModel
  import opened Resolvers
  import opened Sessions
  import opened Urls
  import C = ClientModel
  import M = OpeningModel
  import R = ResolverModel
  import S = SessionModel

  /** The answer step, written out. */
  lemma AnsweredForm(o: Opener, i: nat, answer: R.Answer)
    requires M.Enabled(o, Answered(i, answer))
    ensures var q := o.resolver.pump.ops[i].item;
            var r := R.Next(o.resolver, R.Complete(i, answer));
            var call := Call(|o.creates|, q.handler, q.url.(endpoints := answer.endpoints));
            var threw := |r.pump.queue| > 0 && !R.Usable(r.pump.queue[0]);
            Next(o, Answered(i, answer))
            == (if threw then o.(resolver := r) else o.(resolver := r, looked := o.looked + [call]))
  {
  }

  class SessionOpener {
    const factory: Allocator
    const resolver: MultiResolver
    var session: WebsocketSession?
    var created: nat
    ghost var creates: seq<Url>
    ghost var direct: seq<Call>
    ghost var looked: seq<Call>

    ghost predicate Valid()
      reads this
    {
      |creates| == created && (created > 0 ==> session != null && session.Valid() && session.allocator == factory)
    }

    ghost function View(): Opener
      reads this, resolver
    {
      Opener(resolver.View(), creates, direct, looked)
    }

    constructor ()
      ensures Valid() && View() == M.INIT
    {
      factory := new Allocator();
      resolver := new MultiResolver();
      session, created := null, 0;
      creates, direct, looked := [], [], [];
    }

    /** make_shared of the session. */
    method NewSession(url: Url)
      requires Valid()
      modifies this
      ensures Valid() && fresh(session) && fresh(session.stats.Repr()) && created == old(created) + 1
      ensures session.View() == S.Init(C.HOOKS).(alloc := factory.View())
      ensures creates == old(creates) + [url] && direct == old(direct) && looked == old(looked)
    {
      session := new WebsocketSession(C.HOOKS, factory);
      created := created + 1;
      creates := creates + [url];
    }

    /** session_create: connects at once if it can, and asks the resolver otherwise. `ok`
        tells whether the assertions of connect held, if it was called. */
    method SessionCreate(url: Url) returns (threw: bool, ok: bool)
      requires Valid()
      modifies this, resolver
      ensures Valid() && fresh(session) && View() == Next(old(View()), Create(url))
      ensures ok <==> (IsResolved(url) ==> Urls.Valid(url))
      ensures threw <==> !IsResolved(url) && |old(resolver.wsQueue)| == 0 && Port(url.port).None?
      ensures var s := S.Init(C.HOOKS).(alloc := factory.View());
              session.View() == if Connectable(url) then S.Next(s, S.Connect) else s
    {
      NewSession(url);
      threw, ok := ConnectOrResolve(url);
    }

    method ConnectOrResolve(url: Url) returns (threw: bool, ok: bool)
      requires Valid() && created > 0 && session.ctl.attempts == 0
      modifies this`direct, resolver, session
      ensures ok <==> (IsResolved(url) ==> Urls.Valid(url))
      ensures threw <==> !IsResolved(url) && |old(resolver.wsQueue)| == 0 && Port(url.port).None?
      ensures direct == if IsResolved(url) then old(direct) + [Call(created, created, url)] else old(direct)
      ensures resolver.View()
           == if IsResolved(url) then old(resolver.View())
              else R.Next(old(resolver.View()), R.Resolve(R.Request(url, created)))
      ensures session.View()
           == if Connectable(url) then S.Next(old(session.View()), S.Connect) else old(session.View())
    {
      threw, ok := false, true;
      if |url.endpoints| == 0 {
        threw := resolver.ResolveUrl(url, created);
        return;
      }
      direct := direct + [Call(created, created, url)];
      ok := DoSessionConnect(url);
    }

    /** The resolver's completion with the callback that session_create gave it, which
        ignores the error code. */
    method LookupAnswered(answer: R.Answer, qelem: R.Request, ghost i: nat) returns (threw: bool, ok: bool)
      requires Valid() && created > 0
      requires M.Enabled(View(), Answered(i, answer)) && resolver.ops[i].item == qelem
      modifies this, resolver, session
      ensures Valid() && View() == Next(old(View()), Answered(i, answer))
      ensures !threw ==> (ok <==> Urls.Valid(qelem.url) && |answer.endpoints| > 0)
      ensures threw <==> |resolver.wsQueue| > 0 && !R.Usable(resolver.wsQueue[0])
      ensures session == old(session) && (!ok ==> session.View() == old(session.View()))
      ensures ok ==> session.View() == old(session.View()).(ctl := Begun(old(session.ControlView())))
      ensures ok && old(session.ctl).attempts == 0 ==> session.View() == S.Next(old(session.View()), S.Connect)
    {
      AnsweredForm(View(), i, answer);
      ok := false;
      threw := resolver.ResolveHandler(answer, qelem, i);
      if !threw {
        var resolved := qelem.url.(endpoints := answer.endpoints);
        looked := looked + [Call(created, qelem.handler, resolved)];
        ok := DoSessionConnect(resolved);
      }
    }

    /** connect asserts a valid and resolved URL. */
    method DoSessionConnect(url: Url) returns (ok: bool)
      requires Valid() && session != null && session.Valid()
      modifies session
      ensures ok <==> Connectable(url)
      ensures !ok ==> session.View() == old(session.View())
      ensures ok ==> session.View() == old(session.View()).(ctl := Begun(old(session.ControlView())))
      ensures ok && old(session.ctl).attempts == 0 ==> session.View() == S.Next(old(session.View()), S.Connect)
    {
      ok := Connectable(url);
      if ok {
        session.Connect(url);
      }
    }
  }
}
