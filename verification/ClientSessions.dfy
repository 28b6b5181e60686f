/** All the sessions a client ever creates share one allocator: who owns a message then.
    Sessions that were replaced go on until their operations completed. */
module ClientSessions {
  import opened Allocation
  import opened Buffers
  import opened ClientModel
  import opened Pumps
  import opened Seqs
  import S = SessionModel

  /** The newest session is the last; `alloc` stands in for the allocator of each. */
  datatype Fleet = Fleet(alloc: Alloc, held: set<Msg>, sessions: seq<S.Session>)

  const NO_SESSIONS := Fleet(NO_MESSAGES, {}, [])

  datatype Deed =
    | Create
    | Allocate(addr: Msg)
    | GiveUp(msg: Msg)
    | SendNewest(msg: Msg, onIo: bool)
    | ReceiveOn(k: nat, at: nat, chunks: Chunks, text: bool, addr: Msg, back: Msg)
    | RunOn(k: nat, step: S.Action)

  function At(f: Fleet, k: nat): S.Session
    requires k < |f.sessions|
  {
    f.sessions[k].(alloc := f.alloc)
  }

  predicate Can(f: Fleet, d: Deed) {
    match d
    case Create => true
    case Allocate(m) => m !in f.alloc.live
    case GiveUp(m) => m in f.held
    case SendNewest(m, _) => m in f.held && |f.sessions| > 0
    case ReceiveOn(k, at, chunks, text, addr, _) =>
      k < |f.sessions| && S.Enabled(At(f, k), S.ReadOk(at, chunks, text, addr))
    case RunOn(k, step) => k < |f.sessions| && !step.Write? && !step.ReadOk? && S.Enabled(At(f, k), step)
  }

  function Do(f: Fleet, d: Deed): Fleet
    requires Can(f, d)
  {
    match d
    case Create => f.(sessions := f.sessions + [S.Init(HOOKS)])
    case Allocate(m) => f.(alloc := f.alloc.Allocate(m), held := f.held + {m})
    case GiveUp(m) => f.(alloc := f.alloc.Free(m), held := f.held - {m})
    case SendNewest(m, onIo) =>
      var k := |f.sessions| - 1;
      var t := S.Next(At(f, k), S.Write(m, onIo));
      Fleet(t.alloc, f.held - {m}, f.sessions[k := t])
    case ReceiveOn(k, at, chunks, text, addr, back) =>
      var t := S.Next(At(f, k), S.ReadOk(at, chunks, text, addr));
      Fleet(t.alloc.Free(back), f.held + {addr} - {back}, f.sessions[k := t])
    case RunOn(k, step) =>
      var t := S.Next(At(f, k), step);
      Fleet(t.alloc, f.held, f.sessions[k := t])
  }

  predicate Lawful(f: Fleet, deeds: seq<Deed>)
    decreases |deeds|
  {
    |deeds| == 0 || (Can(f, deeds[0]) && Lawful(Do(f, deeds[0]), deeds[1..]))
  }

  function DoAll(f: Fleet, deeds: seq<Deed>): Fleet
    requires Lawful(f, deeds)
    decreases |deeds|
  {
    if |deeds| == 0 then f else DoAll(Do(f, deeds[0]), deeds[1..])
  }

  predicate ReturnsOwned(f: Fleet, d: Deed) {
    d.ReceiveOn? ==> d.back in f.held + {d.addr}
  }

  predicate AllReturnOwned(f: Fleet, deeds: seq<Deed>)
    requires Lawful(f, deeds)
    decreases |deeds|
  {
    |deeds| == 0 || (ReturnsOwned(f, deeds[0]) && AllReturnOwned(Do(f, deeds[0]), deeds[1..]))
  }

  // ---------- the queues of all sessions

  function Queued(sessions: seq<S.Session>): seq<Msg> {
    if |sessions| == 0 then [] else sessions[0].outb.pump.queue + Queued(sessions[1..])
  }

  lemma {:induction false} QueuedConcat(a: seq<S.Session>, b: seq<S.Session>)
    ensures Queued(a + b) == Queued(a) + Queued(b)
    decreases |a|
  {
    if |a| == 0 {
      assert a + b == b;
    } else {
      QueuedConcat(a[1..], b);
      assert (a + b)[1..] == a[1..] + b;
      ConcatAssociates(a[0].outb.pump.queue, Queued(a[1..]), Queued(b));
    }
  }

  lemma QueuedOne(s: S.Session)
    ensures Queued([s]) == s.outb.pump.queue
  {
    assert [s][1..] == [];
  }

  lemma QueuedWith(sessions: seq<S.Session>, k: nat, t: S.Session)
    requires k < |sessions|
    ensures Queued(sessions[k := t])
         == Queued(sessions[..k]) + t.outb.pump.queue + Queued(sessions[k + 1..])
  {
    assert sessions[k := t] == sessions[..k] + [t] + sessions[k + 1..];
    QueuedConcat(sessions[..k] + [t], sessions[k + 1..]);
    QueuedConcat(sessions[..k], [t]);
    QueuedOne(t);
  }

  lemma QueuedAround(sessions: seq<S.Session>, k: nat)
    requires k < |sessions|
    ensures Queued(sessions)
         == Queued(sessions[..k]) + sessions[k].outb.pump.queue + Queued(sessions[k + 1..])
  {
    assert sessions == sessions[k := sessions[k]];
    QueuedWith(sessions, k, sessions[k]);
  }

  // ---------- the books do not depend on the order of the queue

  lemma {:induction false} DistinctCounts(ms: seq<Msg>)
    ensures Distinct(ms) <==> forall m :: multiset(ms)[m] <= 1
    decreases |ms|
  {
    if |ms| > 0 {
      var front, last := ms[..|ms| - 1], ms[|ms| - 1];
      assert ms == front + [last];
      assert multiset(ms) == multiset(front) + multiset{last};
      DistinctCounts(front);
      if Distinct(ms) {
        assert Distinct(front) && last !in front;
      } else if Distinct(front) {
        assert last in front;
        assert multiset(ms)[last] > 1;
      } else {
        var m :| multiset(front)[m] > 1;
        assert multiset(ms)[m] > 1;
      }
    }
  }

  lemma SameBagBalances(alloc: Alloc, held: set<Msg>, a: seq<Msg>, b: seq<Msg>)
    requires Balanced(alloc, held, a) && multiset(a) == multiset(b)
    ensures Balanced(alloc, held, b)
  {
    DistinctCounts(a);
    DistinctCounts(b);
    assert |a| == |multiset(a)| == |multiset(b)| == |b|;
    assert forall m :: m in a <==> m in multiset(a);
    assert forall m :: m in b <==> m in multiset(b);
    assert Members(a) == Members(b);
  }

  lemma ToFront(before: seq<Msg>, queue: seq<Msg>, after: seq<Msg>)
    ensures multiset(before + queue + after) == multiset(queue + (before + after))
  {
  }

  /** Giving back the front of one queue in the middle. */
  lemma FreeInTheMiddle(alloc: Alloc, held: set<Msg>, before: seq<Msg>, queue: seq<Msg>, after: seq<Msg>, k: nat)
    requires Balanced(alloc, held, before + queue + after) && k <= |queue|
    ensures Balanced(alloc.FreeAll(queue[..k]), held, before + queue[k..] + after)
    ensures Members(queue[..k]) <= alloc.live && Distinct(queue[..k])
  {
    var rest := before + after;
    ToFront(before, queue, after);
    SameBagBalances(alloc, held, before + queue + after, queue + rest);
    assert queue + rest == queue[..k] + (queue[k..] + rest);
    FreeFrontBalances(alloc, held, queue[..k], queue[k..] + rest);
    ToFront(before, queue[k..], after);
    SameBagBalances(alloc.FreeAll(queue[..k]), held, queue[k..] + rest, before + queue[k..] + after);
    assert (queue + rest)[..k] == queue[..k];
    FrontIsLive(alloc, held, queue + rest, k);
  }

  // ---------- steps

  ghost predicate QueuesFit(sessions: seq<S.Session>) {
    forall k :: 0 <= k < |sessions| ==> QueueInv(sessions[k])
  }

  ghost predicate FleetInv(f: Fleet) {
    Balanced(f.alloc, f.held, Queued(f.sessions)) && QueuesFit(f.sessions)
  }

  lemma ReplaceFits(sessions: seq<S.Session>, k: nat, t: S.Session)
    requires QueuesFit(sessions) && k < |sessions| && QueueInv(t)
    ensures QueuesFit(sessions[k := t])
  {
  }

  lemma AtFits(f: Fleet, k: nat)
    requires QueuesFit(f.sessions) && k < |f.sessions|
    ensures QueueInv(At(f, k)) && At(f, k).alloc == f.alloc && At(f, k).outb == f.sessions[k].outb
  {
    assert QueueInv(f.sessions[k]);
  }

  lemma RunOnStep(f: Fleet, k: nat, step: S.Action)
    requires FleetInv(f) && Can(f, RunOn(k, step))
    ensures FleetInv(Do(f, RunOn(k, step)))
    ensures Members(Freed(At(f, k), step)) <= f.alloc.live && Distinct(Freed(At(f, k), step))
  {
    AtFits(f, k);
    var n := StepFreesFront(At(f, k), step);
    var t := S.Next(At(f, k), step);
    ReplaceFits(f.sessions, k, t);
    QueuedAround(f.sessions, k);
    QueuedWith(f.sessions, k, t);
    FreeInTheMiddle(f.alloc, f.held, Queued(f.sessions[..k]), f.sessions[k].outb.pump.queue,
                    Queued(f.sessions[k + 1..]), n);
  }

  lemma WriteGrows(s: S.Session, m: Msg, onIo: bool)
    requires QueueInv(s)
    ensures var t := S.Next(s, S.Write(m, onIo));
            QueueInv(t) && t.alloc == s.alloc && t.outb.pump.queue == s.outb.pump.queue + [m]
  {
    StepKeepsInv(s.outb.pump, Submit(m, onIo));
    SubmitKeepsTight(s.outb.pump, m, onIo);
    WriteEffect(s, m, onIo);
  }

  lemma LastQueueGrows(sessions: seq<S.Session>, t: S.Session, m: Msg)
    requires |sessions| > 0 && t.outb.pump.queue == sessions[|sessions| - 1].outb.pump.queue + [m]
    ensures Queued(sessions[|sessions| - 1 := t]) == Queued(sessions) + [m]
  {
    var k := |sessions| - 1;
    QueuedAround(sessions, k);
    QueuedWith(sessions, k, t);
    assert sessions[k + 1..] == [];
    ConcatAssociates(Queued(sessions[..k]), sessions[k].outb.pump.queue, [m]);
  }

  lemma SendNewestStep(f: Fleet, m: Msg, onIo: bool)
    requires FleetInv(f) && Can(f, SendNewest(m, onIo))
    ensures FleetInv(Do(f, SendNewest(m, onIo)))
  {
    var k := |f.sessions| - 1;
    AtFits(f, k);
    WriteGrows(At(f, k), m, onIo);
    var t := S.Next(At(f, k), S.Write(m, onIo));
    ReplaceFits(f.sessions, k, t);
    LastQueueGrows(f.sessions, t, m);
    SendBalances(f.alloc, f.held, Queued(f.sessions), m);
  }

  lemma ReadKeepsQueue(s: S.Session, at: nat, chunks: Chunks, text: bool, addr: Msg)
    requires QueueInv(s) && S.Enabled(s, S.ReadOk(at, chunks, text, addr))
    ensures var t := S.Next(s, S.ReadOk(at, chunks, text, addr));
            QueueInv(t) && t.outb == s.outb && t.alloc == s.alloc.Allocate(addr) && addr !in s.alloc.live
  {
  }

  lemma SameQueue(sessions: seq<S.Session>, k: nat, t: S.Session)
    requires k < |sessions| && t.outb == sessions[k].outb
    ensures Queued(sessions[k := t]) == Queued(sessions)
  {
    QueuedAround(sessions, k);
    QueuedWith(sessions, k, t);
  }

  /** The exact condition on handle_message, now for all sessions together. */
  lemma ReceiveOnExact(f: Fleet, d: Deed)
    requires FleetInv(f) && d.ReceiveOn? && Can(f, d)
    ensures FleetInv(Do(f, d)) <==> ReturnsOwned(f, d)
  {
    AtFits(f, d.k);
    ReadKeepsQueue(At(f, d.k), d.at, d.chunks, d.text, d.addr);
    var t := S.Next(At(f, d.k), S.ReadOk(d.at, d.chunks, d.text, d.addr));
    ReplaceFits(f.sessions, d.k, t);
    SameQueue(f.sessions, d.k, t);
    ReceiveBalancesExactly(f.alloc, f.held, Queued(f.sessions), d.addr, d.back);
  }

  lemma CreateStep(f: Fleet)
    requires FleetInv(f)
    ensures FleetInv(Do(f, Create))
  {
    var s := S.Init(HOOKS);
    QueuedConcat(f.sessions, [s]);
    QueuedOne(s);
    assert Queued(f.sessions) + [] == Queued(f.sessions);
    assert QueueInv(s);
  }

  lemma DeedKeepsInv(f: Fleet, d: Deed)
    requires FleetInv(f) && Can(f, d) && ReturnsOwned(f, d)
    ensures FleetInv(Do(f, d))
  {
    match d
    case Create => CreateStep(f);
    case Allocate(m) => NewBalances(f.alloc, f.held, Queued(f.sessions), m);
    case GiveUp(m) => ReleaseBalances(f.alloc, f.held, Queued(f.sessions), m);
    case SendNewest(m, onIo) => SendNewestStep(f, m, onIo);
    case ReceiveOn(_, _, _, _, _, _) => ReceiveOnExact(f, d);
    case RunOn(k, step) => RunOnStep(f, k, step);
  }

  // ---------- sessions do not meddle with each other

  /** A message that is sent goes to the newest session, at once if that is idle and the call
      is made on an io thread; every other step of a session leaves the others alone. */
  lemma OnlyOneSessionMoves(f: Fleet, d: Deed)
    requires Can(f, d)
    ensures d.Create? ==> Do(f, d).sessions == f.sessions + [S.Init(HOOKS)]
    ensures d.Allocate? || d.GiveUp? ==> Do(f, d).sessions == f.sessions
    ensures d.SendNewest? ==>
              var k := |f.sessions| - 1;
              var p := f.sessions[k].outb.pump;
              var q := Do(f, d).sessions[k].outb.pump;
              && |Do(f, d).sessions| == |f.sessions| && Do(f, d).sessions[..k] == f.sessions[..k]
              && q.submitted == p.submitted + [d.msg] && q.queue == p.queue + [d.msg]
              && q.wire == p.wire + (if d.onIo && |p.queue| == 0 then [d.msg] else [])
    ensures d.ReceiveOn? ==>
              Do(f, d).sessions[d.k] == S.Next(At(f, d.k), S.ReadOk(d.at, d.chunks, d.text, d.addr))
    ensures d.RunOn? ==> Do(f, d).sessions[d.k] == S.Next(At(f, d.k), d.step)
    ensures d.ReceiveOn? || d.RunOn? ==>
              && |Do(f, d).sessions| == |f.sessions|
              && forall j :: 0 <= j < |f.sessions| && j != d.k ==> Do(f, d).sessions[j] == f.sessions[j]
  {
  }

  // ---------- whole runs

  lemma {:induction false} DeedsKeepInv(f: Fleet, deeds: seq<Deed>)
    requires FleetInv(f) && Lawful(f, deeds) && AllReturnOwned(f, deeds)
    ensures FleetInv(DoAll(f, deeds))
    decreases |deeds|
  {
    if |deeds| > 0 {
      DeedKeepsInv(f, deeds[0]);
      DeedsKeepInv(Do(f, deeds[0]), deeds[1..]);
    }
  }

  lemma {:induction false} IdleQueuesAreEmpty(sessions: seq<S.Session>)
    requires forall k :: 0 <= k < |sessions| ==> QueueInv(sessions[k]) && |sessions[k].outb.pump.ops| == 0
    ensures Queued(sessions) == []
    decreases |sessions|
  {
    if |sessions| > 0 {
      assert QueueInv(sessions[0]);
      IdleQueuesAreEmpty(sessions[1..]);
    }
  }

  /** In every run, over however many sessions, old ones included: the allocated messages are
      the caller's and those in the queues of all sessions, without overlap, and the
      counter counts them; it is zero once the caller holds nothing and no session has a
      write pending. */
  lemma SharedMessagesAreConserved(deeds: seq<Deed>)
    requires Lawful(NO_SESSIONS, deeds) && AllReturnOwned(NO_SESSIONS, deeds)
    ensures var f := DoAll(NO_SESSIONS, deeds);
            && Balanced(f.alloc, f.held, Queued(f.sessions))
            && (f.held == {} && (forall k :: 0 <= k < |f.sessions| ==> |f.sessions[k].outb.pump.ops| == 0)
                ==> f.alloc == NO_MESSAGES)
  {
    DeedsKeepInv(NO_SESSIONS, deeds);
    NothingLeft(DoAll(NO_SESSIONS, deeds));
  }

  lemma NothingLeft(f: Fleet)
    requires FleetInv(f)
    ensures f.held == {} && (forall k :: 0 <= k < |f.sessions| ==> |f.sessions[k].outb.pump.ops| == 0)
        ==> f.alloc == NO_MESSAGES
  {
    if forall k :: 0 <= k < |f.sessions| ==> |f.sessions[k].outb.pump.ops| == 0 {
      IdleQueuesAreEmpty(f.sessions);
    }
  }

  /** What one session gives back is allocated, distinct and, by the above, not queued on
      another session. */
  lemma SharedMessagesAreFreedOnce(deeds: seq<Deed>, k: nat, step: S.Action)
    requires Lawful(NO_SESSIONS, deeds) && AllReturnOwned(NO_SESSIONS, deeds)
    requires Can(DoAll(NO_SESSIONS, deeds), RunOn(k, step))
    ensures var f := DoAll(NO_SESSIONS, deeds);
            Members(Freed(At(f, k), step)) <= f.alloc.live && Distinct(Freed(At(f, k), step))
  {
    DeedsKeepInv(NO_SESSIONS, deeds);
    RunOnStep(DoAll(NO_SESSIONS, deeds), k, step);
  }
}
