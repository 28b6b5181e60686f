/** What the client's callbacks are told over whole runs of the client: the session's history
    with the three handlers that the client installs. */
module ClientHistory {
  import opened Seqs
  import opened SessionHistory
  import opened SessionProofs
  import C = ClientModel
  import S = SessionModel

  /** The session's part in a step of the client. */
  function Part(a: C.Action): seq<S.Action> {
    match a
    case NewMsg(_) => []
    case Release(_) => []
    case Send(m, onIo) => [S.Write(m, onIo)]
    case Receive(at, chunks, text, addr, _) => [S.ReadOk(at, chunks, text, addr)]
    case Run(step) => [step]
  }

  function Parts(acts: seq<C.Action>): seq<S.Action> {
    if |acts| == 0 then [] else Part(acts[0]) + Parts(acts[1..])
  }

  /** What the logs gained between two states, as told by the session's steps in between. */
  ghost predicate Grown(s: S.Session, t: S.Session, steps: seq<S.Action>) {
    && t.ctl.statusLog == s.ctl.statusLog + Statuses(steps)
    && t.ctl.readyLog + ReadyOwed(t.ctl) == s.ctl.readyLog + ReadyOwed(s.ctl) + Outcomes(steps)
    && t.ctl.endCalls + EndOwed(t.ctl) == s.ctl.endCalls + EndOwed(s.ctl) + ReadErrors(steps)
    && t.ctl.closeCalls == s.ctl.closeCalls + ClosesDone(steps)
    && t.inb.delivered == s.inb.delivered + Deliveries(steps)
    && t.outb.pump.submitted == s.outb.pump.submitted + Written(steps)
  }

  ghost predicate Sound(s: S.Session) {
    s.hooks == C.HOOKS && ControlInv(s.hooks, s.ctl) && FrameInv(s.hooks, s.ctl, s.inb)
  }

  lemma One(a: S.Action)
    ensures Statuses([a]) == StatusSet(a) && Outcomes([a]) == Outcome(a)
    ensures Deliveries([a]) == Delivered(a) && Written([a]) == WrittenBy(a)
    ensures ReadErrors([a]) == (if a.ReadFail? then 1 else 0) && ClosesDone([a]) == if a.CloseDone? then 1 else 0
  {
    assert [a][1..] == [];
  }

  lemma StepGrows(s: S.Session, a: S.Action)
    requires Sound(s) && S.Enabled(s, a)
    ensures Sound(S.Next(s, a)) && Grown(s, S.Next(s, a), [a])
  {
    One(a);
    StatusStep(s.hooks, s.open, s.ctl, a);
    ReadyStep(s.hooks, s.open, s.ctl, a);
    EndCallStep(s.hooks, s.open, s.ctl, a);
    CloseStep(s, a);
    DeliveredStep(s.hooks, s.ctl, s.inb, a);
    WriteStep(s, a);
    ControlStep(s.hooks, s.open, s.ctl, a);
    InboundStep(s.hooks, s.open, s.ctl, s.inb, a);
  }

  lemma Prepend(a: S.Action, rest: seq<S.Action>)
    ensures Statuses([a] + rest) == Statuses([a]) + Statuses(rest)
    ensures Outcomes([a] + rest) == Outcomes([a]) + Outcomes(rest)
    ensures Deliveries([a] + rest) == Deliveries([a]) + Deliveries(rest)
    ensures Written([a] + rest) == Written([a]) + Written(rest)
    ensures ReadErrors([a] + rest) == ReadErrors([a]) + ReadErrors(rest)
    ensures ClosesDone([a] + rest) == ClosesDone([a]) + ClosesDone(rest)
  {
    One(a);
    var all := [a] + rest;
    assert all[0] == a && all[1..] == rest && [a][1..] == [];
    assert Statuses(all) == StatusSet(a) + Statuses(rest);
    assert Outcomes(all) == Outcome(a) + Outcomes(rest);
    assert Deliveries(all) == Delivered(a) + Deliveries(rest);
    assert Written(all) == WrittenBy(a) + Written(rest);
  }

  lemma GrownTwice(s: S.Session, t: S.Session, u: S.Session, a: S.Action, rest: seq<S.Action>)
    requires Grown(s, t, [a]) && Grown(t, u, rest)
    ensures Grown(s, u, [a] + rest)
  {
    Prepend(a, rest);
    ConcatAssociates(s.ctl.statusLog, Statuses([a]), Statuses(rest));
    ConcatAssociates(s.ctl.readyLog + ReadyOwed(s.ctl), Outcomes([a]), Outcomes(rest));
    ConcatAssociates(s.inb.delivered, Deliveries([a]), Deliveries(rest));
    ConcatAssociates(s.outb.pump.submitted, Written([a]), Written(rest));
  }

  lemma ClientStepGrows(c: C.Client, a: C.Action)
    requires Sound(c.session) && C.Enabled(c, a)
    ensures Sound(C.Next(c, a).session) && Grown(c.session, C.Next(c, a).session, Part(a))
  {
    if |Part(a)| > 0 {
      StepGrows(c.session, Part(a)[0]);
    }
  }

  lemma {:induction false} ClientRunGrows(c: C.Client, acts: seq<C.Action>)
    requires Sound(c.session) && C.Legal(c, acts)
    ensures Grown(c.session, C.Exec(c, acts).session, Parts(acts)) && Sound(C.Exec(c, acts).session)
    decreases |acts|
  {
    if |acts| > 0 {
      var d := C.Next(c, acts[0]);
      ClientStepGrows(c, acts[0]);
      ClientRunGrows(d, acts[1..]);
      if |Part(acts[0])| > 0 {
        GrownTwice(c.session, d.session, C.Exec(c, acts).session, Part(acts[0])[0], Parts(acts[1..]));
      } else {
        assert Parts(acts) == Parts(acts[1..]);
      }
    }
  }

  /** In every run of the client: on_ready hears the result of the attempt, once; on_close
      every completed close; handle_message gets every message received, in its memory and
      with its bytes, and the end of reading is reported once; what was sent was written,
      in order. */
  lemma ClientHearsAll(acts: seq<C.Action>)
    requires C.Legal(C.INIT, acts)
    ensures var s := C.Exec(C.INIT, acts).session;
            var steps := Parts(acts);
            && s.ctl.statusLog == [S.BLOCKED] + Statuses(steps)
            && s.ctl.readyLog + ReadyOwed(s.ctl) == Outcomes(steps)
            && s.ctl.closeCalls == ClosesDone(steps)
            && s.ctl.endCalls + EndOwed(s.ctl) == ReadErrors(steps)
            && s.inb.delivered == Deliveries(steps)
            && s.outb.pump.submitted == Written(steps)
  {
    InitIsSound();
    ClientRunGrows(C.INIT, acts);
    GrownFromNothing(C.Exec(C.INIT, acts).session, Parts(acts));
  }

  lemma InitIsSound()
    ensures Sound(C.INIT.session)
  {
  }

  lemma GrownFromNothing(t: S.Session, steps: seq<S.Action>)
    requires Grown(C.INIT.session, t, steps)
    ensures t.ctl.statusLog == [S.BLOCKED] + Statuses(steps)
    ensures t.ctl.readyLog + ReadyOwed(t.ctl) == Outcomes(steps)
    ensures t.ctl.closeCalls == ClosesDone(steps) && t.ctl.endCalls + EndOwed(t.ctl) == ReadErrors(steps)
    ensures t.inb.delivered == Deliveries(steps) && t.outb.pump.submitted == Written(steps)
  {
  }

  /** A message sent on an io thread is started at once if nothing is queued; one sent from
      elsewhere waits for the dispatched lambda. */
  lemma SendStarts(c: C.Client, m: nat, onIo: bool)
    requires C.Enabled(c, C.Send(m, onIo))
    ensures var p := c.session.outb.pump;
            C.Next(c, C.Send(m, onIo)).session.outb.pump.wire
            == p.wire + if onIo && |p.queue| == 0 then [m] else []
  {
    WriteStep(c.session, S.Write(m, onIo));
  }
}
