/** How a session comes to rest once it is off ONLINE and nothing new is asked of it. */
module Quiescence {
  import opened Pumps
  import opened Seqs
  import opened SessionModel
  import opened SessionProofs
  import M = SessionModel

  /** Not ONLINE and not on the way there: a session that left ONLINE, whose opening
      failed, or that was never connected. */
  predicate Ending(c: Control) {
    c.status != ONLINE && forall i :: 0 <= i < |c.tokens| ==> !Opening(c.tokens[i])
  }

  lemma LeftOnlineIsEnding(c: Control)
    requires LoopInv(c) && LeftOnline(c)
    ensures Ending(c)
  {
  }

  predicate AsksMore(a: Action) {
    a.Write? || a.Close? || a.Connect? || a.Accept?
  }

  ghost predicate AsksNothing(acts: seq<Action>) {
    forall i :: 0 <= i < |acts| ==> !AsksMore(acts[i])
  }

  // ---------- what is left to do

  function TokenRank(t: Token): nat {
    match t
    case ReadQueued => 3
    case Reading => 2
    case _ => 1
  }

  function TokensRank(tokens: seq<Token>): nat {
    if |tokens| == 0 then 0 else TokenRank(tokens[0]) + TokensRank(tokens[1..])
  }

  /** A close that is only dispatched takes two more steps. */
  function ClosesRank(closes: seq<Stage>): nat {
    |closes| + multiset(closes)[Dispatched]
  }

  ghost function Remaining(s: Session): nat {
    Measure(s.outb.pump) + TokensRank(s.ctl.tokens) + ClosesRank(s.ctl.closes)
  }

  /** Lambdas run and completions handled. */
  predicate Handles(a: Action) {
    || a.RunWrite? || a.WriteDone? || a.RunRead? || a.ReadOk? || a.ReadFail?
    || a.ContinueRead? || a.ReportEnd? || a.RunClose? || a.CloseDone?
  }

  function Handlers(acts: seq<Action>): nat {
    if |acts| == 0 then 0 else (if Handles(acts[0]) then 1 else 0) + Handlers(acts[1..])
  }

  // ---------- one step

  lemma FewTokens(tokens: seq<Token>)
    requires |tokens| <= 1
    ensures TokensRank(tokens) == if |tokens| == 1 then TokenRank(tokens[0]) else 0
  {
    if |tokens| == 1 {
      assert TokensRank(tokens[1..]) == 0;
    }
  }

  lemma TokensStep(h: Hooks, open: bool, c: Control, a: Action)
    requires LoopInv(c) && Ending(c) && ControlEnabled(c, a) && !AsksMore(a)
    ensures var d := NextControl(h, open, c, a);
            && Ending(d)
            && TokensRank(d.tokens)
               + (if a.RunRead? || a.ReadOk? || a.ReadFail? || a.ContinueRead? || a.ReportEnd? then 1 else 0)
               <= TokensRank(c.tokens)
  {
    FewTokens(c.tokens);
    FewTokens(NextControl(h, open, c, a).tokens);
  }

  lemma RemoveFromBag(closes: seq<Stage>, i: nat)
    requires i < |closes|
    ensures multiset(closes) == multiset(Remove(closes, i)) + multiset{closes[i]}
  {
    assert closes == closes[..i] + [closes[i]] + closes[i + 1..];
  }

  lemma StartedFromBag(closes: seq<Stage>, i: nat)
    requires i < |closes| && closes[i] == Dispatched
    ensures ClosesRank(closes[i := InFlight]) + 1 == ClosesRank(closes)
  {
    assert multiset(closes[i := InFlight]) == multiset(closes) - multiset{Dispatched} + multiset{InFlight};
  }

  lemma ClosesStep(h: Hooks, open: bool, c: Control, a: Action)
    requires ControlEnabled(c, a) && !AsksMore(a)
    ensures ClosesRank(NextControl(h, open, c, a).closes) + (if a.RunClose? || a.CloseDone? then 1 else 0)
         <= ClosesRank(c.closes)
  {
    if a.CloseDone? {
      RemoveFromBag(c.closes, a.close);
    } else if a.RunClose? {
      StartedFromBag(c.closes, a.close);
    } else {
      assert NextControl(h, open, c, a).closes == c.closes;
    }
  }

  lemma PumpStep(s: Session, a: Action)
    requires M.Enabled(s, a) && !AsksMore(a)
    ensures Measure(M.Next(s, a).outb.pump) + (if a.RunWrite? || a.WriteDone? then 1 else 0) <= Measure(s.outb.pump)
  {
    var move := MoveOf(s.hooks, s.open, s.ctl, a);
    if move.Some? {
      MeasureDecreases(s.outb.pump, move.value);
    }
  }

  lemma RestStep(s: Session, a: Action)
    requires ControlInv(s.hooks, s.ctl) && Ending(s.ctl) && M.Enabled(s, a) && !AsksMore(a)
    ensures ControlInv(s.hooks, M.Next(s, a).ctl) && Ending(M.Next(s, a).ctl)
    ensures (if Handles(a) then 1 else 0) + Remaining(M.Next(s, a)) <= Remaining(s)
  {
    ControlStep(s.hooks, s.open, s.ctl, a);
    TokensStep(s.hooks, s.open, s.ctl, a);
    ClosesStep(s.hooks, s.open, s.ctl, a);
    PumpStep(s, a);
  }

  // ---------- whole runs

  lemma {:induction false} RestRun(s: Session, acts: seq<Action>)
    requires ControlInv(s.hooks, s.ctl) && Ending(s.ctl) && M.Legal(s, acts) && AsksNothing(acts)
    ensures ControlInv(s.hooks, M.Exec(s, acts).ctl) && Ending(M.Exec(s, acts).ctl)
    ensures Handlers(acts) + Remaining(M.Exec(s, acts)) <= Remaining(s)
    decreases |acts|
  {
    if |acts| > 0 {
      assert !AsksMore(acts[0]);
      RestStep(s, acts[0]);
      assert AsksNothing(acts[1..]);
      RestRun(M.Next(s, acts[0]), acts[1..]);
    }
  }

  /** Some pending operation can complete now, or some dispatched lambda run. */
  predicate CanRun(s: Session) {
    || M.Enabled(s, RunWrite(0)) || M.Enabled(s, WriteDone(0, 0))
    || M.Enabled(s, ContinueRead(0, true)) || M.Enabled(s, RunRead(0))
    || M.Enabled(s, ReadFail(0, WebsocketClosed, [])) || M.Enabled(s, ReportEnd(0))
    || M.Enabled(s, RunClose(0)) || M.Enabled(s, CloseDone(0))
  }

  lemma TokenCanRun(s: Session)
    requires Ending(s.ctl) && |s.ctl.tokens| > 0
    ensures CanRun(s)
  {
    var t := s.ctl.tokens[0];
    assert !Opening(t);
    if t.ReadQueued? {
      assert M.Enabled(s, RunRead(0));
    } else if t.Reading? {
      assert M.Enabled(s, ReadFail(0, WebsocketClosed, []));
    } else if t.ErrorTail? {
      assert M.Enabled(s, ReportEnd(0));
    } else {
      assert M.Enabled(s, ContinueRead(0, true));
    }
  }

  lemma UnfinishedCanRun(s: Session)
    requires Ending(s.ctl) && Attended(s.outb.pump)
    ensures if Remaining(s) > 0 then CanRun(s) else Unreferenced(s) && |s.outb.pump.queue| == 0
  {
    if |s.outb.pump.ops| > 0 {
      assert M.Enabled(s, RunWrite(0)) || M.Enabled(s, WriteDone(0, 0));
    } else if |s.ctl.tokens| > 0 {
      TokenCanRun(s);
    } else if |s.ctl.closes| > 0 {
      assert M.Enabled(s, RunClose(0)) || M.Enabled(s, CloseDone(0));
    } else {
      assert multiset(s.ctl.closes) == multiset{};
    }
  }

  /** From any run that ended off ONLINE, while nothing new is asked: a measure of the queue,
      the pending operations and the pending closes bounds the handlers still to come;
      while it is positive one of them can run; and when it is zero nothing refers to the
      session and its queue is empty, so that its destructor does not throw. */
  lemma SessionComesToRest(hooks: Hooks, before: seq<Action>, acts: seq<Action>)
    requires M.Legal(Init(hooks), before) && AsksNothing(acts)
    requires var s := M.Exec(Init(hooks), before); Ending(s.ctl) && M.Legal(s, acts)
    ensures var s := M.Exec(Init(hooks), before);
            var t := M.Exec(s, acts);
            && Handlers(acts) + Remaining(t) <= Remaining(s)
            && (if Remaining(t) > 0 then CanRun(t) else Unreferenced(t) && |t.outb.pump.queue| == 0)
  {
    var s := M.Exec(Init(hooks), before);
    ControlRun(Init(hooks), before);
    RunRoutes(Init(hooks), before);
    RestRun(s, acts);
    DestructionFindsQueueEmpty(hooks, before);
    RunRefinesPump(s, acts);
    QueueAlwaysAttended(s.outb.pump, Moves(s, acts));
    UnfinishedCanRun(M.Exec(s, acts));
  }
}
