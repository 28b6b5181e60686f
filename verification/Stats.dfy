/** Session statistics: counters published once a second by a timer. */
module StatsSpec {
  import opened Seqs
  import opened Words

  /** `published` and `added` are logs since the latest reset: every value handed over
      to `last`, and the unbounded sum of everything added. */
  datatype Counter = Counter(total: nat, last: nat, published: seq<nat>, added: nat) {
    function Add(amount: nat): Counter {
      this.(total := Wrap(total + amount), added := added + amount)
    }

    function Publish(): Counter {
      Counter(0, total, published + [total], added)
    }
  }

  const ZERO := Counter(0, 0, [], 0)

  /** A timer wait: not yet due, due with its callback queued, or cancelled with its
      callback queued. Cancelling does not reach a wait that is already due. */
  datatype Wait = Armed | Due | Aborted

  datatype Stats = Stats(
    inData: Counter, inMsgs: Counter, outData: Counter, outMsgs: Counter,
    enabled: bool, waits: seq<Wait>)

  const INIT := Stats(ZERO, ZERO, ZERO, ZERO, false, [])

  datatype Action =
    | SetEnabled(on: bool)
    | Expire(wait: nat)
    | Callback(wait: nat)
    | Inbound(bytes: nat)
    | Outbound(bytes: nat)

  function Cancelled(waits: seq<Wait>): (r: seq<Wait>)
    ensures |r| == |waits|
    ensures forall i :: 0 <= i < |r| ==> r[i] == if waits[i].Armed? then Aborted else waits[i]
  {
    seq(|waits|, i requires 0 <= i < |waits| => if waits[i].Armed? then Aborted else waits[i])
  }

  predicate Enabled(s: Stats, a: Action) {
    match a
    case SetEnabled(_) => true
    case Expire(i) => i < |s.waits| && s.waits[i].Armed?
    case Callback(i) => i < |s.waits| && !s.waits[i].Armed?
    case Inbound(_) => true
    case Outbound(_) => true
  }

  function Next(s: Stats, a: Action): Stats
    requires Enabled(s, a)
  {
    match a
    case SetEnabled(on) =>
      if on && !s.enabled then
        Stats(ZERO, ZERO, ZERO, ZERO, true, Cancelled(s.waits) + [Armed])
      else if s.enabled then s.(waits := Cancelled(s.waits))
      else s
    case Expire(i) => s.(waits := s.waits[i := Due])
    case Callback(i) =>
      var rest := Remove(s.waits, i);
      if s.waits[i].Aborted? then s.(enabled := false, waits := rest)
      else Stats(s.inData.Publish(), s.inMsgs.Publish(), s.outData.Publish(), s.outMsgs.Publish(),
                 s.enabled, Cancelled(rest) + [Armed])
    case Inbound(n) => s.(inData := s.inData.Add(n), inMsgs := s.inMsgs.Add(1))
    case Outbound(n) => s.(outData := s.outData.Add(n), outMsgs := s.outMsgs.Add(1))
  }

  predicate Legal(s: Stats, acts: seq<Action>)
    decreases |acts|
  {
    |acts| == 0 || (Enabled(s, acts[0]) && Legal(Next(s, acts[0]), acts[1..]))
  }

  function Exec(s: Stats, acts: seq<Action>): Stats
    requires Legal(s, acts)
    decreases |acts|
  {
    if |acts| == 0 then s else Exec(Next(s, acts[0]), acts[1..])
  }

  // ---------- the enable flag agrees with the timer

  ghost predicate Agrees(s: Stats) {
    |s.waits| <= 1 && (s.enabled <==> |s.waits| == 1)
  }

  /** Over any interleaving of enable and disable calls, expiries, cancellations and
      callbacks, the flag is set exactly when one timer wait is outstanding. */
  lemma {:induction false} FlagAgreesWithTimer(s: Stats, acts: seq<Action>)
    requires Agrees(s) && Legal(s, acts)
    ensures Agrees(Exec(s, acts))
    decreases |acts|
  {
    if |acts| > 0 {
      FlagAgreesWithTimer(Next(s, acts[0]), acts[1..]);
    }
  }

  function Calls(ons: seq<bool>): seq<Action> {
    seq(|ons|, i requires 0 <= i < |ons| => SetEnabled(ons[i]))
  }

  /** On enabled statistics any call, and any further calls before the callback runs,
      have the same effect: they stop the timer unless it was due already. In
      particular enabling twice stops it, and so does disabling and enabling again. */
  lemma {:induction false} CallsStopTimerUnlessDue(s: Stats, ons: seq<bool>)
    requires Agrees(s) && s.enabled && |ons| > 0
    ensures Legal(s, Calls(ons)) && Enabled(Exec(s, Calls(ons)), Callback(0))
    ensures Next(Exec(s, Calls(ons)), Callback(0)).enabled <==> s.waits[0].Due?
    decreases |ons|
  {
    var t := Next(s, SetEnabled(ons[0]));
    assert Calls(ons)[1..] == Calls(ons[1..]);
    assert t.enabled && Agrees(t) && (t.waits[0].Due? <==> s.waits[0].Due?);
    if |ons| > 1 {
      CallsStopTimerUnlessDue(t, ons[1..]);
    } else {
      assert Calls(ons[1..]) == [];
    }
  }

  /** Enabling twice: the callback finds its wait cancelled and clears the flag. */
  lemma EnablingTwiceStops()
    ensures var acts := [SetEnabled(true), SetEnabled(true)];
            && Legal(INIT, acts) && Exec(INIT, acts).enabled && Enabled(Exec(INIT, acts), Callback(0))
            && !Next(Exec(INIT, acts), Callback(0)).enabled
  {
    var a := SetEnabled(true);
    var s := Next(INIT, a);
    assert [a, a][1..] == [a] && [a][1..] == [];
    assert s.enabled && s.waits == [Armed];
    assert Next(s, a).waits == [Aborted];
    assert Exec(s, [a]) == Exec(Next(s, a), []);
  }

  // ---------- nothing counted is lost

  function Sum(s: seq<nat>): nat {
    if |s| == 0 then 0 else Sum(s[..|s| - 1]) + s[|s| - 1]
  }

  ghost predicate Conserved(c: Counter) {
    && c.total < WORD_RANGE
    && Wrap(Sum(c.published) + c.total) == Wrap(c.added)
    && c.last == (if |c.published| == 0 then 0 else c.published[|c.published| - 1])
  }

  ghost predicate AllConserved(s: Stats) {
    Conserved(s.inData) && Conserved(s.inMsgs) && Conserved(s.outData) && Conserved(s.outMsgs)
  }

  lemma AddConserves(c: Counter, n: nat)
    requires Conserved(c)
    ensures Conserved(c.Add(n))
  {
    WrapAgain(Sum(c.published) + c.total, n);
    WrapAgain(c.added, n);
    WrapAgain(c.total + n, Sum(c.published));
  }

  lemma PublishConserves(c: Counter)
    requires Conserved(c)
    ensures Conserved(c.Publish())
  {
    assert c.Publish().published[..|c.published|] == c.published;
  }

  /** For each of the four counters, what was published since the latest reset plus the
      running total is, modulo 2^64, everything the handlers added. */
  lemma {:induction false} CountsAreConserved(s: Stats, acts: seq<Action>)
    requires AllConserved(s) && Legal(s, acts)
    ensures AllConserved(Exec(s, acts))
    decreases |acts|
  {
    if |acts| > 0 {
      match acts[0] {
        case Inbound(n) =>
          AddConserves(s.inData, n);
          AddConserves(s.inMsgs, 1);
        case Outbound(n) =>
          AddConserves(s.outData, n);
          AddConserves(s.outMsgs, 1);
        case Callback(_) =>
          PublishConserves(s.inData);
          PublishConserves(s.inMsgs);
          PublishConserves(s.outData);
          PublishConserves(s.outMsgs);
        case SetEnabled(_) =>
        case Expire(_) =>
      }
      CountsAreConserved(Next(s, acts[0]), acts[1..]);
    }
  }

  // ---------- what is published, and when

  /** Nothing was counted since the latest reset or publication. */
  predicate Fresh(s: Stats) {
    s.inData.total == 0 && s.inMsgs.total == 0 && s.outData.total == 0 && s.outMsgs.total == 0
  }

  /** Enabling disabled statistics forgets everything counted before and arms the timer. */
  lemma EnablingResets(s: Stats)
    requires Agrees(s) && !s.enabled
    ensures var n := Next(s, SetEnabled(true));
            && n.enabled && n.waits == [Armed] && Fresh(n)
            && n.inData.last == n.inMsgs.last == n.outData.last == n.outMsgs.last == 0
            && n.inData.added == n.inMsgs.added == n.outData.added == n.outMsgs.added == 0
            && |n.inData.published| == |n.inMsgs.published| == |n.outData.published| == |n.outMsgs.published| == 0
  {
  }

  /** Messages are counted and time passes, but nothing is published. */
  ghost predicate Counting(acts: seq<Action>) {
    forall i :: 0 <= i < |acts| ==> acts[i].Inbound? || acts[i].Outbound? || acts[i].Expire?
  }

  function InBytes(acts: seq<Action>): nat {
    if |acts| == 0 then 0 else (if acts[0].Inbound? then acts[0].bytes else 0) + InBytes(acts[1..])
  }

  function InMessages(acts: seq<Action>): nat {
    if |acts| == 0 then 0 else (if acts[0].Inbound? then 1 else 0) + InMessages(acts[1..])
  }

  function OutBytes(acts: seq<Action>): nat {
    if |acts| == 0 then 0 else (if acts[0].Outbound? then acts[0].bytes else 0) + OutBytes(acts[1..])
  }

  function OutMessages(acts: seq<Action>): nat {
    if |acts| == 0 then 0 else (if acts[0].Outbound? then 1 else 0) + OutMessages(acts[1..])
  }

  /** The totals while counting from `s` on. */
  ghost predicate Totals(s: Stats, inData: nat, inMsgs: nat, outData: nat, outMsgs: nat) {
    && s.inData.total == Wrap(inData) && s.inMsgs.total == Wrap(inMsgs)
    && s.outData.total == Wrap(outData) && s.outMsgs.total == Wrap(outMsgs)
  }

  lemma CountStep(s: Stats, a: Action, inData: nat, inMsgs: nat, outData: nat, outMsgs: nat)
    requires Totals(s, inData, inMsgs, outData, outMsgs) && Enabled(s, a) && Counting([a])
    ensures if a.Inbound? then Totals(Next(s, a), inData + a.bytes, inMsgs + 1, outData, outMsgs)
            else if a.Outbound? then Totals(Next(s, a), inData, inMsgs, outData + a.bytes, outMsgs + 1)
            else Totals(Next(s, a), inData, inMsgs, outData, outMsgs)
  {
    assert [a][0] == a;
    WrapAgain(inMsgs, 1);
    WrapAgain(outMsgs, 1);
    if a.Inbound? {
      WrapAgain(inData, a.bytes);
    } else if a.Outbound? {
      WrapAgain(outData, a.bytes);
    }
  }

  lemma {:induction false} CountRun(s: Stats, acts: seq<Action>, inData: nat, inMsgs: nat, outData: nat, outMsgs: nat)
    requires Totals(s, inData, inMsgs, outData, outMsgs) && Legal(s, acts) && Counting(acts)
    ensures Totals(Exec(s, acts), inData + InBytes(acts), inMsgs + InMessages(acts),
                   outData + OutBytes(acts), outMsgs + OutMessages(acts))
    decreases |acts|
  {
    if |acts| > 0 {
      var a := acts[0];
      assert Counting([a]) && Counting(acts[1..]);
      CountStep(s, a, inData, inMsgs, outData, outMsgs);
      if a.Inbound? {
        CountRun(Next(s, a), acts[1..], inData + a.bytes, inMsgs + 1, outData, outMsgs);
      } else if a.Outbound? {
        CountRun(Next(s, a), acts[1..], inData, inMsgs, outData + a.bytes, outMsgs + 1);
      } else {
        CountRun(Next(s, a), acts[1..], inData, inMsgs, outData, outMsgs);
      }
    }
  }

  /** A callback whose wait ran out publishes, for each counter, exactly what was counted
      since the publication or reset before, modulo 2^64, and counting begins anew. */
  lemma PeriodIsPublished(s: Stats, acts: seq<Action>, i: nat)
    requires Fresh(s) && Legal(s, acts) && Counting(acts)
    requires Enabled(Exec(s, acts), Callback(i)) && Exec(s, acts).waits[i].Due?
    ensures var n := Next(Exec(s, acts), Callback(i));
            && Fresh(n)
            && n.inData.last == Wrap(InBytes(acts)) && n.inMsgs.last == Wrap(InMessages(acts))
            && n.outData.last == Wrap(OutBytes(acts)) && n.outMsgs.last == Wrap(OutMessages(acts))
  {
    CountRun(s, acts, 0, 0, 0, 0);
  }

  function Callbacks(acts: seq<Action>): nat {
    if |acts| == 0 then 0 else (if acts[0].Callback? then 1 else 0) + Callbacks(acts[1..])
  }

  /** Left alone, enabled statistics go on for good: every callback publishes all counters
      and arms the timer again. */
  lemma {:induction false} KeepsPublishing(s: Stats, acts: seq<Action>)
    requires Agrees(s) && s.enabled && Aborted !in s.waits && Legal(s, acts)
    requires forall i :: 0 <= i < |acts| ==> !acts[i].SetEnabled?
    ensures var t := Exec(s, acts);
            && Agrees(t) && t.enabled && Aborted !in t.waits
            && |t.inData.published| == |s.inData.published| + Callbacks(acts)
            && |t.inMsgs.published| == |s.inMsgs.published| + Callbacks(acts)
            && |t.outData.published| == |s.outData.published| + Callbacks(acts)
            && |t.outMsgs.published| == |s.outMsgs.published| + Callbacks(acts)
    decreases |acts|
  {
    if |acts| > 0 {
      assert !acts[0].SetEnabled?;
      forall i | 0 <= i < |acts[1..]| ensures !acts[1..][i].SetEnabled? {
        assert acts[1..][i] == acts[i + 1];
      }
      KeepsPublishing(Next(s, acts[0]), acts[1..]);
    }
  }
}

/** The classes of the statistics header. */
module SessionStatistics {
  import opened Seqs
  import opened StatsSpec
  import opened Words

  class Stat {
    var total: nat
    var last: nat
    ghost var published: seq<nat>
    ghost var added: nat

    ghost function View(): Counter
      reads this
    {
      Counter(total, last, published, added)
    }

    constructor ()
      ensures View() == ZERO
    {
      total, last, published, added := 0, 0, [], 0;
    }

    method DiffCallback()
      modifies this
      ensures View() == old(View()).Publish()
    {
      published := published + [total];
      last := total;
      total := 0;
    }

    /** The prefix operator counts, and returns the value before. */
    method PreIncrement() returns (r: nat)
      modifies this
      ensures View() == old(View()).Add(1) && r == old(total)
    {
      r := total;
      Add(1);
    }

    /** The postfix operator counts, and returns the value after. */
    method PostIncrement() returns (r: nat)
      modifies this
      ensures View() == old(View()).Add(1) && r == total
    {
      Add(1);
      r := total;
    }

    method Add(amount: nat)
      modifies this
      ensures View() == old(View()).Add(amount)
    {
      total := Wrap(total + amount);
      added := added + amount;
    }

    method Reset()
      modifies this
      ensures View() == ZERO
    {
      total := 0;
      last := 0;
      published, added := [], 0;
    }
  }

  class SessionStats {
    const inData: Stat
    const inMsgs: Stat
    const outData: Stat
    const outMsgs: Stat
    var isEnabled: bool
    ghost var waits: seq<Wait>

    ghost function Repr(): set<object> {
      {this, inData, inMsgs, outData, outMsgs}
    }

    ghost predicate Valid() {
      && inData != inMsgs && inData != outData && inData != outMsgs
      && inMsgs != outData && inMsgs != outMsgs && outData != outMsgs
    }

    ghost function View(): Stats
      requires Valid()
      reads Repr()
    {
      Stats(inData.View(), inMsgs.View(), outData.View(), outMsgs.View(), isEnabled, waits)
    }

    constructor ()
      ensures Valid() && fresh(Repr()) && View() == INIT
    {
      inData := new Stat();
      inMsgs := new Stat();
      outData := new Stat();
      outMsgs := new Stat();
      isEnabled, waits := false, [];
    }

    /** expires_after followed by async_wait: older waits are cancelled. */
    ghost method ArmTimer()
      modifies this`waits
      ensures waits == Cancelled(old(waits)) + [Armed]
    {
      waits := Cancelled(waits) + [Armed];
    }

    method SetEnabled(enabled: bool)
      requires Valid()
      modifies Repr()
      ensures View() == Next(old(View()), StatsSpec.SetEnabled(enabled))
    {
      if enabled && !isEnabled {
        inData.Reset();
        inMsgs.Reset();
        outData.Reset();
        outMsgs.Reset();
        isEnabled := true;
        ArmTimer();
      } else {
        if isEnabled {
          waits := Cancelled(waits);
        }
      }
    }

    /** The timer callback of outstanding wait `i`. */
    method DoStatCheck(failed: bool, ghost i: nat)
      requires Valid() && Enabled(View(), Callback(i)) && (failed <==> waits[i].Aborted?)
      modifies Repr()
      ensures View() == Next(old(View()), Callback(i))
    {
      waits := Remove(waits, i);
      if failed {
        isEnabled := false;
        return;
      }
      inData.DiffCallback();
      inMsgs.DiffCallback();
      outData.DiffCallback();
      outMsgs.DiffCallback();
      ArmTimer();
    }

    /** What the read handler adds for one message. */
    method CountInbound(bytes: nat)
      requires Valid()
      modifies Repr()
      ensures View() == Next(old(View()), Inbound(bytes))
    {
      inData.Add(bytes);
      var _ := inMsgs.PostIncrement();
    }

    /** What the write completion handler adds for one message. */
    method CountOutbound(bytes: nat)
      requires Valid()
      modifies Repr()
      ensures View() == Next(old(View()), Outbound(bytes))
    {
      outData.Add(bytes);
      var _ := outMsgs.PostIncrement();
    }
  }
}
