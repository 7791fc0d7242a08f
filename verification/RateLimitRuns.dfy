/** The shared limiter together with all its child collectors: what leaves them in every run. */
module RateLimitRuns {
  import opened Traffic
  import L = RateLimit
  import Pipeline

  /** One child: its unmatched requests, the threshold waiting in its channel, whether it is still
      told about epochs, and what it has handed on. */
  datatype Child = Child(arrivals: map<Key, int>, channel: Option<int>, open: bool, out: seq<Packet>)

  datatype System = System(w: L.World, children: seq<Child>)

  datatype Event =
    | Tick(offset: int)
    | Fire
    | NewCollector
    | Close(child: nat)
    | Process(child: nat, t: Packet, at: int)

  /** The limiter's configuration and the maximum duration of a request. */
  datatype Settings = Settings(limit: L.Config, maxDuration: int)

  /** What an event is to the limiter, if anything. */
  function LimiterEvent(e: Event): seq<L.Event> {
    match e
    case Tick(offset) => [L.Tick(offset)]
    case Fire => [L.Fire]
    case Process(_, t, at) => if t.content.HttpRequest? then [L.Request(at)] else []
    case _ => []
  }

  ghost predicate Enabled(c: Settings, s: System, e: Event) {
    && (LimiterEvent(e) != [] ==> L.Enabled(c.limit, s.w, LimiterEvent(e)[0]))
    && (e.Close? || e.Process? ==> e.child < |s.children|)
  }

  function Told(child: Child, threshold: int): Child {
    if child.open && child.channel.None? then child.(channel := Some(threshold)) else child
  }

  function ChildStep(child: Child, t: Packet, allowed: bool): Child {
    var (arrivals, forward) := Pipeline.LimitStep(child.arrivals, t, allowed, child.channel);
    child.(arrivals := arrivals, channel := None, out := child.out + if forward then [t] else [])
  }

  /** What a collector does; an index that is not in the list stands for nothing. */
  function ChildrenAfter(c: Settings, s: System, w: L.World, e: Event): seq<Child> {
    match e
    case Fire => s.children
    case Tick(_) =>
      seq(|s.children|, i requires 0 <= i < |s.children| => Told(s.children[i], w.epochStart - c.maxDuration))
    case NewCollector => s.children + [Child(map[], None, true, [])]
    case Close(i) => if i < |s.children| then s.children[i := s.children[i].(open := false)] else s.children
    case Process(i, t, _) =>
      if i < |s.children| then s.children[i := ChildStep(s.children[i], t, s.w.l.active)] else s.children
  }

  function Step(c: Settings, s: System, e: Event): System {
    var w := if LimiterEvent(e) != [] then L.Next(c.limit, s.w, LimiterEvent(e)[0]) else s.w;
    System(w, ChildrenAfter(c, s, w, e))
  }

  function After(c: Settings, es: seq<Event>): System {
    if es == [] then System(L.Start(), []) else Step(c, After(c, es[..|es| - 1]), es[|es| - 1])
  }

  ghost predicate Run(c: Settings, es: seq<Event>) {
    es == [] || (Run(c, es[..|es| - 1]) && Enabled(c, After(c, es[..|es| - 1]), es[|es| - 1]))
  }

  function LimiterEvents(es: seq<Event>): seq<L.Event> {
    if es == [] then [] else LimiterEvents(es[..|es| - 1]) + LimiterEvent(es[|es| - 1])
  }

  lemma LimiterStep(c: Settings, ls: seq<L.Event>, s: System, e: Event)
    requires L.Run(c.limit, ls) && s.w == L.After(c.limit, ls) && Enabled(c, s, e)
    ensures L.Run(c.limit, ls + LimiterEvent(e)) && Step(c, s, e).w == L.After(c.limit, ls + LimiterEvent(e))
  {
    if LimiterEvent(e) == [] {
      assert ls + [] == ls;
    } else {
      L.RunExtend(c.limit, ls, LimiterEvent(e)[0]);
    }
  }

  /** The limiter inside the system makes a run of its own. */
  lemma {:induction false} LimiterRuns(c: Settings, es: seq<Event>)
    requires Run(c, es)
    ensures L.Run(c.limit, LimiterEvents(es)) && After(c, es).w == L.After(c.limit, LimiterEvents(es))
  {
    if es != [] {
      var init, e := es[..|es| - 1], es[|es| - 1];
      LimiterRuns(c, init);
      LimiterStep(c, LimiterEvents(init), After(c, init), e);
    }
  }

  // ---------------------------------------------------------------------------------
  // How many requests leave the collectors

  function RequestCount(out: seq<Packet>): nat {
    if out == [] then 0 else RequestCount(out[..|out| - 1]) + if out[|out| - 1].content.HttpRequest? then 1 else 0
  }

  function TotalRequests(children: seq<Child>): nat {
    if children == [] then 0
    else TotalRequests(children[..|children| - 1]) + RequestCount(children[|children| - 1].out)
  }

  lemma {:induction false} TotalOfChange(children: seq<Child>, i: nat, child: Child)
    requires i < |children|
    ensures TotalRequests(children[i := child])
         == TotalRequests(children) - RequestCount(children[i].out) + RequestCount(child.out)
  {
    var n, changed := |children| - 1, children[i := child];
    if i == n {
      assert changed[..n] == children[..n];
    } else {
      TotalOfChange(children[..n], i, child);
      assert changed[..n] == children[..n][i := child];
    }
  }

  lemma {:induction false} TotalOfSame(a: seq<Child>, b: seq<Child>)
    requires |a| == |b| && forall i :: 0 <= i < |a| ==> a[i].out == b[i].out
    ensures TotalRequests(a) == TotalRequests(b)
  {
    if a != [] { TotalOfSame(a[..|a| - 1], b[..|b| - 1]); }
  }

  lemma ProcessCounts(c: Settings, s: System, i: nat, t: Packet)
    requires i < |s.children|
    ensures TotalRequests(s.children[i := ChildStep(s.children[i], t, s.w.l.active)])
         == TotalRequests(s.children) + if t.content.HttpRequest? && s.w.l.active then 1 else 0
  {
    var child := s.children[i];
    var child' := ChildStep(child, t, s.w.l.active);
    TotalOfChange(s.children, i, child');
    assert (child.out + [t])[..|child.out|] == child.out;
    assert child.out + [] == child.out;
  }

  lemma StepCounts(c: Settings, s: System, e: Event)
    requires Enabled(c, s, e) && TotalRequests(s.children) == s.w.admitted
    ensures TotalRequests(Step(c, s, e).children) == Step(c, s, e).w.admitted
  {
    match e
    case Fire =>
    case Tick(_) => TotalOfSame(s.children, Step(c, s, e).children);
    case NewCollector => assert Step(c, s, e).children[..|s.children|] == s.children;
    case Close(i) => TotalOfSame(s.children, Step(c, s, e).children);
    case Process(i, t, _) => ProcessCounts(c, s, i, t);
  }

  /** The requests that all child collectors have handed on are those that the limiter admitted. */
  lemma {:induction false} HandedOnIsAdmitted(c: Settings, es: seq<Event>)
    requires Run(c, es)
    ensures TotalRequests(After(c, es).children) == After(c, es).w.admitted
  {
    if es != [] {
      HandedOnIsAdmitted(c, es[..|es| - 1]);
      StepCounts(c, After(c, es[..|es| - 1]), es[|es| - 1]);
    }
  }

  /** The events up to the last tick, or none. */
  function ToLastTick(es: seq<Event>): seq<Event> {
    if es == [] || es[|es| - 1].Tick? then es else ToLastTick(es[..|es| - 1])
  }

  lemma {:induction false} AdmittedAtLastTick(c: Settings, es: seq<Event>)
    requires Run(c, es)
    ensures Run(c, ToLastTick(es)) && After(c, es).w.admittedBefore == After(c, ToLastTick(es)).w.admitted
  {
    if es != [] && !es[|es| - 1].Tick? { AdmittedAtLastTick(c, es[..|es| - 1]); }
  }

  /** All collectors together hand on at most one budget of requests for each interval start, n
      budgets in the first n epochs, and two budgets since the last tick. */
  lemma RequestsThroughWithinBudget(c: Settings, es: seq<Event>)
    requires L.Sane(c.limit) && Run(c, es)
    ensures var s, tick := After(c, es), After(c, ToLastTick(es));
            L.WithinBudget(c.limit.witnessesPerEpoch, s.w.starts, s.w.epochs,
                           TotalRequests(s.children), TotalRequests(tick.children))
  {
    LimiterRuns(c, es);
    L.RequestsWithinBudget(c.limit, LimiterEvents(es));
    HandedOnIsAdmitted(c, es);
    AdmittedAtLastTick(c, es);
    HandedOnIsAdmitted(c, ToLastTick(es));
  }

  // ---------------------------------------------------------------------------------
  // Which packets leave a collector

  /** Whether the limiter admits a request or other content after the events, from these alone:
      the interval timer has fired, and fewer requests than the budget came since. */
  predicate BudgetLeft(c: Settings, es: seq<Event>) { L.BudgetLeft(c.limit, LimiterEvents(es)) }

  /** What collector `i` is given by event `e`, with what limiter and channel answer. */
  function Given(s: System, e: Event, i: nat, admitted: bool): seq<Pipeline.Input> {
    if e.Process? && e.child == i && i < |s.children| then [Pipeline.Input(e.t, admitted, s.children[i].channel)] else []
  }

  function Inputs(c: Settings, es: seq<Event>, i: nat): seq<Pipeline.Input> {
    if es == [] then []
    else
      var init := es[..|es| - 1];
      Inputs(c, init, i) + Given(After(c, init), es[|es| - 1], i, BudgetLeft(c, init))
  }

  lemma ChildrenGrow(c: Settings, s: System, e: Event)
    ensures |s.children| <= |Step(c, s, e).children|
  {
  }

  lemma {:induction false} NoInputsYet(c: Settings, es: seq<Event>, i: nat)
    requires es == [] || |After(c, es[..|es| - 1]).children| <= i
    ensures Inputs(c, es, i) == []
  {
    if es != [] {
      var init := es[..|es| - 1];
      if init != [] { ChildrenGrow(c, After(c, init[..|init| - 1]), init[|init| - 1]); }
      NoInputsYet(c, init, i);
    }
  }

  ghost predicate Follows(child: Child, ins: seq<Pipeline.Input>) {
    child.arrivals == Pipeline.LimitRun(ins) && child.out == Pipeline.HandedOn(ins)
  }

  lemma ChildStepFollows(child: Child, ins: seq<Pipeline.Input>, t: Packet, allowed: bool)
    requires Follows(child, ins)
    ensures Follows(ChildStep(child, t, allowed), ins + [Pipeline.Input(t, allowed, child.channel)])
  {
    var ins' := ins + [Pipeline.Input(t, allowed, child.channel)];
    assert ins'[..|ins|] == ins;
  }

  lemma ChildOf(c: Settings, s: System, e: Event, i: nat)
    requires i < |s.children|
    ensures i < |Step(c, s, e).children|
    ensures var child, child' := s.children[i], Step(c, s, e).children[i];
            if e.Process? && e.child == i then child' == ChildStep(child, e.t, s.w.l.active)
            else child'.arrivals == child.arrivals && child'.out == child.out
  {
  }

  lemma EventFollows(c: Settings, s: System, e: Event, i: nat, ins: seq<Pipeline.Input>)
    requires i < |s.children| && Follows(s.children[i], ins)
    ensures i < |Step(c, s, e).children| && Follows(Step(c, s, e).children[i], ins + Given(s, e, i, s.w.l.active))
  {
    ChildOf(c, s, e, i);
    if e.Process? && e.child == i {
      ChildStepFollows(s.children[i], ins, e.t, s.w.l.active);
    } else {
      assert ins + Given(s, e, i, s.w.l.active) == ins;
    }
  }

  /** A collector's map and output are those of the pure collector on its inputs. */
  lemma {:induction false} ChildFollows(c: Settings, es: seq<Event>, i: nat)
    requires L.Sane(c.limit) && Run(c, es) && i < |After(c, es).children|
    ensures Follows(After(c, es).children[i], Inputs(c, es, i))
  {
    var init, e := es[..|es| - 1], es[|es| - 1];
    var s := After(c, init);
    if i < |s.children| {
      ChildFollows(c, init, i);
      ActiveIffBudgetLeft(c, init);
      EventFollows(c, s, e, i, Inputs(c, init, i));
    } else {
      NoInputsYet(c, es, i);
      NewChildFollows(c, s, e, i);
    }
  }

  lemma NewChildFollows(c: Settings, s: System, e: Event, i: nat)
    requires |s.children| <= i < |Step(c, s, e).children|
    ensures Follows(Step(c, s, e).children[i], [])
  {
    assert e.NewCollector? && Step(c, s, e).children[i] == Child(map[], None, true, []);
  }

  /** A response is handed on if its request waits for it, everything else if it is admitted. */
  ghost predicate HandsOn(ins: seq<Pipeline.Input>, t: Packet, admitted: bool) {
    if t.content.HttpResponse? then exists j: nat :: Pipeline.WaitsSince(ins, t.content.key, j) else admitted
  }

  lemma ChildHandsOn(child: Child, ins: seq<Pipeline.Input>, t: Packet, allowed: bool)
    requires Follows(child, ins)
    ensures ChildStep(child, t, allowed).out == child.out + if HandsOn(ins, t, allowed) then [t] else []
  {
    if t.content.HttpResponse? {
      Pipeline.ResponseForwardedIffWaiting(ins, Pipeline.Input(t, allowed, child.channel));
    }
  }

  lemma ActiveIffBudgetLeft(c: Settings, es: seq<Event>)
    requires L.Sane(c.limit) && Run(c, es)
    ensures After(c, es).w.l.active <==> BudgetLeft(c, es)
  {
    LimiterRuns(c, es);
    L.ActiveIffBudgetLeft(c.limit, LimiterEvents(es));
  }

  /** In every run a collector hands on a request, or content other than HTTP, exactly if the
      budget is not used up; a response exactly if its request was handed on and still waits; and
      no other collector changes. */
  lemma HandsOnIff(c: Settings, es: seq<Event>, i: nat, t: Packet, at: int)
    requires L.Sane(c.limit) && Run(c, es) && i < |After(c, es).children|
    ensures var children, children' := After(c, es).children, Step(c, After(c, es), Process(i, t, at)).children;
            && |children'| == |children|
            && children'[i].out == children[i].out + (if HandsOn(Inputs(c, es, i), t, BudgetLeft(c, es)) then [t] else [])
            && forall j :: 0 <= j < |children| && j != i ==> children'[j] == children[j]
  {
    var s := After(c, es);
    ActiveIffBudgetLeft(c, es);
    ChildFollows(c, es, i);
    ChildHandsOn(s.children[i], Inputs(c, es, i), t, BudgetLeft(c, es));
    assert Step(c, s, Process(i, t, at)).children == s.children[i := ChildStep(s.children[i], t, s.w.l.active)];
  }

  // ---------------------------------------------------------------------------------
  // What expires

  /** The threshold of some epoch that has begun: its start minus the maximum duration. */
  ghost predicate FromTick(c: Settings, es: seq<Event>, threshold: int) {
    exists j :: 0 <= j < |es| && es[j].Tick? && threshold == After(c, es[..j + 1]).w.epochStart - c.maxDuration
  }

  lemma FromTickStays(c: Settings, es: seq<Event>, e: Event, threshold: int)
    requires FromTick(c, es, threshold)
    ensures FromTick(c, es + [e], threshold)
  {
    var j :| 0 <= j < |es| && es[j].Tick? && threshold == After(c, es[..j + 1]).w.epochStart - c.maxDuration;
    assert (es + [e])[j] == es[j] && (es + [e])[..j + 1] == es[..j + 1];
  }

  lemma {:induction false} ChannelFromTick(c: Settings, es: seq<Event>, i: nat)
    requires i < |After(c, es).children| && After(c, es).children[i].channel.Some?
    ensures FromTick(c, es, After(c, es).children[i].channel.value)
  {
    var init, e := es[..|es| - 1], es[|es| - 1];
    var s, channel := After(c, init), After(c, es).children[i].channel;
    assert init + [e] == es;
    if i < |s.children| && s.children[i].channel == channel {
      ChannelFromTick(c, init, i);
      FromTickStays(c, init, e, channel.value);
    } else {
      assert e.Tick? && es[..|es|] == es && es[|es| - 1] == e;
      assert channel.value == After(c, es).w.epochStart - c.maxDuration;
    }
  }

  /** In every run a collector forgets a request only if it was observed more than the maximum
      duration before the start of some epoch. */
  lemma {:induction false} ExpiryFromTick(c: Settings, es: seq<Event>, i: nat, n: nat)
    requires n < |Inputs(c, es, i)| && Inputs(c, es, i)[n].expiry.Some?
    ensures FromTick(c, es, Inputs(c, es, i)[n].expiry.value)
  {
    var init, e := es[..|es| - 1], es[|es| - 1];
    assert init + [e] == es;
    if n < |Inputs(c, init, i)| {
      ExpiryFromTick(c, init, i, n);
      FromTickStays(c, init, e, Inputs(c, init, i)[n].expiry.value);
    } else {
      ChannelFromTick(c, init, i);
      FromTickStays(c, init, e, After(c, init).children[i].channel.value);
    }
  }
}
