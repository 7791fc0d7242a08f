/** The shared rate limiter: an epoch ticker, a randomly placed sample interval in each
    epoch, and a moving average of interval lengths that bounds the next random draw.

    Time is an integer number of nanoseconds on an idealised clock: the ticker fires at
    multiples of the epoch length, a timer fires exactly at its deadline, and both come
    before a request that carries the same time stamp. */
module RateLimit {

  datatype Config = Config(epoch: int, alpha: real, witnessesPerEpoch: int)

  /** What NewRateLimit and the flag documentation allow: a positive epoch, a weight in
      (0, 1] and at least one witness per epoch. */
  ghost predicate Sane(c: Config) {
    c.epoch >= 1 && 0.0 < c.alpha <= 1.0 && c.witnessesPerEpoch >= 1
  }

  /** The part of the limiter that the estimator and the budget read and write. */
  datatype Limiter = Limiter(intervalStart: int, active: bool, count: int, estimate: int, firstEstimate: bool)

  function MovingAverage(alpha: real, estimate: int, length: int): int {
    ((1.0 - alpha) * estimate as real + alpha * length as real).Floor
  }

  function AfterStart(l: Limiter, start: int): Limiter {
    l.(intervalStart := start, active := true, count := 0)
  }

  function AfterEnd(c: Config, l: Limiter, end: int): Limiter {
    var length := end - l.intervalStart;
    var estimate := if l.firstEstimate then length else MovingAverage(c.alpha, l.estimate, length);
    l.(active := false, count := 0, estimate := estimate, firstEstimate := false)
  }

  function AfterRequest(c: Config, l: Limiter, now: int): Limiter {
    if !l.active then l
    else
      var counted := l.(count := l.count + 1);
      if counted.count >= c.witnessesPerEpoch then AfterEnd(c, counted, now) else counted
  }

  /** The budget of an epoch, rounded up to one witness (NewRateLimit). */
  function WitnessBudget(witnessesPerMinute: real, epochMinutes: real): (n: int)
    ensures n >= 1
    ensures witnessesPerMinute * epochMinutes >= 1.0 ==>
              n as real <= witnessesPerMinute * epochMinutes < n as real + 1.0
    ensures witnessesPerMinute * epochMinutes < 1.0 ==> n == 1
  {
    var limit := witnessesPerMinute * epochMinutes;
    (if limit < 1.0 then 1.0 else limit).Floor
  }

  // ---------------------------------------------------------------------------------
  // Timed runs

  /** The limiter together with its clock. `epochStart` is the time of the last tick (0
      before the first one), `timer` the deadline of the interval timer if it is armed.
      `starts`, `admitted` and `admittedBefore` count interval starts, requests let
      through, and requests let through before the last tick. */
  datatype World = World(l: Limiter, epochStart: int, epochs: nat, now: int, timer: Timer,
                         starts: nat, admitted: nat, admittedBefore: nat)

  datatype Timer = Stopped | Armed(deadline: int)

  datatype Event =
    | Tick(offset: int)     // the epoch ticker fires and the random draw yields offset
    | Fire                  // the interval timer fires
    | Request(at: int)      // some child collector asks for one HTTP request

  function Start(): World {
    World(Limiter(0, false, 0, 0, true), 0, 0, 0, Armed(0), 0, 0, 0)
  }

  /** The end of the range that rand.Int63n draws from; it panics unless this is positive. */
  function UpperBound(c: Config, l: Limiter): int { c.epoch - l.estimate }

  ghost predicate LegalOffset(c: Config, l: Limiter, offset: int) {
    if l.firstEstimate then offset == 0 else 0 <= offset < UpperBound(c, l)
  }

  /** Whether `e` may be the next thing to happen. */
  ghost predicate Enabled(c: Config, w: World, e: Event) {
    match e
    case Tick(offset) =>
      && (w.timer.Armed? ==> w.epochStart + c.epoch <= w.timer.deadline)
      && LegalOffset(c, w.l, offset)
    case Fire =>
      w.timer.Armed? && w.timer.deadline <= w.epochStart + c.epoch
    case Request(at) =>
      && w.now <= at < w.epochStart + c.epoch
      && (w.timer.Armed? ==> at < w.timer.deadline)
  }

  function Next(c: Config, w: World, e: Event): World {
    match e
    case Tick(offset) =>
      var tick := w.epochStart + c.epoch;
      w.(epochStart := tick, epochs := w.epochs + 1, now := tick, timer := Armed(tick + offset),
         admittedBefore := w.admitted)
    case Fire =>
      var at := if w.timer.Armed? then w.timer.deadline else w.now;
      w.(l := AfterStart(w.l, at), now := at, timer := Stopped, starts := w.starts + 1)
    case Request(at) =>
      w.(l := AfterRequest(c, w.l, at), now := at,
         admitted := if w.l.active then w.admitted + 1 else w.admitted)
  }

  /** The world after the events `es`, in order. */
  function After(c: Config, es: seq<Event>): World {
    if es == [] then Start() else Next(c, After(c, es[..|es| - 1]), es[|es| - 1])
  }

  ghost predicate Run(c: Config, es: seq<Event>) {
    es == [] || (Run(c, es[..|es| - 1]) && Enabled(c, After(c, es[..|es| - 1]), es[|es| - 1]))
  }

  // ---------------------------------------------------------------------------------
  // The estimate stays below the epoch length

  /** Exactly when the feedback through the moving average is harmless. An interval that
      outlives its epoch lasts at most 2 * epoch - 2 - estimate nanoseconds. */
  ghost predicate Damped(c: Config) {
    c.alpha * (2 * c.epoch - 2) as real < c.epoch as real
  }

  lemma AtMostHalfIsDamped(c: Config)
    requires Sane(c) && c.alpha <= 0.5
    ensures Damped(c)
  {
    assert c.alpha * (2 * c.epoch - 2) as real <= 0.5 * (2 * c.epoch - 2) as real;
  }

  lemma Product(x: real, y: real)
    requires 0.0 <= x && 0.0 <= y
    ensures 0.0 <= x * y
  {
  }

  /** The average is linear in the estimate, so it is bounded by its values at both ends of
      the range: a * m when the estimate is 0, and E - 1 when the estimate is E - 1. */
  lemma ConvexBound(a: real, e: real, n: real, E: real)
    requires 0.0 < a <= 1.0 && 0.0 <= e <= E - 1.0
    requires 0.0 <= n <= 2.0 * E - 2.0 - e && a * (2.0 * E - 2.0) < E
    ensures 0.0 <= (1.0 - a) * e + a * n < E
  {
    var m := 2.0 * E - 2.0;
    var ae, am, an := a * e, a * m, a * n;
    assert (1.0 - a) * e == e - ae;
    assert 0.0 <= ae <= e by {
      Product(a, e);
      Product(1.0 - a, e);
    }
    assert 0.0 <= an <= am - ae by {
      Product(a, n);
      Product(a, m - e - n);
      assert a * (m - e - n) == am - ae - an;
    }
    if a <= 0.5 {
      Product(1.0 - 2.0 * a, E - 1.0 - e);
      assert (1.0 - 2.0 * a) * (E - 1.0 - e) == E - 1.0 - am - e + 2.0 * ae;
    } else {
      Product(2.0 * a - 1.0, e);
      assert (2.0 * a - 1.0) * e == 2.0 * ae - e;
    }
  }

  /** One averaging step keeps the estimate inside [0, epoch), whatever the length of the
      interval, up to the longest possible one. */
  lemma AverageStaysBelow(c: Config, estimate: int, length: int)
    requires Sane(c) && Damped(c)
    requires 0 <= estimate < c.epoch && 0 <= length <= 2 * c.epoch - 2 - estimate
    ensures 0 <= MovingAverage(c.alpha, estimate, length) < c.epoch
  {
    ConvexBound(c.alpha, estimate as real, length as real, c.epoch as real);
  }

  /** The invariant of every run. An armed timer that finds an interval still active means
      the interval began in the previous epoch; the timer was drawn against the estimate
      that the interval will be averaged into. */
  ghost predicate Inv(c: Config, w: World) {
    && w.epochStart <= w.now < w.epochStart + c.epoch
    && 0 <= w.l.estimate < c.epoch
    && (w.timer.Armed? ==> w.now <= w.timer.deadline < w.epochStart + c.epoch)
    && (w.timer.Armed? && w.l.firstEstimate ==> w.timer.deadline == w.now)
    && (w.l.active ==> 0 <= w.l.count < c.witnessesPerEpoch && w.l.intervalStart <= w.now)
    && (w.l.active && w.timer.Stopped? ==> w.epochStart <= w.l.intervalStart)
    && (w.l.active && w.timer.Armed? && !w.l.firstEstimate ==>
          && w.epochStart - c.epoch <= w.l.intervalStart
          && w.timer.deadline < w.epochStart + c.epoch - w.l.estimate)
  }

  lemma InvStep(c: Config, w: World, e: Event)
    requires Sane(c) && Damped(c) && Inv(c, w) && Enabled(c, w, e)
    ensures Inv(c, Next(c, w, e))
  {
    match e
    case Tick(offset) =>
    case Fire =>
    case Request(at) =>
      if w.l.active && w.l.count + 1 >= c.witnessesPerEpoch && !w.l.firstEstimate {
        AverageStaysBelow(c, w.l.estimate, at - w.l.intervalStart);
      }
  }

  lemma {:induction false} InvRun(c: Config, es: seq<Event>)
    requires Sane(c) && Damped(c) && Run(c, es)
    ensures Inv(c, After(c, es))
  {
    if es != [] {
      InvRun(c, es[..|es| - 1]);
      InvStep(c, After(c, es[..|es| - 1]), es[|es| - 1]);
    }
  }

  /** In every run the estimate is in [0, epoch), the random draw has a non-empty range, and
      an armed timer fires before the next tick. */
  lemma EstimateBelowEpoch(c: Config, es: seq<Event>)
    requires Sane(c) && c.alpha <= 0.5 && Run(c, es)
    ensures var w := After(c, es);
            && 0 <= w.l.estimate < c.epoch
            && UpperBound(c, w.l) > 0
            && (w.timer.Armed? ==> w.epochStart <= w.timer.deadline < w.epochStart + c.epoch)
  {
    AtMostHalfIsDamped(c);
    InvRun(c, es);
  }

  /** An interval that a request could end now has lasted less than one epoch, or less than
      two epochs minus the estimate when it outlived the epoch that started it. */
  lemma IntervalLength(c: Config, es: seq<Event>, at: int)
    requires Sane(c) && Damped(c) && Run(c, es + [Request(at)])
    requires After(c, es).l.active
    ensures var w := After(c, es);
            && 0 <= at - w.l.intervalStart < 2 * c.epoch - 1 - w.l.estimate
            && (w.l.firstEstimate || w.timer.Stopped? ==> at - w.l.intervalStart < c.epoch)
  {
    assert (es + [Request(at)])[..|es|] == es;
    InvRun(c, es);
  }

  // ---------------------------------------------------------------------------------
  // ... and only then: an undamped configuration has a run that ends in a panic

  /** `es` followed by `n` requests at the time `at`. */
  function Burst(es: seq<Event>, n: nat, at: int): seq<Event> {
    if n == 0 then es else Burst(es, n - 1, at) + [Request(at)]
  }

  lemma RunExtend(c: Config, es: seq<Event>, e: Event)
    requires Run(c, es) && Enabled(c, After(c, es), e)
    ensures Run(c, es + [e]) && After(c, es + [e]) == Next(c, After(c, es), e)
  {
    assert (es + [e])[..|es|] == es;
  }

  /** `w` after `n` requests at the time `at`, counted from zero. */
  function Counted(c: Config, w: World, n: nat, at: int): World {
    if n == 0 then w
    else
      w.(now := at, admitted := w.admitted + n,
         l := if n < c.witnessesPerEpoch then w.l.(count := n) else AfterEnd(c, w.l, at))
  }

  /** A burst counts up, and the last request of the budget ends the interval. */
  lemma {:induction false} BurstEndsInterval(c: Config, es: seq<Event>, w: World, n: nat, at: int)
    requires Sane(c) && Run(c, es) && After(c, es) == w && n <= c.witnessesPerEpoch
    requires w.l.active && w.l.count == 0 && Enabled(c, w, Request(at))
    ensures Run(c, Burst(es, n, at))
    ensures After(c, Burst(es, n, at)) == Counted(c, w, n, at)
  {
    if n != 0 {
      BurstEndsInterval(c, es, w, n - 1, at);
      CountedStep(c, w, n - 1, at);
      RunReaches(c, Burst(es, n - 1, at), Request(at), Counted(c, w, n - 1, at), Counted(c, w, n, at));
    }
  }

  lemma RunReaches(c: Config, es: seq<Event>, e: Event, w: World, w': World)
    requires Run(c, es) && After(c, es) == w && Enabled(c, w, e) && Next(c, w, e) == w'
    ensures Run(c, es + [e]) && After(c, es + [e]) == w'
  {
    RunExtend(c, es, e);
  }

  lemma CountedStep(c: Config, w: World, n: nat, at: int)
    requires n < c.witnessesPerEpoch && w.l.active && w.l.count == 0 && Enabled(c, w, Request(at))
    ensures Enabled(c, Counted(c, w, n, at), Request(at))
    ensures Next(c, Counted(c, w, n, at), Request(at)) == Counted(c, w, n + 1, at)
  {
  }

  /** The witness: spend the first budget at time 0, let the second interval start at the
      first tick and stay unused, draw the latest offset at the second tick, and spend the
      budget just before that timer fires. */
  function PanicRun(c: Config): seq<Event>
    requires c.witnessesPerEpoch >= 0
  {
    Burst(SecondTick(c), c.witnessesPerEpoch, 3 * c.epoch - 2)
  }

  /** The run up to the second tick. */
  function SecondTick(c: Config): seq<Event>
    requires c.witnessesPerEpoch >= 0
  {
    Burst([Fire], c.witnessesPerEpoch, 0) + [Tick(0)] + [Fire] + [Tick(c.epoch - 1)]
  }

  lemma FirstBudgetSpent(c: Config)
    requires Sane(c)
    ensures var es := Burst([Fire], c.witnessesPerEpoch, 0);
            && Run(c, es)
            && After(c, es) == World(Limiter(0, false, 0, 0, false), 0, 0, 0, Stopped, 1, c.witnessesPerEpoch, 0)
  {
    RunExtend(c, [], Fire);
    assert [] + [Fire] == [Fire];
    BurstEndsInterval(c, [Fire], After(c, [Fire]), c.witnessesPerEpoch, 0);
  }

  lemma SecondTickReached(c: Config)
    requires Sane(c)
    ensures var W := c.witnessesPerEpoch;
            && Run(c, SecondTick(c))
            && After(c, SecondTick(c)) == World(Limiter(c.epoch, true, 0, 0, false), 2 * c.epoch, 2, 2 * c.epoch,
                                                Armed(3 * c.epoch - 1), 2, W, W)
  {
    var es := Burst([Fire], c.witnessesPerEpoch, 0);
    FirstBudgetSpent(c);
    RunExtend(c, es, Tick(0));
    RunExtend(c, es + [Tick(0)], Fire);
    RunExtend(c, es + [Tick(0)] + [Fire], Tick(c.epoch - 1));
  }

  /** An unused estimate and the longest interval average to an epoch or more. */
  lemma UndampedAverage(c: Config)
    requires Sane(c) && !Damped(c)
    ensures c.epoch > 1 && MovingAverage(c.alpha, 0, 2 * c.epoch - 2) >= c.epoch
  {
    assert c.epoch != 1;
    assert (1.0 - c.alpha) * 0.0 == 0.0;
  }

  lemma UndampedRunPanics(c: Config)
    requires Sane(c) && !Damped(c)
    ensures Run(c, PanicRun(c))
    ensures UpperBound(c, After(c, PanicRun(c)).l) <= 0
    ensures !After(c, PanicRun(c)).l.firstEstimate
  {
    var w := After(c, SecondTick(c));
    SecondTickReached(c);
    UndampedAverage(c);
    BurstEndsInterval(c, SecondTick(c), w, c.witnessesPerEpoch, 3 * c.epoch - 2);
    assert After(c, PanicRun(c)) == Counted(c, w, c.witnessesPerEpoch, 3 * c.epoch - 2);
  }

  /** No run ever offers the random draw an empty range if and only if the configuration is
      damped. */
  lemma NeverPanicsIffDamped(c: Config)
    requires Sane(c)
    ensures Damped(c) <==> (forall es: seq<Event> :: Run(c, es) ==> UpperBound(c, After(c, es).l) > 0)
  {
    if Damped(c) {
      forall es: seq<Event> | Run(c, es) ensures UpperBound(c, After(c, es).l) > 0 {
        InvRun(c, es);
      }
    } else {
      UndampedRunPanics(c);
    }
  }

  // ---------------------------------------------------------------------------------
  // The witness budget

  /** Requests let through, against the number of intervals started. This needs nothing of
      the estimate. */
  ghost predicate Budget(c: Config, w: World) {
    var W := c.witnessesPerEpoch;
    && (w.l.active ==> 0 <= w.l.count < W && w.starts >= 1)
    && w.admitted <= W * w.starts
    && (w.l.active ==> w.admitted + W <= W * w.starts + w.l.count)
    && w.starts + (if w.timer.Armed? then 1 else 0) <= w.epochs + 1
    && w.admittedBefore <= w.admitted <= w.admittedBefore + 2 * W
    && (w.l.active ==> w.admitted <= w.admittedBefore + W + w.l.count)
    && (w.timer.Armed? ==> w.admitted <= w.admittedBefore + W)
    && (w.timer.Armed? && w.l.active ==> w.admitted <= w.admittedBefore + w.l.count)
  }

  lemma BudgetStep(c: Config, w: World, e: Event)
    requires Sane(c) && Budget(c, w) && Enabled(c, w, e)
    ensures Budget(c, Next(c, w, e))
  {
    assert c.witnessesPerEpoch * (w.starts + 1) == c.witnessesPerEpoch * w.starts + c.witnessesPerEpoch;
  }

  lemma {:induction false} BudgetRun(c: Config, es: seq<Event>)
    requires Sane(c) && Run(c, es)
    ensures Budget(c, After(c, es))
  {
    if es != [] {
      BudgetRun(c, es[..|es| - 1]);
      BudgetStep(c, After(c, es[..|es| - 1]), es[|es| - 1]);
    }
  }

  lemma MoreBudget(k: int, x: int, y: int)
    requires 0 <= k && x <= y
    ensures k * x <= k * y
  {
  }

  /** At most one budget per interval start, n budgets in the first n epochs, and two budgets
      since the last tick, before which there were `before`. */
  ghost predicate WithinBudget(budget: int, starts: nat, epochs: nat, admitted: nat, before: nat) {
    && admitted <= budget * starts
    && admitted <= budget * (epochs + 1)
    && admitted - before <= 2 * budget
  }

  /** What all child collectors together are granted stays within the budget, and while an
      interval is active its count does. */
  lemma RequestsWithinBudget(c: Config, es: seq<Event>)
    requires Sane(c) && Run(c, es)
    ensures var w := After(c, es);
            && (w.l.active ==> 0 <= w.l.count < c.witnessesPerEpoch)
            && WithinBudget(c.witnessesPerEpoch, w.starts, w.epochs, w.admitted, w.admittedBefore)
  {
    BudgetRun(c, es);
    MoreBudget(c.witnessesPerEpoch, After(c, es).starts, After(c, es).epochs + 1);
  }

  // ---------------------------------------------------------------------------------
  // What the estimate and the active flag say about the events so far

  /** `e` is the request that uses up the budget and so ends the interval. */
  predicate Ends(c: Config, w: World, e: Event) {
    e.Request? && w.l.active && w.l.count + 1 >= c.witnessesPerEpoch
  }

  /** The lengths of all intervals that ended, in order. */
  function Lengths(c: Config, es: seq<Event>): seq<int> {
    if es == [] then []
    else
      var n := |es| - 1;
      var w := After(c, es[..n]);
      Lengths(c, es[..n]) + if Ends(c, w, es[n]) then [es[n].at - w.l.intervalStart] else []
  }

  /** The first interval that ends sets the estimate to its own length. */
  lemma FirstEstimateIsLength(c: Config, es: seq<Event>, at: int)
    requires Ends(c, After(c, es), Request(at)) && After(c, es).l.firstEstimate
    ensures var w, w' := After(c, es), After(c, es + [Request(at)]);
            !w'.l.firstEstimate && !w'.l.active && w'.l.estimate == at - w.l.intervalStart
  {
    assert (es + [Request(at)])[..|es|] == es;
  }

  /** From `old'` the estimate moves toward `length`, never past it: of the distance between the
      two the fraction `r` remains, rounded down to a nanosecond. */
  ghost predicate MovesToward(r: real, old': int, length: int, new': int) {
    && (new' - length) as real <= r * (old' - length) as real < (new' - length) as real + 1.0
    && (length <= old' ==> length <= new' <= old')
    && (old' <= length ==> old' <= new' <= length)
  }

  lemma AverageMoves(a: real, e: int, n: int)
    requires 0.0 < a <= 1.0
    ensures MovesToward(1.0 - a, e, n, MovingAverage(a, e, n))
  {
    var x, y := e as real, n as real;
    assert (1.0 - a) * (x - y) == (1.0 - a) * x + a * y - y;
    FractionBetween(1.0 - a, e - n);
  }

  /** Each later one moves the estimate toward its own length, by the weight alpha. */
  lemma NextEstimateMovesToLength(c: Config, es: seq<Event>, at: int)
    requires Sane(c) && Ends(c, After(c, es), Request(at)) && !After(c, es).l.firstEstimate
    ensures var w, w' := After(c, es), After(c, es + [Request(at)]);
            && !w'.l.firstEstimate && !w'.l.active
            && MovesToward(1.0 - c.alpha, w.l.estimate, at - w.l.intervalStart, w'.l.estimate)
  {
    var w := After(c, es);
    assert (es + [Request(at)])[..|es|] == es;
    assert After(c, es + [Request(at)]).l == AfterEnd(c, w.l.(count := w.l.count + 1), at);
    AverageMoves(c.alpha, w.l.estimate, at - w.l.intervalStart);
  }

  lemma FractionBetween(r: real, d: int)
    requires 0.0 <= r < 1.0
    ensures 0 <= d ==> 0.0 <= r * d as real <= d as real
    ensures d <= 0 ==> d as real <= r * d as real <= 0.0
  {
    var x := d as real;
    if 0 <= d {
      Product(r, x);
      Product(1.0 - r, x);
      assert (1.0 - r) * x == x - r * x;
    } else {
      Product(r, -x);
      Product(1.0 - r, -x);
      assert r * -x == -(r * x) && (1.0 - r) * -x == -x + r * x;
    }
  }

  /** Nothing else changes the estimate. */
  lemma OnlyEndsChangeEstimate(c: Config, es: seq<Event>, e: Event)
    requires !Ends(c, After(c, es), e)
    ensures var w, w' := After(c, es), After(c, es + [e]);
            w'.l.estimate == w.l.estimate && w'.l.firstEstimate == w.l.firstEstimate
  {
    assert (es + [e])[..|es|] == es;
  }

  /** In every run the estimate lies between the shortest and the longest interval so far. */
  lemma {:induction false} EstimateWithinLengths(c: Config, es: seq<Event>, low: int, high: int)
    requires Sane(c) && forall i :: 0 <= i < |Lengths(c, es)| ==> low <= Lengths(c, es)[i] <= high
    ensures var l := After(c, es).l;
            && (l.firstEstimate <==> Lengths(c, es) == [])
            && (!l.firstEstimate ==> low <= l.estimate <= high)
  {
    if es != [] {
      var n := |es| - 1;
      var init, e := es[..n], es[n];
      assert init + [e] == es;
      var before := Lengths(c, init);
      assert forall i :: 0 <= i < |before| ==> Lengths(c, es)[i] == before[i];
      EstimateWithinLengths(c, init, low, high);
      if Ends(c, After(c, init), e) {
        assert Lengths(c, es)[|before|] == e.at - After(c, init).l.intervalStart;
        if After(c, init).l.firstEstimate {
          FirstEstimateIsLength(c, init, e.at);
        } else {
          NextEstimateMovesToLength(c, init, e.at);
        }
      } else {
        OnlyEndsChangeEstimate(c, init, e);
      }
    }
  }

  function Power(r: real, n: nat): real { if n == 0 then 1.0 else r * Power(r, n - 1) }

  function Distance(a: int, b: int): int { if a < b then b - a else a - b }

  lemma DistanceShrinks(r: real, k: real, p: real, d0: real, d: real, d': real)
    requires 0.0 <= r < 1.0 && (1.0 - r) * k == 1.0
    requires d <= p * d0 + k * (1.0 - p) && d' <= r * d + 1.0
    ensures d' <= (r * p) * d0 + k * (1.0 - r * p)
  {
    var bound := p * d0 + k * (1.0 - p);
    Product(r, bound - d);
    assert r * (bound - d) == r * bound - r * d;
    assert r * bound == (r * p) * d0 + k * r - k * (r * p);
    assert (1.0 - r) * k == k - k * r;
  }

  /** After `n` steps the distance `d0` has shrunk by the factor (1 - alpha) ^ n, up to the
      accumulated rounding, which stays below 1 / alpha nanoseconds. */
  ghost predicate Converged(alpha: real, n: nat, d0: int, estimate: int, length: int)
    requires alpha != 0.0
  {
    var p := Power(1.0 - alpha, n);
    Distance(estimate, length) as real <= p * d0 as real + (1.0 / alpha) * (1.0 - p)
  }

  /** When intervals keep ending with the same length, the estimate converges to it. */
  lemma {:induction false} RepeatedLengthConverges(c: Config, es: seq<Event>, more: seq<Event>, length: int)
    requires Sane(c) && !After(c, es).l.firstEstimate
    requires forall i :: |Lengths(c, es)| <= i < |Lengths(c, es + more)| ==> Lengths(c, es + more)[i] == length
    ensures !After(c, es + more).l.firstEstimate && |Lengths(c, es)| <= |Lengths(c, es + more)|
    ensures Converged(c.alpha, |Lengths(c, es + more)| - |Lengths(c, es)|,
                      Distance(After(c, es).l.estimate, length), After(c, es + more).l.estimate, length)
    decreases |more|
  {
    var d0 := Distance(After(c, es).l.estimate, length);
    if more == [] {
      assert es + more == es;
      assert Power(1.0 - c.alpha, 0) * d0 as real == d0 as real;
    } else {
      var init, e := es + more[..|more| - 1], more[|more| - 1];
      assert es + more == init + [e];
      LengthsSnoc(c, init, e);
      LengthsGrow(c, es, more[..|more| - 1]);
      assert forall i :: 0 <= i < |Lengths(c, init)| ==> Lengths(c, init + [e])[i] == Lengths(c, init)[i];
      RepeatedLengthConverges(c, es, more[..|more| - 1], length);
      if Ends(c, After(c, init), e) {
        assert Lengths(c, init + [e])[|Lengths(c, init)|] == length;
        NextEstimateMovesToLength(c, init, e.at);
        ConvergeStep(c.alpha, |Lengths(c, init)| - |Lengths(c, es)|, d0,
                     After(c, init).l.estimate, length, After(c, init + [e]).l.estimate);
      } else {
        OnlyEndsChangeEstimate(c, init, e);
      }
    }
  }

  lemma LengthsSnoc(c: Config, es: seq<Event>, e: Event)
    ensures var w := After(c, es);
            Lengths(c, es + [e]) == Lengths(c, es) + if Ends(c, w, e) then [e.at - w.l.intervalStart] else []
  {
    assert (es + [e])[..|es|] == es;
  }

  lemma ConvergeStep(alpha: real, n: nat, d0: int, old': int, length: int, new': int)
    requires 0.0 < alpha <= 1.0 && MovesToward(1.0 - alpha, old', length, new')
    requires Converged(alpha, n, d0, old', length)
    ensures Converged(alpha, n + 1, d0, new', length)
  {
    OneStepDistance(1.0 - alpha, old' - length, new' - length);
    DistanceShrinks(1.0 - alpha, 1.0 / alpha, Power(1.0 - alpha, n), d0 as real,
                    Distance(old', length) as real, Distance(new', length) as real);
  }

  lemma OneStepDistance(r: real, d: int, d': int)
    requires 0.0 <= r < 1.0 && d' as real <= r * d as real < d' as real + 1.0
    ensures Distance(d', 0) as real <= r * Distance(d, 0) as real + 1.0
  {
    FractionBetween(r, d);
    assert r * (-d) as real == -(r * d as real);
  }

  lemma {:induction false} LengthsGrow(c: Config, es: seq<Event>, more: seq<Event>)
    ensures |Lengths(c, es)| <= |Lengths(c, es + more)|
    decreases |more|
  {
    if more == [] {
      assert es + more == es;
    } else {
      LengthsGrow(c, es, more[..|more| - 1]);
      assert (es + more)[..|es + more| - 1] == es + more[..|more| - 1];
    }
  }

  /** The requests of all collectors since the interval timer last fired; none if it never did. */
  function SinceFire(es: seq<Event>): int {
    if es == [] then -1
    else
      var before := SinceFire(es[..|es| - 1]);
      match es[|es| - 1]
      case Fire => 0
      case Tick(_) => before
      case Request(_) => if before < 0 then before else before + 1
  }

  /** Whether a request is let through, from the events alone: the timer has fired, and fewer
      requests than the budget came since. */
  predicate BudgetLeft(c: Config, es: seq<Event>) { 0 <= SinceFire(es) < c.witnessesPerEpoch }

  lemma {:induction false} ActiveIffBudgetLeft(c: Config, es: seq<Event>)
    requires Sane(c)
    ensures After(c, es).l.active <==> BudgetLeft(c, es)
    ensures After(c, es).l.active ==> After(c, es).l.count == SinceFire(es)
  {
    if es != [] { ActiveIffBudgetLeft(c, es[..|es| - 1]); }
  }

  /** The number of requests that came while some budget was left. */
  function Granted(c: Config, es: seq<Event>): nat {
    if es == [] then 0
    else
      var init := es[..|es| - 1];
      Granted(c, init) + if es[|es| - 1].Request? && BudgetLeft(c, init) then 1 else 0
  }

  /** Exactly those are admitted. */
  lemma {:induction false} AdmittedIsGranted(c: Config, es: seq<Event>)
    requires Sane(c)
    ensures After(c, es).admitted == Granted(c, es)
  {
    if es != [] {
      AdmittedIsGranted(c, es[..|es| - 1]);
      ActiveIffBudgetLeft(c, es[..|es| - 1]);
    }
  }

  /** Ticks fall at multiples of the epoch. */
  lemma {:induction false} TicksAtMultiples(c: Config, es: seq<Event>)
    ensures After(c, es).epochStart == After(c, es).epochs * c.epoch
  {
    if es != [] { TicksAtMultiples(c, es[..|es| - 1]); }
  }
}
