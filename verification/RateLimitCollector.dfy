/** The objects that carry out the rate limiter: the limiter shared by all interfaces and one
    collector per interface. Each method is tied to the step functions of RateLimit and
    Pipeline; what holds of whole runs is proved there. */
module RateLimitCollectors {
  import opened Traffic
  import opened RateLimit
  import Pipeline

  class SharedRateLimit {
    const config: Config
    var currentEpochStart: int
    var sampleIntervalStart: int
    var sampleIntervalActive: bool
    var sampleIntervalCount: int
    var estimatedSampleInterval: int
    var firstEstimate: bool
    var intervalTimer: Timer
    var children: seq<RateLimitCollector>

    function View(): Limiter
      reads this
    {
      Limiter(sampleIntervalStart, sampleIntervalActive, sampleIntervalCount, estimatedSampleInterval, firstEstimate)
    }

    /** This object is in the state that the run model calls `w`. */
    ghost predicate Shows(w: World)
      reads this
    {
      View() == w.l && intervalTimer == w.timer && currentEpochStart == w.epochStart
    }

    constructor (config: Config)
      ensures this.config == config && children == [] && Shows(RateLimit.Start())
    {
      this.config := config;
      currentEpochStart, sampleIntervalStart := 0, 0;
      sampleIntervalActive, sampleIntervalCount := false, 0;
      estimatedSampleInterval, firstEstimate := 0, true;
      intervalTimer := Armed(0);
      children := [];
    }

    /** The interval timer has fired at its deadline. */
    method StartInterval(start: int, ghost w: World)
      requires Shows(w) && w.timer == Armed(start)
      modifies this
      ensures Shows(Next(config, w, Fire)) && children == old(children)
    {
      intervalTimer := Stopped;
      sampleIntervalStart := start;
      sampleIntervalCount := 0;
      sampleIntervalActive := true;
    }

    method EndInterval(end: int)
      modifies this
      ensures View() == AfterEnd(config, old(View()), end)
      ensures !sampleIntervalActive && !firstEstimate
      ensures var length := end - old(sampleIntervalStart);
              if old(firstEstimate) then estimatedSampleInterval == length
              else Sane(config) ==>
                MovesToward(1.0 - config.alpha, old(estimatedSampleInterval), length, estimatedSampleInterval)
      ensures intervalTimer == old(intervalTimer) && currentEpochStart == old(currentEpochStart)
      ensures children == old(children)
    {
      var intervalLength := end - sampleIntervalStart;
      sampleIntervalActive := false;
      sampleIntervalCount := 0;
      if firstEstimate {
        estimatedSampleInterval := intervalLength;
        firstEstimate := false;
      } else {
        var alpha := config.alpha;
        var average := (1.0 - alpha) * estimatedSampleInterval as real + alpha * intervalLength as real;
        if Sane(config) { AverageMoves(alpha, estimatedSampleInterval, intervalLength); }
        estimatedSampleInterval := average.Floor;
      }
    }

    /** The ticker has fired; `draw` is what the random generator returns. Each child whose
        one-slot channel is empty is told the expiry threshold. */
    method StartNewEpoch(epochStart: int, draw: int, maxDuration: int, ghost w: World)
      requires Shows(w) && epochStart == w.epochStart + config.epoch
      requires firstEstimate || 0 <= draw < UpperBound(config, View())
      modifies this, children
      ensures Shows(Next(config, w, Tick(if old(firstEstimate) then 0 else draw)))
      ensures children == old(children)
      ensures forall c :: c in children ==> c.Kept() == old(c.Kept())
      ensures forall c :: c in children ==>
                c.epochCh == if old(c.epochCh).None? then Some(epochStart - maxDuration) else old(c.epochCh)
    {
      currentEpochStart := epochStart;
      if firstEstimate {
        intervalTimer := Armed(epochStart + 0);
      } else {
        intervalTimer := Armed(epochStart + draw);
      }
      var threshold := epochStart - maxDuration;
      for i := 0 to |children|
        modifies children
        invariant forall c :: c in children ==> c.Kept() == old(c.Kept())
        invariant forall c :: c in children[..i] ==>
                    c.epochCh == if old(c.epochCh).None? then Some(threshold) else old(c.epochCh)
        invariant forall c :: c in children && c !in children[..i] ==> c.epochCh == old(c.epochCh)
      {
        if children[i].epochCh.None? {
          children[i].epochCh := Some(threshold);
        }
      }
    }

    method AllowHTTPRequest(now: int) returns (allowed: bool)
      modifies this
      ensures allowed == old(sampleIntervalActive)
      ensures View() == AfterRequest(config, old(View()), now)
      ensures intervalTimer == old(intervalTimer) && currentEpochStart == old(currentEpochStart)
      ensures children == old(children)
    {
      if !sampleIntervalActive {
        return false;
      }
      sampleIntervalCount := sampleIntervalCount + 1;
      if sampleIntervalCount >= config.witnessesPerEpoch {
        EndInterval(now);
      }
      return true;
    }

    method AllowOther() returns (allowed: bool)
      ensures allowed == sampleIntervalActive
    {
      return sampleIntervalActive;
    }

    method NewCollector() returns (c: RateLimitCollector)
      modifies this
      ensures fresh(c) && c.rateLimit == this && c.Kept() == (map[], [], 0) && c.epochCh == None
      ensures children == old(children) + [c] && View() == old(View())
      ensures intervalTimer == old(intervalTimer) && currentEpochStart == old(currentEpochStart)
    {
      c := new RateLimitCollector(this);
      children := children + [c];
    }

    /** Takes the first occurrence of a closed collector off the list, if it is there. */
    method OnCollectorClose(closed: RateLimitCollector)
      modifies this
      ensures closed !in old(children) ==> children == old(children)
      ensures closed in old(children) ==>
                exists i :: 0 <= i < |old(children)| && old(children)[i] == closed && closed !in old(children)[..i]
                         && children == old(children)[..i] + old(children)[i + 1..]
      ensures View() == old(View())
      ensures intervalTimer == old(intervalTimer) && currentEpochStart == old(currentEpochStart)
    {
      for i := 0 to |children|
        invariant closed !in children[..i] && children == old(children)
      {
        if children[i] == closed {
          children := children[..i] + children[i + 1..];
          return;
        }
      }
    }
  }

  class RateLimitCollector {
    const rateLimit: SharedRateLimit
    var requestArrivalTimes: map<Key, int>
    var epochCh: Option<int>
    var handedOn: seq<Packet>   // the packets given to the next collector
    var rateLimited: nat        // the packet counter's tally of refused requests

    function Kept(): (map<Key, int>, seq<Packet>, nat)
      reads this
    {
      (requestArrivalTimes, handedOn, rateLimited)
    }

    constructor (rateLimit: SharedRateLimit)
      ensures this.rateLimit == rateLimit && Kept() == (map[], [], 0) && epochCh == None
    {
      this.rateLimit := rateLimit;
      requestArrivalTimes, epochCh, handedOn, rateLimited := map[], None, [], 0;
    }

    method ExpireRequests(threshold: int)
      modifies this
      ensures requestArrivalTimes == Pipeline.Expire(old(requestArrivalTimes), threshold)
      ensures epochCh == old(epochCh) && handedOn == old(handedOn) && rateLimited == old(rateLimited)
    {
      var todo := requestArrivalTimes.Keys;
      ghost var all := requestArrivalTimes;
      while todo != {}
        invariant todo <= all.Keys
        invariant requestArrivalTimes == map k | k in all && (k in todo || threshold <= all[k]) :: all[k]
        invariant epochCh == old(epochCh) && handedOn == old(handedOn) && rateLimited == old(rateLimited)
      {
        var k :| k in todo;
        if requestArrivalTimes[k] < threshold {
          requestArrivalTimes := requestArrivalTimes - {k};
        }
        todo := todo - {k};
      }
    }

    method Process(t: Packet, now: int)
      modifies this, rateLimit
      ensures var (arrivals, forward) :=
                Pipeline.LimitStep(old(requestArrivalTimes), t, old(rateLimit.sampleIntervalActive), old(epochCh));
              requestArrivalTimes == arrivals && handedOn == old(handedOn) + if forward then [t] else []
      ensures match t.content
              case HttpResponse(key) => handedOn == old(handedOn) + if key in old(requestArrivalTimes) then [t] else []
              case _ => handedOn == old(handedOn) + if old(rateLimit.sampleIntervalActive) then [t] else []
      ensures epochCh == None
      ensures rateLimited == old(rateLimited) +
                if t.content.HttpRequest? && !old(rateLimit.sampleIntervalActive) then 1 else 0
      ensures rateLimit.View() == if t.content.HttpRequest? then AfterRequest(rateLimit.config, old(rateLimit.View()), now)
                                  else old(rateLimit.View())
      ensures rateLimit.children == old(rateLimit.children)
    {
      match t.content {
        case HttpRequest(key, _) =>
          var allowed := rateLimit.AllowHTTPRequest(now);
          if allowed {
            handedOn := handedOn + [t];
            requestArrivalTimes := requestArrivalTimes[key := t.observed];
          } else {
            rateLimited := rateLimited + 1;
          }
        case HttpResponse(key) =>
          if key in requestArrivalTimes {
            requestArrivalTimes := requestArrivalTimes - {key};
            handedOn := handedOn + [t];
          }
        case Other(_) =>
          var allowed := rateLimit.AllowOther();
          if allowed {
            handedOn := handedOn + [t];
          }
      }
      if epochCh.Some? {
        var threshold := epochCh.value;
        epochCh := None;
        ExpireRequests(threshold);
      }
    }

    method Close()
      modifies rateLimit
      ensures this !in old(rateLimit.children) ==> rateLimit.children == old(rateLimit.children)
      ensures this in old(rateLimit.children) ==>
                exists i :: 0 <= i < |old(rateLimit.children)| && old(rateLimit.children)[i] == this
                         && rateLimit.children == old(rateLimit.children)[..i] + old(rateLimit.children)[i + 1..]
      ensures rateLimit.View() == old(rateLimit.View())
    {
      rateLimit.OnCollectorClose(this);
    }
  }
}
