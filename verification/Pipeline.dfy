/** The collector stages between the packet parser and the back end: a stack of request
    filters, the rate limiter's collector, and the sampler. */
module Pipeline {
  import opened Traffic

  // ---------------------------------------------------------------------------------
  // Request filters

  type Predicate = Request -> bool

  type Matcher = string -> bool

  /** One filter on one packet: the witness IDs it suppresses from now on, and whether the
      packet goes on to the next collector. `id` is the witness-ID hash. */
  function FilterStep<Id>(id: Key -> Id, keep: Predicate, filtered: set<Id>, t: Packet): (set<Id>, bool) {
    match t.content
    case HttpRequest(key, request) =>
      if keep(request) then (filtered, true) else (filtered + {id(key)}, false)
    case HttpResponse(key) => (filtered, id(key) !in filtered)
    case Other(_) => (filtered, true)
  }

  /** A stack of filters, outermost first; a packet stops at the first layer that drops it. */
  function StackStep<Id>(id: Key -> Id, keeps: seq<Predicate>, filtered: seq<set<Id>>, t: Packet)
    : (r: (seq<set<Id>>, bool))
    requires |keeps| == |filtered|
    ensures |r.0| == |filtered|
  {
    if keeps == [] then ([], true)
    else
      var (here, forward) := FilterStep(id, keeps[0], filtered[0], t);
      if forward then
        var (below, out) := StackStep(id, keeps[1..], filtered[1..], t);
        ([here] + below, out)
      else ([here] + filtered[1..], false)
  }

  function Conjunction(keeps: seq<Predicate>): Predicate {
    (r: Request) => forall i :: 0 <= i < |keeps| ==> keeps[i](r)
  }

  ghost function Union<Id>(sets: seq<set<Id>>): set<Id> {
    if sets == [] then {} else sets[0] + Union(sets[1..])
  }

  /** What a filter stack hands on for the traffic `ts`. */
  function StackRun<Id>(id: Key -> Id, keeps: seq<Predicate>, filtered: seq<set<Id>>, ts: seq<Packet>)
    : (r: (seq<set<Id>>, seq<Packet>))
    requires |keeps| == |filtered|
    ensures |r.0| == |filtered|
    decreases |ts|
  {
    if ts == [] then (filtered, [])
    else
      var (filtered', forward) := StackStep(id, keeps, filtered, ts[0]);
      var (final, rest) := StackRun(id, keeps, filtered', ts[1..]);
      (final, (if forward then [ts[0]] else []) + rest)
  }

  lemma {:induction false} StackStepIsFused<Id>(id: Key -> Id, keeps: seq<Predicate>, filtered: seq<set<Id>>, t: Packet)
    requires |keeps| == |filtered|
    ensures var (filtered', forward) := StackStep(id, keeps, filtered, t);
            (Union(filtered'), forward) == FilterStep(id, Conjunction(keeps), Union(filtered), t)
  {
    if keeps != [] {
      var (here, forward) := FilterStep(id, keeps[0], filtered[0], t);
      StackStepIsFused(id, keeps[1..], filtered[1..], t);
      var (below, out) := StackStep(id, keeps[1..], filtered[1..], t);
      assert ([here] + below)[1..] == below;
      assert ([here] + filtered[1..])[1..] == filtered[1..];
      if t.content.HttpRequest? {
        ConjunctionSplit(keeps, t.content.request);
        var added := {id(t.content.key)};
        assert (filtered[0] + added) + Union(filtered[1..]) == Union(filtered) + added;
        assert filtered[0] + (Union(filtered[1..]) + added) == Union(filtered) + added;
      }
    }
  }

  lemma ConjunctionSplit(keeps: seq<Predicate>, r: Request)
    requires keeps != []
    ensures Conjunction(keeps)(r) <==> keeps[0](r) && Conjunction(keeps[1..])(r)
  {
    assert forall i :: 1 <= i < |keeps| ==> keeps[i] == keeps[1..][i - 1];
  }

  /** A stack of filters forwards exactly what one filter with the conjunction of their
      predicates forwards, and suppresses the union of what the layers suppress. */
  lemma {:induction false} StackIsFused<Id>(id: Key -> Id, keeps: seq<Predicate>, filtered: seq<set<Id>>, ts: seq<Packet>)
    requires |keeps| == |filtered|
    ensures var (layers, out) := StackRun(id, keeps, filtered, ts);
            var (fused, fusedOut) := StackRun(id, [Conjunction(keeps)], [Union(filtered)], ts);
            out == fusedOut && fused == [Union(layers)]
    decreases |ts|
  {
    if ts != [] {
      var (filtered', forward) := StackStep(id, keeps, filtered, ts[0]);
      StackStepIsFused(id, keeps, filtered, ts[0]);
      StackStepIsFused(id, [Conjunction(keeps)], [Union(filtered)], ts[0]);
      OneLayer(id, Conjunction(keeps), Union(filtered), ts[0]);
      StackIsFused(id, keeps, filtered', ts[1..]);
    }
  }

  lemma OneLayer<Id>(id: Key -> Id, keep: Predicate, filtered: set<Id>, t: Packet)
    ensures var (s, forward) := FilterStep(id, keep, filtered, t);
            StackStep(id, [keep], [filtered], t) == ([s], forward)
  {
    assert [filtered][1..] == [] && [keep][1..] == [];
    var (s, forward) := FilterStep(id, keep, filtered, t);
    assert [s] + [] == [s];
  }

  ghost predicate KeptByAll(keeps: seq<Predicate>, r: Request) {
    forall i :: 0 <= i < |keeps| ==> keeps[i](r)
  }

  /** An earlier request with the same witness ID was rejected by some filter. */
  ghost predicate Suppressed<Id>(id: Key -> Id, keeps: seq<Predicate>, ts: seq<Packet>, key: Key) {
    exists m :: 0 <= m < |ts| && ts[m].content.HttpRequest? && id(ts[m].content.key) == id(key)
             && !KeptByAll(keeps, ts[m].content.request)
  }

  /** Whether packet `t` after the traffic `ts` passes all filters, from the traffic alone. */
  ghost predicate Passes<Id>(id: Key -> Id, keeps: seq<Predicate>, ts: seq<Packet>, t: Packet) {
    match t.content
    case HttpRequest(_, request) => KeptByAll(keeps, request)
    case HttpResponse(key) => !Suppressed(id, keeps, ts, key)
    case Other(_) => true
  }

  ghost function Passing<Id>(id: Key -> Id, keeps: seq<Predicate>, ts: seq<Packet>): seq<Packet> {
    if ts == [] then []
    else
      var init, t := ts[..|ts| - 1], ts[|ts| - 1];
      Passing(id, keeps, init) + if Passes(id, keeps, init, t) then [t] else []
  }

  lemma {:induction false} StackRunSnoc<Id>(id: Key -> Id, keeps: seq<Predicate>, filtered: seq<set<Id>>, ts: seq<Packet>, t: Packet)
    requires |keeps| == |filtered|
    ensures var (layers, out) := StackRun(id, keeps, filtered, ts);
            var (layers', forward) := StackStep(id, keeps, layers, t);
            StackRun(id, keeps, filtered, ts + [t]) == (layers', out + if forward then [t] else [])
    decreases |ts|
  {
    if ts == [] {
      assert ts + [t] == [t] && [t][0] == t && [t][1..] == [];
      var (layers', forward) := StackStep(id, keeps, filtered, t);
      var one := if forward then [t] else [];
      assert StackRun(id, keeps, layers', []) == (layers', []);
      assert StackRun(id, keeps, filtered, [t]) == (layers', one + []);
      assert one + [] == one && [] + one == one;
    } else {
      var (filtered', forward) := StackStep(id, keeps, filtered, ts[0]);
      StackRunSnoc(id, keeps, filtered', ts[1..], t);
      var (layers, rest) := StackRun(id, keeps, filtered', ts[1..]);
      var head := if forward then [ts[0]] else [];
      var last := if StackStep(id, keeps, layers, t).1 then [t] else [];
      assert head + (rest + last) == (head + rest) + last;
      assert (ts + [t])[0] == ts[0] && (ts + [t])[1..] == ts[1..] + [t];
    }
  }

  lemma {:induction false} NothingFiltered<Id>(sets: seq<set<Id>>)
    requires forall i :: 0 <= i < |sets| ==> sets[i] == {}
    ensures Union(sets) == {}
  {
    if sets != [] { NothingFiltered(sets[1..]); }
  }

  function NoneFiltered<Id>(n: nat): (sets: seq<set<Id>>)
    ensures |sets| == n && forall i :: 0 <= i < n ==> sets[i] == {}
  {
    seq(n, _ => {})
  }

  lemma SuppressedSnoc<Id>(id: Key -> Id, keeps: seq<Predicate>, ts: seq<Packet>, t: Packet, key: Key)
    ensures Suppressed(id, keeps, ts + [t], key) <==>
              || Suppressed(id, keeps, ts, key)
              || (t.content.HttpRequest? && id(t.content.key) == id(key) && !KeptByAll(keeps, t.content.request))
  {
    var ts' := ts + [t];
    assert ts'[|ts|] == t;
    assert forall m :: 0 <= m < |ts| ==> ts'[m] == ts[m];
  }

  /** On every traffic sequence a stack of filters forwards exactly the requests that all of them
      keep, the responses none of whose requests was rejected before, and everything else. */
  lemma {:induction false} StackForwardsPassing<Id>(id: Key -> Id, keeps: seq<Predicate>, ts: seq<Packet>)
    ensures var (layers, out) := StackRun(id, keeps, NoneFiltered(|keeps|), ts);
            && out == Passing(id, keeps, ts)
            && forall key :: id(key) in Union(layers) <==> Suppressed(id, keeps, ts, key)
  {
    if ts == [] {
      NothingFiltered(NoneFiltered<Id>(|keeps|));
    } else {
      var init, t := ts[..|ts| - 1], ts[|ts| - 1];
      StackForwardsPassing(id, keeps, init);
      StackRunSnoc(id, keeps, NoneFiltered(|keeps|), init, t);
      var (layers, out) := StackRun(id, keeps, NoneFiltered(|keeps|), init);
      assert ts == init + [t];
      StepPasses(id, keeps, layers, init, t);
    }
  }

  lemma StepPasses<Id>(id: Key -> Id, keeps: seq<Predicate>, layers: seq<set<Id>>, ts: seq<Packet>, t: Packet)
    requires |layers| == |keeps| && forall key :: id(key) in Union(layers) <==> Suppressed(id, keeps, ts, key)
    ensures var (layers', forward) := StackStep(id, keeps, layers, t);
            && (forward <==> Passes(id, keeps, ts, t))
            && forall key :: id(key) in Union(layers') <==> Suppressed(id, keeps, ts + [t], key)
  {
    StackStepIsFused(id, keeps, layers, t);
    forall key ensures id(key) in Union(StackStep(id, keeps, layers, t).0) <==> Suppressed(id, keeps, ts + [t], key) {
      SuppressedSnoc(id, keeps, ts, t, key);
    }
  }

  /** One filter collector, with the set it grows in place. */
  class RequestFilter<Id(==)> {
    const id: Key -> Id
    const filterFunc: Predicate
    var filteredIDs: set<Id>

    constructor (id: Key -> Id, filterFunc: Predicate)
      ensures this.id == id && this.filterFunc == filterFunc && filteredIDs == {}
    {
      this.id, this.filterFunc := id, filterFunc;
      filteredIDs := {};
    }

    /** `forward` says that the packet is handed to the wrapped collector. */
    method Process(t: Packet) returns (forward: bool)
      modifies this
      ensures (filteredIDs, forward) == FilterStep(id, filterFunc, old(filteredIDs), t)
    {
      forward := true;
      match t.content {
        case HttpRequest(key, request) =>
          if !filterFunc(request) {
            forward := false;
            filteredIDs := filteredIDs + {id(key)};
          }
        case HttpResponse(key) =>
          if id(key) in filteredIDs {
            forward := false;
          }
        case Other(_) =>
      }
    }
  }

  /** The path exclusion filter: keeps a request unless its path matches. */
  method KeepUnlessPathMatches(matchers: seq<Matcher>, r: Request) returns (keep: bool)
    ensures keep <==> (r.url.None? || forall m :: m in matchers ==> !m(r.url.value.path))
  {
    if r.url.Some? {
      for i := 0 to |matchers|
        invariant forall j :: 0 <= j < i ==> !matchers[j](r.url.value.path)
      {
        if matchers[i](r.url.value.path) {
          return false;
        }
      }
    }
    return true;
  }

  /** The path allow list: keeps a request only if it has a path and the path matches. */
  method KeepIfPathMatches(matchers: seq<Matcher>, r: Request) returns (keep: bool)
    ensures keep <==> (r.url.Some? && exists m :: m in matchers && m(r.url.value.path))
  {
    if r.url.Some? {
      for i := 0 to |matchers|
        invariant forall j :: 0 <= j < i ==> !matchers[j](r.url.value.path)
      {
        if matchers[i](r.url.value.path) {
          return true;
        }
      }
    }
    return false;
  }

  // ---------------------------------------------------------------------------------
  // The rate limiter's collector, as a step on its map of unmatched requests

  function Expire(arrivals: map<Key, int>, threshold: int): map<Key, int> {
    map k | k in arrivals && threshold <= arrivals[k] :: arrivals[k]
  }

  /** `allowed` is the limiter's answer, `expiry` the threshold waiting in the epoch channel.
      The result is the new map and whether the packet is handed on. */
  function LimitStep(arrivals: map<Key, int>, t: Packet, allowed: bool, expiry: Option<int>): (map<Key, int>, bool) {
    var (matched, forward) :=
      match t.content
      case HttpRequest(key, _) => (if allowed then arrivals[key := t.observed] else arrivals, allowed)
      case HttpResponse(key) => (arrivals - {key}, key in arrivals)
      case Other(_) => (arrivals, allowed);
    (if expiry.Some? then Expire(matched, expiry.value) else matched, forward)
  }

  /** A packet with what the limiter and its epoch channel answer to it. */
  datatype Input = Input(t: Packet, allowed: bool, expiry: Option<int>)

  function LimitRun(ins: seq<Input>): map<Key, int> {
    if ins == [] then map[]
    else
      var i := ins[|ins| - 1];
      LimitStep(LimitRun(ins[..|ins| - 1]), i.t, i.allowed, i.expiry).0
  }

  /** Packet `j` is an admitted request with key `k` that has not been superseded, answered
      or expired since. */
  ghost predicate WaitsSince(ins: seq<Input>, k: Key, j: nat) {
    && j < |ins| && IsRequest(ins[j].t, k) && ins[j].allowed
    && (forall m :: j < m < |ins| ==> !IsResponse(ins[m].t, k) && !(IsRequest(ins[m].t, k) && ins[m].allowed))
    && (forall m :: j <= m < |ins| && ins[m].expiry.Some? ==> ins[m].expiry.value <= ins[j].t.observed)
  }

  /** The map of unmatched requests says exactly which requests are still waiting. */
  lemma {:induction false} MapHoldsWaiting(ins: seq<Input>, k: Key)
    ensures k in LimitRun(ins) <==> exists j: nat :: WaitsSince(ins, k, j)
    ensures forall j: nat :: WaitsSince(ins, k, j) ==> k in LimitRun(ins) && LimitRun(ins)[k] == ins[j].t.observed
  {
    if ins != [] {
      var n := |ins| - 1;
      var before, i := ins[..n], ins[n];
      MapHoldsWaiting(before, k);
      assert forall j :: 0 <= j < n ==> before[j] == ins[j];
      forall j: nat | WaitsSince(ins, k, j)
        ensures k in LimitRun(ins) && LimitRun(ins)[k] == ins[j].t.observed
      {
        if j < n { assert WaitsSince(before, k, j); }
      }
      if k in LimitRun(ins) {
        if IsRequest(i.t, k) && i.allowed {
          assert WaitsSince(ins, k, n);
        } else {
          var j: nat :| WaitsSince(before, k, j);
          assert WaitsSince(ins, k, j);
        }
      }
    }
  }

  /** The limiter's collector hands a response on if and only if an admitted request with its
      key is still waiting for it. */
  lemma ResponseForwardedIffWaiting(ins: seq<Input>, i: Input)
    requires i.t.content.HttpResponse?
    ensures LimitStep(LimitRun(ins), i.t, i.allowed, i.expiry).1 <==>
            exists j: nat :: WaitsSince(ins, i.t.content.key, j)
  {
    MapHoldsWaiting(ins, i.t.content.key);
  }

  /** What the limiter's collector hands on after the inputs `ins`, from these alone: a request
      or other packet exactly if the limiter admits it, a response exactly if its request waits. */
  ghost predicate Admitted(ins: seq<Input>, i: Input) {
    match i.t.content
    case HttpRequest(_, _) => i.allowed
    case HttpResponse(key) => exists j: nat :: WaitsSince(ins, key, j)
    case Other(_) => i.allowed
  }

  function HandedOn(ins: seq<Input>): seq<Packet> {
    if ins == [] then []
    else
      var init, i := ins[..|ins| - 1], ins[|ins| - 1];
      HandedOn(init) + if LimitStep(LimitRun(init), i.t, i.allowed, i.expiry).1 then [i.t] else []
  }

  lemma HandsOnIffAdmitted(ins: seq<Input>, i: Input)
    ensures HandedOn(ins + [i]) == HandedOn(ins) + if Admitted(ins, i) then [i.t] else []
  {
    assert (ins + [i])[..|ins|] == ins;
    if i.t.content.HttpResponse? { ResponseForwardedIffWaiting(ins, i); }
  }

  // ---------------------------------------------------------------------------------
  // Sampling

  /** No sampler at all for a rate of 1, otherwise a threshold on the hash of the key. */
  datatype Sampler = Everything | Below(threshold: real, hash: string -> int, render: Key -> string)

  function SampleKey(s: Sampler, c: Content): string
    requires s.Below?
  {
    match c
    case HttpRequest(key, _) => s.render(key)
    case HttpResponse(key) => s.render(key)
    case Other(connection) => connection
  }

  function SampleStep(s: Sampler, t: Packet): bool {
    s.Everything? || s.hash(SampleKey(s, t.content)) as real < s.threshold
  }

  // ---------------------------------------------------------------------------------
  // The composed pipeline

  datatype Stages<!Id> = Stages(id: Key -> Id, keeps: seq<Predicate>, sampler: Sampler)

  datatype State<Id> = State(filtered: seq<set<Id>>, arrivals: map<Key, int>, out: seq<Packet>)

  function PipelineStep<Id>(p: Stages<Id>, s: State<Id>, i: Input): (s': State<Id>)
    requires |p.keeps| == |s.filtered|
    ensures |p.keeps| == |s'.filtered|
  {
    var (filtered, kept) := StackStep(p.id, p.keeps, s.filtered, i.t);
    if !kept then s.(filtered := filtered)
    else
      var (arrivals, passed) := LimitStep(s.arrivals, i.t, i.allowed, i.expiry);
      State(filtered, arrivals, if passed && SampleStep(p.sampler, i.t) then s.out + [i.t] else s.out)
  }

  function PipelineRun<Id>(p: Stages<Id>, ins: seq<Input>): (s: State<Id>)
    ensures |p.keeps| == |s.filtered|
  {
    if ins == [] then State(seq(|p.keeps|, _ => {}), map[], [])
    else PipelineStep(p, PipelineRun(p, ins[..|ins| - 1]), ins[|ins| - 1])
  }

  /** At every prefix, responses do not outnumber requests with the same key. */
  ghost predicate Balanced(out: seq<Packet>) {
    forall n: nat, k :: n <= |out| ==> Responses(out[..n], k) <= Requests(out[..n], k)
  }

  ghost predicate ResponseHasRequest(out: seq<Packet>, i: nat)
    requires i < |out|
  {
    out[i].content.HttpResponse? ==> exists j :: 0 <= j < i && IsRequest(out[j], out[i].content.key)
  }

  ghost predicate SampledKey(s: Sampler, k: Key) { s.Everything? || s.hash(s.render(k)) as real < s.threshold }

  /** Requests that reached the back end and whose response has not come yet are exactly the
      room left for responses; keys that are sampled out leave no trace. */
  ghost predicate Owed<Id>(p: Stages<Id>, s: State<Id>, k: Key) {
    if SampledKey(p.sampler, k) then
      Responses(s.out, k) + (if k in s.arrivals then 1 else 0) <= Requests(s.out, k)
    else
      Responses(s.out, k) == Requests(s.out, k) == 0
  }

  lemma OwedStep<Id>(p: Stages<Id>, s: State<Id>, i: Input, k: Key)
    requires |p.keeps| == |s.filtered| && Owed(p, s, k)
    ensures Owed(p, PipelineStep(p, s, i), k)
  {
    CountAppend(s.out, i.t, k);
  }

  lemma PrefixesOf(out: seq<Packet>, t: Packet)
    ensures forall n: nat :: n <= |out| ==> (out + [t])[..n] == out[..n]
    ensures (out + [t])[..|out| + 1] == out + [t]
  {
  }

  lemma {:induction false} OwedRun<Id>(p: Stages<Id>, ins: seq<Input>)
    ensures var s := PipelineRun(p, ins);
            && (forall k :: Owed(p, s, k))
            && Balanced(s.out)
            && (forall i :: 0 <= i < |s.out| ==> ResponseHasRequest(s.out, i))
  {
    if ins != [] {
      var s, i := PipelineRun(p, ins[..|ins| - 1]), ins[|ins| - 1];
      OwedRun(p, ins[..|ins| - 1]);
      var s' := PipelineRun(p, ins);
      assert s' == PipelineStep(p, s, i);
      forall k ensures Owed(p, s', k) {
        OwedStep(p, s, i, k);
      }
      if s'.out != s.out {
        BalancedAppend(p, s, s', i.t);
        ResponsesAppend(p, s, i);
      }
    }
  }

  lemma ResponsesAppend<Id>(p: Stages<Id>, s: State<Id>, i: Input)
    requires |p.keeps| == |s.filtered| && PipelineStep(p, s, i).out != s.out
    requires forall k :: Owed(p, s, k)
    requires forall j :: 0 <= j < |s.out| ==> ResponseHasRequest(s.out, j)
    ensures var out := PipelineStep(p, s, i).out;
            forall j :: 0 <= j < |out| ==> ResponseHasRequest(out, j)
  {
    var out := PipelineStep(p, s, i).out;
    assert out == s.out + [i.t];
    if i.t.content.HttpResponse? {
      var k := i.t.content.key;
      assert Owed(p, s, k);
      RequestExists(s.out, k);
      var j :| 0 <= j < |s.out| && IsRequest(s.out[j], k);
      assert IsRequest(out[j], k);
    }
    forall j | 0 <= j < |s.out| ensures ResponseHasRequest(out, j) {
      assert ResponseHasRequest(s.out, j) && out[j] == s.out[j];
      if out[j].content.HttpResponse? {
        var m :| 0 <= m < j && IsRequest(s.out[m], out[j].content.key);
        assert IsRequest(out[m], out[j].content.key);
      }
    }
  }

  lemma BalancedAppend<Id>(p: Stages<Id>, s: State<Id>, s': State<Id>, t: Packet)
    requires Balanced(s.out) && s'.out == s.out + [t] && forall k :: Owed(p, s', k)
    ensures Balanced(s'.out)
  {
    PrefixesOf(s.out, t);
    forall n: nat, k | n <= |s'.out| ensures Responses(s'.out[..n], k) <= Requests(s'.out[..n], k) {
      assert Owed(p, s', k);
      assert s'.out[..n] == if n <= |s.out| then s.out[..n] else s'.out;
    }
  }

  /** Every response that reaches the back end follows a request with its key that also
      reached it, and per key responses never outnumber requests. */
  lemma NoOrphanResponses<Id>(p: Stages<Id>, ins: seq<Input>)
    ensures var out := PipelineRun(p, ins).out;
            && Balanced(out)
            && (forall i :: 0 <= i < |out| ==> ResponseHasRequest(out, i))
  {
    OwedRun(p, ins);
  }

  // ---------------------------------------------------------------------------------
  // Exactly what reaches the back end

  function Packets(ins: seq<Input>): seq<Packet> {
    if ins == [] then [] else Packets(ins[..|ins| - 1]) + [ins[|ins| - 1].t]
  }

  /** The inputs that pass the filters and so reach the limiter's collector. */
  ghost function Kept<Id>(p: Stages<Id>, ins: seq<Input>): seq<Input> {
    if ins == [] then []
    else
      var init, i := ins[..|ins| - 1], ins[|ins| - 1];
      if Passes(p.id, p.keeps, Packets(init), i.t) then Kept(p, init) + [i] else Kept(p, init)
  }

  /** Sampling looks only at the key that a request shares with its response, or at the
      connection. */
  ghost predicate Sampled(s: Sampler, c: Content) {
    match c
    case HttpRequest(key, _) => SampledKey(s, key)
    case HttpResponse(key) => SampledKey(s, key)
    case Other(connection) => s.Everything? || s.hash(connection) as real < s.threshold
  }

  lemma ArrivalsStep<Id>(p: Stages<Id>, s: State<Id>, i: Input, kept: seq<Input>)
    requires |p.keeps| == |s.filtered|
    ensures var (filtered, forward) := StackStep(p.id, p.keeps, s.filtered, i.t);
            && PipelineStep(p, s, i).filtered == filtered
            && (s.arrivals == LimitRun(kept) ==>
                  PipelineStep(p, s, i).arrivals == LimitRun(if forward then kept + [i] else kept))
  {
    assert (kept + [i])[..|kept|] == kept;
  }

  /** The filters' sets hold exactly the IDs of the requests that some filter rejected. */
  ghost predicate FilteredByHistory<Id>(p: Stages<Id>, filtered: seq<set<Id>>, ts: seq<Packet>) {
    forall key :: p.id(key) in Union(filtered) <==> Suppressed(p.id, p.keeps, ts, key)
  }

  lemma FiltersFollow<Id>(p: Stages<Id>, filtered: seq<set<Id>>, ts: seq<Packet>, t: Packet)
    requires |p.keeps| == |filtered| && FilteredByHistory(p, filtered, ts)
    ensures var (filtered', forward) := StackStep(p.id, p.keeps, filtered, t);
            FilteredByHistory(p, filtered', ts + [t]) && (forward <==> Passes(p.id, p.keeps, ts, t))
  {
    StepPasses(p.id, p.keeps, filtered, ts, t);
  }

  lemma {:induction false} FiltersFromHistory<Id>(p: Stages<Id>, ins: seq<Input>)
    ensures FilteredByHistory(p, PipelineRun(p, ins).filtered, Packets(ins))
  {
    if ins == [] {
      NothingFiltered(PipelineRun(p, ins).filtered);
    } else {
      var init, i := ins[..|ins| - 1], ins[|ins| - 1];
      FiltersFromHistory(p, init);
      FiltersFollow(p, PipelineRun(p, init).filtered, Packets(init), i.t);
      ArrivalsStep(p, PipelineRun(p, init), i, Kept(p, init));
    }
  }

  lemma {:induction false} ArrivalsFromHistory<Id>(p: Stages<Id>, ins: seq<Input>)
    ensures PipelineRun(p, ins).arrivals == LimitRun(Kept(p, ins))
  {
    if ins != [] {
      var init, i := ins[..|ins| - 1], ins[|ins| - 1];
      ArrivalsFromHistory(p, init);
      ForwardIffPasses(p, init, i);
      ArrivalsStep(p, PipelineRun(p, init), i, Kept(p, init));
    }
  }

  lemma ForwardIffPasses<Id>(p: Stages<Id>, ins: seq<Input>, i: Input)
    ensures StackStep(p.id, p.keeps, PipelineRun(p, ins).filtered, i.t).1 <==> Passes(p.id, p.keeps, Packets(ins), i.t)
  {
    FiltersFromHistory(p, ins);
    FiltersFollow(p, PipelineRun(p, ins).filtered, Packets(ins), i.t);
  }

  /** A packet reaches the back end exactly if all filters pass it, the limiter admits it or its
      request waits, and its key is sampled. */
  lemma ReachesBackEndIff<Id>(p: Stages<Id>, ins: seq<Input>, i: Input)
    ensures PipelineRun(p, ins + [i]).out == PipelineRun(p, ins).out +
              if Passes(p.id, p.keeps, Packets(ins), i.t) && Admitted(Kept(p, ins), i) && Sampled(p.sampler, i.t.content)
              then [i.t] else []
  {
    var s := PipelineRun(p, ins);
    assert (ins + [i])[..|ins|] == ins;
    ArrivalsFromHistory(p, ins);
    ForwardIffPasses(p, ins, i);
    if i.t.content.HttpResponse? { ResponseForwardedIffWaiting(Kept(p, ins), i); }
  }
}
