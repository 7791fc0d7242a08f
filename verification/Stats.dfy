/** Packet counts by port, interface and host, with a hard limit on the tracked keys. */
module Stats {

  datatype Option<+T> = None | Some(value: T)

  /** The numeric fields of PacketCounts. */
  datatype Field =
    | TcpPackets | HttpRequests | HttpResponses | TlsHello | Http2Prefaces | QuicHandshakes
    | HttpRequestsRateLimited | OversizedWitnesses | Unparsed

  datatype Tally = Tally(
    tcpPackets: int, httpRequests: int, httpResponses: int, tlsHello: int, http2Prefaces: int,
    quicHandshakes: int, httpRequestsRateLimited: int, oversizedWitnesses: int, unparsed: int)

  const ZERO := Tally(0, 0, 0, 0, 0, 0, 0, 0, 0)

  function Get(t: Tally, f: Field): int {
    match f
    case TcpPackets => t.tcpPackets
    case HttpRequests => t.httpRequests
    case HttpResponses => t.httpResponses
    case TlsHello => t.tlsHello
    case Http2Prefaces => t.http2Prefaces
    case QuicHandshakes => t.quicHandshakes
    case HttpRequestsRateLimited => t.httpRequestsRateLimited
    case OversizedWitnesses => t.oversizedWitnesses
    case Unparsed => t.unparsed
  }

  function Plus(a: Tally, b: Tally): Tally {
    Tally(a.tcpPackets + b.tcpPackets, a.httpRequests + b.httpRequests, a.httpResponses + b.httpResponses,
          a.tlsHello + b.tlsHello, a.http2Prefaces + b.http2Prefaces, a.quicHandshakes + b.quicHandshakes,
          a.httpRequestsRateLimited + b.httpRequestsRateLimited, a.oversizedWitnesses + b.oversizedWitnesses,
          a.unparsed + b.unparsed)
  }

  lemma GetPlus(a: Tally, b: Tally, f: Field)
    ensures Get(Plus(a, b), f) == Get(a, f) + Get(b, f)
  {
  }

  // ---------------------------------------------------------------------------------
  // The bounded counter

  datatype Bounded<T> = Bounded(limit: int, overflow: Tally, m: map<T, Tally>)

  function AddOrInsertOf<T>(b: Bounded<T>, key: T, c: Tally): Bounded<T> {
    if key in b.m then b.(m := b.m[key := Plus(b.m[key], c)])
    else if b.limit <= |b.m| then b.(overflow := Plus(b.overflow, c))
    else b.(m := b.m[key := Plus(ZERO, c)])
  }

  datatype Update<T> = Update(key: T, counts: Tally)

  function CountAll<T>(limit: int, us: seq<Update<T>>): Bounded<T> {
    if us == [] then Bounded(limit, ZERO, map[])
    else AddOrInsertOf(CountAll(limit, us[..|us| - 1]), us[|us| - 1].key, us[|us| - 1].counts)
  }

  /** The unbounded counter: everything ever added for one key, in one field. */
  function SumFor<T(==)>(us: seq<Update<T>>, key: T, f: Field): int {
    if us == [] then 0
    else
      var u := us[|us| - 1];
      SumFor(us[..|us| - 1], key, f) + if u.key == key then Get(u.counts, f) else 0
  }

  /** Everything ever added for keys outside `tracked`. */
  function SumOutside<T>(us: seq<Update<T>>, tracked: set<T>, f: Field): int {
    if us == [] then 0
    else
      var u := us[|us| - 1];
      SumOutside(us[..|us| - 1], tracked, f) + if u.key in tracked then 0 else Get(u.counts, f)
  }

  ghost predicate Mentions<T>(us: seq<Update<T>>, key: T) {
    exists i :: 0 <= i < |us| && us[i].key == key
  }

  lemma {:induction false} NotMentioned<T>(us: seq<Update<T>>, key: T, tracked: set<T>, f: Field)
    requires !Mentions(us, key)
    ensures SumFor(us, key, f) == 0 && SumOutside(us, tracked + {key}, f) == SumOutside(us, tracked, f)
  {
    if us != [] {
      var rest := us[..|us| - 1];
      assert forall i :: 0 <= i < |rest| ==> rest[i] == us[i];
      NotMentioned(rest, key, tracked, f);
      assert us[|us| - 1].key != key;
    }
  }

  /** The limit is kept; only mentioned keys are tracked, below the limit all of them. */
  lemma {:induction false} TracksUpToLimit<T>(limit: int, us: seq<Update<T>>)
    ensures var b := CountAll(limit, us);
            && b.limit == limit
            && (forall k :: k in b.m ==> Mentions(us, k))
            && (b.m == map[] || |b.m| <= limit)
            && (|b.m| < limit ==> forall k :: Mentions(us, k) ==> k in b.m)
  {
    if us != [] {
      var before, u := us[..|us| - 1], us[|us| - 1];
      var b, b' := CountAll(limit, before), CountAll(limit, us);
      TracksUpToLimit(limit, before);
      MentionsSplit(us);
      if u.key in b.m {
        assert b'.m.Keys == b.m.Keys;
      } else if limit > |b.m| {
        assert b'.m.Keys == b.m.Keys + {u.key};
      }
    }
  }

  /** A tracked key holds the sum of all its updates, in every field. */
  lemma {:induction false} TrackedSum<T>(limit: int, us: seq<Update<T>>, k: T, f: Field)
    requires k in CountAll(limit, us).m
    ensures Get(CountAll(limit, us).m[k], f) == SumFor(us, k, f)
  {
    var before, u := us[..|us| - 1], us[|us| - 1];
    var b := CountAll(limit, before);
    if k in b.m {
      TrackedSum(limit, before, k, f);
      if k == u.key { GetPlus(b.m[k], u.counts, f); }
    } else {
      TracksUpToLimit(limit, before);
      NotMentioned(before, k, {}, f);
    }
  }

  lemma OverflowStep<T>(b: Bounded<T>, before: seq<Update<T>>, u: Update<T>, f: Field)
    requires Get(b.overflow, f) == SumOutside(before, b.m.Keys, f)
    requires |b.m| < b.limit ==> forall k :: Mentions(before, k) ==> k in b.m
    ensures var b' := AddOrInsertOf(b, u.key, u.counts);
            Get(b'.overflow, f) == SumOutside(before, b'.m.Keys, f) + if u.key in b'.m then 0 else Get(u.counts, f)
  {
    var b' := AddOrInsertOf(b, u.key, u.counts);
    if u.key in b.m {
      assert b'.m.Keys == b.m.Keys;
    } else if |b.m| < b.limit {
      NotMentioned(before, u.key, b.m.Keys, f);
      assert b'.m.Keys == b.m.Keys + {u.key};
    } else {
      GetPlus(b.overflow, u.counts, f);
    }
  }

  /** The overflow holds the sum over all other keys, in every field. */
  lemma {:induction false} OverflowSums<T>(limit: int, us: seq<Update<T>>, f: Field)
    ensures Get(CountAll(limit, us).overflow, f) == SumOutside(us, CountAll(limit, us).m.Keys, f)
  {
    if us != [] {
      var before, u := us[..|us| - 1], us[|us| - 1];
      OverflowSums(limit, before, f);
      TracksUpToLimit(limit, before);
      OverflowStep(CountAll(limit, before), before, u, f);
    }
  }

  /** The bounded counter refines an unbounded one. */
  lemma RefinesUnbounded<T>(limit: int, us: seq<Update<T>>, f: Field)
    ensures var b := CountAll(limit, us);
            && (forall k :: k in b.m ==> Get(b.m[k], f) == SumFor(us, k, f))
            && Get(b.overflow, f) == SumOutside(us, b.m.Keys, f)
            && (b.m == map[] || |b.m| <= limit)
            && (|b.m| < limit ==> forall k :: Mentions(us, k) ==> k in b.m)
  {
    forall k | k in CountAll(limit, us).m ensures Get(CountAll(limit, us).m[k], f) == SumFor(us, k, f) {
      TrackedSum(limit, us, k, f);
    }
    OverflowSums(limit, us, f);
    TracksUpToLimit(limit, us);
  }

  lemma MentionsSplit<T>(us: seq<Update<T>>)
    requires us != []
    ensures forall k :: Mentions(us, k) <==> Mentions(us[..|us| - 1], k) || k == us[|us| - 1].key
  {
    var before := us[..|us| - 1];
    forall k ensures Mentions(us, k) <==> Mentions(before, k) || k == us[|us| - 1].key {
      if i :| 0 <= i < |us| && us[i].key == k {
        if i < |before| { assert before[i].key == k; }
      }
      if j :| 0 <= j < |before| && before[j].key == k {
        assert us[j].key == k;
      }
    }
  }

  /** Once the limit is reached the set of tracked keys no longer changes. */
  lemma {:induction false} TrackedKeysFreeze<T>(limit: int, us: seq<Update<T>>, more: seq<Update<T>>)
    requires limit <= |CountAll(limit, us).m|
    ensures CountAll(limit, us + more).m.Keys == CountAll(limit, us).m.Keys
    decreases |more|
  {
    if more == [] {
      assert us + more == us;
    } else {
      var init := more[..|more| - 1];
      TrackedKeysFreeze(limit, us, init);
      assert (us + more)[..|us + more| - 1] == us + init;
      TracksUpToLimit(limit, us + init);
      assert |CountAll(limit, us + init).m.Keys| == |CountAll(limit, us).m.Keys|;
    }
  }

  // ---------------------------------------------------------------------------------
  // Conservation in PacketCounter

  ghost function SumValues<T>(m: map<T, Tally>, f: Field): int {
    if m == map[] then 0
    else
      var k :| k in m;
      Get(m[k], f) + SumValues(m - {k}, f)
  }

  lemma {:induction false} SumWithout<T>(m: map<T, Tally>, k: T, f: Field)
    requires k in m
    ensures SumValues(m, f) == Get(m[k], f) + SumValues(m - {k}, f)
    decreases |m|
  {
    var j :| j in m && SumValues(m, f) == Get(m[j], f) + SumValues(m - {j}, f);
    if j != k {
      SumWithout(m - {j}, k, f);
      SumWithout(m - {k}, j, f);
      assert m - {j} - {k} == m - {k} - {j};
    }
  }

  lemma PutSum<T>(m: map<T, Tally>, k: T, t: Tally, f: Field)
    ensures SumValues(m[k := t], f) == SumValues(m, f) + Get(t, f) - if k in m then Get(m[k], f) else 0
  {
    var m' := m[k := t];
    SumWithout(m', k, f);
    if k in m {
      SumWithout(m, k, f);
      assert m' - {k} == m - {k};
    } else {
      assert m' - {k} == m;
    }
  }

  /** All entries and the overflow together, in one field. */
  ghost function Everything<T>(b: Bounded<T>, f: Field): int { SumValues(b.m, f) + Get(b.overflow, f) }

  lemma AddConserves<T>(b: Bounded<T>, key: T, c: Tally, f: Field)
    ensures Everything(AddOrInsertOf(b, key, c), f) == Everything(b, f) + Get(c, f)
  {
    if key in b.m {
      GetPlus(b.m[key], c, f);
      PutSum(b.m, key, Plus(b.m[key], c), f);
    } else if b.limit <= |b.m| {
      GetPlus(b.overflow, c, f);
    } else {
      GetPlus(ZERO, c, f);
      PutSum(b.m, key, Plus(ZERO, c), f);
    }
  }

  /** One call of Update, by its labels and its counts. */
  datatype Packet = Packet(netInterface: string, srcHost: string, dstHost: string, srcPort: int, dstPort: int, counts: Tally)

  /** `window` counts since the last summary. */
  datatype Counters = Counters(total: Tally, window: Tally, byPort: Bounded<int>, byInterface: Bounded<string>, byHost: Bounded<string>)

  function UpdateOf(s: Counters, c: Packet): Counters {
    var h1 := if c.srcHost != "" then AddOrInsertOf(s.byHost, c.srcHost, c.counts) else s.byHost;
    var h2 := if c.dstHost != "" then AddOrInsertOf(h1, c.dstHost, c.counts) else h1;
    Counters(Plus(s.total, c.counts), Plus(s.window, c.counts),
             AddOrInsertOf(AddOrInsertOf(s.byPort, c.srcPort, c.counts), c.dstPort, c.counts),
             AddOrInsertOf(s.byInterface, c.netInterface, c.counts),
             h2)
  }

  const MAX_KEYS := 10_000

  /** Counting a packet, or taking a summary, which starts a new window. */
  datatype Event = Count(c: Packet) | Summarise

  function CountersOf(es: seq<Event>): Counters {
    if es == [] then
      Counters(ZERO, ZERO, Bounded(MAX_KEYS, ZERO, map[]), Bounded(MAX_KEYS, ZERO, map[]), Bounded(MAX_KEYS, ZERO, map[]))
    else
      var s := CountersOf(es[..|es| - 1]);
      match es[|es| - 1]
      case Count(c) => UpdateOf(s, c)
      case Summarise => s.(window := ZERO)
  }

  /** The windows that the summaries report, together. */
  function WindowTotal(es: seq<Event>, f: Field): int {
    if es == [] then 0
    else
      var init := es[..|es| - 1];
      WindowTotal(init, f) + if es[|es| - 1].Summarise? then Get(CountersOf(init).window, f) else 0
  }

  /** In every field the reported windows and the current one together hold the total. */
  lemma {:induction false} WindowsTileTotal(es: seq<Event>, f: Field)
    ensures WindowTotal(es, f) + Get(CountersOf(es).window, f) == Get(CountersOf(es).total, f)
  {
    if es != [] {
      var s := CountersOf(es[..|es| - 1]);
      WindowsTileTotal(es[..|es| - 1], f);
      match es[|es| - 1]
      case Count(c) =>
        GetPlus(s.window, c.counts, f);
        GetPlus(s.total, c.counts, f);
      case Summarise =>
    }
  }

  /** The counts of the packets that name hosts, once for each host they name. */
  function HostTotal(es: seq<Event>, f: Field): int {
    if es == [] then 0
    else
      HostTotal(es[..|es| - 1], f) +
        match es[|es| - 1]
        case Summarise => 0
        case Count(c) =>
          var hosts := (if c.srcHost != "" then 1 else 0) + (if c.dstHost != "" then 1 else 0);
          hosts * Get(c.counts, f)
  }

  /** Everything that was counted, in one field. */
  function CountedTotal(es: seq<Event>, f: Field): int {
    if es == [] then 0
    else CountedTotal(es[..|es| - 1], f) + if es[|es| - 1].Count? then Get(es[|es| - 1].c.counts, f) else 0
  }

  /** In every field the total holds every packet once and the ports with their overflow hold
      it twice. */
  lemma {:induction false} PortsConserve(es: seq<Event>, f: Field)
    ensures Get(CountersOf(es).total, f) == CountedTotal(es, f)
    ensures Everything(CountersOf(es).byPort, f) == 2 * CountedTotal(es, f)
  {
    if es != [] {
      var s, e := CountersOf(es[..|es| - 1]), es[|es| - 1];
      PortsConserve(es[..|es| - 1], f);
      if e.Count? {
        var c := e.c;
        GetPlus(s.total, c.counts, f);
        AddConserves(s.byPort, c.srcPort, c.counts, f);
        AddConserves(AddOrInsertOf(s.byPort, c.srcPort, c.counts), c.dstPort, c.counts, f);
        assert CountersOf(es) == UpdateOf(s, c);
      }
    }
  }

  /** The interfaces with their overflow hold every packet once. */
  lemma {:induction false} InterfacesConserve(es: seq<Event>, f: Field)
    ensures Everything(CountersOf(es).byInterface, f) == CountedTotal(es, f)
  {
    if es != [] {
      var s, e := CountersOf(es[..|es| - 1]), es[|es| - 1];
      InterfacesConserve(es[..|es| - 1], f);
      if e.Count? {
        AddConserves(s.byInterface, e.c.netInterface, e.c.counts, f);
        assert CountersOf(es) == UpdateOf(s, e.c);
      }
    }
  }

  /** The hosts with their overflow hold every packet once for each host it names. */
  lemma {:induction false} HostsConserve(es: seq<Event>, f: Field)
    ensures Everything(CountersOf(es).byHost, f) == HostTotal(es, f)
  {
    if es != [] {
      var s, e := CountersOf(es[..|es| - 1]), es[|es| - 1];
      HostsConserve(es[..|es| - 1], f);
      if e.Count? {
        var c := e.c;
        AddConserves(s.byHost, c.srcHost, c.counts, f);
        var h1 := if c.srcHost != "" then AddOrInsertOf(s.byHost, c.srcHost, c.counts) else s.byHost;
        AddConserves(h1, c.dstHost, c.counts, f);
        assert CountersOf(es) == UpdateOf(s, c);
      }
    }
  }

  /** The updates that the events make to the ports, to the interfaces and to the hosts. */
  function PortUpdates(es: seq<Event>): seq<Update<int>> {
    if es == [] then []
    else
      var before := PortUpdates(es[..|es| - 1]);
      match es[|es| - 1]
      case Summarise => before
      case Count(c) => before + [Update(c.srcPort, c.counts), Update(c.dstPort, c.counts)]
  }

  function InterfaceUpdates(es: seq<Event>): seq<Update<string>> {
    if es == [] then []
    else
      var before := InterfaceUpdates(es[..|es| - 1]);
      match es[|es| - 1]
      case Summarise => before
      case Count(c) => before + [Update(c.netInterface, c.counts)]
  }

  function HostUpdates(es: seq<Event>): seq<Update<string>> {
    if es == [] then []
    else
      var before := HostUpdates(es[..|es| - 1]);
      match es[|es| - 1]
      case Summarise => before
      case Count(c) =>
        before + ((if c.srcHost != "" then [Update(c.srcHost, c.counts)] else []) +
                  (if c.dstHost != "" then [Update(c.dstHost, c.counts)] else []))
  }

  lemma CountSnoc<T>(limit: int, us: seq<Update<T>>, u: Update<T>)
    ensures CountAll(limit, us + [u]) == AddOrInsertOf(CountAll(limit, us), u.key, u.counts)
  {
    assert (us + [u])[..|us|] == us;
  }

  lemma SumForSnoc<T>(us: seq<Update<T>>, u: Update<T>, key: T, f: Field)
    ensures SumFor(us + [u], key, f) == SumFor(us, key, f) + if u.key == key then Get(u.counts, f) else 0
  {
    assert (us + [u])[..|us|] == us;
  }

  /** Everything counted from or to a port, through an interface, and from or to a host. */
  function PortTotal(es: seq<Event>, port: int, f: Field): int {
    if es == [] then 0
    else
      PortTotal(es[..|es| - 1], port, f) +
        match es[|es| - 1]
        case Summarise => 0
        case Count(c) => ((if c.srcPort == port then 1 else 0) + (if c.dstPort == port then 1 else 0)) * Get(c.counts, f)
  }

  function InterfaceTotal(es: seq<Event>, name: string, f: Field): int {
    if es == [] then 0
    else
      InterfaceTotal(es[..|es| - 1], name, f) +
        match es[|es| - 1]
        case Summarise => 0
        case Count(c) => if c.netInterface == name then Get(c.counts, f) else 0
  }

  function NamedHostTotal(es: seq<Event>, host: string, f: Field): int
  {
    if es == [] then 0
    else
      NamedHostTotal(es[..|es| - 1], host, f) +
        match es[|es| - 1]
        case Summarise => 0
        case Count(c) => ((if c.srcHost == host then 1 else 0) + (if c.dstHost == host then 1 else 0)) * Get(c.counts, f)
  }

  lemma PortStep(us: seq<Update<int>>, c: Packet, port: int, f: Field)
    ensures var us' := us + [Update(c.srcPort, c.counts), Update(c.dstPort, c.counts)];
            && CountAll(MAX_KEYS, us')
                 == AddOrInsertOf(AddOrInsertOf(CountAll(MAX_KEYS, us), c.srcPort, c.counts), c.dstPort, c.counts)
            && SumFor(us', port, f) == SumFor(us, port, f)
                 + ((if c.srcPort == port then 1 else 0) + (if c.dstPort == port then 1 else 0)) * Get(c.counts, f)
  {
    var src, dst := Update(c.srcPort, c.counts), Update(c.dstPort, c.counts);
    assert us + [src, dst] == us + [src] + [dst];
    CountSnoc(MAX_KEYS, us, src);
    CountSnoc(MAX_KEYS, us + [src], dst);
    SumForSnoc(us, src, port, f);
    SumForSnoc(us + [src], dst, port, f);
  }

  lemma {:induction false} PortsFollow(es: seq<Event>, port: int, f: Field)
    ensures CountersOf(es).byPort == CountAll(MAX_KEYS, PortUpdates(es))
    ensures SumFor(PortUpdates(es), port, f) == PortTotal(es, port, f)
  {
    if es != [] {
      var init, e := es[..|es| - 1], es[|es| - 1];
      PortsFollow(init, port, f);
      if e.Count? {
        PortStep(PortUpdates(init), e.c, port, f);
        assert CountersOf(es) == UpdateOf(CountersOf(init), e.c);
      }
    }
  }

  /** A tracked port holds everything counted from it and everything counted to it. */
  lemma PortEntry(es: seq<Event>, port: int, f: Field)
    requires port in CountersOf(es).byPort.m
    ensures Get(CountersOf(es).byPort.m[port], f) == PortTotal(es, port, f)
  {
    PortsFollow(es, port, f);
    TrackedSum(MAX_KEYS, PortUpdates(es), port, f);
  }

  lemma InterfaceStep(us: seq<Update<string>>, c: Packet, name: string, f: Field)
    ensures var us' := us + [Update(c.netInterface, c.counts)];
            && CountAll(MAX_KEYS, us') == AddOrInsertOf(CountAll(MAX_KEYS, us), c.netInterface, c.counts)
            && SumFor(us', name, f) == SumFor(us, name, f) + if c.netInterface == name then Get(c.counts, f) else 0
  {
    CountSnoc(MAX_KEYS, us, Update(c.netInterface, c.counts));
    SumForSnoc(us, Update(c.netInterface, c.counts), name, f);
  }

  lemma {:induction false} InterfacesFollow(es: seq<Event>, name: string, f: Field)
    ensures CountersOf(es).byInterface == CountAll(MAX_KEYS, InterfaceUpdates(es))
    ensures SumFor(InterfaceUpdates(es), name, f) == InterfaceTotal(es, name, f)
  {
    if es != [] {
      var init, e := es[..|es| - 1], es[|es| - 1];
      InterfacesFollow(init, name, f);
      if e.Count? {
        InterfaceStep(InterfaceUpdates(init), e.c, name, f);
        assert CountersOf(es) == UpdateOf(CountersOf(init), e.c);
      }
    }
  }

  /** A tracked interface holds everything counted on it. */
  lemma InterfaceEntry(es: seq<Event>, name: string, f: Field)
    requires name in CountersOf(es).byInterface.m
    ensures Get(CountersOf(es).byInterface.m[name], f) == InterfaceTotal(es, name, f)
  {
    InterfacesFollow(es, name, f);
    TrackedSum(MAX_KEYS, InterfaceUpdates(es), name, f);
  }

  lemma HostStep(us: seq<Update<string>>, b: Bounded<string>, c: Packet, host: string, f: Field)
    requires b == CountAll(MAX_KEYS, us) && host != ""
    ensures var src := if c.srcHost != "" then [Update(c.srcHost, c.counts)] else [];
            var dst := if c.dstHost != "" then [Update(c.dstHost, c.counts)] else [];
            var b1 := if c.srcHost != "" then AddOrInsertOf(b, c.srcHost, c.counts) else b;
            && CountAll(MAX_KEYS, us + (src + dst)) == (if c.dstHost != "" then AddOrInsertOf(b1, c.dstHost, c.counts) else b1)
            && SumFor(us + (src + dst), host, f) == SumFor(us, host, f)
                 + ((if c.srcHost == host then 1 else 0) + (if c.dstHost == host then 1 else 0)) * Get(c.counts, f)
  {
    var src := if c.srcHost != "" then [Update(c.srcHost, c.counts)] else [];
    var dst := if c.dstHost != "" then [Update(c.dstHost, c.counts)] else [];
    assert us + (src + dst) == us + src + dst;
    assert us + [] == us && us + src + [] == us + src;
    if c.srcHost != "" {
      CountSnoc(MAX_KEYS, us, src[0]);
      SumForSnoc(us, src[0], host, f);
    }
    if c.dstHost != "" {
      CountSnoc(MAX_KEYS, us + src, dst[0]);
      SumForSnoc(us + src, dst[0], host, f);
    }
  }

  lemma {:induction false} HostsFollow(es: seq<Event>)
    ensures CountersOf(es).byHost == CountAll(MAX_KEYS, HostUpdates(es))
  {
    if es != [] {
      var init, e := es[..|es| - 1], es[|es| - 1];
      HostsFollow(init);
      if e.Count? {
        HostStep(HostUpdates(init), CountersOf(init).byHost, e.c, "*", TcpPackets);
        assert CountersOf(es) == UpdateOf(CountersOf(init), e.c);
      }
    }
  }

  lemma {:induction false} HostsSum(es: seq<Event>, host: string, f: Field)
    requires host != ""
    ensures SumFor(HostUpdates(es), host, f) == NamedHostTotal(es, host, f)
  {
    if es != [] {
      var us, e := HostUpdates(es[..|es| - 1]), es[|es| - 1];
      HostsSum(es[..|es| - 1], host, f);
      if e.Count? { HostStep(us, CountAll(MAX_KEYS, us), e.c, host, f); }
    }
  }

  /** A tracked host holds everything counted from it and everything counted to it; no packet
      without a host is held under a name. */
  lemma HostEntry(es: seq<Event>, host: string, f: Field)
    requires host in CountersOf(es).byHost.m
    ensures host != "" && Get(CountersOf(es).byHost.m[host], f) == NamedHostTotal(es, host, f)
  {
    NoEmptyHost(es);
    HostsFollow(es);
    HostsSum(es, host, f);
    TrackedSum(MAX_KEYS, HostUpdates(es), host, f);
  }

  lemma {:induction false} NoEmptyHost(es: seq<Event>)
    ensures "" !in CountersOf(es).byHost.m
  {
    if es != [] { NoEmptyHost(es[..|es| - 1]); }
  }

  // ---------------------------------------------------------------------------------
  // TopN

  /** The order on keys is a strict total order. */
  ghost predicate StrictTotal<T(!new)>(less: (T, T) -> bool) {
    && (forall a :: !less(a, a))
    && (forall a, b, c :: less(a, b) && less(b, c) ==> less(a, c))
    && (forall a, b :: less(a, b) || a == b || less(b, a))
  }

  /** Larger counts first, smaller keys first among equals. */
  predicate Precedes<T>(m: map<T, Tally>, project: Tally -> int, less: (T, T) -> bool, a: T, b: T)
    requires a in m && b in m
  {
    var x, y := project(m[a]), project(m[b]);
    if x != y then y < x else less(a, b)
  }

  /** How many entries come before `k`. */
  ghost function Rank<T>(m: map<T, Tally>, project: Tally -> int, less: (T, T) -> bool, k: T): nat
    requires k in m
  {
    |set j | j in m && Precedes(m, project, less, j, k)|
  }

  ghost predicate SortedKeys<T>(m: map<T, Tally>, project: Tally -> int, less: (T, T) -> bool, ks: seq<T>) {
    && (forall k :: k in ks ==> k in m)
    && (forall i, j :: 0 <= i < j < |ks| ==> Precedes(m, project, less, ks[i], ks[j]))
  }

  lemma InsertedSorted<T(!new)>(m: map<T, Tally>, project: Tally -> int, less: (T, T) -> bool, ks: seq<T>, i: nat, k: T)
    requires StrictTotal(less) && SortedKeys(m, project, less, ks) && k in m && k !in ks && i <= |ks|
    requires forall j :: 0 <= j < i ==> Precedes(m, project, less, ks[j], k)
    requires i < |ks| ==> !Precedes(m, project, less, ks[i], k)
    ensures SortedKeys(m, project, less, ks[..i] + [k] + ks[i..])
  {
    forall j | i <= j < |ks| ensures Precedes(m, project, less, k, ks[j]) {
      assert Precedes(m, project, less, k, ks[i]);
      assert i < j ==> Precedes(m, project, less, ks[i], ks[j]);
    }
  }

  /** Inserts `k` into sorted keys. */
  method InsertKey<T(==, !new)>(m: map<T, Tally>, project: Tally -> int, less: (T, T) -> bool, ks: seq<T>, k: T)
    returns (r: seq<T>)
    requires StrictTotal(less) && SortedKeys(m, project, less, ks) && k in m && k !in ks
    ensures SortedKeys(m, project, less, r) && |r| == |ks| + 1
    ensures forall j :: j in r <==> j in ks || j == k
  {
    var i := 0;
    while i < |ks| && Precedes(m, project, less, ks[i], k)
      invariant 0 <= i <= |ks|
      invariant forall j :: 0 <= j < i ==> Precedes(m, project, less, ks[j], k)
    {
      i := i + 1;
    }
    InsertedSorted(m, project, less, ks, i, k);
    assert ks == ks[..i] + ks[i..];
    r := ks[..i] + [k] + ks[i..];
  }

  /** All keys in order, however the map is iterated. */
  method SortKeys<T(==, !new)>(m: map<T, Tally>, project: Tally -> int, less: (T, T) -> bool) returns (ks: seq<T>)
    requires StrictTotal(less)
    ensures SortedKeys(m, project, less, ks) && |ks| == |m| && forall k :: k in m <==> k in ks
  {
    var todo := m.Keys;
    ks := [];
    while todo != {}
      invariant todo <= m.Keys && SortedKeys(m, project, less, ks)
      invariant forall k :: k in ks <==> k in m && k !in todo
      invariant |ks| + |todo| == |m|
    {
      var k :| k in todo;
      ks := InsertKey(m, project, less, ks, k);
      todo := todo - {k};
    }
  }

  /** The first `top` keys of the sorted list are those of rank below `top`, and precede the
      others. */
  lemma TopIsRank<T(!new)>(m: map<T, Tally>, project: Tally -> int, less: (T, T) -> bool, ks: seq<T>, top: nat)
    requires StrictTotal(less) && SortedKeys(m, project, less, ks) && top <= |ks|
    requires forall k :: k in m ==> k in ks
    ensures forall k :: k in m ==> (k in ks[..top] <==> Rank(m, project, less, k) < top)
    ensures forall a, b :: a in ks[..top] && b in m && b !in ks[..top] ==> Precedes(m, project, less, a, b)
  {
    SortedDistinct(m, project, less, ks);
    forall k | k in m ensures k in ks[..top] <==> Rank(m, project, less, k) < top {
      var i :| 0 <= i < |ks| && ks[i] == k;
      PositionIsRank(m, project, less, ks, i);
      if i < top { assert ks[..top][i] == k; }
    }
    forall a, b | a in ks[..top] && b in m && b !in ks[..top] ensures Precedes(m, project, less, a, b) {
      var i :| 0 <= i < top && ks[..top][i] == a;
      var j :| 0 <= j < |ks| && ks[j] == b;
      assert j >= top by {
        assert forall j :: 0 <= j < top ==> ks[..top][j] == ks[j];
      }
      assert ks[i] == a;
    }
  }

  lemma {:induction false} DistinctCount<T>(ks: seq<T>)
    requires forall i, j :: 0 <= i < j < |ks| ==> ks[i] != ks[j]
    ensures |set k | k in ks| == |ks|
  {
    if ks != [] {
      var n := |ks| - 1;
      DistinctCount(ks[..n]);
      assert ks == ks[..n] + [ks[n]];
      assert (set k | k in ks) == (set k | k in ks[..n]) + {ks[n]};
    }
  }

  lemma EarlierPosition<T(!new)>(m: map<T, Tally>, project: Tally -> int, less: (T, T) -> bool, ks: seq<T>, j: nat, i: nat)
    requires StrictTotal(less) && SortedKeys(m, project, less, ks) && i < |ks| && j < |ks|
    requires Precedes(m, project, less, ks[j], ks[i])
    ensures j < i
  {
  }

  /** In a sorted list of all keys the position is the rank. */
  lemma PositionIsRank<T(!new)>(m: map<T, Tally>, project: Tally -> int, less: (T, T) -> bool, ks: seq<T>, i: nat)
    requires StrictTotal(less) && SortedKeys(m, project, less, ks) && i < |ks|
    requires forall k :: k in m ==> k in ks
    ensures Rank(m, project, less, ks[i]) == i
  {
    var before := set j | j in m && Precedes(m, project, less, j, ks[i]);
    forall k ensures k in before <==> k in ks[..i] {
      if k in before {
        var j :| 0 <= j < |ks| && ks[j] == k;
        EarlierPosition(m, project, less, ks, j, i);
        assert k == ks[..i][j];
      }
    }
    assert before == set k | k in ks[..i];
    SortedDistinct(m, project, less, ks);
    DistinctCount(ks[..i]);
  }

  lemma SortedDistinct<T(!new)>(m: map<T, Tally>, project: Tally -> int, less: (T, T) -> bool, ks: seq<T>)
    requires StrictTotal(less) && SortedKeys(m, project, less, ks)
    ensures forall i, j :: 0 <= i < j < |ks| ==> ks[i] != ks[j]
  {
    forall i, j | 0 <= i < j < |ks| ensures ks[i] != ks[j] {
      assert Precedes(m, project, less, ks[i], ks[j]);
    }
  }

  lemma RankBelowSize<T(!new)>(m: map<T, Tally>, project: Tally -> int, less: (T, T) -> bool, ks: seq<T>)
    requires StrictTotal(less) && SortedKeys(m, project, less, ks) && forall k :: k in m ==> k in ks
    ensures forall k :: k in m ==> Rank(m, project, less, k) < |ks|
  {
    forall k | k in m ensures Rank(m, project, less, k) < |ks| {
      var i :| 0 <= i < |ks| && ks[i] == k;
      PositionIsRank(m, project, less, ks, i);
    }
  }

  /** The entries of rank below `n`: as many as there can be, unchanged, before all others. */
  ghost predicate IsTop<T(!new)>(m: map<T, Tally>, n: int, project: Tally -> int, less: (T, T) -> bool, top: map<T, Tally>) {
    && top.Keys == (set k | k in m && Rank(m, project, less, k) < n)
    && (forall k :: k in top ==> top[k] == m[k])
    && |top| == (if n < 0 then 0 else Min(|m|, n))
    && (forall a, b :: a in top && b in m && b !in top ==> Precedes(m, project, less, a, b))
  }

  /** The result depends on the entries alone, not on the order in which they are visited. */
  lemma TopIsUnique<T(!new)>(m: map<T, Tally>, n: int, project: Tally -> int, less: (T, T) -> bool,
                             a: map<T, Tally>, b: map<T, Tally>)
    requires IsTop(m, n, project, less, a) && IsTop(m, n, project, less, b)
    ensures a == b
  {
    assert a.Keys == b.Keys;
  }

  function Min(a: int, b: int): int { if a < b then a else b }

  class BoundedPacketCounter<T(==, !new)> {
    const limit: int
    var overflow: Tally
    var m: map<T, Tally>

    function View(): Bounded<T>
      reads this
    {
      Bounded(limit, overflow, m)
    }

    constructor (limit: int)
      ensures View() == CountAll(limit, [])
    {
      this.limit := limit;
      overflow, m := ZERO, map[];
    }

    function HasReachedLimit(): bool
      reads this
    {
      limit <= |m|
    }

    method AddOrInsert(key: T, c: Tally)
      modifies this
      ensures View() == AddOrInsertOf(old(View()), key, c)
    {
      if key in m {
        m := m[key := Plus(m[key], c)];
      } else if HasReachedLimit() {
        overflow := Plus(overflow, c);
      } else {
        m := m[key := Plus(ZERO, c)];
      }
    }

    /** The overflow, if there can be one. */
    function GetOverflow(): Option<Tally>
      reads this
    {
      if HasReachedLimit() then Some(overflow) else None
    }

    /** The n entries of lowest rank, whatever order the map is iterated in. */
    method TopN(n: int, project: Tally -> int, less: (T, T) -> bool)
      returns (rv: map<T, Tally>, over: Option<Tally>)
      requires StrictTotal(less)
      ensures over == GetOverflow()
      ensures IsTop(m, n, project, less, rv)
    {
      var pairs := SortKeys(m, project, less);
      var top := if n < 0 then 0 else Min(|pairs|, n);
      SortedDistinct(m, project, less, pairs);
      TopIsRank(m, project, less, pairs, top);
      RankBelowSize(m, project, less, pairs);
      rv := Prefix(m, pairs, top);
      DistinctCount(pairs[..top]);
      assert rv.Keys == set k | k in pairs[..top];
      over := GetOverflow();
    }
  }

  /** The entries of the first `top` keys. */
  method Prefix<T(==, !new)>(m: map<T, Tally>, ks: seq<T>, top: nat) returns (rv: map<T, Tally>)
    requires top <= |ks| && forall k :: k in ks ==> k in m
    ensures rv == Entries(m, ks[..top])
  {
    rv := map[];
    for i := 0 to top
      invariant rv == Entries(m, ks[..i])
    {
      EntriesSnoc(m, ks, i);
      rv := rv[ks[i] := m[ks[i]]];
    }
  }

  function Entries<T(==)>(m: map<T, Tally>, ks: seq<T>): map<T, Tally>
    requires forall k :: k in ks ==> k in m
  {
    map k | k in ks :: m[k]
  }

  lemma EntriesSnoc<T>(m: map<T, Tally>, ks: seq<T>, i: nat)
    requires i < |ks| && forall k :: k in ks ==> k in m
    ensures Entries(m, ks[..i + 1]) == Entries(m, ks[..i])[ks[i] := m[ks[i]]]
  {
    assert ks[..i + 1] == ks[..i] + [ks[i]];
  }

  /** All counters, updated in place. */
  class PacketCounter {
    var total: Tally
    var observationWindow: Tally
    const byPort: BoundedPacketCounter<int>
    const byInterface: BoundedPacketCounter<string>
    const byHost: BoundedPacketCounter<string>

    function View(): Counters
      reads this, byPort, byInterface, byHost
    {
      Counters(total, observationWindow, byPort.View(), byInterface.View(), byHost.View())
    }

    ghost predicate Valid() { byInterface != byHost }

    constructor ()
      ensures Valid() && View() == CountersOf([])
    {
      total, observationWindow := ZERO, ZERO;
      byPort := new BoundedPacketCounter(MAX_KEYS);
      byInterface := new BoundedPacketCounter(MAX_KEYS);
      byHost := new BoundedPacketCounter(MAX_KEYS);
    }

    method Update(c: Packet)
      requires Valid()
      modifies this, byPort, byInterface, byHost
      ensures View() == UpdateOf(old(View()), c)
    {
      if c.srcHost != "" {
        byHost.AddOrInsert(c.srcHost, c.counts);
      }
      if c.dstHost != "" {
        byHost.AddOrInsert(c.dstHost, c.counts);
      }
      byPort.AddOrInsert(c.srcPort, c.counts);
      byPort.AddOrInsert(c.dstPort, c.counts);
      byInterface.AddOrInsert(c.netInterface, c.counts);
      observationWindow := Plus(observationWindow, c.counts);
      total := Plus(total, c.counts);
    }

    /** A summary reports the totals and the top entries, and starts a new window. */
    method Summary(n: int, before: (string, string) -> bool) returns (summary: PacketCountSummary)
      requires Valid() && StrictTotal(before)
      modifies this
      ensures View() == old(View()).(window := ZERO)
      ensures summary.total == old(total) && summary.observationWindow == old(observationWindow)
      ensures IsTop(byPort.m, n, TcpTraffic, Smaller, summary.topByPort)
      ensures IsTop(byInterface.m, n, TcpTraffic, before, summary.topByInterface)
      ensures IsTop(byHost.m, n, HostTraffic, before, summary.topByHost)
      ensures summary.byPortOverflow == byPort.GetOverflow()
      ensures summary.byInterfaceOverflow == byInterface.GetOverflow()
      ensures summary.byHostOverflow == byHost.GetOverflow()
    {
      var topByPort, portOverflow := byPort.TopN(n, TcpTraffic, Smaller);
      var topByInterface, interfaceOverflow := byInterface.TopN(n, TcpTraffic, before);
      var topByHost, hostOverflow := byHost.TopN(n, HostTraffic, before);
      summary := PacketCountSummary(total, observationWindow, topByPort, topByInterface, topByHost,
                                    portOverflow, interfaceOverflow, hostOverflow);
      observationWindow := ZERO;
    }
  }

  /** The projections that order ports and interfaces, and hosts. */
  function TcpTraffic(t: Tally): int { t.tcpPackets }

  function HostTraffic(t: Tally): int { t.httpRequests + t.tlsHello }

  predicate Smaller(a: int, b: int) { a < b }

  datatype PacketCountSummary = PacketCountSummary(
    total: Tally, observationWindow: Tally,
    topByPort: map<int, Tally>, topByInterface: map<string, Tally>, topByHost: map<string, Tally>,
    byPortOverflow: Option<Tally>, byInterfaceOverflow: Option<Tally>, byHostOverflow: Option<Tally>)
}
