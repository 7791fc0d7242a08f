/** The back-end collector's cache of partial witnesses: pairing a request with its response,
    flushing what stays unpaired, and accounting for every message. */
module PairCache {

  datatype Option<+T> = None | Some(value: T)

  datatype HttpMeta = HttpMeta(httpMethod: string, pathTemplate: string, host: string, latency: real)

  /** A response carries this until it is paired with its request. */
  const UNKNOWN_META := HttpMeta("", "", "", 0.0)

  /** `args` and `responses` are absent where the source has nil maps. */
  datatype Method = Method(args: Option<string>, responses: Option<string>, meta: Option<HttpMeta>)

  type Witness = Option<Method>

  /** MergeWitness: what `dst` becomes. A method without one to merge from is a nil
      dereference in the source. */
  function Merged(dst: Witness, src: Witness): Witness
    requires dst.Some? ==> src.Some?
  {
    if dst.None? then src
    else
      var d, s := dst.value, src.value;
      var d1 := if d.args.None? then d.(args := s.args) else d.(responses := s.responses);
      var d2 := if d1.meta.None? then d1.(meta := s.meta) else d1;
      Some(if d2.meta.Some? && d2.meta.value.httpMethod == "" then d2.(meta := s.meta) else d2)
  }

  datatype Address = Address(ip: string, port: int)

  /** A parsed HTTP message. `payload` stands for the data map and `meta` for the method, path
      and host of a request; `number` identifies the message. */
  datatype Message = Message(number: nat, isRequest: bool, key: string, netInterface: string,
                             src: Address, dst: Address, observed: int, final: int, payload: string, meta: HttpMeta)

  /** ParseHTTP: a request has arguments and its own metadata, a response has responses and
      unknown metadata. */
  function Parsed(m: Message): Witness {
    Some(if m.isRequest then Method(Some(m.payload), None, Some(m.meta))
         else Method(None, Some(m.payload), Some(UNKNOWN_META)))
  }

  /** A cached witness, with the numbers of the messages merged into it. */
  datatype Entry = Entry(netInterface: string, src: Address, dst: Address, observed: int, final: int, id: string,
                         isRequest: bool, partial: Witness, messages: seq<nat>)

  function Fresh(m: Message): (e: Entry) {
    Entry(m.netInterface, m.src, m.dst, m.observed, m.final, m.key, m.isRequest, Parsed(m), [m.number])
  }

  /** Whole microseconds, rounded toward zero, in milliseconds. */
  function LatencyMillis(start: int, end: int): real {
    var ns := end - start;
    (if ns < 0 then -(-ns / 1000) else ns / 1000) as real / 1000.0
  }

  /** computeProcessingLatency; a zero time is missing data. */
  function WithLatency(e: Entry, m: Message): Entry {
    var requestEnd := if e.isRequest then e.final else m.final;
    var responseStart := if e.isRequest then m.observed else e.observed;
    if e.isRequest == m.isRequest || requestEnd == 0 || responseStart == 0 then e
    else if e.partial.None? || e.partial.value.meta.None? then e
    else
      var meta := e.partial.value.meta.value.(latency := LatencyMillis(requestEnd, responseStart));
      e.(partial := Some(e.partial.value.(meta := Some(meta))))
  }

  /** The cached entry after its counterpart has arrived. */
  function Paired(e: Entry, m: Message): Entry {
    var merged := WithLatency(e.(partial := Merged(e.partial, Parsed(m))), m);
    var placed := if m.isRequest then merged.(src := merged.dst, dst := merged.src) else merged;
    placed.(messages := e.messages + [m.number])
  }

  /** What the back end is told of an entry, apart from the time and the interface. */
  datatype Report = Report(src: Address, dst: Address, id: string, partial: Witness)

  function ReportOf(e: Entry): Report { Report(e.src, e.dst, e.id, e.partial) }

  /** A request and the response to it. */
  ghost predicate Counterparts(q: Message, r: Message) {
    q.isRequest && !r.isRequest && q.key == r.key && q.src == r.dst && q.dst == r.src
  }

  /** Whichever arrives first, the report has the request's arguments, method, path and host,
      the response's data, and the client as its source. */
  lemma PairedReport(q: Message, r: Message)
    requires Counterparts(q, r) && q.meta.httpMethod != ""
    ensures ReportOf(Paired(Fresh(r), q)) == ReportOf(Paired(Fresh(q), r))
    ensures var report := ReportOf(Paired(Fresh(q), r));
            && report.src == q.src && report.dst == q.dst && report.id == q.key
            && report.partial.Some?
            && report.partial.value.args == Some(q.payload) && report.partial.value.responses == Some(r.payload)
            && report.partial.value.meta == Some(
                 if q.final == 0 || r.observed == 0 then q.meta
                 else q.meta.(latency := LatencyMillis(q.final, r.observed)))
  {
  }

  /** Exactly when the order of arrival does not matter: a request without a method loses its
      path and host if it comes first. */
  lemma OrderIndependentIff(q: Message, r: Message)
    requires Counterparts(q, r) && q.meta.latency == 0.0
    ensures ReportOf(Paired(Fresh(q), r)) == ReportOf(Paired(Fresh(r), q)) <==>
            q.meta.httpMethod != "" || q.meta == UNKNOWN_META
  {
    if q.meta.httpMethod != "" {
      PairedReport(q, r);
    }
  }

  /** Only the time and the interface come from whichever arrived first. */
  lemma FirstArrivalShows(e: Entry, m: Message)
    ensures Paired(e, m).observed == e.observed && Paired(e, m).netInterface == e.netInterface
  {
  }

  // ---------------------------------------------------------------------------------
  // Accounting

  /** The cache, the uploaded witnesses, and those that a plugin refused. */
  datatype Store = Store(cache: map<string, Entry>, uploads: seq<Entry>, refused: seq<Entry>)

  /** queueUpload of a witness that has not been flushed. */
  function Queue(s: Store, e: Entry, accepted: bool): Store {
    if accepted then s.(uploads := s.uploads + [e]) else s.(refused := s.refused + [e])
  }

  type Plugins = Entry -> bool

  function ProcessOf(s: Store, m: Message, plugins: Plugins): Store {
    if m.key in s.cache then
      var e := Paired(s.cache[m.key], m);
      Queue(s.(cache := s.cache - {m.key}), e, plugins(e))
    else s.(cache := s.cache[m.key := Fresh(m)])
  }

  /** The cache is walked in some order; `order` lists the entries older than the cutoff. */
  ghost predicate FlushOrder(cache: map<string, Entry>, cutoff: int, order: seq<string>) {
    && (forall k :: k in order <==> k in cache && cache[k].observed < cutoff)
    && (forall i, j :: 0 <= i < j < |order| ==> order[i] != order[j])
  }

  function FlushOf(s: Store, order: seq<string>, plugins: Plugins): Store {
    if order == [] then s
    else
      var s', k := FlushOf(s, order[..|order| - 1], plugins), order[|order| - 1];
      if k in s'.cache then
        Queue(s'.(cache := s'.cache - {k}), s'.cache[k], plugins(s'.cache[k]))
      else s'
  }

  /** How often message number `n` occurs. */
  ghost function Occurs(e: Entry, n: nat): nat { multiset(e.messages)[n] }

  ghost function OccursIn(es: seq<Entry>, n: nat): nat {
    if es == [] then 0 else OccursIn(es[..|es| - 1], n) + Occurs(es[|es| - 1], n)
  }

  ghost function Waiting(cache: map<string, Entry>, n: nat): nat {
    if cache == map[] then 0
    else
      var k :| k in cache;
      Occurs(cache[k], n) + Waiting(cache - {k}, n)
  }

  /** The sum does not depend on the order in which the map is taken apart. */
  lemma {:induction false} WaitingWithout(cache: map<string, Entry>, k: string, n: nat)
    requires k in cache
    ensures Waiting(cache, n) == Occurs(cache[k], n) + Waiting(cache - {k}, n)
    decreases |cache|
  {
    var j :| j in cache && Waiting(cache, n) == Occurs(cache[j], n) + Waiting(cache - {j}, n);
    if j != k {
      WaitingWithout(cache - {j}, k, n);
      WaitingWithout(cache - {k}, j, n);
      assert cache - {j} - {k} == cache - {k} - {j};
    }
  }

  ghost function Accounted(s: Store, n: nat): nat {
    OccursIn(s.uploads, n) + OccursIn(s.refused, n) + Waiting(s.cache, n)
  }

  lemma QueueAccounts(s: Store, e: Entry, accepted: bool, n: nat)
    ensures Accounted(Queue(s, e, accepted), n) == Accounted(s, n) + Occurs(e, n)
  {
    assert (s.uploads + [e])[..|s.uploads|] == s.uploads;
    assert (s.refused + [e])[..|s.refused|] == s.refused;
  }

  lemma ProcessAccounts(s: Store, m: Message, plugins: Plugins, n: nat)
    ensures Accounted(ProcessOf(s, m, plugins), n) == Accounted(s, n) + if m.number == n then 1 else 0
  {
    if m.key in s.cache {
      var p := Paired(s.cache[m.key], m);
      WaitingWithout(s.cache, m.key, n);
      QueueAccounts(s.(cache := s.cache - {m.key}), p, plugins(p), n);
      assert Occurs(p, n) == Occurs(s.cache[m.key], n) + if m.number == n then 1 else 0;
    } else {
      var cache' := s.cache[m.key := Fresh(m)];
      WaitingWithout(cache', m.key, n);
      assert cache' - {m.key} == s.cache;
    }
  }

  lemma {:induction false} FlushAccounts(s: Store, order: seq<string>, plugins: Plugins, n: nat)
    ensures Accounted(FlushOf(s, order, plugins), n) == Accounted(s, n)
  {
    if order != [] {
      FlushAccounts(s, order[..|order| - 1], plugins, n);
      var s', k := FlushOf(s, order[..|order| - 1], plugins), order[|order| - 1];
      if k in s'.cache {
        WaitingWithout(s'.cache, k, n);
        QueueAccounts(s'.(cache := s'.cache - {k}), s'.cache[k], plugins(s'.cache[k]), n);
      }
    }
  }

  /** A flush takes exactly the listed entries out of the cache. */
  lemma {:induction false} FlushTakes(s: Store, order: seq<string>, plugins: Plugins)
    ensures var cache := FlushOf(s, order, plugins).cache;
            forall k :: (k in cache <==> k in s.cache && k !in order) && (k in cache ==> cache[k] == s.cache[k])
  {
    if order != [] {
      var last := |order| - 1;
      FlushTakes(s, order[..last], plugins);
      assert forall k :: k in order <==> k in order[..last] || k == order[last];
    }
  }

  datatype Op = Process(m: Message) | Flush(cutoff: int, order: seq<string>)

  function Run(ops: seq<Op>, plugins: Plugins): Store {
    if ops == [] then Store(map[], [], [])
    else
      var s := Run(ops[..|ops| - 1], plugins);
      match ops[|ops| - 1]
      case Process(m) => ProcessOf(s, m, plugins)
      case Flush(_, order) => FlushOf(s, order, plugins)
  }

  ghost function Processed(ops: seq<Op>, n: nat): nat {
    if ops == [] then 0
    else
      var op := ops[|ops| - 1];
      Processed(ops[..|ops| - 1], n) + if op.Process? && op.m.number == n then 1 else 0
  }

  /** At every point each message is in exactly one of an upload, a refused witness or the
      cache. */
  lemma {:induction false} RunAccounts(ops: seq<Op>, plugins: Plugins, n: nat)
    ensures Accounted(Run(ops, plugins), n) == Processed(ops, n)
  {
    if ops != [] {
      RunAccounts(ops[..|ops| - 1], plugins, n);
      var s := Run(ops[..|ops| - 1], plugins);
      match ops[|ops| - 1]
      case Process(m) => ProcessAccounts(s, m, plugins, n);
      case Flush(_, order) => FlushAccounts(s, order, plugins, n);
    }
  }

  lemma {:induction false} NothingRefused(ops: seq<Op>, plugins: Plugins)
    requires forall e :: plugins(e)
    ensures Run(ops, plugins).refused == []
  {
    if ops != [] {
      NothingRefused(ops[..|ops| - 1], plugins);
      match ops[|ops| - 1]
      case Process(_) =>
      case Flush(_, order) => FlushRefuses(Run(ops[..|ops| - 1], plugins), order, plugins);
    }
  }

  lemma {:induction false} FlushRefuses(s: Store, order: seq<string>, plugins: Plugins)
    requires forall e :: plugins(e)
    ensures FlushOf(s, order, plugins).refused == s.refused
  {
    if order != [] {
      FlushRefuses(s, order[..|order| - 1], plugins);
    }
  }

  /** Closing flushes with the current time as cutoff. If all cached entries are older and the
      plugins accept everything, every message is in exactly one upload and none is lost. */
  lemma ClosedRunUploadsAll(ops: seq<Op>, plugins: Plugins, now: int, order: seq<string>, n: nat)
    requires forall e :: plugins(e)
    requires FlushOrder(Run(ops, plugins).cache, now, order)
    requires forall k :: k in Run(ops, plugins).cache ==> Run(ops, plugins).cache[k].observed < now
    ensures var s := FlushOf(Run(ops, plugins), order, plugins);
            s.cache == map[] && OccursIn(s.uploads, n) == Processed(ops, n)
  {
    var s := Run(ops, plugins);
    RunAccounts(ops, plugins, n);
    NothingRefused(ops, plugins);
    FlushAccounts(s, order, plugins, n);
    FlushTakes(s, order, plugins);
    FlushRefuses(s, order, plugins);
    assert FlushOf(s, order, plugins).cache.Keys == {};
  }

  // ---------------------------------------------------------------------------------
  // What the uploads of a run say

  /** The entry that reports `q` and the response `r` to it, when `first` of them arrived first. */
  ghost predicate ReportsPair(e: Entry, q: Message, r: Message, first: Message) {
    var meta := if first == q && q.meta.httpMethod == "" then UNKNOWN_META else q.meta;
    && e.src == q.src && e.dst == q.dst && e.id == q.key
    && e.observed == first.observed && e.netInterface == first.netInterface
    && e.partial == Some(Method(Some(q.payload), Some(r.payload), Some(
         if q.final == 0 || r.observed == 0 then meta
         else meta.(latency := LatencyMillis(q.final, r.observed)))))
    && e.messages == if first == q then [q.number, r.number] else [r.number, q.number]
  }

  /** The entry that reports a message without a counterpart. */
  ghost predicate ReportsAlone(e: Entry, m: Message) {
    && e.src == m.src && e.dst == m.dst && e.id == m.key
    && e.observed == m.observed && e.netInterface == m.netInterface
    && e.partial == Some(if m.isRequest then Method(Some(m.payload), None, Some(m.meta))
                         else Method(None, Some(m.payload), Some(UNKNOWN_META)))
    && e.messages == [m.number]
  }

  /** The latency is the time from the last packet of the request to the first of the response,
      in whole microseconds, cut off toward zero. */
  lemma LatencyIsElapsedTime(start: int, end: int)
    ensures var ns := (end - start) as real;
            var latency := LatencyMillis(start, end) * 1000000.0;
            && (0.0 <= ns ==> ns - 1000.0 < latency <= ns)
            && (ns <= 0.0 ==> ns <= latency < ns + 1000.0)
    ensures LatencyMillis(start, end) * 1000.0 == (LatencyMillis(start, end) * 1000.0).Floor as real
  {
    var ns := end - start;
    var micros := if ns < 0 then -(-ns / 1000) else ns / 1000;
    assert LatencyMillis(start, end) * 1000.0 == micros as real;
  }

  /** No step of `ops` concerns the key. */
  ghost predicate Untouched(ops: seq<Op>, key: string) {
    forall i :: 0 <= i < |ops| ==>
      match ops[i] case Process(m) => m.key != key case Flush(_, order) => key !in order
  }

  lemma {:induction false} FlushKeeps(s: Store, order: seq<string>, plugins: Plugins, key: string)
    requires key !in order
    ensures key in FlushOf(s, order, plugins).cache <==> key in s.cache
    ensures key in s.cache ==> FlushOf(s, order, plugins).cache[key] == s.cache[key]
  {
    FlushTakes(s, order, plugins);
  }

  /** A message that finds no entry under its key stays cached, as it came, until a step on its
      key. */
  lemma {:induction false} CachedUntilTouched(before: seq<Op>, m: Message, mid: seq<Op>, plugins: Plugins)
    requires m.key !in Run(before, plugins).cache && Untouched(mid, m.key)
    ensures var s := Run(before + [Process(m)] + mid, plugins);
            m.key in s.cache && ReportsAlone(s.cache[m.key], m) && s.cache[m.key] == Fresh(m)
    decreases |mid|
  {
    var ops := before + [Process(m)] + mid;
    if mid == [] {
      assert ops[..|ops| - 1] == before && ops[|ops| - 1] == Process(m);
    } else {
      var init, op := mid[..|mid| - 1], mid[|mid| - 1];
      assert forall i :: 0 <= i < |init| ==> init[i] == mid[i];
      CachedUntilTouched(before, m, init, plugins);
      assert ops[..|ops| - 1] == before + [Process(m)] + init && ops[|ops| - 1] == op;
      if op.Flush? { FlushKeeps(Run(before + [Process(m)] + init, plugins), op.order, plugins, m.key); }
    }
  }

  /** What one step adds to the uploads and refusals. */
  ghost predicate Adds(s: Store, s': Store, e: Entry, plugins: Plugins) {
    if plugins(e) then s'.uploads == s.uploads + [e] && s'.refused == s.refused
    else s'.refused == s.refused + [e] && s'.uploads == s.uploads
  }

  lemma PairedReports(q: Message, r: Message, first: Message, second: Message)
    requires Counterparts(q, r) && ((first == q && second == r) || (first == r && second == q))
    ensures ReportsPair(Paired(Fresh(first), second), q, r, first)
  {
  }

  /** In every run, when a request and its response arrive in either order, with no step on their
      key before or between them, the second one ends the wait: exactly one witness is uploaded
      or refused, and it reports both. */
  lemma PairIsReportedOnce(before: seq<Op>, mid: seq<Op>, q: Message, r: Message, first: Message, second: Message, plugins: Plugins)
    requires Counterparts(q, r) && ((first == q && second == r) || (first == r && second == q))
    requires q.key !in Run(before, plugins).cache && Untouched(mid, q.key)
    ensures var ops := before + [Process(first)] + mid;
            var s, s' := Run(ops, plugins), Run(ops + [Process(second)], plugins);
            && q.key in s.cache && s'.cache == s.cache - {q.key}
            && exists e :: ReportsPair(e, q, r, first) && Adds(s, s', e, plugins)
  {
    var ops := before + [Process(first)] + mid;
    CachedUntilTouched(before, first, mid, plugins);
    assert (ops + [Process(second)])[..|ops|] == ops;
    PairedReports(q, r, first, second);
    var e := Paired(Fresh(first), second);
    assert Adds(Run(ops, plugins), Run(ops + [Process(second)], plugins), e, plugins);
  }

  /** A message alone under its key is only cached. */
  lemma FirstIsCached(ops: seq<Op>, m: Message, plugins: Plugins)
    requires m.key !in Run(ops, plugins).cache
    ensures var s, s' := Run(ops, plugins), Run(ops + [Process(m)], plugins);
            && s'.uploads == s.uploads && s'.refused == s.refused
            && s'.cache.Keys == s.cache.Keys + {m.key} && ReportsAlone(s'.cache[m.key], m)
            && forall k :: k in s.cache ==> s'.cache[k] == s.cache[k]
  {
    assert (ops + [Process(m)])[..|ops|] == ops;
  }

  /** The entries of a flush that the plugins accept, in order, or those that they refuse. */
  function Chosen(cache: map<string, Entry>, order: seq<string>, plugins: Plugins, accepted: bool): seq<Entry> {
    if order == [] then []
    else
      var n := |order| - 1;
      Chosen(cache, order[..n], plugins, accepted) +
        if order[n] in cache && plugins(cache[order[n]]) == accepted then [cache[order[n]]] else []
  }

  /** A flush uploads or refuses each listed entry once, as it is in the cache, and no other. */
  lemma {:induction false} FlushReports(s: Store, order: seq<string>, plugins: Plugins)
    requires forall i, j :: 0 <= i < j < |order| ==> order[i] != order[j]
    ensures var s' := FlushOf(s, order, plugins);
            && s'.uploads == s.uploads + Chosen(s.cache, order, plugins, true)
            && s'.refused == s.refused + Chosen(s.cache, order, plugins, false)
  {
    if order != [] {
      var n := |order| - 1;
      FlushReports(s, order[..n], plugins);
      FlushTakes(s, order[..n], plugins);
    }
  }

  /** A message whose counterpart has not come when its entry is flushed is reported alone. */
  lemma UnpairedIsReportedAlone(before: seq<Op>, m: Message, mid: seq<Op>, plugins: Plugins, cutoff: int, order: seq<string>)
    requires m.key !in Run(before, plugins).cache && Untouched(mid, m.key)
    requires FlushOrder(Run(before + [Process(m)] + mid, plugins).cache, cutoff, order) && m.observed < cutoff
    ensures var s := Run(before + [Process(m)] + mid, plugins);
            exists e :: ReportsAlone(e, m) && e in Chosen(s.cache, order, plugins, plugins(e))
  {
    var s := Run(before + [Process(m)] + mid, plugins);
    CachedUntilTouched(before, m, mid, plugins);
    var e := s.cache[m.key];
    assert m.key in order;
    ChosenHas(s.cache, order, plugins, m.key);
    assert ReportsAlone(e, m) && e in Chosen(s.cache, order, plugins, plugins(e));
  }

  lemma {:induction false} ChosenHas(cache: map<string, Entry>, order: seq<string>, plugins: Plugins, key: string)
    requires key in order && key in cache
    ensures cache[key] in Chosen(cache, order, plugins, plugins(cache[key]))
  {
    var n := |order| - 1;
    if order[n] != key {
      assert order == order[..n] + [order[n]];
      ChosenHas(cache, order[..n], plugins, key);
    }
  }

  /** A second message of the same kind under one key: the report keeps the data of the first
      one, has no latency, and shows the addresses of a repeated request the wrong way round. */
  lemma RepeatedMessage(a: Message, b: Message)
    requires a.isRequest == b.isRequest && a.key == b.key && a.src == b.src && a.dst == b.dst
    ensures var e := Paired(Fresh(a), b);
            && (e.src == if a.isRequest then a.dst else a.src)
            && (e.dst == if a.isRequest then a.src else a.dst)
            && e.partial.Some?
            && (a.isRequest ==> e.partial.value.args == Some(a.payload) && e.partial.value.responses == None)
            && (!a.isRequest ==> e.partial.value.args == None && e.partial.value.responses == Some(a.payload))
            && (a.isRequest && a.meta.httpMethod != "" ==> e.partial.value.meta == Some(a.meta))
  {
  }

  class BackendCollector {
    const plugins: Plugins
    var pairCache: map<string, Entry>
    var uploads: seq<Entry>
    var refused: seq<Entry>

    function View(): Store
      reads this
    {
      Store(pairCache, uploads, refused)
    }

    constructor (plugins: Plugins)
      ensures this.plugins == plugins && View() == Store(map[], [], [])
    {
      this.plugins := plugins;
      pairCache, uploads, refused := map[], [], [];
    }

    method QueueUpload(e: Entry)
      modifies this`uploads, this`refused
      ensures View() == Queue(old(View()), e, plugins(e))
    {
      if plugins(e) {
        uploads := uploads + [e];
      } else {
        refused := refused + [e];
      }
    }

    method Process(m: Message)
      modifies this
      ensures View() == ProcessOf(old(View()), m, plugins)
    {
      if m.key in pairCache {
        var pair := pairCache[m.key];
        pairCache := pairCache - {m.key};
        pair := MergeWitness(pair, Parsed(m));
        pair := WithLatency(pair, m);
        if m.isRequest {
          pair := pair.(src := pair.dst, dst := pair.src);
        }
        pair := pair.(messages := pair.messages + [m.number]);
        QueueUpload(pair);
      } else {
        pairCache := pairCache[m.key := Fresh(m)];
      }
    }

    /** MergeWitness, branch by branch, into the witness of `pair`. */
    method MergeWitness(pair: Entry, src: Witness) returns (r: Entry)
      requires pair.partial.Some? ==> src.Some?
      ensures r == pair.(partial := Merged(pair.partial, src))
    {
      r := pair;
      if pair.partial.None? {
        r := r.(partial := src);
        return;
      }
      var dst := pair.partial.value;
      if dst.args.None? {
        dst := dst.(args := src.value.args);
      } else {
        dst := dst.(responses := src.value.responses);
      }
      if dst.meta.None? {
        dst := dst.(meta := src.value.meta);
      }
      if dst.meta.Some? && dst.meta.value.httpMethod == "" {
        dst := dst.(meta := src.value.meta);
      }
      r := r.(partial := Some(dst));
    }

    method FlushPairCache(cutoff: int) returns (ghost order: seq<string>)
      modifies this
      ensures FlushOrder(old(pairCache), cutoff, order)
      ensures View() == FlushOf(old(View()), order, plugins)
    {
      var todo := pairCache.Keys;
      order := [];
      while todo != {}
        invariant todo <= old(pairCache).Keys
        invariant View() == FlushOf(old(View()), order, plugins)
        invariant forall k :: k in order <==> k in old(pairCache) && k !in todo && old(pairCache)[k].observed < cutoff
        invariant forall i, j :: 0 <= i < j < |order| ==> order[i] != order[j]
      {
        var k :| k in todo;
        FlushTakes(old(View()), order, plugins);
        var e := pairCache[k];
        if e.observed < cutoff {
          QueueUpload(e);
          pairCache := pairCache - {k};
          assert (order + [k])[..|order|] == order;
          order := order + [k];
        }
        todo := todo - {k};
      }
    }
  }
}
