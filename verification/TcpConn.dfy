/** Summaries of TCP connections, from the metadata of their packets. */
module TcpConns {

  datatype Id = ConnectionId(uuid: string)
  datatype Endpoint = Endpoint(ip: string, port: int)
  datatype EndState = ConnectionOpen | ConnectionClosed | ConnectionReset
  datatype Initiator = UnknownInitiator | SourceInitiator | DestInitiator

  datatype TcpPacket = TcpPacket(
    id: Id, from: Endpoint, to: Endpoint, time: int, payload: nat, syn: bool, ack: bool, fin: bool, rst: bool)

  datatype Info = Info(
    id: Id, src: Endpoint, dst: Endpoint, first: int, last: int, initiator: Initiator, endState: EndState)

  datatype Message = Tcp(packet: TcpPacket) | Other(content: int)
  datatype Output = Forward(message: Message) | Report(info: Info)

  // ---------------------------------------------------------------------------------
  // The collector's steps

  /** Packets that do not open a connection: a bare ACK, and any RST. */
  predicate Ignored(p: TcpPacket) {
    (p.payload == 0 && p.ack && !(p.fin || p.rst || p.syn)) || p.rst
  }

  function Opened(p: TcpPacket): Info {
    Info(p.id, p.from, p.to, p.time, p.time, UnknownInitiator, ConnectionOpen)
  }

  function Augment(info: Info, p: TcpPacket): Info {
    info.(
      first := if p.time < info.first then p.time else info.first,
      last := if info.last < p.time then p.time else info.last,
      initiator :=
        if info.initiator == UnknownInitiator && p.syn then
          if p.ack then (if info.src == p.from then DestInitiator else SourceInitiator)
          else (if info.src == p.from then SourceInitiator else DestInitiator)
        else info.initiator,
      endState :=
        if p.rst then ConnectionReset
        else if p.fin && info.endState == ConnectionOpen then ConnectionClosed
        else info.endState)
  }

  datatype State = State(closed: bool, active: map<Id, Info>, out: seq<Output>)

  function ProcessOf(s: State, m: Message): State {
    match m
    case Other(_) => s.(out := s.out + [Forward(m)])
    case Tcp(p) =>
      if s.closed then s
      else if p.id in s.active then
        s.(active := s.active[p.id := Augment(s.active[p.id], p)], out := s.out + [Forward(m)])
      else if Ignored(p) then s
      else s.(active := s.active[p.id := Opened(p)])
  }

  function FlushOf(s: State, id: Id): State {
    if id in s.active then s.(active := s.active - {id}, out := s.out + [Report(s.active[id])]) else s
  }

  /** `order` is some order in which the active connections are visited. */
  ghost predicate Enumerates<T>(order: seq<Id>, m: map<Id, T>) {
    && (forall id :: id in order <==> id in m)
    && (forall i, j :: 0 <= i < j < |order| ==> order[i] != order[j])
  }

  function FlushAll(s: State, order: seq<Id>): State {
    if order == [] then s else FlushOf(FlushAll(s, order[..|order| - 1]), order[|order| - 1])
  }

  function CloseOf(s: State, order: seq<Id>): State { FlushAll(s, order).(closed := true) }

  datatype Event = Deliver(m: Message) | Timeout(id: Id) | Close(order: seq<Id>)

  ghost predicate Enabled(s: State, e: Event) { e.Close? ==> Enumerates(e.order, s.active) }

  function Step(s: State, e: Event): State {
    match e
    case Deliver(m) => ProcessOf(s, m)
    case Timeout(id) => FlushOf(s, id)
    case Close(order) => CloseOf(s, order)
  }

  const INIT := State(false, map[], [])

  /** `s` is a state that the events can lead to. */
  ghost predicate Reaches(es: seq<Event>, s: State) {
    if es == [] then s == INIT
    else
      var n := |es| - 1;
      exists before ::
        Reaches(es[..n], before) && Enabled(before, es[n]) && s == Step(before, es[n])
  }

  // ---------------------------------------------------------------------------------
  // The reference: remember every packet of a connection, summarise when it is reported

  datatype History = History(closed: bool, lives: map<Id, seq<TcpPacket>>, reported: seq<seq<TcpPacket>>)

  function Finish(h: History, id: Id): History {
    if id in h.lives then h.(lives := h.lives - {id}, reported := h.reported + [h.lives[id]]) else h
  }

  function FinishAll(h: History, order: seq<Id>): History {
    if order == [] then h else Finish(FinishAll(h, order[..|order| - 1]), order[|order| - 1])
  }

  function Remember(h: History, e: Event): History {
    match e
    case Deliver(Other(_)) => h
    case Deliver(Tcp(p)) =>
      if h.closed then h
      else if p.id in h.lives then h.(lives := h.lives[p.id := h.lives[p.id] + [p]])
      else if Ignored(p) then h
      else h.(lives := h.lives[p.id := [p]])
    case Timeout(id) => Finish(h, id)
    case Close(order) => FinishAll(h, order).(closed := true)
  }

  function RememberAll(es: seq<Event>): History {
    if es == [] then History(false, map[], [])
    else Remember(RememberAll(es[..|es| - 1]), es[|es| - 1])
  }

  ghost predicate SomeRst(ps: seq<TcpPacket>) { exists i :: 1 <= i < |ps| && ps[i].rst }
  ghost predicate SomeFin(ps: seq<TcpPacket>) { exists i :: 1 <= i < |ps| && ps[i].fin }
  ghost predicate SynBefore(ps: seq<TcpPacket>, n: int) { exists i :: 1 <= i < n && i < |ps| && ps[i].syn }

  /** The sender of a SYN is the initiator, the sender of a SYN-ACK is not. */
  predicate InitiatedBySource(ps: seq<TcpPacket>, i: nat)
    requires i < |ps|
  {
    (ps[i].from == ps[0].from) != ps[i].ack
  }

  /** What a report must say about the packets of one connection. The end state and the
      initiator are inferred from the packets after the first. */
  ghost predicate Summarises(info: Info, ps: seq<TcpPacket>) {
    && ps != []
    && (forall i :: 0 <= i < |ps| ==> ps[i].id == info.id)
    && info.src == ps[0].from && info.dst == ps[0].to
    && (forall i :: 0 <= i < |ps| ==> info.first <= ps[i].time <= info.last)
    && (exists i :: 0 <= i < |ps| && info.first == ps[i].time)
    && (exists i :: 0 <= i < |ps| && info.last == ps[i].time)
    && info.endState == (if SomeRst(ps) then ConnectionReset else if SomeFin(ps) then ConnectionClosed else ConnectionOpen)
    && (info.initiator == UnknownInitiator <==> !SynBefore(ps, |ps|))
    && (forall i :: 1 <= i < |ps| && ps[i].syn && !SynBefore(ps, i) ==>
          info.initiator == if InitiatedBySource(ps, i) then SourceInitiator else DestInitiator)
  }

  lemma OpenedSummarises(p: TcpPacket)
    ensures Summarises(Opened(p), [p])
  {
    assert [p][0].time == p.time;
  }

  lemma SomeSnoc(ps: seq<TcpPacket>, p: TcpPacket)
    requires ps != []
    ensures SomeRst(ps + [p]) <==> SomeRst(ps) || p.rst
    ensures SomeFin(ps + [p]) <==> SomeFin(ps) || p.fin
    ensures SynBefore(ps + [p], |ps| + 1) <==> SynBefore(ps, |ps|) || p.syn
    ensures forall n :: n <= |ps| ==> SynBefore(ps + [p], n) == SynBefore(ps, n)
  {
    var qs := ps + [p];
    assert qs[|ps|] == p;
    assert forall i :: 0 <= i < |ps| ==> qs[i] == ps[i];
  }

  lemma TimesSnoc(info: Info, ps: seq<TcpPacket>, p: TcpPacket)
    requires Summarises(info, ps)
    ensures var info', qs := Augment(info, p), ps + [p];
            && (forall i :: 0 <= i < |qs| ==> info'.first <= qs[i].time <= info'.last)
            && (exists i :: 0 <= i < |qs| && info'.first == qs[i].time)
            && (exists i :: 0 <= i < |qs| && info'.last == qs[i].time)
  {
    var qs := ps + [p];
    var i :| 0 <= i < |ps| && info.first == ps[i].time;
    var j :| 0 <= j < |ps| && info.last == ps[j].time;
    assert qs[i] == ps[i] && qs[j] == ps[j] && qs[|ps|] == p;
  }

  /** Updating the summary for a packet is summarising the packets with that packet. */
  lemma AugmentSummarises(info: Info, ps: seq<TcpPacket>, p: TcpPacket)
    requires Summarises(info, ps) && p.id == info.id
    ensures Summarises(Augment(info, p), ps + [p])
  {
    var info', qs := Augment(info, p), ps + [p];
    SomeSnoc(ps, p);
    TimesSnoc(info, ps, p);
    forall i | 1 <= i < |qs| && qs[i].syn && !SynBefore(qs, i)
      ensures info'.initiator == if InitiatedBySource(qs, i) then SourceInitiator else DestInitiator
    {
      if i < |ps| {
        assert ps[i].syn && !SynBefore(ps, i);
        assert InitiatedBySource(qs, i) == InitiatedBySource(ps, i);
      }
    }
  }

  lemma FirstSyn(ps: seq<TcpPacket>, n: nat) returns (i: nat)
    requires SynBefore(ps, n)
    ensures 1 <= i < n && i < |ps| && ps[i].syn && !SynBefore(ps, i)
  {
    i :| 1 <= i < n && i < |ps| && ps[i].syn;
    if SynBefore(ps, i) { i := FirstSyn(ps, i); }
  }

  /** The packets determine the report. */
  lemma SummaryIsUnique(a: Info, b: Info, ps: seq<TcpPacket>)
    requires Summarises(a, ps) && Summarises(b, ps)
    ensures a == b
  {
    assert ps[0].id == a.id == b.id;
    if SynBefore(ps, |ps|) {
      var i := FirstSyn(ps, |ps|);
    }
  }

  /** The packets after the first. */
  ghost function Later(ps: seq<TcpPacket>): set<TcpPacket> { set i | 1 <= i < |ps| :: ps[i] }

  lemma Within(ps: seq<TcpPacket>, qs: seq<TcpPacket>, i: nat)
    requires Later(ps) <= Later(qs) && i < |ps| && qs != [] && ps[0] == qs[0]
    ensures ps[i] in qs
  {
    if i > 0 { assert ps[i] in Later(ps); }
  }

  lemma BoundsEach(b: Info, qs: seq<TcpPacket>, p: TcpPacket)
    requires Summarises(b, qs) && p in qs
    ensures b.first <= p.time <= b.last
  {
  }

  lemma TimesWithin(a: Info, b: Info, ps: seq<TcpPacket>, qs: seq<TcpPacket>)
    requires Summarises(a, ps) && Summarises(b, qs) && ps[0] == qs[0] && Later(ps) <= Later(qs)
    ensures b.first <= a.first && a.last <= b.last
  {
    var i :| 0 <= i < |ps| && a.first == ps[i].time;
    var k :| 0 <= k < |ps| && a.last == ps[k].time;
    Within(ps, qs, i);
    Within(ps, qs, k);
    BoundsEach(b, qs, ps[i]);
    BoundsEach(b, qs, ps[k]);
  }

  lemma EndWithin(ps: seq<TcpPacket>, qs: seq<TcpPacket>)
    requires Later(ps) <= Later(qs)
    ensures (SomeRst(ps) ==> SomeRst(qs)) && (SomeFin(ps) ==> SomeFin(qs))
  {
    if i :| 1 <= i < |ps| && ps[i].rst { assert ps[i] in Later(ps); }
    if i :| 1 <= i < |ps| && ps[i].fin { assert ps[i] in Later(ps); }
  }

  lemma EndOf(a: Info, ps: seq<TcpPacket>)
    requires Summarises(a, ps)
    ensures a.endState.ConnectionReset? <==> SomeRst(ps)
    ensures a.endState.ConnectionClosed? <==> SomeFin(ps) && !SomeRst(ps)
  {
  }

  /** Times and end state do not depend on the order of the packets after the first, nor on how
      often one is repeated. */
  lemma SummaryIgnoresOrder(a: Info, b: Info, ps: seq<TcpPacket>, qs: seq<TcpPacket>)
    requires Summarises(a, ps) && Summarises(b, qs) && ps[0] == qs[0] && Later(ps) == Later(qs)
    ensures a.first == b.first && a.last == b.last && a.endState == b.endState
  {
    TimesWithin(a, b, ps, qs);
    TimesWithin(b, a, qs, ps);
    EndWithin(ps, qs);
    EndWithin(qs, ps);
    EndOf(a, ps);
    EndOf(b, qs);
  }

  // ---------------------------------------------------------------------------------
  // The collector refines the reference

  function Reports(out: seq<Output>): seq<Info> {
    if out == [] then []
    else Reports(out[..|out| - 1]) + match out[|out| - 1] case Report(info) => [info] case Forward(_) => []
  }

  ghost predicate Matches(infos: seq<Info>, lives: seq<seq<TcpPacket>>) {
    |infos| == |lives| && forall i :: 0 <= i < |infos| ==> Summarises(infos[i], lives[i])
  }

  ghost predicate Refines(s: State, h: History) {
    && s.closed == h.closed && s.active.Keys == h.lives.Keys
    && (forall id :: id in s.active ==> s.active[id].id == id && Summarises(s.active[id], h.lives[id]))
    && Matches(Reports(s.out), h.reported)
  }

  lemma ForwardReportsNothing(out: seq<Output>, m: Message)
    ensures Reports(out + [Forward(m)]) == Reports(out)
  {
    assert (out + [Forward(m)])[..|out|] == out;
  }

  lemma PutRefines(s: State, h: History, info: Info, ps: seq<TcpPacket>)
    requires Refines(s, h) && Summarises(info, ps)
    ensures Refines(s.(active := s.active[info.id := info]), h.(lives := h.lives[info.id := ps]))
  {
  }

  lemma ProcessRefines(s: State, h: History, p: TcpPacket)
    requires Refines(s, h)
    ensures Refines(ProcessOf(s, Tcp(p)), Remember(h, Deliver(Tcp(p))))
  {
    if !s.closed {
      if p.id in s.active {
        AugmentSummarises(s.active[p.id], h.lives[p.id], p);
        PutRefines(s, h, Augment(s.active[p.id], p), h.lives[p.id] + [p]);
        ForwardReportsNothing(s.out, Tcp(p));
      } else if !Ignored(p) {
        OpenedSummarises(p);
        PutRefines(s, h, Opened(p), [p]);
      }
    }
  }

  lemma FlushRefines(s: State, h: History, id: Id)
    requires Refines(s, h)
    ensures Refines(FlushOf(s, id), Finish(h, id))
  {
    if id in s.active {
      var info := s.active[id];
      assert (s.out + [Report(info)])[..|s.out|] == s.out;
      assert Reports(s.out + [Report(info)]) == Reports(s.out) + [info];
    }
  }

  lemma {:induction false} FlushAllRefines(s: State, h: History, order: seq<Id>)
    requires Refines(s, h)
    ensures Refines(FlushAll(s, order), FinishAll(h, order))
  {
    if order != [] {
      FlushAllRefines(s, h, order[..|order| - 1]);
      FlushRefines(FlushAll(s, order[..|order| - 1]), FinishAll(h, order[..|order| - 1]), order[|order| - 1]);
    }
  }

  lemma StepRefines(s: State, h: History, e: Event)
    requires Refines(s, h)
    ensures Refines(Step(s, e), Remember(h, e))
  {
    match e
    case Deliver(Other(_)) => ForwardReportsNothing(s.out, e.m);
    case Deliver(Tcp(p)) => ProcessRefines(s, h, p);
    case Timeout(id) => FlushRefines(s, h, id);
    case Close(order) => FlushAllRefines(s, h, order);
  }

  /** In every run each active connection is summarised by its information, and the reports
      are summaries of the reported connections, in order. */
  lemma {:induction false} RunRefines(es: seq<Event>, s: State)
    requires Reaches(es, s)
    ensures Refines(s, RememberAll(es))
  {
    if es != [] {
      var n := |es| - 1;
      var before :| Reaches(es[..n], before) && Enabled(before, es[n]) && s == Step(before, es[n]);
      RunRefines(es[..n], before);
      StepRefines(before, RememberAll(es[..n]), es[n]);
    }
  }

  // ---------------------------------------------------------------------------------
  // Every connection is reported once

  predicate Opens(h: History, e: Event, id: Id) {
    e.Deliver? && e.m.Tcp? && e.m.packet.id == id && !h.closed && id !in h.lives && !Ignored(e.m.packet)
  }

  /** How often a packet opened a connection `id`. */
  function Adds(es: seq<Event>, id: Id): nat {
    if es == [] then 0
    else
      var n := |es| - 1;
      Adds(es[..n], id) + if Opens(RememberAll(es[..n]), es[n], id) then 1 else 0
  }

  function ReportCount(infos: seq<Info>, id: Id): nat {
    if infos == [] then 0
    else ReportCount(infos[..|infos| - 1], id) + if infos[|infos| - 1].id == id then 1 else 0
  }

  ghost predicate Balanced(s: State, adds: nat, id: Id) {
    && (forall i :: i in s.active ==> s.active[i].id == i)
    && ReportCount(Reports(s.out), id) + (if id in s.active then 1 else 0) == adds
  }

  lemma ProcessBalances(s: State, h: History, m: Message, adds: nat, id: Id)
    requires s.closed == h.closed && s.active.Keys == h.lives.Keys && Balanced(s, adds, id)
    ensures Balanced(ProcessOf(s, m), adds + if Opens(h, Deliver(m), id) then 1 else 0, id)
  {
    ForwardReportsNothing(s.out, m);
  }

  lemma FlushBalances(s: State, flushed: Id, adds: nat, id: Id)
    requires Balanced(s, adds, id)
    ensures Balanced(FlushOf(s, flushed), adds, id)
  {
    if flushed in s.active {
      var infos := Reports(s.out);
      assert s.out == (s.out + [Report(s.active[flushed])])[..|s.out|];
      assert infos == (infos + [s.active[flushed]])[..|infos|];
    }
  }

  lemma {:induction false} FlushAllBalances(s: State, order: seq<Id>, adds: nat, id: Id)
    requires Balanced(s, adds, id)
    ensures Balanced(FlushAll(s, order), adds, id)
  {
    if order != [] {
      FlushAllBalances(s, order[..|order| - 1], adds, id);
      FlushBalances(FlushAll(s, order[..|order| - 1]), order[|order| - 1], adds, id);
    }
  }

  lemma StepBalances(s: State, h: History, e: Event, adds: nat, id: Id)
    requires s.closed == h.closed && s.active.Keys == h.lives.Keys && Balanced(s, adds, id)
    ensures Balanced(Step(s, e), adds + if Opens(h, e, id) then 1 else 0, id)
  {
    match e
    case Deliver(m) => ProcessBalances(s, h, m, adds, id);
    case Timeout(flushed) => FlushBalances(s, flushed, adds, id);
    case Close(order) => FlushAllBalances(s, order, adds, id);
  }

  lemma {:induction false} RunBalances(es: seq<Event>, s: State, id: Id)
    requires Reaches(es, s)
    ensures Balanced(s, Adds(es, id), id)
  {
    if es != [] {
      var n := |es| - 1;
      var before :| Reaches(es[..n], before) && Enabled(before, es[n]) && s == Step(before, es[n]);
      RunBalances(es[..n], before, id);
      RunRefines(es[..n], before);
      StepBalances(before, RememberAll(es[..n]), es[n], Adds(es[..n], id), id);
    }
  }

  /** In every run a connection was opened as often as it was reported, once more while it is
      active. */
  lemma ReportsBalanceAdds(es: seq<Event>, s: State, id: Id)
    requires Reaches(es, s)
    ensures ReportCount(Reports(s.out), id) + (if id in s.active then 1 else 0) == Adds(es, id)
  {
    RunBalances(es, s, id);
  }

  lemma {:induction false} FlushAllLeaves(s: State, order: seq<Id>)
    ensures FlushAll(s, order).active.Keys == set id | id in s.active && id !in order
    ensures FlushAll(s, order).closed == s.closed
  {
    if order != [] {
      FlushAllLeaves(s, order[..|order| - 1]);
      assert order == order[..|order| - 1] + [order[|order| - 1]];
    }
  }

  lemma {:induction false} ClosedMeansEmpty(es: seq<Event>, s: State)
    requires Reaches(es, s)
    ensures s.closed <==> exists i :: 0 <= i < |es| && es[i].Close?
    ensures s.closed ==> s.active == map[]
  {
    if es != [] {
      var n := |es| - 1;
      var before :| Reaches(es[..n], before) && Enabled(before, es[n]) && s == Step(before, es[n]);
      ClosedMeansEmpty(es[..n], before);
      if es[n].Close? {
        FlushAllLeaves(before, es[n].order);
        assert s.active.Keys == {};
      }
      assert forall i :: 0 <= i < n ==> es[..n][i] == es[i];
      if i :| 0 <= i < |es| && es[i].Close? { assert i == n || es[..n][i].Close?; }
    }
  }

  /** Once the collector was closed every connection was reported exactly as often as it was
      opened. */
  lemma ClosedReportsAll(es: seq<Event>, s: State, id: Id)
    requires Reaches(es, s) && exists i :: 0 <= i < |es| && es[i].Close?
    ensures ReportCount(Reports(s.out), id) == Adds(es, id)
  {
    ClosedMeansEmpty(es, s);
    ReportsBalanceAdds(es, s, id);
  }

  // ---------------------------------------------------------------------------------
  // What is forwarded, and what opens a connection

  function Forwards(out: seq<Output>): seq<Message> {
    if out == [] then []
    else Forwards(out[..|out| - 1]) + match out[|out| - 1] case Forward(m) => [m] case Report(_) => []
  }

  /** Other content is forwarded, and of TCP packets those that continue a connection. */
  predicate IsForwarded(h: History, e: Event) {
    e.Deliver? && match e.m case Other(_) => true case Tcp(p) => !h.closed && p.id in h.lives
  }

  function Forwarded(es: seq<Event>): seq<Message> {
    if es == [] then []
    else
      var init, e := es[..|es| - 1], es[|es| - 1];
      Forwarded(init) + if IsForwarded(RememberAll(init), e) then [e.m] else []
  }

  lemma ForwardsSnoc(out: seq<Output>, o: Output)
    ensures Forwards(out + [o]) == Forwards(out) + match o case Forward(m) => [m] case Report(_) => []
  {
    assert (out + [o])[..|out|] == out;
  }

  lemma {:induction false} FlushAllForwardsNothing(s: State, order: seq<Id>)
    ensures Forwards(FlushAll(s, order).out) == Forwards(s.out)
  {
    if order != [] {
      var s', id := FlushAll(s, order[..|order| - 1]), order[|order| - 1];
      FlushAllForwardsNothing(s, order[..|order| - 1]);
      if id in s'.active { ForwardsSnoc(s'.out, Report(s'.active[id])); }
    }
  }

  lemma StepForwards(s: State, h: History, e: Event)
    requires s.closed == h.closed && s.active.Keys == h.lives.Keys
    ensures Forwards(Step(s, e).out) == Forwards(s.out) + if IsForwarded(h, e) then [e.m] else []
  {
    match e
    case Deliver(m) => ForwardsSnoc(s.out, Forward(m));
    case Timeout(id) => if id in s.active { ForwardsSnoc(s.out, Report(s.active[id])); }
    case Close(order) => FlushAllForwardsNothing(s, order);
  }

  /** In every run exactly these messages go on to the next collector, in order: other content,
      and the packets of known connections; never the packet that opens one, an ignored one, or a
      packet after Close. */
  lemma {:induction false} ForwardsExactly(es: seq<Event>, s: State)
    requires Reaches(es, s)
    ensures Forwards(s.out) == Forwarded(es)
  {
    if es != [] {
      var n := |es| - 1;
      var before :| Reaches(es[..n], before) && Enabled(before, es[n]) && s == Step(before, es[n]);
      ForwardsExactly(es[..n], before);
      RunRefines(es[..n], before);
      StepForwards(before, RememberAll(es[..n]), es[n]);
    }
  }

  /** A packet of an unknown connection opens it unless it is a bare acknowledgement or a reset. */
  lemma OpensUnlessIgnored(es: seq<Event>, s: State, p: TcpPacket)
    requires Reaches(es, s) && !s.closed && p.id !in s.active
    ensures var bareAck := p.payload == 0 && p.ack && !p.fin && !p.syn && !p.rst;
            && (p.id in Step(s, Deliver(Tcp(p))).active <==> !p.rst && !bareAck)
            && Adds(es + [Deliver(Tcp(p))], p.id) == Adds(es, p.id) + if !p.rst && !bareAck then 1 else 0
  {
    RunRefines(es, s);
    assert (es + [Deliver(Tcp(p))])[..|es|] == es;
  }

  // ---------------------------------------------------------------------------------
  // The collector

  class Collector {
    var closed: bool
    var active: map<Id, Info>
    var out: seq<Output>

    function View(): State
      reads this
    {
      State(closed, active, out)
    }

    constructor ()
      ensures View() == INIT
    {
      closed, active, out := false, map[], [];
    }

    method Process(m: Message)
      modifies this
      ensures View() == ProcessOf(old(View()), m)
    {
      if m.Tcp? {
        var p := m.packet;
        if closed {
          return;
        }
        if p.id !in active {
          if p.payload == 0 && p.ack && !(p.fin || p.rst || p.syn) {
            return;
          }
          if p.rst {
            return;
          }
          active := active[p.id := Opened(p)];
          return;
        }
        active := active[p.id := Augment(active[p.id], p)];
      }
      out := out + [Forward(m)];
    }

    /** The timeout of a connection. */
    method FlushConnection(id: Id) returns (existed: bool)
      modifies this
      ensures existed <==> id in old(active)
      ensures View() == FlushOf(old(View()), id)
    {
      existed := id in active;
      if existed {
        out := out + [Report(active[id])];
        active := active - {id};
      }
    }

    method Close()
      modifies this
      ensures exists order :: Enumerates(order, old(active)) && View() == CloseOf(old(View()), order)
    {
      closed := true;
      ghost var order: seq<Id> := [];
      ghost var before := old(View());
      var todo := active.Keys;
      while todo != {}
        invariant closed && active == before.active && todo <= active.Keys
        invariant forall id :: id in order <==> id in active && id !in todo
        invariant forall i, j :: 0 <= i < j < |order| ==> order[i] != order[j]
        invariant FlushAll(before, order) == State(before.closed, Only(active, todo), out)
      {
        var id :| id in todo;
        FlushAllSnoc(before, order, id);
        OnlyRemoves(active, todo, id);
        out := out + [Report(active[id])];
        order, todo := order + [id], todo - {id};
      }
      active := map[];
      assert Enumerates(order, before.active) && View() == CloseOf(before, order);
    }
  }

  function Only(active: map<Id, Info>, ids: set<Id>): map<Id, Info> {
    map id | id in active && id in ids :: active[id]
  }

  lemma OnlyRemoves(active: map<Id, Info>, ids: set<Id>, id: Id)
    ensures Only(active, ids) - {id} == Only(active, ids - {id})
  {
  }

  lemma FlushAllSnoc(s: State, order: seq<Id>, id: Id)
    ensures FlushAll(s, order + [id]) == FlushOf(FlushAll(s, order), id)
  {
    assert (order + [id])[..|order|] == order;
  }
}
