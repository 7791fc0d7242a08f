/** The upload buffers: one active, the others free or in flight with an upload goroutine. */
module ReportBuffers {

  type Report = int
  datatype Buffer = Buffer(number: nat)

  /** Where an upload goroutine is: before its upload, before the clear, before the return. */
  datatype Phase = Uploading | Uploaded | Cleared

  /** A buffer in flight, with the number of the flush that sent it. */
  datatype Flight = Flight(batch: nat, phase: Phase)
  datatype Upload = Upload(batch: nat, reports: seq<Report>)
  datatype Active = Holding(buffer: Buffer) | Waiting

  datatype State = State(
    contents: map<Buffer, seq<Report>>,   // of every buffer
    active: Active,               // Waiting while a flush receives from the channel
    free: seq<Buffer>,               // the channel
    flights: map<Buffer, Flight>,
    flushes: nat,
    uploads: seq<Upload>)

  datatype Event =
    | Add(reports: seq<Report>)
    | FlushStart
    | FlushEnd
    | UploadTo(buffer: Buffer)
    | Clear(buffer: Buffer)
    | Return(buffer: Buffer)

  function Numbered(from: nat, to: nat): seq<Buffer>
    requires from <= to
  {
    seq(to - from, i requires 0 <= i < to - from => Buffer(from + i))
  }

  function Init(n: nat): State
    requires n >= 1
  {
    State(map b | b in Numbered(0, n) :: [], Holding(Buffer(0)), Numbered(1, n), map[], 0, [])
  }

  predicate InPhase(s: State, b: Buffer, phase: Phase) {
    b in s.flights && s.flights[b].phase == phase && b in s.contents
  }

  /** Steps that can be taken now. Add and Flush are called by one thread, which waits in
      FlushEnd; a return waits for room in the channel. */
  predicate Enabled(s: State, e: Event) {
    match e
    case Add(_) => s.active.Holding? && s.active.buffer in s.contents
    case FlushStart => s.active.Holding? && s.active.buffer in s.contents
    case FlushEnd => s.active.Waiting? && s.free != []
    case UploadTo(b) => InPhase(s, b, Uploading)
    case Clear(b) => InPhase(s, b, Uploaded)
    case Return(b) => InPhase(s, b, Cleared) && |s.free| < |s.contents|
  }

  function Step(s: State, e: Event): State
    requires Enabled(s, e)
  {
    match e
    case Add(reports) =>
      var b := s.active.buffer;
      s.(contents := s.contents[b := s.contents[b] + reports])
    case FlushStart =>
      var b := s.active.buffer;
      if s.contents[b] == [] then s
      else s.(active := Waiting, flights := s.flights[b := Flight(s.flushes, Uploading)], flushes := s.flushes + 1)
    case FlushEnd => s.(active := Holding(s.free[0]), free := s.free[1..])
    case UploadTo(b) =>
      var batch := s.flights[b].batch;
      s.(uploads := s.uploads + [Upload(batch, s.contents[b])], flights := s.flights[b := Flight(batch, Uploaded)])
    case Clear(b) =>
      s.(contents := s.contents[b := []], flights := s.flights[b := Flight(s.flights[b].batch, Cleared)])
    case Return(b) => s.(free := s.free + [b], flights := s.flights - {b})
  }

  ghost predicate Reaches(n: nat, es: seq<Event>, s: State)
    requires n >= 1
  {
    if es == [] then s == Init(n)
    else
      var k := |es| - 1;
      exists before :: Reaches(n, es[..k], before) && Enabled(before, es[k]) && s == Step(before, es[k])
  }

  // ---------------------------------------------------------------------------------
  // The reference: the reports between two flushes are one batch

  datatype Batches = Batches(closed: seq<seq<Report>>, current: seq<Report>)

  function BatchStep(x: Batches, e: Event): Batches {
    match e
    case Add(reports) => x.(current := x.current + reports)
    case FlushStart => if x.current == [] then x else Batches(x.closed + [x.current], [])
    case _ => x
  }

  function BatchesOf(es: seq<Event>): Batches {
    if es == [] then Batches([], []) else BatchStep(BatchesOf(es[..|es| - 1]), es[|es| - 1])
  }

  /** All batches in order are all reports in order. */
  function Concat(xs: seq<seq<Report>>): seq<Report> {
    if xs == [] then [] else Concat(xs[..|xs| - 1]) + xs[|xs| - 1]
  }

  function Added(es: seq<Event>): seq<Report> {
    if es == [] then []
    else Added(es[..|es| - 1]) + if es[|es| - 1].Add? then es[|es| - 1].reports else []
  }

  lemma {:induction false} BatchesTile(es: seq<Event>)
    ensures Concat(BatchesOf(es).closed) + BatchesOf(es).current == Added(es)
  {
    if es != [] {
      var x := BatchesOf(es[..|es| - 1]);
      BatchesTile(es[..|es| - 1]);
      assert (x.closed + [x.current])[..|x.closed|] == x.closed;
    }
  }

  // ---------------------------------------------------------------------------------
  // Every buffer has one place

  ghost predicate Distinct(free: seq<Buffer>) {
    forall i, j :: 0 <= i < j < |free| ==> free[i] != free[j]
  }

  ghost predicate OnePlace(s: State, b: Buffer) {
    && (s.active == Holding(b) ==> b !in s.free && b !in s.flights)
    && (b in s.free ==> b !in s.flights)
    && (b in s.contents <==> s.active == Holding(b) || b in s.free || b in s.flights)
  }

  ghost predicate Places(s: State) {
    Distinct(s.free) && forall b: Buffer :: OnePlace(s, b)
  }

  lemma NumberedAre(from: nat, to: nat, b: Buffer)
    requires from <= to
    ensures b in Numbered(from, to) <==> from <= b.number < to
  {
    if from <= b.number < to { assert Numbered(from, to)[b.number - from] == b; }
  }

  lemma InitPlaces(n: nat)
    requires n >= 1
    ensures Places(Init(n)) && |Init(n).contents| == n
  {
    var all := Numbered(0, n);
    DistinctSize(all);
    assert Init(n).contents.Keys == set b | b in all;
    forall b: Buffer ensures OnePlace(Init(n), b) {
      NumberedAre(0, n, b);
      NumberedAre(1, n, b);
    }
  }

  lemma PlacesStep(s: State, e: Event)
    requires Places(s) && Enabled(s, e)
    ensures Places(Step(s, e)) && Step(s, e).contents.Keys == s.contents.Keys
  {
    var s' := Step(s, e);
    if e.FlushEnd? { assert s.free == [s.free[0]] + s'.free; }
    if e.Return? { assert OnePlace(s, e.buffer); }
    if s.active.Holding? { assert OnePlace(s, s.active.buffer); }
    forall b: Buffer ensures OnePlace(s', b) { assert OnePlace(s, b); }
  }

  lemma {:induction false} PlacesRun(n: nat, es: seq<Event>, s: State)
    requires n >= 1 && Reaches(n, es, s)
    ensures Places(s) && |s.contents| == n
  {
    if es == [] {
      InitPlaces(n);
    } else {
      var k := |es| - 1;
      var before :| Reaches(n, es[..k], before) && Enabled(before, es[k]) && s == Step(before, es[k]);
      PlacesRun(n, es[..k], before);
      PlacesStep(before, es[k]);
      assert |s.contents.Keys| == |before.contents.Keys|;
    }
  }

  lemma {:induction false} DistinctSize<T>(xs: seq<T>)
    requires forall i, j :: 0 <= i < j < |xs| ==> xs[i] != xs[j]
    ensures |set x | x in xs| == |xs|
  {
    if xs != [] {
      var n := |xs| - 1;
      DistinctSize(xs[..n]);
      assert xs == xs[..n] + [xs[n]];
      assert (set x | x in xs) == (set x | x in xs[..n]) + {xs[n]};
    }
  }

  lemma DisjointSizes<T(!new)>(all: set<T>, a: set<T>, b: set<T>, c: set<T>)
    requires forall x :: x in all <==> x in a + b + c
    requires forall x :: !(x in a && x in b) && !(x in c && x in a + b)
    ensures |all| == |a| + |b| + |c|
  {
    assert all == a + b + c && a !! b && (a + b) !! c;
  }

  /** The places count all buffers, so a buffer that is not in the channel has room there. */
  lemma PlacesCount(s: State)
    requires Places(s)
    ensures |s.free| + |s.flights| + (if s.active.Holding? then 1 else 0) == |s.contents|
  {
    var free, flights := (set b | b in s.free), s.flights.Keys;
    var active := if s.active.Holding? then {s.active.buffer} else {};
    DistinctSize(s.free);
    forall b: Buffer
      ensures b in s.contents <==> b in free + flights + active
      ensures !(b in free && b in flights) && !(b in active && b in free + flights)
    {
      assert OnePlace(s, b);
    }
    DisjointSizes(s.contents.Keys, free, flights, active);
  }

  /** In every run each buffer is exactly one of active, free or in flight, and returning a
      buffer never has to wait. */
  lemma BuffersConserved(n: nat, es: seq<Event>, s: State)
    requires n >= 1 && Reaches(n, es, s)
    ensures forall b: Buffer :: OnePlace(s, b)
    ensures |s.free| + |s.flights| + (if s.active.Holding? then 1 else 0) == n
    ensures forall b :: InPhase(s, b, Cleared) ==> Enabled(s, Return(b))
  {
    PlacesRun(n, es, s);
    PlacesCount(s);
    forall b | InPhase(s, b, Cleared) ensures Enabled(s, Return(b)) {
      assert s.flights != map[];
      assert |s.flights| > 0;
    }
  }

  /** The next step of the goroutine that holds a buffer. */
  function Next(f: Flight, b: Buffer): Event {
    match f.phase case Uploading => UploadTo(b) case Uploaded => Clear(b) case Cleared => Return(b)
  }

  /** How many steps the goroutines have left. */
  ghost function Work(flights: map<Buffer, Flight>): nat {
    if flights == map[] then 0
    else
      var b :| b in flights;
      Left(flights[b].phase) + Work(flights - {b})
  }

  function Left(p: Phase): nat { match p case Uploading => 3 case Uploaded => 2 case Cleared => 1 }

  lemma {:induction false} WorkWithout(flights: map<Buffer, Flight>, b: Buffer)
    requires b in flights
    ensures Work(flights) == Left(flights[b].phase) + Work(flights - {b})
    decreases |flights|
  {
    var c :| c in flights && Work(flights) == Left(flights[c].phase) + Work(flights - {c});
    if c != b {
      WorkWithout(flights - {c}, b);
      WorkWithout(flights - {b}, c);
      assert flights - {c} - {b} == flights - {b} - {c};
    }
  }

  /** A flush that waits has a free buffer to take or a goroutine that can go on; and every
      goroutine's step brings the return of its buffer nearer. */
  lemma WaitingFlushProgresses(n: nat, es: seq<Event>, s: State)
    requires n >= 1 && Reaches(n, es, s) && s.active.Waiting?
    ensures Enabled(s, FlushEnd) || s.flights != map[]
    ensures forall b :: b in s.flights ==>
              && Enabled(s, Next(s.flights[b], b))
              && Work(Step(s, Next(s.flights[b], b)).flights) < Work(s.flights)
  {
    PlacesRun(n, es, s);
    PlacesCount(s);
    BuffersConserved(n, es, s);
    forall b | b in s.flights
      ensures Enabled(s, Next(s.flights[b], b)) && Work(Step(s, Next(s.flights[b], b)).flights) < Work(s.flights)
    {
      assert OnePlace(s, b);
      assert InPhase(s, b, s.flights[b].phase);
      var after := Step(s, Next(s.flights[b], b)).flights;
      WorkWithout(s.flights, b);
      if b in after {
        WorkWithout(after, b);
        assert after - {b} == s.flights - {b};
      }
    }
  }

  // ---------------------------------------------------------------------------------
  // Every batch is uploaded once

  ghost predicate UploadedBatch(s: State, k: nat) { exists i :: 0 <= i < |s.uploads| && s.uploads[i].batch == k }

  ghost predicate PendingBatch(s: State, k: nat) {
    exists b :: InPhase(s, b, Uploading) && s.flights[b].batch == k
  }

  /** The buffers hold what the reference says. */
  ghost predicate HoldsBatches(s: State, x: Batches) {
    && s.flushes == |x.closed|
    && (s.active.Holding? ==> s.active.buffer in s.contents && s.contents[s.active.buffer] == x.current)
    && (s.active.Waiting? ==> x.current == [])
    && (forall b :: b in s.free ==> b in s.contents && s.contents[b] == [])
    && (forall b :: InPhase(s, b, Cleared) ==> s.contents[b] == [])
    && (forall b :: InPhase(s, b, Uploading) ==>
          s.flights[b].batch < |x.closed| && s.contents[b] == x.closed[s.flights[b].batch])
  }

  /** Each closed batch is uploaded once, whole, or still waits for its upload. */
  ghost predicate Tracked(s: State, x: Batches) {
    && (forall i :: 0 <= i < |s.uploads| ==>
          s.uploads[i].batch < |x.closed| && s.uploads[i].reports == x.closed[s.uploads[i].batch])
    && (forall i, j :: 0 <= i < j < |s.uploads| ==> s.uploads[i].batch != s.uploads[j].batch)
    && (forall b, c :: InPhase(s, b, Uploading) && InPhase(s, c, Uploading) && s.flights[b].batch == s.flights[c].batch ==> b == c)
    && (forall k: nat :: k < |x.closed| ==> UploadedBatch(s, k) != PendingBatch(s, k))
  }

  lemma HoldsStep(s: State, x: Batches, e: Event)
    requires Places(s) && HoldsBatches(s, x) && Enabled(s, e)
    ensures HoldsBatches(Step(s, e), BatchStep(x, e))
  {
    var s' := Step(s, e);
    if s.active.Holding? { assert OnePlace(s, s.active.buffer); }
    if e.Clear? { assert OnePlace(s, e.buffer); }
    if e.FlushEnd? { assert s.free == [s.free[0]] + s'.free; }
  }

  lemma UploadUploads(s: State, b: Buffer, k: nat)
    requires Enabled(s, UploadTo(b))
    ensures UploadedBatch(Step(s, UploadTo(b)), k) <==> UploadedBatch(s, k) || k == s.flights[b].batch
  {
    var s' := Step(s, UploadTo(b));
    assert s'.uploads[|s.uploads|].batch == s.flights[b].batch;
    if i :| 0 <= i < |s.uploads| && s.uploads[i].batch == k { assert s'.uploads[i].batch == k; }
  }

  lemma UploadSettles(s: State, x: Batches, b: Buffer, k: nat)
    requires Tracked(s, x) && Enabled(s, UploadTo(b))
    ensures PendingBatch(Step(s, UploadTo(b)), k) <==> PendingBatch(s, k) && k != s.flights[b].batch
  {
    var s' := Step(s, UploadTo(b));
    assert forall c :: InPhase(s', c, Uploading) <==> InPhase(s, c, Uploading) && c != b;
    assert forall c :: InPhase(s', c, Uploading) ==> s'.flights[c] == s.flights[c];
  }

  lemma UploadTracked(s: State, x: Batches, b: Buffer)
    requires HoldsBatches(s, x) && Tracked(s, x) && Enabled(s, UploadTo(b))
    ensures Tracked(Step(s, UploadTo(b)), x)
  {
    var s', batch := Step(s, UploadTo(b)), s.flights[b].batch;
    assert PendingBatch(s, batch);
    assert !UploadedBatch(s, batch);
    forall k: nat | k < |x.closed| ensures UploadedBatch(s', k) != PendingBatch(s', k) {
      UploadUploads(s, b, k);
      UploadSettles(s, x, b, k);
    }
    assert forall c :: InPhase(s', c, Uploading) ==> InPhase(s, c, Uploading) && s'.flights[c] == s.flights[c];
  }

  lemma FlushTracked(s: State, x: Batches)
    requires Places(s) && HoldsBatches(s, x) && Tracked(s, x) && Enabled(s, FlushStart) && x.current != []
    ensures Tracked(Step(s, FlushStart), BatchStep(x, FlushStart))
  {
    var s', x', b := Step(s, FlushStart), BatchStep(x, FlushStart), s.active.buffer;
    assert OnePlace(s, b);
    assert forall c :: InPhase(s', c, Uploading) <==> InPhase(s, c, Uploading) || c == b;
    forall k: nat | k < |x'.closed| ensures UploadedBatch(s', k) != PendingBatch(s', k) {
      assert InPhase(s', b, Uploading) && s'.flights[b].batch == |x.closed|;
      assert UploadedBatch(s', k) == UploadedBatch(s, k);
      assert k < |x.closed| ==> PendingBatch(s', k) == PendingBatch(s, k);
    }
  }

  lemma SameTracked(s: State, s': State, x: Batches, x': Batches)
    requires Tracked(s, x) && s'.uploads == s.uploads && x'.closed == x.closed
    requires forall b :: InPhase(s', b, Uploading) <==> InPhase(s, b, Uploading)
    requires forall b :: InPhase(s, b, Uploading) ==> b in s'.flights && s'.flights[b] == s.flights[b]
    ensures Tracked(s', x')
  {
    forall k: nat | k < |x.closed| ensures UploadedBatch(s', k) != PendingBatch(s', k) {
      assert UploadedBatch(s', k) == UploadedBatch(s, k);
      assert PendingBatch(s', k) == PendingBatch(s, k);
    }
  }

  lemma TrackedStep(s: State, x: Batches, e: Event)
    requires Places(s) && HoldsBatches(s, x) && Tracked(s, x) && Enabled(s, e)
    ensures Tracked(Step(s, e), BatchStep(x, e))
  {
    if e.UploadTo? {
      UploadTracked(s, x, e.buffer);
    } else if e.FlushStart? && x.current != [] {
      FlushTracked(s, x);
    } else {
      SameTracked(s, Step(s, e), x, BatchStep(x, e));
    }
  }

  lemma {:induction false} BatchesRun(n: nat, es: seq<Event>, s: State)
    requires n >= 1 && Reaches(n, es, s)
    ensures HoldsBatches(s, BatchesOf(es)) && Tracked(s, BatchesOf(es))
  {
    if es == [] {
      forall b: Buffer ensures b in s.contents <==> b.number < n { NumberedAre(0, n, b); }
      forall b: Buffer ensures b in s.free <==> 1 <= b.number < n { NumberedAre(1, n, b); }
    } else {
      var k := |es| - 1;
      var before :| Reaches(n, es[..k], before) && Enabled(before, es[k]) && s == Step(before, es[k]);
      BatchesRun(n, es[..k], before);
      PlacesRun(n, es[..k], before);
      HoldsStep(before, BatchesOf(es[..k]), es[k]);
      TrackedStep(before, BatchesOf(es[..k]), es[k]);
    }
  }

  /** In every interleaving the uploads are distinct batches, each whole; once no upload is
      pending, every report added before the last flush is in exactly one. */
  lemma EveryBatchUploadedOnce(n: nat, es: seq<Event>, s: State)
    requires n >= 1 && Reaches(n, es, s)
    ensures var closed := BatchesOf(es).closed;
            && Concat(closed) + BatchesOf(es).current == Added(es)
            && (forall i :: 0 <= i < |s.uploads| ==>
                  s.uploads[i].batch < |closed| && s.uploads[i].reports == closed[s.uploads[i].batch])
            && (forall i, j :: 0 <= i < j < |s.uploads| ==> s.uploads[i].batch != s.uploads[j].batch)
            && ((forall b :: !InPhase(s, b, Uploading)) ==> forall k: nat :: k < |closed| ==> UploadedBatch(s, k))
  {
    BatchesTile(es);
    BatchesRun(n, es, s);
  }

  // ---------------------------------------------------------------------------------
  // The buffers, updated in place

  class ReportBuffer {
    var contents: map<Buffer, seq<Report>>
    var active: Active
    var free: seq<Buffer>
    var flights: map<Buffer, Flight>
    var flushes: nat
    var uploads: seq<Upload>

    function View(): State
      reads this
    {
      State(contents, active, free, flights, flushes, uploads)
    }

    constructor (n: nat)
      requires n >= 1
      ensures View() == Init(n)
    {
      flights, flushes, uploads := map[], 0, [];
      var reports: map<Buffer, seq<Report>>, channel := map[], [];
      for i := 0 to n
        invariant channel == Numbered(0, i)
        invariant reports == map b | b in Numbered(0, i) :: []
      {
        assert Numbered(0, i + 1) == Numbered(0, i) + [Buffer(i)];
        reports, channel := reports[Buffer(i) := []], channel + [Buffer(i)];
      }
      contents, active, free := reports, Holding(channel[0]), channel[1..];
    }

    method Append(reports: seq<Report>)
      requires Enabled(View(), Add(reports))
      modifies this`contents
      ensures View() == Step(old(View()), Add(reports))
    {
      contents := contents[active.buffer := contents[active.buffer] + reports];
    }

    /** The part of Flush before it waits for a buffer. */
    method StartFlush()
      requires Enabled(View(), FlushStart)
      modifies this
      ensures View() == Step(old(View()), FlushStart)
    {
      var report := active.buffer;
      if contents[report] == [] {
        return;
      }
      flights := flights[report := Flight(flushes, Uploading)];
      active, flushes := Waiting, flushes + 1;
    }

    /** The part of Flush that receives the next buffer. */
    method EndFlush()
      requires Enabled(View(), FlushEnd)
      modifies this
      ensures View() == Step(old(View()), FlushEnd)
    {
      active, free := Holding(free[0]), free[1..];
    }

    /** The goroutine's steps. */
    method UploadReports(b: Buffer)
      requires Enabled(View(), UploadTo(b))
      modifies this
      ensures View() == Step(old(View()), UploadTo(b))
    {
      uploads := uploads + [Upload(flights[b].batch, contents[b])];
      flights := flights[b := Flight(flights[b].batch, Uploaded)];
    }

    method ClearBuffer(b: Buffer)
      requires Enabled(View(), Clear(b))
      modifies this
      ensures View() == Step(old(View()), Clear(b))
    {
      contents := contents[b := []];
      flights := flights[b := Flight(flights[b].batch, Cleared)];
    }

    method ReturnBuffer(b: Buffer)
      requires Enabled(View(), Return(b))
      modifies this
      ensures View() == Step(old(View()), Return(b))
    {
      free := free + [b];
      flights := flights - {b};
    }
  }
}
