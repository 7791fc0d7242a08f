/** Why each piece of a flow was emitted: what the selector and the parsers answered for the
    stretch of the stream that it stands for. */
module TcpFlowCauses {
  import opened Flows = TcpFlow

  /** The offset `p` is in delivery `k` or before its end. */
  ghost predicate Reaches(ds: seq<Delivery>, p: nat, k: nat) {
    k < |ds| && p <= |Stream(ds[..k + 1])|
  }

  /** The stream from `p` to the end of delivery `k`: what is there to select a parser for. */
  ghost function Offered(ds: seq<Delivery>, p: nat, k: nat): Bytes
    requires Reaches(ds, p, k)
  {
    Stream(ds[..k + 1])[p..]
  }

  /** What a parser is fed that starts at `p` in delivery `k`: the rest of that delivery, then the
      later ones. */
  ghost function Fed(ds: seq<Delivery>, p: nat, k: nat, n: nat): seq<Bytes>
    requires Reaches(ds, p, k) && k + n <= |ds|
  {
    seq(n, j requires 0 <= j < n => if j == 0 then Offered(ds, p, k) else ds[k + j].data)
  }

  ghost function Selected(lib: Library, ds: seq<Delivery>, from: nat, k: nat): Selection
    requires Reaches(ds, from, k)
  {
    lib.select(Offered(ds, from, k), ds[k].end)
  }

  /** Where a parser comes from: the selector was offered the stream from `from` in delivery `k`,
      and the parser was fed in `n` deliveries. */
  datatype Origin = Origin(from: nat, k: nat, n: nat)

  /** The selector accepted `factory` for the bytes from `p` on, whose context was usable, and the
      parser was not done before its last input. */
  ghost predicate Parsing(lib: Library, ds: seq<Delivery>, p: nat, factory: Factory, o: Origin) {
    && o.from <= p && Reaches(ds, p, o.k) && 1 <= o.n && o.k + o.n <= |ds|
    && Selected(lib, ds, o.from, o.k) == Selection(Accept(factory), p - o.from)
    && p in ds[o.k].usable
    && forall j :: 1 <= j < o.n ==> lib.parse(factory, Fed(ds, p, o.k, j), ds[o.k + j - 1].end) == Pending
  }

  ghost function Answer(lib: Library, ds: seq<Delivery>, p: nat, factory: Factory, o: Origin): Outcome
    requires Parsing(lib, ds, p, factory, o)
  {
    lib.parse(factory, Fed(ds, p, o.k, o.n), ds[o.k + o.n - 1].end)
  }

  datatype Cause =
    | Discarded(k: nat)                        // the selector discarded this front
    | NotParsable(from: nat, k: nat)           // accepted without a usable context, or unsupported
    | GaveUp(factory: Factory, origin: Origin)
    | Finished(factory: Factory, origin: Origin)
    | Undecided(from: nat, k: nat)             // the flow closed before a parser was selected

  /** The cause explains the emission at stream offset `p`. */
  ghost predicate Explains(lib: Library, ds: seq<Delivery>, p: nat, e: Emission, c: Cause) {
    match c
    case Discarded(k) =>
      && e.piece.Dropped? && Reaches(ds, p, k)
      && 0 <= Selected(lib, ds, p, k).discardFront <= |Offered(ds, p, k)|
      && e.bytes == Offered(ds, p, k)[..Selected(lib, ds, p, k).discardFront]
    case NotParsable(from, k) =>
      && e.piece.Dropped? && from <= p && Reaches(ds, p, k) && e.bytes == Offered(ds, p, k)
      && var s := Selected(lib, ds, from, k);
         && s.discardFront == p - from
         && (s.decision.Unsupported? || (s.decision.Accept? && p !in ds[k].usable))
    case GaveUp(factory, o) =>
      && e.piece.Dropped? && Parsing(lib, ds, p, factory, o)
      && Answer(lib, ds, p, factory, o).Failed? && e.bytes == Flatten(Fed(ds, p, o.k, o.n))
    case Finished(factory, o) =>
      && e.piece.Parsed? && Parsing(lib, ds, p, factory, o)
      && var a := Answer(lib, ds, p, factory, o);
         && a.Done? && a.content == e.piece.content
         && e.bytes + a.unused == Flatten(Fed(ds, p, o.k, o.n))
    case Undecided(from, k) =>
      && e.piece.Dropped? && from <= p && Reaches(ds, p, k) && e.bytes == Offered(ds, p, k)
      && k + 2 == |ds|
      && Selected(lib, ds, from, k) == Selection(NeedMoreData, p - from)
  }

  ghost predicate Caused(lib: Library, ds: seq<Delivery>, p: nat, e: Emission, closing: bool) {
    exists c :: Explains(lib, ds, p, e, c) && (c.Undecided? ==> closing)
  }

  /** Every piece has a cause at the offset where it begins. */
  ghost predicate AllCaused(lib: Library, ds: seq<Delivery>, out: seq<Emission>, closing: bool) {
    forall i {:trigger Caused(lib, ds, |Covered(out[..i])|, out[i], closing)} ::
      0 <= i < |out| ==> Caused(lib, ds, |Covered(out[..i])|, out[i], closing)
  }

  // ---------------------------------------------------------------------------------
  // More deliveries do not take causes away

  lemma {:induction false} SizeOfStream(ds: seq<Delivery>)
    ensures |Stream(ds)| == Size(ds)
  {
    if ds != [] { SizeOfStream(ds[..|ds| - 1]); }
  }

  lemma OfferedStays(ds: seq<Delivery>, d: Delivery, p: nat, k: nat)
    requires Reaches(ds, p, k)
    ensures Reaches(ds + [d], p, k) && Offered(ds + [d], p, k) == Offered(ds, p, k)
  {
    assert (ds + [d])[..k + 1] == ds[..k + 1];
  }

  lemma FedStays(ds: seq<Delivery>, d: Delivery, p: nat, k: nat, n: nat)
    requires Reaches(ds, p, k) && k + n <= |ds|
    ensures Reaches(ds + [d], p, k) && Fed(ds + [d], p, k, n) == Fed(ds, p, k, n)
  {
    OfferedStays(ds, d, p, k);
  }

  lemma ParsingStays(lib: Library, ds: seq<Delivery>, d: Delivery, p: nat, factory: Factory, o: Origin)
    requires Parsing(lib, ds, p, factory, o)
    ensures Parsing(lib, ds + [d], p, factory, o)
    ensures Answer(lib, ds + [d], p, factory, o) == Answer(lib, ds, p, factory, o)
  {
    var ds' := ds + [d];
    OfferedStays(ds, d, p, o.k);
    OfferedStays(ds, d, o.from, o.k);
    FedStays(ds, d, p, o.k, o.n);
    forall j | 1 <= j < o.n ensures lib.parse(factory, Fed(ds', p, o.k, j), ds'[o.k + j - 1].end) == Pending {
      FedStays(ds, d, p, o.k, j);
      assert lib.parse(factory, Fed(ds, p, o.k, j), ds[o.k + j - 1].end) == Pending;
    }
  }

  lemma ExplainsStays(lib: Library, ds: seq<Delivery>, d: Delivery, p: nat, e: Emission, c: Cause)
    requires Explains(lib, ds, p, e, c) && !c.Undecided?
    ensures Explains(lib, ds + [d], p, e, c)
  {
    match c
    case Discarded(k) => OfferedStays(ds, d, p, k);
    case NotParsable(from, k) =>
      OfferedStays(ds, d, p, k);
      OfferedStays(ds, d, from, k);
    case GaveUp(factory, o) =>
      ParsingStays(lib, ds, d, p, factory, o);
      FedStays(ds, d, p, o.k, o.n);
    case Finished(factory, o) =>
      ParsingStays(lib, ds, d, p, factory, o);
      FedStays(ds, d, p, o.k, o.n);
    case Undecided(_, _) =>
  }

  lemma CausesStay(lib: Library, ds: seq<Delivery>, d: Delivery, out: seq<Emission>)
    requires AllCaused(lib, ds, out, false)
    ensures AllCaused(lib, ds + [d], out, false)
  {
    forall i | 0 <= i < |out| ensures Caused(lib, ds + [d], |Covered(out[..i])|, out[i], false) {
      var p := |Covered(out[..i])|;
      assert Caused(lib, ds, p, out[i], false);
      var c :| Explains(lib, ds, p, out[i], c) && !c.Undecided?;
      ExplainsStays(lib, ds, d, p, out[i], c);
    }
  }

  lemma CausesAppend(lib: Library, ds: seq<Delivery>, out: seq<Emission>, e: Emission, c: Cause, closing: bool)
    requires AllCaused(lib, ds, out, closing) && Explains(lib, ds, |Covered(out)|, e, c)
    requires c.Undecided? ==> closing
    ensures AllCaused(lib, ds, out + [e], closing)
  {
    var out' := out + [e];
    forall i | 0 <= i < |out'| ensures Caused(lib, ds, |Covered(out'[..i])|, out'[i], closing) {
      if i < |out| {
        assert out'[..i] == out[..i] && out'[i] == out[i];
        assert Caused(lib, ds, |Covered(out[..i])|, out[i], closing);
      } else {
        assert out'[..i] == out && out'[i] == e;
      }
    }
  }

  // ---------------------------------------------------------------------------------
  // One delivery

  /** What is left of the stream after what is covered is what the last delivery offers. */
  lemma RestIsOffered(ds: seq<Delivery>, covered: Bytes, rest: Bytes)
    requires ds != [] && covered + rest == Stream(ds)
    ensures Reaches(ds, |covered|, |ds| - 1) && Offered(ds, |covered|, |ds| - 1) == rest
    ensures |covered| == Size(ds) - |rest|
  {
    assert ds[..|ds|] == ds;
    SizeOfStream(ds);
  }

  ghost predicate WaitsFrom(lib: Library, ds: seq<Delivery>, from: nat, p: nat, k: nat) {
    from <= p && Reaches(ds, p, k) && Selected(lib, ds, from, k) == Selection(NeedMoreData, p - from)
  }

  /** The selector saw all bytes from `p` on in the last delivery and asked for more. */
  ghost predicate Waits(lib: Library, ds: seq<Delivery>, p: nat, rest: Bytes, k: nat) {
    && k + 1 == |ds| && Reaches(ds, p, k) && Offered(ds, p, k) == rest
    && exists from: nat :: WaitsFrom(lib, ds, from, p, k)
  }

  lemma FrontExplained(lib: Library, ds: seq<Delivery>, covered: Bytes, front: Bytes, rest: Bytes)
    requires ds != [] && covered + (front + rest) == Stream(ds)
    requires |front| == lib.select(front + rest, ds[|ds| - 1].end).discardFront
    ensures Explains(lib, ds, |covered|, Emission(Dropped(|front|), front), Discarded(|ds| - 1))
  {
    RestIsOffered(ds, covered, front + rest);
    assert (front + rest)[..|front|] == front;
  }

  lemma Regroup(a: Bytes, b: Bytes, c: Bytes)
    ensures a + (b + c) == (a + b) + c
  {
  }

  lemma FrontCaused(lib: Library, ds: seq<Delivery>, f: Flow, front: Bytes, rest: Bytes)
    requires ds != [] && AllCaused(lib, ds, f.out, false)
    requires Covered(f.out) + (front + rest) == Stream(ds)
    requires |front| == lib.select(front + rest, ds[|ds| - 1].end).discardFront
    ensures var out := Unparseable(f, |front|, front).out;
            && AllCaused(lib, ds, out, false)
            && Covered(out) + rest == Stream(ds) && |Covered(out)| == |Covered(f.out)| + |front|
  {
    if front == [] {
      assert front + rest == rest;
    } else {
      var e := Emission(Dropped(|front|), front);
      FrontExplained(lib, ds, Covered(f.out), front, rest);
      CausesAppend(lib, ds, f.out, e, Discarded(|ds| - 1), false);
      CoveredAppend(f.out, e);
      Regroup(Covered(f.out), front, rest);
    }
  }

  /** The stream from `p` on is `rest`, and the selector was offered the last delivery from `from`
      on and discarded what is before `p`. */
  ghost predicate Decided(lib: Library, ds: seq<Delivery>, from: nat, p: nat, rest: Bytes, decision: Decision) {
    var k := |ds| - 1;
    && ds != [] && from <= p && Reaches(ds, p, k) && Offered(ds, p, k) == rest && p == Size(ds) - |rest|
    && Selected(lib, ds, from, k) == Selection(decision, p - from)
  }

  lemma DecisionMade(lib: Library, ds: seq<Delivery>, from: nat, input: Bytes, p: nat, rest: Bytes, s: Selection)
    requires ds != [] && Reaches(ds, from, |ds| - 1) && Offered(ds, from, |ds| - 1) == input
    requires Reaches(ds, p, |ds| - 1) && Offered(ds, p, |ds| - 1) == rest && p == Size(ds) - |rest|
    requires s == lib.select(input, ds[|ds| - 1].end) && p == from + s.discardFront && from <= p
    ensures Decided(lib, ds, from, p, rest, s.decision)
  {
    assert Selected(lib, ds, from, |ds| - 1) == s;
  }

  lemma RestExplained(lib: Library, ds: seq<Delivery>, from: nat, p: nat, rest: Bytes, decision: Decision)
    requires Decided(lib, ds, from, p, rest, decision)
    requires decision.Unsupported? || (decision.Accept? && p !in ds[|ds| - 1].usable)
    ensures Explains(lib, ds, p, Emission(Dropped(|rest|), rest), NotParsable(from, |ds| - 1))
  {
  }

  lemma RestCaused(lib: Library, ds: seq<Delivery>, g: Flow, from: nat, rest: Bytes, decision: Decision)
    requires AllCaused(lib, ds, g.out, false) && Decided(lib, ds, from, |Covered(g.out)|, rest, decision)
    requires decision.Unsupported? || (decision.Accept? && |Covered(g.out)| !in ds[|ds| - 1].usable)
    ensures AllCaused(lib, ds, Unparseable(g, |rest|, rest).out, false)
  {
    if rest != [] {
      RestExplained(lib, ds, from, |Covered(g.out)|, rest, decision);
      CausesAppend(lib, ds, g.out, Emission(Dropped(|rest|), rest), NotParsable(from, |ds| - 1), false);
    }
  }

  lemma AcceptedLives(lib: Library, ds: seq<Delivery>, from: nat, p: nat, rest: Bytes, factory: Factory)
    requires Decided(lib, ds, from, p, rest, Accept(factory)) && p in ds[|ds| - 1].usable
    ensures LiveFrom(lib, ds, p, factory, [rest], Origin(from, |ds| - 1, 1))
  {
    assert Fed(ds, p, |ds| - 1, 1) == [rest];
  }

  /** What the selector's decision leads to, once the front is discarded. */
  ghost predicate DecisionExplained(lib: Library, ds: seq<Delivery>, g: Flow, from: nat, rest: Bytes, decision: Decision)
    requires ds != []
  {
    var p, k := |Covered(g.out)|, |ds| - 1;
    match decision
    case NeedMoreData => Waits(lib, ds, p, rest, k)
    case Reject => true
    case Unsupported => AllCaused(lib, ds, Unparseable(g, |rest|, rest).out, false)
    case Accept(factory) =>
      if p in ds[k].usable then LiveFrom(lib, ds, p, factory, [rest], Origin(from, k, 1))
      else AllCaused(lib, ds, Unparseable(g, |rest|, rest).out, false)
  }

  lemma DecisionCaused(lib: Library, ds: seq<Delivery>, g: Flow, from: nat, rest: Bytes, decision: Decision)
    requires AllCaused(lib, ds, g.out, false) && Decided(lib, ds, from, |Covered(g.out)|, rest, decision)
    ensures DecisionExplained(lib, ds, g, from, rest, decision)
  {
    var p, k := |Covered(g.out)|, |ds| - 1;
    match decision
    case NeedMoreData => assert WaitsFrom(lib, ds, from, p, k);
    case Reject =>
    case Unsupported => RestCaused(lib, ds, g, from, rest, decision);
    case Accept(factory) =>
      if p in ds[k].usable {
        AcceptedLives(lib, ds, from, p, rest, factory);
      } else {
        RestCaused(lib, ds, g, from, rest, decision);
      }
  }

  /** The effect of the decision on `rest`, when the front is already gone from `g`. */
  ghost predicate OpensAs(w: Opening, g: Flow, rest: Bytes, decision: Decision, usable: bool) {
    && w.flow.out == (if decision.Unsupported? || (decision.Accept? && !usable)
                      then Unparseable(g, |rest|, rest).out else g.out)
    && (w.Opened? <==> decision.Accept? && usable)
    && (w.Opened? ==> w.flow.parser == Live(decision.factory, []) && w.input == rest)
    && (w.Settled? ==> w.kept == if decision.NeedMoreData? then rest else [])
  }

  lemma OpenOpensAs(f: Flow, s: Selection, front: Bytes, rest: Bytes, size: nat, contexts: set<int>)
    requires s.discardFront == |front|
    ensures OpensAs(Open(f, s, front + rest, size, contexts), Unparseable(f, |front|, front), rest, s.decision,
                    size - |rest| in contexts)
  {
    var input := front + rest;
    assert input[..|front|] == front && input[|front|..] == rest;
  }

  /** An opening is explained: its pieces have causes, kept bytes wait for a decision, and a new
      parser has its origin. */
  ghost predicate OpeningExplained(lib: Library, ds: seq<Delivery>, from: nat, w: Opening)
    requires ds != []
  {
    var p := |Covered(w.flow.out)|;
    && AllCaused(lib, ds, w.flow.out, false)
    && (w.Settled? && w.kept != [] ==> Waits(lib, ds, p, w.kept, |ds| - 1))
    && (w.Opened? ==>
          && w.flow.parser.Live? && w.flow.parser.fed == []
          && LiveFrom(lib, ds, p, w.flow.parser.factory, [w.input], Origin(from, |ds| - 1, 1)))
  }

  /** The front is gone from `g`, with a cause, and the decision about the rest is explained. */
  ghost predicate FrontGone(lib: Library, ds: seq<Delivery>, g: Flow, from: nat, rest: Bytes, decision: Decision)
    requires ds != []
  {
    && AllCaused(lib, ds, g.out, false) && |Covered(g.out)| == Size(ds) - |rest|
    && DecisionExplained(lib, ds, g, from, rest, decision)
  }

  lemma OpeningCaused(lib: Library, ds: seq<Delivery>, g: Flow, from: nat, rest: Bytes, decision: Decision, w: Opening)
    requires ds != [] && FrontGone(lib, ds, g, from, rest, decision)
    requires OpensAs(w, g, rest, decision, Size(ds) - |rest| in ds[|ds| - 1].usable)
    ensures OpeningExplained(lib, ds, from, w)
  {
  }

  lemma SelectionCaused(lib: Library, ds: seq<Delivery>, f: Flow, front: Bytes, rest: Bytes, s: Selection)
    requires ds != [] && AllCaused(lib, ds, f.out, false) && Covered(f.out) + (front + rest) == Stream(ds)
    requires s == lib.select(front + rest, ds[|ds| - 1].end) && |front| == s.discardFront
    ensures FrontGone(lib, ds, Unparseable(f, |front|, front), |Covered(f.out)|, rest, s.decision)
  {
    var g := Unparseable(f, |front|, front);
    FrontCaused(lib, ds, f, front, rest);
    RestIsOffered(ds, Covered(f.out), front + rest);
    RestIsOffered(ds, Covered(g.out), rest);
    DecisionMade(lib, ds, |Covered(f.out)|, front + rest, |Covered(g.out)|, rest, s);
    DecisionCaused(lib, ds, g, |Covered(f.out)|, rest, s.decision);
  }

  /** A parser with this origin has been fed `fed`, up to the last delivery. */
  ghost predicate LiveFrom(lib: Library, ds: seq<Delivery>, p: nat, factory: Factory, fed: seq<Bytes>, o: Origin) {
    Parsing(lib, ds, p, factory, o) && o.k + o.n == |ds| && fed == Fed(ds, p, o.k, o.n)
  }

  /** The flow has a live parser with this origin, which needs more. */
  ghost predicate Unfinished(lib: Library, ds: seq<Delivery>, f: Flow, o: Origin) {
    && f.parser.Live?
    && LiveFrom(lib, ds, |Covered(f.out)|, f.parser.factory, f.parser.fed, o)
    && Answer(lib, ds, |Covered(f.out)|, f.parser.factory, o) == Pending
  }

  lemma GaveUpExplained(lib: Library, ds: seq<Delivery>, p: nat, factory: Factory, fed: seq<Bytes>, o: Origin)
    requires LiveFrom(lib, ds, p, factory, fed, o) && lib.parse(factory, fed, ds[|ds| - 1].end).Failed?
    ensures Explains(lib, ds, p, Emission(Dropped(|Flatten(fed)|), Flatten(fed)), GaveUp(factory, o))
  {
  }

  lemma FinishedExplained(lib: Library, ds: seq<Delivery>, p: nat, factory: Factory, fed: seq<Bytes>, o: Origin, bytes: Bytes)
    requires LiveFrom(lib, ds, p, factory, fed, o)
    requires var a := lib.parse(factory, fed, ds[|ds| - 1].end); a.Done? && bytes + a.unused == Flatten(fed)
    ensures var content := lib.parse(factory, fed, ds[|ds| - 1].end).content;
            Explains(lib, ds, p, Emission(Parsed(content), bytes), Finished(factory, o))
  {
  }

  /** The effect of the parser's answer to `fed`. */
  ghost predicate Answered(lib: Library, f: Flow, fed: seq<Bytes>, end: bool, g: Flow)
    requires f.parser.Live?
  {
    var a, all := lib.parse(f.parser.factory, fed, end), Flatten(fed);
    && (a.Failed? ==>
          g.parser.Idle? && g.out == if all == [] then f.out else f.out + [Emission(Dropped(|all|), all)])
    && (a.Done? ==>
          && |a.unused| <= |all| && all[..|all| - |a.unused|] + a.unused == all
          && g.parser.Idle? && g.out == f.out + [Emission(Parsed(a.content), all[..|all| - |a.unused|])])
    && (a.Pending? ==> g == f.(parser := Live(f.parser.factory, fed)))
  }

  lemma FeedAnswers(lib: Library, f: Flow, input: Bytes, end: bool)
    requires Contract(lib) && f.parser.Live?
    ensures Answered(lib, f, f.parser.fed + [input], end, Feed(lib, f, input, end).0)
  {
    var fed := f.parser.fed + [input];
    var a, all := lib.parse(f.parser.factory, fed, end), Flatten(fed);
    assert ParseContract(fed, end, a);
    FlattenAppend(f.parser.fed, input);
    match a
    case Failed(consumed) => assert consumed == |all|;
    case Done(content, unused) => assert |unused| < |all|;
    case Pending =>
  }

  lemma AnswerCaused(lib: Library, ds: seq<Delivery>, out: seq<Emission>, factory: Factory, fed: seq<Bytes>, o: Origin, bytes: Bytes)
    requires AllCaused(lib, ds, out, false) && LiveFrom(lib, ds, |Covered(out)|, factory, fed, o)
    ensures var a := lib.parse(factory, fed, ds[|ds| - 1].end);
            && (a.Failed? ==> AllCaused(lib, ds, out + [Emission(Dropped(|Flatten(fed)|), Flatten(fed))], false))
            && (a.Done? && bytes + a.unused == Flatten(fed) ==>
                  AllCaused(lib, ds, out + [Emission(Parsed(a.content), bytes)], false))
  {
    var p := |Covered(out)|;
    match lib.parse(factory, fed, ds[|ds| - 1].end)
    case Failed(_) =>
      GaveUpExplained(lib, ds, p, factory, fed, o);
      CausesAppend(lib, ds, out, Emission(Dropped(|Flatten(fed)|), Flatten(fed)), GaveUp(factory, o), false);
    case Done(content, unused) =>
      if bytes + unused == Flatten(fed) {
        FinishedExplained(lib, ds, p, factory, fed, o, bytes);
        CausesAppend(lib, ds, out, Emission(Parsed(content), bytes), Finished(factory, o), false);
      }
    case Pending =>
  }

  lemma AnsweredCaused(lib: Library, ds: seq<Delivery>, f: Flow, fed: seq<Bytes>, g: Flow, o: Origin)
    requires f.parser.Live? && AllCaused(lib, ds, f.out, false)
    requires LiveFrom(lib, ds, |Covered(f.out)|, f.parser.factory, fed, o)
    requires Answered(lib, f, fed, ds[|ds| - 1].end, g)
    ensures AllCaused(lib, ds, g.out, false) && (g.parser.Live? ==> Unfinished(lib, ds, g, o))
  {
    var factory, all, p := f.parser.factory, Flatten(fed), |Covered(f.out)|;
    var a := lib.parse(factory, fed, ds[|ds| - 1].end);
    if a.Pending? {
      assert Answer(lib, ds, p, factory, o) == a;
    } else {
      AnswerCaused(lib, ds, f.out, factory, fed, o, if a.Done? then all[..|all| - |a.unused|] else []);
    }
  }

  lemma FeedCaused(lib: Library, ds: seq<Delivery>, f: Flow, input: Bytes, o: Origin)
    requires Contract(lib) && f.parser.Live? && AllCaused(lib, ds, f.out, false)
    requires LiveFrom(lib, ds, |Covered(f.out)|, f.parser.factory, f.parser.fed + [input], o)
    ensures var g := Feed(lib, f, input, ds[|ds| - 1].end).0;
            && AllCaused(lib, ds, g.out, false)
            && (g.parser.Live? ==> Unfinished(lib, ds, g, o))
  {
    var end := ds[|ds| - 1].end;
    FeedAnswers(lib, f, input, end);
    AnsweredCaused(lib, ds, f, f.parser.fed + [input], Feed(lib, f, input, end).0, o);
  }

  /** What holds when the last delivery has been handled. */
  ghost predicate Explained(lib: Library, ds: seq<Delivery>, f: Flow, kept: Bytes) {
    && AllCaused(lib, ds, f.out, false)
    && (f.parser.Idle? && kept != [] && f.acceptBuf == kept ==> ds != [] && Waits(lib, ds, |Covered(f.out)|, kept, |ds| - 1))
    && (f.parser.Live? ==> exists o :: Unfinished(lib, ds, f, o))
  }

  /** The new parser or the old one, with its origin, is about to be fed `input`. */
  ghost predicate ReadyToFeed(lib: Library, ds: seq<Delivery>, f: Flow, input: Bytes, o: Origin) {
    && f.parser.Live? && AllCaused(lib, ds, f.out, false)
    && LiveFrom(lib, ds, |Covered(f.out)|, f.parser.factory, f.parser.fed + [input], o)
  }

  lemma OpenedIsReady(lib: Library, ds: seq<Delivery>, from: nat, w: Opening)
    requires ds != [] && OpeningExplained(lib, ds, from, w) && w.Opened?
    ensures ReadyToFeed(lib, ds, w.flow, w.input, Origin(from, |ds| - 1, 1))
  {
    assert [] + [w.input] == [w.input];
  }

  lemma SettledIsExplained(lib: Library, ds: seq<Delivery>, from: nat, w: Opening)
    requires ds != [] && OpeningExplained(lib, ds, from, w) && w.Settled? && w.flow.parser.Idle?
    ensures Explained(lib, ds, w.flow, w.kept)
  {
  }

  lemma SelectionInRange(lib: Library, input: Bytes, end: bool)
    requires Contract(lib)
    ensures var s := lib.select(input, end);
            0 <= s.discardFront <= |input| && (s.decision.Reject? ==> s.discardFront == |input|)
  {
  }

  lemma IdleCaused(lib: Library, ds: seq<Delivery>, f: Flow, front: Bytes, rest: Bytes, s: Selection)
    requires ds != [] && AllCaused(lib, ds, f.out, false) && Covered(f.out) + (front + rest) == Stream(ds)
    requires s == lib.select(front + rest, ds[|ds| - 1].end) && s.discardFront == |front|
    ensures OpeningExplained(lib, ds, |Covered(f.out)|, Open(f, s, front + rest, Size(ds), ds[|ds| - 1].usable))
  {
    SelectionCaused(lib, ds, f, front, rest, s);
    OpenOpensAs(f, s, front, rest, Size(ds), ds[|ds| - 1].usable);
    OpeningCaused(lib, ds, Unparseable(f, |front|, front), |Covered(f.out)|, rest, s.decision,
                  Open(f, s, front + rest, Size(ds), ds[|ds| - 1].usable));
  }

  lemma {:induction false} ReassembledCaused(lib: Library, ds: seq<Delivery>, f: Flow, input: Bytes, o: Origin)
    requires Contract(lib) && ds != [] && AllCaused(lib, ds, f.out, false)
    requires Total(f, input) == Stream(ds) && (f.parser.Live? ==> f.acceptBuf == [])
    requires f.parser.Live? ==> ReadyToFeed(lib, ds, f, input, o)
    ensures var d := ds[|ds| - 1];
            var (g, kept) := Reassembled(lib, f, input, d.end, Size(ds), d.usable);
            Explained(lib, ds, g, kept)
    decreases |input|, if f.parser.Live? then 3 else 1
  {
    if f.parser.Idle? {
      var d := ds[|ds| - 1];
      var s := lib.select(input, d.end);
      SelectionInRange(lib, input, d.end);
      assert input[..s.discardFront] + input[s.discardFront..] == input;
      IdleCaused(lib, ds, f, input[..s.discardFront], input[s.discardFront..], s);
      OpenTiles(f, s, input, Size(ds), d.usable);
      var w := Open(f, s, input, Size(ds), d.usable);
      if w.Opened? {
        OpenedIsReady(lib, ds, |Covered(f.out)|, w);
        FedOnCaused(lib, ds, w.flow, w.input, Origin(|Covered(f.out)|, |ds| - 1, 1));
      } else {
        SettledIsExplained(lib, ds, |Covered(f.out)|, w);
      }
    } else {
      FedOnCaused(lib, ds, f, input, o);
    }
  }

  /** The live parser is fed; at the end mark what it leaves is handled anew. */
  lemma {:induction false} FedOnCaused(lib: Library, ds: seq<Delivery>, f: Flow, input: Bytes, o: Origin)
    requires Contract(lib) && ds != [] && ReadyToFeed(lib, ds, f, input, o)
    requires Total(f, input) == Stream(ds) && f.acceptBuf == []
    ensures var d := ds[|ds| - 1];
            var (g, kept) := Reassembled(lib, f, input, d.end, Size(ds), d.usable);
            Explained(lib, ds, g, kept)
    decreases |input|, if f.parser.fed == [] then 0 else 2
  {
    var d := ds[|ds| - 1];
    FeedCaused(lib, ds, f, input, o);
    FeedTiles(lib, f, input, d.end);
    var (g, unused) := Feed(lib, f, input, d.end);
    if unused != [] && d.end { ReassembledCaused(lib, ds, g, unused, o); }
  }

  // ---------------------------------------------------------------------------------
  // Whole flows

  lemma LiveGoesOn(lib: Library, ds: seq<Delivery>, d: Delivery, p: nat, factory: Factory, fed: seq<Bytes>, o: Origin)
    requires LiveFrom(lib, ds, p, factory, fed, o) && Answer(lib, ds, p, factory, o) == Pending
    ensures LiveFrom(lib, ds + [d], p, factory, fed + [d.data], Origin(o.from, o.k, o.n + 1))
  {
    var ds' := ds + [d];
    ParsingStays(lib, ds, d, p, factory, o);
    OfferedStays(ds, d, p, o.k);
    FedStays(ds, d, p, o.k, o.n);
    assert Fed(ds', p, o.k, o.n + 1) == fed + [d.data];
    forall j | 1 <= j < o.n + 1 ensures lib.parse(factory, Fed(ds', p, o.k, j), ds'[o.k + j - 1].end) == Pending {
      if j == o.n { assert Fed(ds', p, o.k, j) == fed; }
    }
  }

  ghost predicate RunExplained(lib: Library, ds: seq<Delivery>, s: Session) {
    Explained(lib, ds, s.flow, s.kept)
  }

  lemma DeliveryCaused(lib: Library, ds: seq<Delivery>, s: Session, d: Delivery)
    requires Contract(lib) && Tiled(lib, s, Stream(ds)) && Explained(lib, ds, s.flow, s.kept)
    ensures RunExplained(lib, ds + [d], Delivered(lib, s, d, Size(ds + [d])))
  {
    var ds' := ds + [d];
    assert ds'[..|ds|] == ds && ds'[|ds| - 0] == d;
    CausesStay(lib, ds, d, s.flow.out);
    TotalAppend(s.flow, s.kept, d.data);
    assert Total(s.flow, s.kept + d.data) == Stream(ds');
    if s.flow.parser.Live? {
      var o :| Unfinished(lib, ds, s.flow, o);
      LiveGoesOn(lib, ds, d, |Covered(s.flow.out)|, s.flow.parser.factory, s.flow.parser.fed, o);
      assert s.kept + d.data == d.data;
      ReassembledCaused(lib, ds', s.flow, s.kept + d.data, Origin(o.from, o.k, o.n + 1));
    } else {
      ReassembledCaused(lib, ds', s.flow, s.kept + d.data, Origin(0, 0, 0));
    }
  }

  lemma RunSnoc(lib: Library, ds: seq<Delivery>, d: Delivery)
    requires Contract(lib)
    ensures Run(lib, ds + [d]) == Delivered(lib, Run(lib, ds), d, Size(ds + [d]))
  {
    assert (ds + [d])[..|ds|] == ds;
  }

  lemma NextCaused(lib: Library, ds: seq<Delivery>, d: Delivery)
    requires Contract(lib) && RunExplained(lib, ds, Run(lib, ds))
    ensures RunExplained(lib, ds + [d], Run(lib, ds + [d]))
  {
    RunTiles(lib, ds);
    DeliveryCaused(lib, ds, Run(lib, ds), d);
    RunSnoc(lib, ds, d);
  }

  /** In every run each piece has a cause. */
  lemma {:induction false} RunCaused(lib: Library, ds: seq<Delivery>)
    requires Contract(lib)
    ensures RunExplained(lib, ds, Run(lib, ds))
  {
    if ds != [] {
      RunCaused(lib, ds[..|ds| - 1]);
      NextCaused(lib, ds[..|ds| - 1], ds[|ds| - 1]);
      assert ds[..|ds| - 1] + [ds[|ds| - 1]] == ds;
    }
  }

  /** Closing the flow is like a last, empty delivery with the end mark. */
  const CLOSING := Delivery([], true, {})

  lemma LiveCloses(lib: Library, ds: seq<Delivery>, f: Flow)
    requires Contract(lib) && f.parser.Live? && Explained(lib, ds, f, [])
    ensures AllCaused(lib, ds + [CLOSING], Feed(lib, f, [], true).0.out, true)
  {
    var o :| Unfinished(lib, ds, f, o);
    CausesStay(lib, ds, CLOSING, f.out);
    LiveGoesOn(lib, ds, CLOSING, |Covered(f.out)|, f.parser.factory, f.parser.fed, o);
    FeedCaused(lib, ds + [CLOSING], f, [], Origin(o.from, o.k, o.n + 1));
    CausesClose(lib, ds + [CLOSING], Feed(lib, f, [], true).0.out);
  }

  lemma UndecidedCloses(lib: Library, ds: seq<Delivery>, out: seq<Emission>, rest: Bytes)
    requires AllCaused(lib, ds, out, false) && ds != [] && Waits(lib, ds, |Covered(out)|, rest, |ds| - 1)
    ensures AllCaused(lib, ds + [CLOSING], out + [Emission(Dropped(|rest|), rest)], true)
  {
    var p, k := |Covered(out)|, |ds| - 1;
    var from: nat :| WaitsFrom(lib, ds, from, p, k);
    OfferedStays(ds, CLOSING, p, k);
    OfferedStays(ds, CLOSING, from, k);
    CausesStay(lib, ds, CLOSING, out);
    CausesClose(lib, ds + [CLOSING], out);
    CausesAppend(lib, ds + [CLOSING], out, Emission(Dropped(|rest|), rest), Undecided(from, k), true);
  }

  /** When the emitted pieces cover the stream of a closed flow, each has a cause: dropped bytes
      were discarded by the selector, or could not be given to a parser, or were all that a
      parser had been fed when it gave up, or were undecided at the end; parsed content is what a
      parser of the factory that the selector accepted for these bytes made of them. */
  lemma ClosedFlowCaused(lib: Library, ds: seq<Delivery>)
    requires Contract(lib)
    requires var s := Run(lib, ds); s.flow.parser.Live? || s.flow.acceptBuf == s.kept
    ensures AllCaused(lib, ds + [CLOSING], Complete(lib, Run(lib, ds).flow).out, true)
  {
    var s := Run(lib, ds);
    RunCaused(lib, ds);
    if s.flow.parser.Live? {
      LiveCloses(lib, ds, s.flow);
      FeedTiles(lib, s.flow, [], true);
    } else if s.flow.acceptBuf != [] {
      UndecidedCloses(lib, ds, s.flow.out, s.kept);
    } else {
      CausesStay(lib, ds, CLOSING, s.flow.out);
      CausesClose(lib, ds + [CLOSING], s.flow.out);
    }
  }

  lemma CausesClose(lib: Library, ds: seq<Delivery>, out: seq<Emission>)
    requires AllCaused(lib, ds, out, false)
    ensures AllCaused(lib, ds, out, true)
  {
    forall i | 0 <= i < |out| ensures Caused(lib, ds, |Covered(out[..i])|, out[i], true) {
      assert Caused(lib, ds, |Covered(out[..i])|, out[i], false);
    }
  }
}
