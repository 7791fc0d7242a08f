/** The driver that feeds one direction of a TCP connection to protocol parsers. The parser
    selector and the parsers are library code; they appear as functions under a contract. */
module TcpFlow {

  type Bytes = seq<int>

  /** A parser factory, by its number, and parsed content, by its text. */
  type Factory = int
  type Content = string

  datatype Decision = NeedMoreData | Reject | Accept(factory: Factory) | Unsupported

  datatype Selection = Selection(decision: Decision, discardFront: int)

  /** What Parse returns: an error with the number of bytes fed so far, a finished parse with
      the unused rest of its input, or neither. */
  datatype Outcome = Failed(consumed: int) | Done(content: Content, unused: Bytes) | Pending

  /** A parser's answer depends on the factory that made it and on every input it was fed. */
  datatype Library = Library(
    select: (Bytes, bool) -> Selection,
    parse: (Factory, seq<Bytes>, bool) -> Outcome)

  ghost predicate SelectorContract(select: (Bytes, bool) -> Selection) {
    forall input, end ::
      var s := select(input, end);
      && 0 <= s.discardFront <= |input|
      && (s.decision.Reject? ==> s.discardFront == |input|)
      && (s.decision.NeedMoreData? ==> !end)
  }

  ghost predicate ParseContract(fed: seq<Bytes>, end: bool, o: Outcome) {
    fed != [] ==>
      match o
      case Failed(consumed) => consumed == |Flatten(fed)|
      case Done(_, unused) =>
        var last := fed[|fed| - 1];
        |unused| < |Flatten(fed)| && |unused| <= |last| && unused == last[|last| - |unused|..]
      case Pending => !end
  }

  ghost predicate Contract(lib: Library) {
    && SelectorContract(lib.select)
    && (forall f, fed, end :: ParseContract(fed, end, lib.parse(f, fed, end)))
  }

  /** The selector only gives the three decisions that the library documents. */
  ghost predicate Supported(lib: Library) {
    forall input, end :: !lib.select(input, end).decision.Unsupported?
  }

  function Flatten(chunks: seq<Bytes>): Bytes {
    if chunks == [] then [] else Flatten(chunks[..|chunks| - 1]) + chunks[|chunks| - 1]
  }

  lemma FlattenAppend(chunks: seq<Bytes>, chunk: Bytes)
    ensures Flatten(chunks + [chunk]) == Flatten(chunks) + chunk
  {
    assert (chunks + [chunk])[..|chunks|] == chunks;
  }

  // ---------------------------------------------------------------------------------
  // One flow

  datatype Parser = Idle | Live(factory: Factory, fed: seq<Bytes>)

  /** What goes out on the channel: a count of dropped bytes or parsed content. */
  datatype Piece = Dropped(size: int) | Parsed(content: Content)

  /** A piece and the stretch of the stream it stands for. */
  datatype Emission = Emission(piece: Piece, bytes: Bytes)

  datatype Flow = Flow(parser: Parser, acceptBuf: Bytes, out: seq<Emission>)

  /** handleUnparseable: nothing is sent for an empty stretch. */
  function Unparseable(f: Flow, size: int, bytes: Bytes): Flow {
    if size > 0 then f.(out := f.out + [Emission(Dropped(size), bytes)]) else f
  }

  /** How a delivery goes on: finished, with the bytes to keep, or with a live parser and the
      input for it. */
  datatype Opening = Settled(flow: Flow, kept: Bytes) | Opened(flow: Flow, input: Bytes)

  /** Acts on the selector's answer `s` for `input`, the last bytes of a delivery that ends at
      the offset `size`. `contexts` holds the offsets that have a usable assembler context,
      counted from the same origin. */
  function Open(f: Flow, s: Selection, input: Bytes, size: nat, contexts: set<int>): Opening
    requires 0 <= s.discardFront <= |input|
  {
    var front, rest := input[..s.discardFront], input[s.discardFront..];
    var g := Unparseable(f, |front|, front);
    match s.decision
    case NeedMoreData => Settled(g.(acceptBuf := rest), rest)
    case Reject => Settled(g.(acceptBuf := []), [])
    case Accept(factory) =>
      var h := g.(acceptBuf := []);
      if size - |rest| in contexts then Opened(h.(parser := Live(factory, [])), rest)
      else Settled(Unparseable(h, |rest|, rest), [])
    case Unsupported => Settled(Unparseable(g, |rest|, rest), [])
  }

  /** Feeds the live parser; the result is the flow and what the parser left unused. */
  function Feed(lib: Library, f: Flow, input: Bytes, end: bool): (r: (Flow, Bytes))
    requires Contract(lib) && f.parser.Live?
    ensures |r.1| <= |input| && (f.parser.fed == [] ==> |r.1| == 0 || |r.1| < |input|)
    ensures r.1 != [] ==> r.0.parser.Idle?
  {
    var Live(factory, fed) := f.parser;
    FlattenAppend(fed, input);
    var o := lib.parse(factory, fed + [input], end);
    assert ParseContract(fed + [input], end, o);
    var all := Flatten(fed + [input]);
    match o
    case Failed(consumed) => (Unparseable(f.(parser := Idle), consumed, all), [])
    case Done(content, unused) =>
      (f.(parser := Idle, out := f.out + [Emission(Parsed(content), all[..|all| - |unused|])]), unused)
    case Pending => (f.(parser := Live(factory, fed + [input])), [])
  }

  /** Handles `input`, the last bytes of a delivery that ends at the offset `size`. The second result is
      what is kept for the next delivery. */
  function Reassembled(lib: Library, f: Flow, input: Bytes, end: bool, size: nat, contexts: set<int>): (r: (Flow, Bytes))
    requires Contract(lib)
    ensures |r.1| <= |input|
    decreases |input|, if f.parser.Live? then 1 else 0
  {
    var o := if f.parser.Live? then Opened(f, input) else Open(f, lib.select(input, end), input, size, contexts);
    match o
    case Settled(g, kept) => (g, kept)
    case Opened(g, rest) =>
      var (f', unused) := Feed(lib, g, rest, end);
      if unused != [] && end then Reassembled(lib, f', unused, end, size, contexts) else (f', unused)
  }

  /** The flow is finished (reassemblyComplete). */
  function Complete(lib: Library, f: Flow): Flow
    requires Contract(lib)
  {
    if f.parser.Live? then
      var (g, unused) := Feed(lib, f, [], true);
      Unparseable(g, |unused|, unused).(parser := Idle)
    else if f.acceptBuf != [] then
      f.(out := f.out + [Emission(Dropped(|f.acceptBuf|), f.acceptBuf)])
    else f
  }

  /** Offsets may be counted from the start of the delivery or from the start of the stream. */
  lemma {:induction false} OriginDoesNotMatter(lib: Library, f: Flow, input: Bytes, end: bool,
                                               size: nat, contexts: set<int>, base: nat, usable: set<int>)
    requires Contract(lib) && forall o: int :: o in contexts <==> o + base in usable
    ensures Reassembled(lib, f, input, end, size, contexts) == Reassembled(lib, f, input, end, size + base, usable)
    decreases |input|, if f.parser.Live? then 1 else 0
  {
    var s := lib.select(input, end);
    var o := if f.parser.Live? then Opened(f, input) else Open(f, s, input, size, contexts);
    if f.parser.Idle? {
      assert size - |input[s.discardFront..]| in contexts <==> size - |input[s.discardFront..]| + base in usable;
      assert o == Open(f, s, input, size + base, usable);
    }
    if o.Opened? {
      var (f', unused) := Feed(lib, o.flow, o.input, end);
      if unused != [] && end { OriginDoesNotMatter(lib, f', unused, end, size, contexts, base, usable); }
    }
  }

  // ---------------------------------------------------------------------------------
  // The pieces tile the stream

  ghost function Covered(out: seq<Emission>): Bytes {
    if out == [] then [] else Covered(out[..|out| - 1]) + out[|out| - 1].bytes
  }

  /** A dropped piece has the size of its stretch; parsed content is what some parser gave for
      exactly the bytes of its stretch and the unused ones after it. */
  ghost predicate Faithful(lib: Library, e: Emission) {
    match e.piece
    case Dropped(size) => size == |e.bytes| > 0
    case Parsed(content) =>
      && e.bytes != []
      && exists f, fed, end, unused ::
           lib.parse(f, fed, end) == Done(content, unused) && Flatten(fed) == e.bytes + unused
  }

  ghost predicate AllFaithful(lib: Library, out: seq<Emission>) {
    forall i :: 0 <= i < |out| ==> Faithful(lib, out[i])
  }

  lemma CoveredAppend(out: seq<Emission>, e: Emission)
    ensures Covered(out + [e]) == Covered(out) + e.bytes
  {
    assert (out + [e])[..|out|] == out;
  }

  /** Everything accounted for: emitted pieces, then the parser's bytes, then the rest. */
  ghost function Total(f: Flow, rest: Bytes): Bytes {
    match f.parser
    case Idle => Covered(f.out) + rest
    case Live(_, fed) => Covered(f.out) + (Flatten(fed) + rest)
  }

  lemma EmitTiles(f: Flow, e: Emission, rest: Bytes)
    requires f.parser.Idle?
    ensures Total(f.(out := f.out + [e]), rest) == Total(f, e.bytes + rest)
  {
    CoveredAppend(f.out, e);
  }

  lemma UnparseableTiles(f: Flow, bytes: Bytes, rest: Bytes)
    requires f.parser.Idle?
    ensures Total(Unparseable(f, |bytes|, bytes), rest) == Total(f, bytes + rest)
  {
    if bytes == [] {
      assert bytes + rest == rest;
    } else {
      EmitTiles(f, Emission(Dropped(|bytes|), bytes), rest);
    }
  }

  lemma FeedTiles(lib: Library, f: Flow, input: Bytes, end: bool)
    requires Contract(lib) && f.parser.Live?
    ensures var (g, unused) := Feed(lib, f, input, end);
            && Total(g, unused) == Total(f, input)
            && g.acceptBuf == f.acceptBuf
            && (end ==> g.parser.Idle?)
            && unused == input[|input| - |unused|..]
  {
    var Live(factory, fed) := f.parser;
    var o := lib.parse(factory, fed + [input], end);
    var all := Flatten(fed + [input]);
    FlattenAppend(fed, input);
    assert ParseContract(fed + [input], end, o);
    var idle := f.(parser := Idle);
    match o
    case Failed(consumed) =>
      UnparseableTiles(idle, all, []);
      assert all + [] == all;
    case Done(content, unused) =>
      var bytes := all[..|all| - |unused|];
      assert all == bytes + unused;
      EmitTiles(idle, Emission(Parsed(content), bytes), unused);
    case Pending =>
      assert all + [] == all;
  }

  lemma OpenTiles(f: Flow, s: Selection, input: Bytes, size: nat, contexts: set<int>)
    requires 0 <= s.discardFront <= |input| && f.parser.Idle?
    requires s.decision.Reject? ==> s.discardFront == |input|
    ensures match Open(f, s, input, size, contexts)
            case Settled(g, kept) =>
              && g.parser.Idle? && Total(g, kept) == Total(f, input)
              && (kept == [] || s.decision.NeedMoreData?)
              && (g.acceptBuf == kept || s.decision.Unsupported?)
              && |kept| <= |input| && kept == input[|input| - |kept|..]
            case Opened(g, rest) =>
              && g.parser.Live? && g.parser.fed == [] && g.acceptBuf == []
              && Total(g, rest) == Total(f, input)
              && |rest| <= |input| && rest == input[|input| - |rest|..]
  {
    var front, rest := input[..s.discardFront], input[s.discardFront..];
    assert input == front + rest && rest + [] == rest && [] + rest == rest;
    var g := Unparseable(f, |front|, front);
    UnparseableTiles(f, front, rest);
    match s.decision
    case NeedMoreData =>
    case Reject => assert rest == [] && input[|input|..] == [];
    case Accept(_) =>
      UnparseableTiles(g.(acceptBuf := []), rest, []);
      assert input[|input|..] == [];
    case Unsupported =>
      UnparseableTiles(g, rest, []);
      assert input[|input|..] == [];
  }

  /** One delivery only moves bytes along: emitted, held by the parser, or kept. */
  lemma {:induction false} ReassembledTiles(lib: Library, f: Flow, input: Bytes, end: bool, size: nat, contexts: set<int>)
    requires Contract(lib)
    requires f.parser.Live? ==> f.acceptBuf == []
    ensures var (g, kept) := Reassembled(lib, f, input, end, size, contexts);
            && Total(g, kept) == Total(f, input)
            && (g.parser.Live? ==> kept == [] && g.acceptBuf == [])
            && (end ==> g.parser.Idle? && kept == [])
            && (g.acceptBuf == kept || g.acceptBuf == [] || kept == [])
            && (Supported(lib) ==> g.acceptBuf == kept || g.acceptBuf == [])
    decreases |input|, if f.parser.Live? then 1 else 0
  {
    var s := lib.select(input, end);
    if f.parser.Idle? {
      OpenTiles(f, s, input, size, contexts);
    }
    var o := if f.parser.Live? then Opened(f, input) else Open(f, s, input, size, contexts);
    if o.Opened? {
      FeedTiles(lib, o.flow, o.input, end);
      var (f', unused) := Feed(lib, o.flow, o.input, end);
      if unused != [] && end {
        ReassembledTiles(lib, f', unused, end, size, contexts);
      }
    }
  }

  ghost predicate IsSuffix(a: Bytes, b: Bytes) {
    |a| <= |b| && a == b[|b| - |a|..]
  }

  lemma SuffixOfSuffix(c: Bytes, b: Bytes, a: Bytes)
    requires IsSuffix(c, b) && IsSuffix(b, a)
    ensures IsSuffix(c, a)
  {
  }

  lemma OpenSuffix(f: Flow, s: Selection, input: Bytes, size: nat, contexts: set<int>)
    requires 0 <= s.discardFront <= |input|
    ensures var o := Open(f, s, input, size, contexts);
            if o.Settled? then IsSuffix(o.kept, input)
            else o.flow.parser.Live? && o.flow.parser.fed == [] && IsSuffix(o.input, input)
  {
    var rest := input[s.discardFront..];
    assert IsSuffix(rest, input) && IsSuffix([], input);
  }

  lemma FeedSuffix(lib: Library, f: Flow, input: Bytes, end: bool)
    requires Contract(lib) && f.parser.Live?
    ensures IsSuffix(Feed(lib, f, input, end).1, input)
  {
    var all := f.parser.fed + [input];
    assert ParseContract(all, end, lib.parse(f.parser.factory, all, end));
  }

  /** What is kept is a suffix of the delivery, so that KeepFrom can name it by its offset. */
  lemma {:induction false} KeptIsSuffix(lib: Library, f: Flow, input: Bytes, end: bool, size: nat, contexts: set<int>)
    requires Contract(lib)
    ensures IsSuffix(Reassembled(lib, f, input, end, size, contexts).1, input)
    decreases |input|, if f.parser.Live? then 1 else 0
  {
    if f.parser.Idle? { OpenSuffix(f, lib.select(input, end), input, size, contexts); }
    var o := if f.parser.Live? then Opened(f, input) else Open(f, lib.select(input, end), input, size, contexts);
    if o.Opened? {
      FeedSuffix(lib, o.flow, o.input, end);
      var (f', unused) := Feed(lib, o.flow, o.input, end);
      SuffixOfSuffix(unused, o.input, input);
      if unused != [] && end {
        KeptIsSuffix(lib, f', unused, end, size, contexts);
        SuffixOfSuffix(Reassembled(lib, f', unused, end, size, contexts).1, unused, input);
      }
    }
  }

  lemma FaithfulAppend(lib: Library, out: seq<Emission>, e: Emission)
    requires AllFaithful(lib, out) && Faithful(lib, e)
    ensures AllFaithful(lib, out + [e])
  {
  }

  lemma FeedFaithful(lib: Library, f: Flow, input: Bytes, end: bool)
    requires Contract(lib) && f.parser.Live? && AllFaithful(lib, f.out)
    ensures AllFaithful(lib, Feed(lib, f, input, end).0.out)
  {
    var Live(factory, fed) := f.parser;
    var o := lib.parse(factory, fed + [input], end);
    var all := Flatten(fed + [input]);
    FlattenAppend(fed, input);
    assert ParseContract(fed + [input], end, o);
    if o.Failed? && o.consumed > 0 {
      FaithfulAppend(lib, f.out, Emission(Dropped(o.consumed), all));
    } else if o.Done? {
      var e := Emission(Parsed(o.content), all[..|all| - |o.unused|]);
      assert all == e.bytes + o.unused;
      FaithfulAppend(lib, f.out, e);
    }
  }

  lemma {:induction false} ReassembledFaithful(lib: Library, f: Flow, input: Bytes, end: bool, size: nat, contexts: set<int>)
    requires Contract(lib) && AllFaithful(lib, f.out)
    ensures AllFaithful(lib, Reassembled(lib, f, input, end, size, contexts).0.out)
    decreases |input|, if f.parser.Live? then 1 else 0
  {
    var o := if f.parser.Live? then Opened(f, input) else Open(f, lib.select(input, end), input, size, contexts);
    assert AllFaithful(lib, o.flow.out);
    if o.Opened? {
      FeedFaithful(lib, o.flow, o.input, end);
      var (f', unused) := Feed(lib, o.flow, o.input, end);
      if unused != [] && end {
        ReassembledFaithful(lib, f', unused, end, size, contexts);
      }
    }
  }

  // ---------------------------------------------------------------------------------
  // Whole flows

  /** New bytes, the end mark, and the stream offsets that have a usable assembler context. */
  datatype Delivery = Delivery(data: Bytes, end: bool, usable: set<int>)

  /** A flow and the bytes that the reassembler keeps for its next delivery. */
  datatype Session = Session(flow: Flow, kept: Bytes)

  /** One delivery; `offset` is the stream offset after it. */
  function Delivered(lib: Library, s: Session, d: Delivery, offset: nat): Session
    requires Contract(lib)
  {
    var sg := s.kept + d.data;
    var (f, kept) := Reassembled(lib, s.flow, sg, d.end, offset, d.usable);
    Session(f, kept)
  }

  function Run(lib: Library, ds: seq<Delivery>): Session
    requires Contract(lib)
  {
    if ds == [] then Session(Flow(Idle, [], []), [])
    else Delivered(lib, Run(lib, ds[..|ds| - 1]), ds[|ds| - 1], Size(ds))
  }

  /** The number of bytes delivered. */
  function Size(ds: seq<Delivery>): nat {
    if ds == [] then 0 else Size(ds[..|ds| - 1]) + |ds[|ds| - 1].data|
  }

  ghost function Stream(ds: seq<Delivery>): Bytes {
    if ds == [] then [] else Stream(ds[..|ds| - 1]) + ds[|ds| - 1].data
  }

  /** The invariant of a run: emitted pieces, then the parser's bytes, then the kept bytes
      tile the stream, and the buffer of undecided bytes is a copy of the kept ones, empty,
      or stale with nothing kept. */
  ghost predicate Tiled(lib: Library, s: Session, stream: Bytes) {
    && Total(s.flow, s.kept) == stream
    && (s.flow.parser.Live? ==> s.kept == [] && s.flow.acceptBuf == [])
    && (s.flow.acceptBuf == s.kept || s.flow.acceptBuf == [] || s.kept == [])
    && (Supported(lib) ==> s.flow.acceptBuf == s.kept || s.flow.acceptBuf == [])
  }

  lemma {:induction false} RunTiles(lib: Library, ds: seq<Delivery>)
    requires Contract(lib)
    ensures Tiled(lib, Run(lib, ds), Stream(ds))
  {
    if ds != [] {
      RunTiles(lib, ds[..|ds| - 1]);
      SessionTiles(lib, Run(lib, ds[..|ds| - 1]), ds[|ds| - 1], Size(ds), Stream(ds[..|ds| - 1]));
    }
  }

  lemma {:induction false} RunFaithful(lib: Library, ds: seq<Delivery>)
    requires Contract(lib)
    ensures AllFaithful(lib, Run(lib, ds).flow.out)
  {
    if ds != [] {
      RunFaithful(lib, ds[..|ds| - 1]);
      SessionFaithful(lib, Run(lib, ds[..|ds| - 1]), ds[|ds| - 1], Size(ds));
    }
  }

  lemma TotalAppend(f: Flow, a: Bytes, b: Bytes)
    ensures Total(f, a + b) == Total(f, a) + b
  {
    match f.parser
    case Idle =>
    case Live(_, fed) => assert Flatten(fed) + (a + b) == Flatten(fed) + a + b;
  }

  lemma SessionTiles(lib: Library, s: Session, d: Delivery, offset: nat, stream: Bytes)
    requires Contract(lib) && Tiled(lib, s, stream)
    ensures var s' := Delivered(lib, s, d, offset);
            && Tiled(lib, s', stream + d.data)
            && (d.end ==> s'.flow.parser.Idle? && s'.kept == [])
  {
    ReassembledTiles(lib, s.flow, s.kept + d.data, d.end, offset, d.usable);
    TotalAppend(s.flow, s.kept, d.data);
  }

  lemma SessionFaithful(lib: Library, s: Session, d: Delivery, offset: nat)
    requires Contract(lib) && AllFaithful(lib, s.flow.out)
    ensures AllFaithful(lib, Delivered(lib, s, d, offset).flow.out)
  {
    ReassembledFaithful(lib, s.flow, s.kept + d.data, d.end, offset, d.usable);
  }

  lemma NoRest(a: Bytes)
    ensures a + [] == a
  {
  }

  lemma CompleteTiles(lib: Library, f: Flow)
    requires Contract(lib)
    ensures Complete(lib, f).parser.Idle?
    ensures f.parser.Live? ==> Covered(Complete(lib, f).out) == Total(f, [])
    ensures f.parser.Idle? ==> Covered(Complete(lib, f).out) == Total(f, f.acceptBuf)
  {
    if f.parser.Live? {
      FeedTiles(lib, f, [], true);
      NoRest(Covered(Feed(lib, f, [], true).0.out));
    } else if f.acceptBuf != [] {
      CoveredAppend(f.out, Emission(Dropped(|f.acceptBuf|), f.acceptBuf));
    } else {
      NoRest(Covered(f.out));
    }
  }

  lemma CompleteFaithful(lib: Library, f: Flow)
    requires Contract(lib) && AllFaithful(lib, f.out)
    ensures AllFaithful(lib, Complete(lib, f).out)
  {
    if f.parser.Live? {
      FeedFaithful(lib, f, [], true);
    } else if f.acceptBuf != [] {
      FaithfulAppend(lib, f.out, Emission(Dropped(|f.acceptBuf|), f.acceptBuf));
    }
  }

  lemma SamePrefix(a: Bytes, b: Bytes, c: Bytes)
    ensures a + b == a + c <==> b == c
  {
    if a + b == a + c {
      assert b == (a + b)[|a|..] && c == (a + c)[|a|..];
    }
  }

  /** Exactly when closing the flow accounts for every byte of the stream. */
  lemma CompleteCoversIff(lib: Library, ds: seq<Delivery>)
    requires Contract(lib)
    ensures var s := Run(lib, ds);
            Covered(Complete(lib, s.flow).out) == Stream(ds) <==> s.flow.parser.Live? || s.flow.acceptBuf == s.kept
    ensures AllFaithful(lib, Complete(lib, Run(lib, ds).flow).out)
  {
    var s := Run(lib, ds);
    RunTiles(lib, ds);
    RunFaithful(lib, ds);
    CompleteTiles(lib, s.flow);
    CompleteFaithful(lib, s.flow);
    SamePrefix(Covered(s.flow.out), s.flow.acceptBuf, s.kept);
  }

  /** When the last delivery carries the end mark, the emitted pieces alone cover the whole
      stream, in order and without overlap. */
  lemma EndMarkedFlowIsCovered(lib: Library, ds: seq<Delivery>)
    requires Contract(lib) && Supported(lib)
    requires ds != [] && ds[|ds| - 1].end
    ensures Covered(Complete(lib, Run(lib, ds).flow).out) == Stream(ds)
    ensures AllFaithful(lib, Complete(lib, Run(lib, ds).flow).out)
  {
    RunTiles(lib, ds[..|ds| - 1]);
    SessionTiles(lib, Run(lib, ds[..|ds| - 1]), ds[|ds| - 1], Size(ds), Stream(ds[..|ds| - 1]));
    RunTiles(lib, ds);
    CompleteCoversIff(lib, ds);
  }

  /** Without an end mark, bytes kept after a finished parse are lost: they are not copied to
      the buffer that is flushed when the flow closes. */
  lemma UnmarkedFlowCoveredIff(lib: Library, ds: seq<Delivery>)
    requires Contract(lib) && Supported(lib)
    ensures var s := Run(lib, ds);
            Covered(Complete(lib, s.flow).out) == Stream(ds) <==> (s.kept == [] || s.flow.acceptBuf != [])
  {
    RunTiles(lib, ds);
    CompleteCoversIff(lib, ds);
  }

  /** A library whose parsers accept anything and finish after one byte. */
  function OneByteSelect(input: Bytes, end: bool): Selection {
    if input != [] then Selection(Accept(0), 0) else if end then Selection(Reject, 0) else Selection(NeedMoreData, 0)
  }

  function OneByteParse(f: Factory, fed: seq<Bytes>, end: bool): Outcome {
    if |fed| == 1 && fed[0] != [] then Done("", fed[0][1..]) else Failed(|Flatten(fed)|)
  }

  function OneByteLibrary(): Library {
    Library(OneByteSelect, OneByteParse)
  }

  lemma OneByteParses(f: Factory, fed: seq<Bytes>, end: bool)
    ensures ParseContract(fed, end, OneByteParse(f, fed, end))
  {
    if |fed| == 1 {
      FlattenAppend([], fed[0]);
      assert [] + [fed[0]] == fed && [] + fed[0] == fed[0];
    }
  }

  lemma OneByteContract()
    ensures Contract(OneByteLibrary()) && Supported(OneByteLibrary())
  {
    var lib := OneByteLibrary();
    forall fed: seq<Bytes>, f, end ensures ParseContract(fed, end, lib.parse(f, fed, end)) {
      OneByteParses(f, fed, end);
    }
  }

  /** The second byte of a two-byte delivery is kept after the first parse, and lost. */
  lemma KeptByteIsLost()
    ensures Contract(OneByteLibrary())
    ensures var ds := [Delivery([1, 2], false, {0})];
            && Run(OneByteLibrary(), ds).kept == [2]
            && Covered(Complete(OneByteLibrary(), Run(OneByteLibrary(), ds).flow).out) != Stream(ds)
  {
    OneByteContract();
    var lib := OneByteLibrary();
    var ds := [Delivery([1, 2], false, {0})];
    assert ds[..0] == [];
    var sg: Bytes := [] + [1, 2];
    assert sg == [1, 2] && sg[0..] == sg;
    var f: Flow := Flow(Idle, [], []);
    assert Open(f, lib.select(sg, false), sg, 2, {0}) == Opened(Flow(Live(0, []), [], []), sg);
    assert [] + [sg] == [sg];
    assert lib.parse(0, [sg], false) == Done("", [2]);
    UnmarkedFlowCoveredIff(lib, ds);
  }

  // ---------------------------------------------------------------------------------
  // The object that does it

  class TcpFlow {
    const lib: Library
    var currentParser: Parser
    var unusedAcceptBuf: Bytes
    var outChan: seq<Emission>

    function View(): Flow
      reads this
    {
      Flow(currentParser, unusedAcceptBuf, outChan)
    }

    constructor (lib: Library)
      ensures this.lib == lib && View() == Flow(Idle, [], [])
    {
      this.lib := lib;
      currentParser, unusedAcceptBuf, outChan := Idle, [], [];
    }

    method HandleUnparseable(size: int, bytes: Bytes)
      modifies this`outChan
      ensures View() == Unparseable(old(View()), size, bytes)
    {
      if size > 0 {
        outChan := outChan + [Emission(Dropped(size), bytes)];
      }
    }

    /** Picks a parser for the last bytes of a delivery of `size` bytes. Unless that settles
        them, `rest` is the input for the new parser; otherwise it is what is kept. */
    method SelectParser(input: Bytes, end: bool, size: nat, contexts: set<int>) returns (settled: bool, rest: Bytes)
      requires Contract(lib) && currentParser.Idle?
      modifies this
      ensures Open(old(View()), lib.select(input, end), input, size, contexts) ==
              if settled then Settled(View(), rest) else Opened(View(), rest)
    {
      var Selection(decision, discardFront) := lib.select(input, end);
      rest := input[discardFront..];
      if discardFront > 0 {
        HandleUnparseable(discardFront, input[..discardFront]);
      }
      match decision {
        case NeedMoreData =>
          unusedAcceptBuf := rest;
          return true, rest;
        case Reject =>
          unusedAcceptBuf := [];
          return true, [];
        case Accept(factory) =>
          unusedAcceptBuf := [];
          if size - |rest| !in contexts {
            HandleUnparseable(|rest|, rest);
            return true, [];
          }
          currentParser := Live(factory, []);
          return false, rest;
        case Unsupported =>
          HandleUnparseable(|rest|, rest);
          return true, [];
      }
    }

    /** Handles the last bytes of a delivery of `size` bytes, again and again at the end of the
        stream, and returns the ones to keep. */
    method Handle(input: Bytes, end: bool, size: nat, contexts: set<int>) returns (kept: Bytes)
      requires Contract(lib)
      modifies this
      ensures (View(), kept) == Reassembled(lib, old(View()), input, end, size, contexts)
      decreases |input|, if currentParser.Live? then 1 else 0
    {
      var rest := input;
      if currentParser.Idle? {
        var settled;
        settled, rest := SelectParser(input, end, size, contexts);
        if settled {
          return rest;
        }
        OpenTiles(old(View()), lib.select(input, end), input, size, contexts);
      }
      kept := ParseStep(rest, end);
      if |kept| > 0 && end {
        kept := Handle(kept, end, size, contexts);
      }
    }

    /** `keepFrom` is the offset given to KeepFrom, or |sg| when nothing is kept. */
    method ReassembledWithIgnore(ignoreCount: nat, sg: Bytes, end: bool, contexts: set<int>) returns (keepFrom: nat)
      requires Contract(lib) && ignoreCount <= |sg|
      modifies this
      ensures ignoreCount <= keepFrom <= |sg|
      ensures (View(), sg[keepFrom..]) == Reassembled(lib, old(View()), sg[ignoreCount..], end, |sg|, contexts)
    {
      var input := sg[ignoreCount..];
      KeptIsSuffix(lib, View(), input, end, |sg|, contexts);
      var kept := Handle(input, end, |sg|, contexts);
      keepFrom := |sg| - |kept|;
      assert sg[keepFrom..] == input[|input| - |kept|..];
    }

    /** Calls the live parser and sends what it yields. */
    method ParseStep(input: Bytes, end: bool) returns (unused: Bytes)
      requires Contract(lib) && currentParser.Live?
      modifies this
      ensures (View(), unused) == Feed(lib, old(View()), input, end)
    {
      ghost var f := View();
      var Live(factory, fed) := currentParser;
      var fed' := fed + [input];
      assert ParseContract(fed', end, lib.parse(factory, fed', end));
      FlattenAppend(fed, input);
      match lib.parse(factory, fed', end) {
        case Failed(consumed) =>
          HandleUnparseable(consumed, Flatten(fed'));
          currentParser := Idle;
          assert View() == Unparseable(f.(parser := Idle), consumed, Flatten(fed'));
          return [];
        case Done(content, rest) =>
          var all := Flatten(fed');
          outChan := outChan + [Emission(Parsed(content), all[..|all| - |rest|])];
          currentParser := Idle;
          assert View() == f.(parser := Idle, out := f.out + [Emission(Parsed(content), all[..|all| - |rest|])]);
          return rest;
        case Pending =>
          currentParser := Live(factory, fed');
          assert View() == f.(parser := Live(factory, fed'));
          return [];
      }
    }

    method ReassemblyComplete()
      requires Contract(lib)
      modifies this
      ensures View() == Complete(lib, old(View()))
    {
      if currentParser.Live? {
        var unused := ParseStep([], true);
        HandleUnparseable(|unused|, unused);
        currentParser := Idle;
      } else if |unusedAcceptBuf| > 0 {
        outChan := outChan + [Emission(Dropped(|unusedAcceptBuf|), unusedAcceptBuf)];
      }
    }
  }
}
