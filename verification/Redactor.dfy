/** Redaction of sensitive values in witnesses. */
module Redaction {
  import opened Traffic
  import opened PathTemplates

  const REDACTION_STRING := "*REDACTED*"

  /** Regular expressions are known only by what they match, lower-casing only as a function. */
  type Pattern = string -> bool

  datatype Config = Config(
    keys: set<string>, patterns: seq<Pattern>,
    userNames: set<string>, userPatterns: seq<Pattern>,
    lower: string -> string)

  predicate Matches(patterns: seq<Pattern>, v: string) {
    exists i :: 0 <= i < |patterns| && patterns[i](v)
  }

  predicate IsSensitive(cfg: Config, v: string) {
    Matches(cfg.patterns, v) || Matches(cfg.userPatterns, v)
  }

  /** Patterns of the user apply to field names, too. */
  predicate HidesFieldsNamed(cfg: Config, name: string) {
    cfg.lower(name) in cfg.keys || cfg.lower(name) in cfg.userNames || Matches(cfg.userPatterns, name)
  }

  // ---------------------------------------------------------------------------------
  // Data trees

  datatype Value = Text(text: string) | Number(kind: nat, n: int) | Unset
  datatype Primitive = Primitive(value: Value, hints: int)
  datatype Kind = Struct | List | Optional | OneOf

  /** The field path element that leads to a child; an optional adds none. */
  datatype Label = FieldName(name: string) | Element(index: nat) | Variant(number: nat) | NoLabel

  /** `header` is the key of an HTTP header. */
  datatype Data =
    | Empty(header: Option<string>)
    | Leaf(header: Option<string>, primitive: Primitive)
    | Node(header: Option<string>, kind: Kind, children: seq<Child>)

  datatype Child = Child(step: Label, data: Data)

  /** The innermost field path element, if it is a field name. */
  function Innermost(name: Option<string>, step: Label): Option<string> {
    match step
    case FieldName(n) => Some(n)
    case NoLabel => name
    case _ => None
  }

  predicate Hides(cfg: Config, name: Option<string>) {
    name.Some? && HidesFieldsNamed(cfg, name.value)
  }

  predicate SensitiveValue(cfg: Config, v: Value) { v.Text? && IsSensitive(cfg, v.text) }

  function Redacted(p: Primitive): Primitive { p.(value := Text(REDACTION_STRING)) }

  /** redactPrimitivesInIR */
  function RedactAll(d: Data): Data {
    match d
    case Empty(_) => d
    case Leaf(h, p) => Leaf(h, Redacted(p))
    case Node(h, kind, cs) =>
      Node(h, kind, seq(|cs|, i requires 0 <= i < |cs| => Child(cs[i].step, RedactAll(cs[i].data))))
  }

  function Redact(cfg: Config, name: Option<string>, d: Data): Data
    decreases d
  {
    if d.Leaf? && SensitiveValue(cfg, d.primitive.value) then d.(primitive := Redacted(d.primitive))
    else if Hides(cfg, name) then RedactAll(d)
    else
      match d
      case Node(h, kind, cs) =>
        Node(h, kind, seq(|cs|, i requires 0 <= i < |cs| =>
          Child(cs[i].step, Redact(cfg, Innermost(name, cs[i].step), cs[i].data))))
      case _ => d
  }

  // ---------------------------------------------------------------------------------
  // What becomes of each primitive

  /** The primitive that a path of child positions leads to. */
  function At(d: Data, path: seq<nat>): Option<Primitive> {
    if path == [] then (if d.Leaf? then Some(d.primitive) else None)
    else if d.Node? && path[0] < |d.children| then At(d.children[path[0]].data, path[1..])
    else None
  }

  /** Some datum on the path has a name that hides it. */
  predicate Hidden(cfg: Config, name: Option<string>, d: Data, path: seq<nat>)
    decreases path
  {
    || Hides(cfg, name)
    || (path != [] && d.Node? && path[0] < |d.children| &&
        var c := d.children[path[0]]; Hidden(cfg, Innermost(name, c.step), c.data, path[1..]))
  }

  lemma {:induction false} RedactAllAt(d: Data, path: seq<nat>)
    ensures At(RedactAll(d), path) == match At(d, path) case None => None case Some(p) => Some(Redacted(p))
  {
    if path != [] && d.Node? && path[0] < |d.children| {
      RedactAllAt(d.children[path[0]].data, path[1..]);
    }
  }

  /** A primitive is redacted if its own value is sensitive or it is below a hiding name, and
      unchanged otherwise. */
  lemma {:induction false} RedactAt(cfg: Config, name: Option<string>, d: Data, path: seq<nat>)
    ensures At(Redact(cfg, name, d), path)
         == match At(d, path)
            case None => None
            case Some(p) =>
              Some(if SensitiveValue(cfg, p.value) || Hidden(cfg, name, d, path) then Redacted(p) else p)
    decreases path
  {
    if Hides(cfg, name) {
      RedactAllAt(d, path);
    } else if path != [] && d.Node? && path[0] < |d.children| {
      var c := d.children[path[0]];
      RedactAt(cfg, Innermost(name, c.step), c.data, path[1..]);
    }
  }

  /** The field path elements on a path of child positions. */
  ghost function Labels(d: Data, path: seq<nat>): seq<Label> {
    if path == [] || !d.Node? || path[0] >= |d.children| then []
    else [d.children[path[0]].step] + Labels(d.children[path[0]].data, path[1..])
  }

  /** After `n` elements the innermost one is the field `field`: elements of lists and variants
      have no name, and an optional keeps the name of what contains it. */
  ghost predicate InnermostIs(name: Option<string>, labels: seq<Label>, n: nat, field: string)
    requires n <= |labels|
  {
    if n == 0 then name == Some(field)
    else labels[n - 1] == FieldName(field) || (labels[n - 1].NoLabel? && InnermostIs(name, labels, n - 1, field))
  }

  ghost predicate SensitiveName(cfg: Config, field: string) {
    || cfg.lower(field) in cfg.keys || cfg.lower(field) in cfg.userNames
    || exists i :: 0 <= i < |cfg.userPatterns| && cfg.userPatterns[i](field)
  }

  ghost predicate BelowSensitiveName(cfg: Config, name: Option<string>, labels: seq<Label>) {
    exists n: nat, field :: n <= |labels| && InnermostIs(name, labels, n, field) && SensitiveName(cfg, field)
  }

  lemma {:induction false} InnermostShift(name: Option<string>, first: Label, rest: seq<Label>, n: nat, field: string)
    requires n <= |rest|
    ensures InnermostIs(name, [first] + rest, n + 1, field) <==> InnermostIs(Innermost(name, first), rest, n, field)
  {
    if n > 0 { InnermostShift(name, first, rest, n - 1, field); }
  }

  lemma BelowShift(cfg: Config, name: Option<string>, first: Label, rest: seq<Label>)
    ensures BelowSensitiveName(cfg, name, [first] + rest) <==>
              || (name.Some? && SensitiveName(cfg, name.value))
              || BelowSensitiveName(cfg, Innermost(name, first), rest)
  {
    var labels := [first] + rest;
    if name.Some? && SensitiveName(cfg, name.value) { assert InnermostIs(name, labels, 0, name.value); }
    if n: nat, field :| n <= |labels| && InnermostIs(name, labels, n, field) && SensitiveName(cfg, field) {
      if n > 0 { InnermostShift(name, first, rest, n - 1, field); }
    }
    if n: nat, field :| n <= |rest| && InnermostIs(Innermost(name, first), rest, n, field) && SensitiveName(cfg, field) {
      InnermostShift(name, first, rest, n, field);
    }
  }

  /** A datum is hidden exactly if the innermost field name of it or of some datum above it is
      sensitive. */
  lemma {:induction false} HiddenIffBelow(cfg: Config, name: Option<string>, d: Data, path: seq<nat>)
    ensures Hidden(cfg, name, d, path) <==> BelowSensitiveName(cfg, name, Labels(d, path))
    decreases path
  {
    if path != [] && d.Node? && path[0] < |d.children| {
      var c := d.children[path[0]];
      HiddenIffBelow(cfg, Innermost(name, c.step), c.data, path[1..]);
      BelowShift(cfg, name, c.step, Labels(c.data, path[1..]));
    } else if name.Some? {
      assert InnermostIs(name, [], 0, name.value) == true;
    }
  }

  /** Everything but the values of primitives. */
  predicate SameShape(a: Data, b: Data) {
    a.header == b.header &&
    match (a, b)
    case (Empty(_), Empty(_)) => true
    case (Leaf(_, p), Leaf(_, q)) => p.hints == q.hints
    case (Node(_, ka, ca), Node(_, kb, cb)) =>
      && ka == kb && |ca| == |cb|
      && forall i :: 0 <= i < |ca| ==> ca[i].step == cb[i].step && SameShape(ca[i].data, cb[i].data)
    case _ => false
  }

  lemma {:induction false} RedactAllShape(d: Data)
    ensures SameShape(d, RedactAll(d))
  {
    if d.Node? {
      forall i | 0 <= i < |d.children| ensures SameShape(d.children[i].data, RedactAll(d.children[i].data)) {
        RedactAllShape(d.children[i].data);
      }
    }
  }

  lemma {:induction false} RedactShape(cfg: Config, name: Option<string>, d: Data)
    ensures SameShape(d, Redact(cfg, name, d))
    decreases d
  {
    if Hides(cfg, name) {
      RedactAllShape(d);
    } else if d.Node? {
      forall i | 0 <= i < |d.children|
        ensures SameShape(d.children[i].data, Redact(cfg, Innermost(name, d.children[i].step), d.children[i].data))
      {
        RedactShape(cfg, Innermost(name, d.children[i].step), d.children[i].data);
      }
    }
  }

  // ---------------------------------------------------------------------------------
  // Redaction is non-interfering

  /** Values that redaction does not tell apart from a sensitive one. */
  predicate Masked(cfg: Config, v: Value) { SensitiveValue(cfg, v) || v == Text(REDACTION_STRING) }

  /** The trees differ at most in values that are to be hidden. */
  predicate LowEqual(cfg: Config, hidden: bool, name: Option<string>, a: Data, b: Data)
    decreases a
  {
    var concealed := hidden || Hides(cfg, name);
    a.header == b.header &&
    match (a, b)
    case (Empty(_), Empty(_)) => true
    case (Leaf(_, p), Leaf(_, q)) =>
      p.hints == q.hints && (concealed || p.value == q.value || (Masked(cfg, p.value) && Masked(cfg, q.value)))
    case (Node(_, ka, ca), Node(_, kb, cb)) =>
      && ka == kb && |ca| == |cb|
      && forall i :: 0 <= i < |ca| ==>
           && ca[i].step == cb[i].step
           && LowEqual(cfg, concealed, Innermost(name, ca[i].step), ca[i].data, cb[i].data)
    case _ => false
  }

  lemma {:induction false} HiddenNonInterference(cfg: Config, name: Option<string>, a: Data, b: Data)
    ensures RedactAll(a) == RedactAll(b) <==> LowEqual(cfg, true, name, a, b)
    decreases a
  {
    if a.Node? && b.Node? {
      var ca, cb := a.children, b.children;
      var ra, rb := RedactAll(a), RedactAll(b);
      if ra == rb {
        forall i | 0 <= i < |ca| ensures ca[i].step == cb[i].step && LowEqual(cfg, true, Innermost(name, ca[i].step), ca[i].data, cb[i].data) {
          assert ra.children[i] == rb.children[i];
          HiddenNonInterference(cfg, Innermost(name, ca[i].step), ca[i].data, cb[i].data);
        }
      }
      if LowEqual(cfg, true, name, a, b) {
        forall i | 0 <= i < |ca| ensures ra.children[i] == rb.children[i] {
          assert ca[i].step == cb[i].step && LowEqual(cfg, true, Innermost(name, ca[i].step), ca[i].data, cb[i].data);
          HiddenNonInterference(cfg, Innermost(name, ca[i].step), ca[i].data, cb[i].data);
        }
        assert ra.children == rb.children;
      }
    }
  }

  /** Trees redact to the same tree exactly when they differ at most in hidden values. */
  lemma {:induction false} NonInterference(cfg: Config, name: Option<string>, a: Data, b: Data)
    ensures Redact(cfg, name, a) == Redact(cfg, name, b) <==> LowEqual(cfg, false, name, a, b)
    decreases a
  {
    if Hides(cfg, name) {
      HiddenNonInterference(cfg, name, a, b);
      HideIsHidden(cfg, name, a, b);
      HidesAll(cfg, name, a);
      HidesAll(cfg, name, b);
    } else if a.Node? && b.Node? {
      var ca, cb := a.children, b.children;
      var ra, rb := Redact(cfg, name, a), Redact(cfg, name, b);
      if ra == rb {
        forall i | 0 <= i < |ca| ensures ca[i].step == cb[i].step && LowEqual(cfg, false, Innermost(name, ca[i].step), ca[i].data, cb[i].data) {
          assert ra.children[i] == rb.children[i];
          NonInterference(cfg, Innermost(name, ca[i].step), ca[i].data, cb[i].data);
        }
      }
      if LowEqual(cfg, false, name, a, b) {
        forall i | 0 <= i < |ca| ensures ra.children[i] == rb.children[i] {
          assert ca[i].step == cb[i].step && LowEqual(cfg, false, Innermost(name, ca[i].step), ca[i].data, cb[i].data);
          NonInterference(cfg, Innermost(name, ca[i].step), ca[i].data, cb[i].data);
        }
        assert ra.children == rb.children;
      }
    }
  }

  lemma HidesAll(cfg: Config, name: Option<string>, d: Data)
    requires Hides(cfg, name)
    ensures Redact(cfg, name, d) == RedactAll(d)
  {
  }

  lemma HideIsHidden(cfg: Config, name: Option<string>, a: Data, b: Data)
    requires Hides(cfg, name)
    ensures LowEqual(cfg, false, name, a, b) <==> LowEqual(cfg, true, name, a, b)
  {
  }

  // ---------------------------------------------------------------------------------
  // Redacting again changes nothing

  /** Nothing is left to redact. */
  ghost predicate Clean(cfg: Config, name: Option<string>, d: Data) {
    forall path, p :: At(d, path) == Some(p) && (SensitiveValue(cfg, p.value) || Hidden(cfg, name, d, path)) ==>
      p.value == Text(REDACTION_STRING)
  }

  lemma {:induction false} ShapeKeepsHidden(cfg: Config, name: Option<string>, a: Data, b: Data, path: seq<nat>)
    requires SameShape(a, b)
    ensures Hidden(cfg, name, a, path) == Hidden(cfg, name, b, path)
    decreases path
  {
    if path != [] && a.Node? && path[0] < |a.children| {
      var c := a.children[path[0]];
      ShapeKeepsHidden(cfg, Innermost(name, c.step), c.data, b.children[path[0]].data, path[1..]);
    }
  }

  /** Every string that survives is not sensitive or the redaction string itself. */
  lemma RedactIsClean(cfg: Config, name: Option<string>, d: Data)
    ensures Clean(cfg, name, Redact(cfg, name, d))
  {
    var r := Redact(cfg, name, d);
    RedactShape(cfg, name, d);
    forall path, p | At(r, path) == Some(p) && (SensitiveValue(cfg, p.value) || Hidden(cfg, name, r, path))
      ensures p.value == Text(REDACTION_STRING)
    {
      RedactAt(cfg, name, d, path);
      ShapeKeepsHidden(cfg, name, d, r, path);
    }
  }

  lemma {:induction false} SameLeaves(a: Data, b: Data)
    requires SameShape(a, b) && forall path :: At(a, path) == At(b, path)
    ensures a == b
  {
    match a
    case Empty(_) =>
    case Leaf(_, p) => assert At(a, []) == At(b, []);
    case Node(_, _, cs) =>
      forall i | 0 <= i < |cs| ensures cs[i] == b.children[i] {
        forall path ensures At(cs[i].data, path) == At(b.children[i].data, path) {
          assert At(a, [i] + path) == At(b, [i] + path);
          assert ([i] + path)[1..] == path;
        }
        SameLeaves(cs[i].data, b.children[i].data);
      }
  }

  /** Redaction leaves a tree alone exactly when it is clean. */
  lemma UnchangedIffClean(cfg: Config, name: Option<string>, d: Data)
    ensures Redact(cfg, name, d) == d <==> Clean(cfg, name, d)
  {
    RedactIsClean(cfg, name, d);
    if Clean(cfg, name, d) {
      RedactShape(cfg, name, d);
      forall path ensures At(d, path) == At(Redact(cfg, name, d), path) { RedactAt(cfg, name, d, path); }
      SameLeaves(d, Redact(cfg, name, d));
    }
  }

  lemma RedactTwice(cfg: Config, name: Option<string>, d: Data)
    ensures Redact(cfg, name, Redact(cfg, name, d)) == Redact(cfg, name, d)
  {
    RedactIsClean(cfg, name, d);
    UnchangedIffClean(cfg, name, Redact(cfg, name, d));
  }

  // ---------------------------------------------------------------------------------
  // Path templates

  function RedactSegment(cfg: Config, segment: string): string {
    if IsSensitive(cfg, segment) then REDACTION_STRING else segment
  }

  /** `r` is the path with its sensitive segments replaced and the others in place. */
  ghost predicate IsRedactedPath(cfg: Config, path: string, r: string) {
    var before, after := Split(path), Split(r);
    |after| == |before| && forall i :: 0 <= i < |before| ==>
      after[i] == if Matches(cfg.patterns, before[i]) || Matches(cfg.userPatterns, before[i]) then "*REDACTED*" else before[i]
  }

  lemma RedactedPathUnique(cfg: Config, path: string, r: string, s: string)
    requires IsRedactedPath(cfg, path, r) && IsRedactedPath(cfg, path, s)
    ensures r == s
  {
    assert Split(r) == Split(s);
    JoinSplit(r);
    JoinSplit(s);
  }

  /** Redacting a redacted path gives it back. */
  lemma RedactPathTwice(cfg: Config, path: string, r: string, s: string)
    requires IsRedactedPath(cfg, path, r) && IsRedactedPath(cfg, r, s)
    ensures s == r
  {
    assert Split(r) == Split(s);
    JoinSplit(r);
    JoinSplit(s);
  }

  /** The segments differ at most where both are masked. */
  ghost predicate LowEqualSegments(cfg: Config, a: seq<string>, b: seq<string>) {
    |a| == |b| && forall i :: 0 <= i < |a| ==> a[i] == b[i] || (Masked(cfg, Text(a[i])) && Masked(cfg, Text(b[i])))
  }

  function RedactSegments(cfg: Config, segments: seq<string>): seq<string> {
    seq(|segments|, i requires 0 <= i < |segments| => RedactSegment(cfg, segments[i]))
  }

  lemma SegmentsNonInterference(cfg: Config, a: seq<string>, b: seq<string>)
    ensures RedactSegments(cfg, a) == RedactSegments(cfg, b) <==> LowEqualSegments(cfg, a, b)
  {
    var ra, rb := RedactSegments(cfg, a), RedactSegments(cfg, b);
    if ra == rb {
      forall i | 0 <= i < |a| ensures a[i] == b[i] || (Masked(cfg, Text(a[i])) && Masked(cfg, Text(b[i]))) {
        assert ra[i] == rb[i];
      }
    }
  }

  lemma RedactedSegments(cfg: Config, path: string, r: string)
    requires IsRedactedPath(cfg, path, r)
    ensures Split(r) == RedactSegments(cfg, Split(path))
  {
    forall i | 0 <= i < |Split(path)| ensures Split(r)[i] == RedactSegments(cfg, Split(path))[i] {
    }
  }

  /** Paths redact to the same path exactly when they differ at most in masked segments. */
  lemma PathNonInterference(cfg: Config, a: string, b: string, ra: string, rb: string)
    requires IsRedactedPath(cfg, a, ra) && IsRedactedPath(cfg, b, rb)
    ensures ra == rb <==> LowEqualSegments(cfg, Split(a), Split(b))
  {
    JoinSplit(ra);
    JoinSplit(rb);
    RedactedSegments(cfg, a, ra);
    RedactedSegments(cfg, b, rb);
    SegmentsNonInterference(cfg, Split(a), Split(b));
  }

  // ---------------------------------------------------------------------------------
  // Zeroing all primitives

  predicate IsTraceContext(cfg: Config, header: Option<string>) {
    header.Some? && cfg.lower(header.value) in {"traceparent", "tracestate"}
  }

  function ZeroOf(v: Value): Value {
    match v case Text(_) => Text("") case Number(kind, _) => Number(kind, 0) case Unset => Unset
  }

  function ZeroAll(cfg: Config, d: Data): Data {
    match d
    case Empty(_) => d
    case Leaf(h, p) =>
      if IsTraceContext(cfg, h) then d
      else if p.value.Unset? then Empty(h)
      else Leaf(h, p.(value := ZeroOf(p.value)))
    case Node(h, kind, cs) =>
      Node(h, kind, seq(|cs|, i requires 0 <= i < |cs| => Child(cs[i].step, ZeroAll(cfg, cs[i].data))))
  }

  ghost function HeaderAt(d: Data, path: seq<nat>): Option<string> {
    if path == [] then d.header
    else if d.Node? && path[0] < |d.children| then HeaderAt(d.children[path[0]].data, path[1..])
    else None
  }

  /** What becomes of each primitive: kept in a trace context header, otherwise emptied to the
      zero of its type, or dropped if it has no value. */
  lemma {:induction false} ZeroAt(cfg: Config, d: Data, path: seq<nat>)
    ensures At(ZeroAll(cfg, d), path)
         == match At(d, path)
            case None => None
            case Some(p) =>
              var h := HeaderAt(d, path);
              if h.Some? && (cfg.lower(h.value) == "traceparent" || cfg.lower(h.value) == "tracestate") then Some(p)
              else match p.value
                   case Unset => None
                   case Text(_) => Some(p.(value := Text("")))
                   case Number(kind, _) => Some(p.(value := Number(kind, 0)))
  {
    if path != [] && d.Node? && path[0] < |d.children| { ZeroAt(cfg, d.children[path[0]].data, path[1..]); }
  }

  /** Only the types of values are the same, except in trace context headers. */
  predicate SameTypes(cfg: Config, a: Data, b: Data) {
    a.header == b.header &&
    match (a, b)
    case (Node(_, ka, ca), Node(_, kb, cb)) =>
      && ka == kb && |ca| == |cb|
      && forall i :: 0 <= i < |ca| ==> ca[i].step == cb[i].step && SameTypes(cfg, ca[i].data, cb[i].data)
    case (Leaf(h, p), Leaf(_, q)) =>
      if IsTraceContext(cfg, h) then p == q
      else (p.value.Unset? && q.value.Unset?) || (p.hints == q.hints && SameType(p.value, q.value))
    case (Leaf(h, p), Empty(_)) => !IsTraceContext(cfg, h) && p.value.Unset?
    case (Empty(h), Leaf(_, q)) => !IsTraceContext(cfg, h) && q.value.Unset?
    case (Empty(_), Empty(_)) => true
    case _ => false
  }

  predicate SameType(v: Value, w: Value) {
    (v.Text? && w.Text?) || (v.Number? && w.Number? && v.kind == w.kind) || (v.Unset? && w.Unset?)
  }

  /** Zeroing tells trees apart exactly by their shape, the types of their values, and what is
      in trace context headers. */
  lemma {:induction false} ZeroNonInterference(cfg: Config, a: Data, b: Data)
    ensures ZeroAll(cfg, a) == ZeroAll(cfg, b) <==> SameTypes(cfg, a, b)
    decreases a
  {
    if a.Node? && b.Node? {
      var ca, cb := a.children, b.children;
      var ra, rb := ZeroAll(cfg, a), ZeroAll(cfg, b);
      if ra == rb {
        forall i | 0 <= i < |ca| ensures ca[i].step == cb[i].step && SameTypes(cfg, ca[i].data, cb[i].data) {
          assert ra.children[i] == rb.children[i];
          ZeroNonInterference(cfg, ca[i].data, cb[i].data);
        }
      }
      if SameTypes(cfg, a, b) {
        forall i | 0 <= i < |ca| ensures ra.children[i] == rb.children[i] {
          assert ca[i].step == cb[i].step && SameTypes(cfg, ca[i].data, cb[i].data);
          ZeroNonInterference(cfg, ca[i].data, cb[i].data);
        }
        assert ra.children == rb.children;
      }
    }
  }

  // ---------------------------------------------------------------------------------
  // A whole method

  datatype Location = Auth | Cookie | Header | Query | Path | Body

  /** A top-level datum; `name` is the field name under which it is visited, if any. */
  datatype Argument = Argument(location: Location, name: Option<string>, data: Data)

  predicate IsCredential(x: Argument) { x.location == Auth || x.location == Cookie }

  function RedactArgument(cfg: Config, x: Argument): Argument {
    x.(data := if IsCredential(x) then RedactAll(x.data) else Redact(cfg, x.name, x.data))
  }

  /** What becomes of each primitive of an argument: redacted below authorization and cookies, if
      its string is sensitive, and below a sensitive field name; unchanged otherwise. */
  lemma ArgumentAt(cfg: Config, x: Argument, path: seq<nat>)
    ensures At(RedactArgument(cfg, x).data, path)
         == match At(x.data, path)
            case None => None
            case Some(p) =>
              Some(if || x.location.Auth? || x.location.Cookie?
                      || (p.value.Text? && exists i :: 0 <= i < |cfg.patterns| && cfg.patterns[i](p.value.text))
                      || (p.value.Text? && exists i :: 0 <= i < |cfg.userPatterns| && cfg.userPatterns[i](p.value.text))
                      || BelowSensitiveName(cfg, x.name, Labels(x.data, path))
                   then p.(value := Text("*REDACTED*")) else p)
  {
    RedactAllAt(x.data, path);
    RedactAt(cfg, x.name, x.data, path);
    HiddenIffBelow(cfg, x.name, x.data, path);
  }

  datatype Method = Method(args: map<string, Argument>, responses: map<string, Argument>, pathTemplate: string)

  function RedactArguments(cfg: Config, m: map<string, Argument>): map<string, Argument> {
    map k | k in m :: RedactArgument(cfg, m[k])
  }

  function RedactMethod(cfg: Config, m: Method): Method {
    Method(RedactArguments(cfg, m.args), RedactArguments(cfg, m.responses),
           Join(RedactSegments(cfg, Split(m.pathTemplate))))
  }

  lemma RedactMethodPath(cfg: Config, m: Method)
    ensures IsRedactedPath(cfg, m.pathTemplate, RedactMethod(cfg, m).pathTemplate)
  {
    JoinSplit(m.pathTemplate);
    SplitJoin(RedactSegments(cfg, Split(m.pathTemplate)));
  }

  ghost predicate LowEqualArguments(cfg: Config, a: map<string, Argument>, b: map<string, Argument>) {
    a.Keys == b.Keys && forall k :: k in a ==>
      && a[k].location == b[k].location && a[k].name == b[k].name
      && LowEqual(cfg, IsCredential(a[k]), a[k].name, a[k].data, b[k].data)
  }

  lemma ArgumentNonInterference(cfg: Config, x: Argument, y: Argument)
    ensures RedactArgument(cfg, x) == RedactArgument(cfg, y)
       <==> x.location == y.location && x.name == y.name && LowEqual(cfg, IsCredential(x), x.name, x.data, y.data)
  {
    HiddenNonInterference(cfg, x.name, x.data, y.data);
    NonInterference(cfg, x.name, x.data, y.data);
  }

  lemma ArgumentsNonInterference(cfg: Config, a: map<string, Argument>, b: map<string, Argument>)
    ensures RedactArguments(cfg, a) == RedactArguments(cfg, b) <==> LowEqualArguments(cfg, a, b)
  {
    var ra, rb := RedactArguments(cfg, a), RedactArguments(cfg, b);
    forall k | k in a && k in b { ArgumentNonInterference(cfg, a[k], b[k]); }
    if ra == rb {
      assert a.Keys == ra.Keys == rb.Keys == b.Keys;
      forall k | k in a
        ensures a[k].location == b[k].location && a[k].name == b[k].name
             && LowEqual(cfg, IsCredential(a[k]), a[k].name, a[k].data, b[k].data)
      {
        assert ra[k] == rb[k];
      }
    }
  }

  /** Two methods redact to the same method exactly when they differ at most in credentials, in
      values below hiding names and in masked strings and path segments. */
  lemma MethodNonInterference(cfg: Config, a: Method, b: Method)
    ensures RedactMethod(cfg, a) == RedactMethod(cfg, b) <==>
              && LowEqualArguments(cfg, a.args, b.args)
              && LowEqualArguments(cfg, a.responses, b.responses)
              && LowEqualSegments(cfg, Split(a.pathTemplate), Split(b.pathTemplate))
  {
    ArgumentsNonInterference(cfg, a.args, b.args);
    ArgumentsNonInterference(cfg, a.responses, b.responses);
    RedactMethodPath(cfg, a);
    RedactMethodPath(cfg, b);
    PathNonInterference(cfg, a.pathTemplate, b.pathTemplate,
                        RedactMethod(cfg, a).pathTemplate, RedactMethod(cfg, b).pathTemplate);
  }

  lemma {:induction false} RedactAllTwice(d: Data)
    ensures RedactAll(RedactAll(d)) == RedactAll(d)
  {
    if d.Node? {
      forall i | 0 <= i < |d.children|
        ensures RedactAll(RedactAll(d.children[i].data)) == RedactAll(d.children[i].data)
      {
        RedactAllTwice(d.children[i].data);
      }
    }
  }

  lemma ArgumentsTwice(cfg: Config, m: map<string, Argument>)
    ensures RedactArguments(cfg, RedactArguments(cfg, m)) == RedactArguments(cfg, m)
  {
    forall k | k in m ensures RedactArgument(cfg, RedactArgument(cfg, m[k])) == RedactArgument(cfg, m[k]) {
      RedactAllTwice(m[k].data);
      RedactTwice(cfg, m[k].name, m[k].data);
    }
  }

  lemma RedactMethodTwice(cfg: Config, m: Method)
    ensures RedactMethod(cfg, RedactMethod(cfg, m)) == RedactMethod(cfg, m)
  {
    var once := RedactMethod(cfg, m);
    ArgumentsTwice(cfg, m.args);
    ArgumentsTwice(cfg, m.responses);
    RedactMethodPath(cfg, m);
    RedactMethodPath(cfg, once);
    RedactPathTwice(cfg, m.pathTemplate, once.pathTemplate, RedactMethod(cfg, once).pathTemplate);
  }

  // ---------------------------------------------------------------------------------
  // The configuration and the loops over it

  class UserRedactionConfig {
    var fieldNames: set<string>
    var stringRegexps: seq<Pattern>

    constructor (fieldNames: set<string>, stringRegexps: seq<Pattern>)
      ensures this.fieldNames == fieldNames && this.stringRegexps == stringRegexps
    {
      this.fieldNames, this.stringRegexps := fieldNames, stringRegexps;
    }

    method RedactStringRegex(v: string) returns (redact: bool)
      ensures redact <==> Matches(stringRegexps, v)
    {
      for i := 0 to |stringRegexps|
        invariant forall j :: 0 <= j < i ==> !stringRegexps[j](v)
      {
        if stringRegexps[i](v) {
          return true;
        }
      }
      return false;
    }

    method RedactFieldsNamed(lower: string -> string, fieldName: string) returns (redact: bool)
      ensures redact <==> lower(fieldName) in fieldNames || Matches(stringRegexps, fieldName)
    {
      if lower(fieldName) in fieldNames {
        return true;
      }
      redact := RedactStringRegex(fieldName);
    }
  }

  class Redactor {
    const sensitiveDataKeys: set<string>
    const sensitiveDataValuePatterns: seq<Pattern>
    const lower: string -> string
    const userConfig: UserRedactionConfig

    constructor (keys: set<string>, patterns: seq<Pattern>, lower: string -> string, userConfig: UserRedactionConfig)
      ensures View() == Config(keys, patterns, userConfig.fieldNames, userConfig.stringRegexps, lower)
    {
      sensitiveDataKeys, sensitiveDataValuePatterns := keys, patterns;
      this.lower, this.userConfig := lower, userConfig;
    }

    function View(): Config
      reads userConfig
    {
      Config(sensitiveDataKeys, sensitiveDataValuePatterns, userConfig.fieldNames, userConfig.stringRegexps, lower)
    }

    method RedactFieldsNamed(fieldName: string) returns (redact: bool)
      ensures redact <==> HidesFieldsNamed(View(), fieldName)
    {
      if lower(fieldName) in sensitiveDataKeys {
        return true;
      }
      redact := userConfig.RedactFieldsNamed(lower, fieldName);
    }

    method IsSensitiveString(v: string) returns (sensitive: bool)
      ensures sensitive <==> IsSensitive(View(), v)
    {
      for i := 0 to |sensitiveDataValuePatterns|
        invariant forall j :: 0 <= j < i ==> !sensitiveDataValuePatterns[j](v)
      {
        if sensitiveDataValuePatterns[i](v) {
          return true;
        }
      }
      sensitive := userConfig.RedactStringRegex(v);
    }

    method RedactPathTemplate(path: string) returns (redacted: string)
      ensures IsRedactedPath(View(), path, redacted)
    {
      var pathSegments := Split(path);
      ghost var before := pathSegments;
      JoinSplit(path);
      for i := 0 to |pathSegments|
        invariant |pathSegments| == |before| && NoSlash(pathSegments)
        invariant forall j :: 0 <= j < i ==> pathSegments[j] == RedactSegment(View(), before[j])
        invariant forall j :: i <= j < |before| ==> pathSegments[j] == before[j]
      {
        var sensitive := IsSensitiveString(pathSegments[i]);
        if sensitive {
          pathSegments := pathSegments[i := REDACTION_STRING];
        }
      }
      SplitJoin(pathSegments);
      redacted := Join(pathSegments);
    }
  }
}
