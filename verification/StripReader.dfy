/** The reader that strips control characters from a stream before it is parsed as JSON. */
module StripReader {

  type Byte = b: int | 0 <= b < 256

  const BACKSLASH: Byte := 0x5c
  const LAST_CONTROL: Byte := 0x1f

  predicate IsControl(c: Byte) { c <= LAST_CONTROL }

  // ---------------------------------------------------------------------------------
  // Stripping as one pass over the whole input

  /** What was written, and whether an unescaped backslash comes just before. */
  datatype Stripped = Stripped(bytes: seq<Byte>, escaping: bool)

  function StripByte(escaping: bool, c: Byte): Stripped {
    if IsControl(c) then Stripped(if escaping then [BACKSLASH] else [], false)
    else Stripped([c], c == BACKSLASH && !escaping)
  }

  function Strip(escaping: bool, s: seq<Byte>): Stripped {
    if s == [] then Stripped([], escaping)
    else
      var before := Strip(escaping, s[..|s| - 1]);
      var o := StripByte(before.escaping, s[|s| - 1]);
      Stripped(before.bytes + o.bytes, o.escaping)
  }

  lemma StripSnoc(escaping: bool, s: seq<Byte>, c: Byte)
    ensures var before := Strip(escaping, s);
            var o := StripByte(before.escaping, c);
            Strip(escaping, s + [c]) == Stripped(before.bytes + o.bytes, o.escaping)
  {
    assert (s + [c])[..|s|] == s;
  }

  lemma {:induction false} StripConcat(escaping: bool, a: seq<Byte>, b: seq<Byte>)
    ensures var first := Strip(escaping, a);
            var second := Strip(first.escaping, b);
            Strip(escaping, a + b) == Stripped(first.bytes + second.bytes, second.escaping)
    decreases |b|
  {
    if b == [] {
      assert a + b == a;
    } else {
      var init, c := b[..|b| - 1], b[|b| - 1];
      StripConcat(escaping, a, init);
      StripSnoc(escaping, a + init, c);
      assert a + b == a + init + [c];
      var first, middle := Strip(escaping, a).bytes, Strip(Strip(escaping, a).escaping, init);
      var last := StripByte(middle.escaping, c).bytes;
      assert first + middle.bytes + last == first + (middle.bytes + last);
    }
  }

  lemma {:induction false} NoControlCharacters(escaping: bool, s: seq<Byte>)
    ensures forall c :: c in Strip(escaping, s).bytes ==> !IsControl(c)
  {
    if s != [] { NoControlCharacters(escaping, s[..|s| - 1]); }
  }

  lemma {:induction false} NothingToStrip(escaping: bool, s: seq<Byte>)
    requires forall c :: c in s ==> !IsControl(c)
    ensures Strip(escaping, s).bytes == s
  {
    if s != [] {
      NothingToStrip(escaping, s[..|s| - 1]);
      assert s == s[..|s| - 1] + [s[|s| - 1]];
    }
  }

  /** Section 7 of RFC 8259: a backslash that is not itself escaped escapes what follows. */
  function Escaping(escaping: bool, s: seq<Byte>): bool {
    if s == [] then escaping
    else if Escaping(escaping, s[..|s| - 1]) then false
    else s[|s| - 1] == BACKSLASH
  }

  /** A parser of the output is inside an escape exactly when the reader's flag says so. */
  lemma {:induction false} EscapesAgree(escaping: bool, s: seq<Byte>)
    ensures Escaping(escaping, Strip(escaping, s).bytes) == Strip(escaping, s).escaping
  {
    if s != [] {
      var n := |s| - 1;
      var before := Strip(escaping, s[..n]);
      EscapesAgree(escaping, s[..n]);
      var o := StripByte(before.escaping, s[n]);
      if o.bytes != [] {
        assert (before.bytes + o.bytes)[..|before.bytes|] == before.bytes;
      } else {
        assert before.bytes + o.bytes == before.bytes;
      }
    }
  }

  lemma {:induction false} FlagIsEscaping(escaping: bool, s: seq<Byte>)
    requires forall c :: c in s ==> !IsControl(c)
    ensures Strip(escaping, s).escaping == Escaping(escaping, s)
  {
    NothingToStrip(escaping, s);
    EscapesAgree(escaping, s);
  }

  /** Stripping what was stripped changes nothing, not even the flag. */
  lemma Idempotent(escaping: bool, s: seq<Byte>)
    ensures Strip(escaping, Strip(escaping, s).bytes) == Strip(escaping, s)
  {
    var once := Strip(escaping, s);
    NoControlCharacters(escaping, s);
    NothingToStrip(escaping, once.bytes);
    FlagIsEscaping(escaping, once.bytes);
    EscapesAgree(escaping, s);
  }

  /** What each input byte becomes. If the output so far ends inside an escape, a control
      character is replaced by a backslash, otherwise it is removed; every other byte is copied. */
  lemma ByteBecomes(escaping: bool, s: seq<Byte>, i: nat)
    requires i < |s|
    ensures var before, after, all := Strip(escaping, s[..i]).bytes, Strip(escaping, s[..i + 1]).bytes, Strip(escaping, s).bytes;
            && before <= after <= all
            && (s[i] <= 0x1f && !Escaping(escaping, before) ==> after == before)
            && (s[i] <= 0x1f && Escaping(escaping, before) ==> after == before + [0x5c])
            && (s[i] > 0x1f ==> after == before + [s[i]])
  {
    EscapesAgree(escaping, s[..i]);
    assert s[..i + 1] == s[..i] + [s[i]] && s == s[..i + 1] + s[i + 1..];
    StripSnoc(escaping, s[..i], s[i]);
    StripConcat(escaping, s[..i + 1], s[i + 1..]);
  }

  /** Plain removal of the control characters. */
  function Removed(s: seq<Byte>): seq<Byte> {
    if s == [] then [] else Removed(s[..|s| - 1]) + if IsControl(s[|s| - 1]) then [] else [s[|s| - 1]]
  }

  /** Some control character comes inside an escape. */
  ghost predicate EscapedControl(escaping: bool, s: seq<Byte>) {
    exists i :: 0 <= i < |s| && IsControl(s[i]) && Strip(escaping, s[..i]).escaping
  }

  lemma EscapedControlSnoc(escaping: bool, s: seq<Byte>)
    requires s != []
    ensures var n := |s| - 1;
            EscapedControl(escaping, s) ==
              (EscapedControl(escaping, s[..n]) || (IsControl(s[n]) && Strip(escaping, s[..n]).escaping))
  {
    assert forall i :: 0 <= i < |s| - 1 ==> s[..|s| - 1][i] == s[i] && s[..|s| - 1][..i] == s[..i];
  }

  /** Each escaped control character makes the output longer than plain removal does. */
  lemma {:induction false} LongerIffEscaped(escaping: bool, s: seq<Byte>)
    ensures |Removed(s)| <= |Strip(escaping, s).bytes|
    ensures |Removed(s)| < |Strip(escaping, s).bytes| <==> EscapedControl(escaping, s)
  {
    if s != [] {
      LongerIffEscaped(escaping, s[..|s| - 1]);
      EscapedControlSnoc(escaping, s);
    }
  }

  lemma {:induction false} SameLengthSame(escaping: bool, s: seq<Byte>)
    requires |Strip(escaping, s).bytes| == |Removed(s)|
    ensures Strip(escaping, s).bytes == Removed(s)
  {
    if s != [] {
      LongerIffEscaped(escaping, s[..|s| - 1]);
      SameLengthSame(escaping, s[..|s| - 1]);
    }
  }

  /** Stripping is plain removal of the control characters, unless one of them is escaped. */
  lemma StripIsRemovalIff(escaping: bool, s: seq<Byte>)
    ensures Strip(escaping, s).bytes == Removed(s) <==> !EscapedControl(escaping, s)
  {
    LongerIffEscaped(escaping, s);
    if |Strip(escaping, s).bytes| == |Removed(s)| { SameLengthSame(escaping, s); }
  }

  // ---------------------------------------------------------------------------------
  // The readers

  datatype Status = NoError | Eof | Failed(message: string)

  /** What one call of the wrapped reader does: how many bytes it is willing to deliver. */
  datatype Delivery = Delivery(size: nat, status: Status)

  function Min(a: nat, b: nat): nat { if a < b then a else b }

  /** The wrapped reader. Its callers may rely only on what every reader promises: it delivers
      the next bytes of its input, at most as many as asked for, with or without an error. */
  class Wrapped {
    const input: seq<Byte>
    const script: seq<Delivery>
    var pos: nat

    // How often it was called, and how the last call ended.
    var calls: nat
    var short: bool
    var status: Status

    ghost predicate Valid()
      reads this
    {
      pos <= |input|
    }

    constructor (input: seq<Byte>, script: seq<Delivery>)
      ensures Valid() && this.input == input && pos == 0
    {
      this.input, this.script := input, script;
      pos, calls, short, status := 0, 0, false, NoError;
    }

    method Read(buf: array<Byte>, max: nat) returns (n: nat, err: Status)
      requires Valid() && max <= buf.Length
      modifies this, buf
      ensures Valid() && n <= max && pos == old(pos) + n
      ensures buf[..n] == input[old(pos)..pos]
      ensures calls == old(calls) + 1 && status == err && (short <==> n < max)
    {
      var d := if calls < |script| then script[calls] else Delivery(max, if pos == |input| then Eof else NoError);
      n, err := Min(d.size, Min(max, |input| - pos)), d.status;
      for i := 0 to n
        invariant buf[..i] == input[pos..pos + i]
        modifies buf
      {
        buf[i] := input[pos + i];
      }
      pos, calls, short, status := pos + n, calls + 1, n < max, err;
    }
  }

  class StripControlCharactersReader {
    var hasPrecedingBackslash: bool
    const wrapped: Wrapped

    constructor (wrapped: Wrapped)
      ensures this.wrapped == wrapped && !hasPrecedingBackslash
    {
      this.wrapped := wrapped;
      hasPrecedingBackslash := false;
    }

    /** Copies `bufN` bytes of `buf` to `p` from `start` on, skipping control characters. */
    method Copy(buf: array<Byte>, bufN: nat, p: array<Byte>, start: nat)
      returns (n: nat, ghost written: seq<Byte>)
      requires bufN <= buf.Length && start + bufN <= p.Length && buf != p
      modifies this, p
      ensures n == start + |written| <= start + bufN
      ensures p[..] == old(p[..])[..start] + written + old(p[..])[n..]
      ensures Strip(old(hasPrecedingBackslash), buf[..bufN]) == Stripped(written, hasPrecedingBackslash)
    {
      n, written := start, [];
      ghost var escaping := hasPrecedingBackslash;
      for i := 0 to bufN
        invariant start <= n <= start + i && n == start + |written|
        invariant forall k :: 0 <= k < start || n <= k < p.Length ==> p[k] == old(p[k])
        invariant forall k :: 0 <= k < |written| ==> p[start + k] == written[k]
        invariant Strip(escaping, buf[..i]) == Stripped(written, hasPrecedingBackslash)
      {
        var c := buf[i];
        var toWrite := c;
        StripSnoc(escaping, buf[..i], c);
        assert buf[..i + 1] == buf[..i] + [c];
        if c <= 0x1f {
          if hasPrecedingBackslash {
            toWrite := BACKSLASH;
          } else {
            continue;
          }
        }
        if c == BACKSLASH {
          hasPrecedingBackslash := !hasPrecedingBackslash;
        } else {
          hasPrecedingBackslash := false;
        }
        p[n] := toWrite;
        n, written := n + 1, written + [toWrite];
      }
    }

    /** One call of the wrapped reader for the rest of `p`, after `done` was written there for
        the input since `from`. */
    method ReadOnce(buf: array<Byte>, p: array<Byte>, start: nat,
                    ghost flag: bool, ghost from: nat, ghost was: seq<Byte>, ghost done: seq<Byte>)
      returns (n: nat, bufN: nat, err: Status, ghost done': seq<Byte>)
      requires wrapped.Valid() && from <= wrapped.pos
      requires start < p.Length == buf.Length == |was| && buf != p
      requires |done| == start && p[..] == done + was[start..]
      requires Strip(flag, wrapped.input[from..wrapped.pos]) == Stripped(done, hasPrecedingBackslash)
      modifies this, wrapped, buf, p
      ensures wrapped.Valid() && wrapped.pos == old(wrapped.pos) + bufN
      ensures wrapped.calls == old(wrapped.calls) + 1 && wrapped.status == err
      ensures wrapped.short <==> bufN < p.Length - start
      ensures |done'| == n <= start + bufN <= p.Length && p[..] == done' + was[n..]
      ensures Strip(flag, wrapped.input[from..wrapped.pos]) == Stripped(done', hasPrecedingBackslash)
    {
      bufN, err := wrapped.Read(buf, p.Length - start);
      ghost var written;
      n, written := Copy(buf, bufN, p, start);
      done' := done + written;
      WriteOn(was, done, written);
      StripOn(flag, wrapped.input, from, wrapped.pos - bufN, wrapped.pos);
    }

    /** Writes what stripping leaves of the bytes consumed to the front of `p`. If `p` is not
        filled the wrapped reader failed or fell short. */
    method Read(p: array<Byte>) returns (n: nat, err: Status)
      requires wrapped.Valid()
      modifies this, wrapped, p
      ensures wrapped.Valid() && wrapped.pos >= old(wrapped.pos)
      ensures n <= p.Length && p[n..] == old(p[..])[n..]
      ensures Strip(old(hasPrecedingBackslash), wrapped.input[old(wrapped.pos)..wrapped.pos])
           == Stripped(p[..n], hasPrecedingBackslash)
      ensures if p.Length == 0 then wrapped.calls == old(wrapped.calls) && err == NoError
              else wrapped.calls > old(wrapped.calls) && err == wrapped.status
      ensures n < p.Length ==> err != NoError || wrapped.short
    {
      ghost var flag, from, was, calls := hasPrecedingBackslash, wrapped.pos, p[..], wrapped.calls;
      ghost var done: seq<Byte> := [];
      n, err := 0, NoError;
      var buf := new Byte[p.Length];
      while n < p.Length
        invariant wrapped.Valid() && from <= wrapped.pos && wrapped.calls >= calls
        invariant |done| == n <= p.Length && p[..] == done + was[n..]
        invariant Strip(flag, wrapped.input[from..wrapped.pos]) == Stripped(done, hasPrecedingBackslash)
        invariant if wrapped.calls == calls then n == 0 && err == NoError else p.Length > 0 && err == wrapped.status
        decreases |wrapped.input| - wrapped.pos
      {
        var remaining := p.Length - n;
        var bufN: nat;
        n, bufN, err, done := ReadOnce(buf, p, n, flag, from, was, done);
        if err != NoError || bufN < remaining {
          break;
        }
      }
      Parts(done, was[n..]);
    }
  }

  lemma Parts(a: seq<Byte>, b: seq<Byte>)
    ensures (a + b)[..|a|] == a && (a + b)[|a|..] == b
  {
  }

  lemma WriteOn(was: seq<Byte>, done: seq<Byte>, written: seq<Byte>)
    requires |done| + |written| <= |was|
    ensures var now := done + was[|done|..];
            now[..|done|] + written + now[|done| + |written|..]
              == done + written + was[|done| + |written|..]
  {
  }

  lemma StripOn(escaping: bool, s: seq<Byte>, i: nat, j: nat, k: nat)
    requires i <= j <= k <= |s|
    ensures var first := Strip(escaping, s[i..j]);
            var second := Strip(first.escaping, s[j..k]);
            Strip(escaping, s[i..k]) == Stripped(first.bytes + second.bytes, second.escaping)
  {
    StripConcat(escaping, s[i..j], s[j..k]);
    assert s[i..k] == s[i..j] + s[j..k];
  }

  // ---------------------------------------------------------------------------------
  // Any number of calls, with buffers of any sizes

  /** One call of Read: the input it consumed, its output, and the flag before and after. */
  datatype Call = Call(before: bool, consumed: seq<Byte>, output: seq<Byte>, after: bool)

  ghost predicate AreCalls(start: bool, calls: seq<Call>, end: bool) {
    if calls == [] then start == end
    else
      var last := calls[|calls| - 1];
      && AreCalls(start, calls[..|calls| - 1], last.before)
      && Strip(last.before, last.consumed) == Stripped(last.output, last.after)
      && last.after == end
  }

  function Input(calls: seq<Call>): seq<Byte> {
    if calls == [] then [] else Input(calls[..|calls| - 1]) + calls[|calls| - 1].consumed
  }

  function Output(calls: seq<Call>): seq<Byte> {
    if calls == [] then [] else Output(calls[..|calls| - 1]) + calls[|calls| - 1].output
  }

  /** However the input is cut into calls, their output together is the stripped input. */
  lemma {:induction false} CallsStripWhole(start: bool, calls: seq<Call>, end: bool)
    requires AreCalls(start, calls, end)
    ensures Strip(start, Input(calls)) == Stripped(Output(calls), end)
  {
    if calls != [] {
      var init, last := calls[..|calls| - 1], calls[|calls| - 1];
      CallsStripWhole(start, init, last.before);
      StripConcat(start, Input(init), last.consumed);
    }
  }

  /** Two readers of the same input give the same output, whatever the chunks and buffers. */
  lemma ChunksDoNotMatter(a: seq<Call>, b: seq<Call>, endA: bool, endB: bool)
    requires AreCalls(false, a, endA) && AreCalls(false, b, endB) && Input(a) == Input(b)
    ensures Output(a) == Output(b) && endA == endB
  {
    CallsStripWhole(false, a, endA);
    CallsStripWhole(false, b, endB);
  }
}
