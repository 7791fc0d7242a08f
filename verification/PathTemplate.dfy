/** Splitting a path template at its slashes and joining it again. */
module PathTemplates {

  const SLASH := '/'

  function Split(s: string): (segments: seq<string>)
    ensures segments != []
  {
    if s == "" then [""]
    else
      var rest := Split(s[1..]);
      if s[0] == SLASH then [""] + rest else [[s[0]] + rest[0]] + rest[1..]
  }

  function Join(segments: seq<string>): string {
    if segments == [] then ""
    else if |segments| == 1 then segments[0]
    else segments[0] + [SLASH] + Join(segments[1..])
  }

  ghost predicate NoSlash(segments: seq<string>) {
    forall i :: 0 <= i < |segments| ==> SLASH !in segments[i]
  }

  lemma JoinCons(first: string, rest: seq<string>)
    requires rest != []
    ensures Join([first] + rest) == first + [SLASH] + Join(rest)
  {
    assert ([first] + rest)[1..] == rest;
  }

  /** A character that starts the first segment starts the path. */
  lemma JoinChar(c: char, segments: seq<string>)
    requires segments != []
    ensures Join([[c] + segments[0]] + segments[1..]) == [c] + Join(segments)
  {
    var longer := [[c] + segments[0]] + segments[1..];
    assert longer[1..] == segments[1..];
    if |segments| > 1 {
      assert [c] + segments[0] + [SLASH] + Join(segments[1..]) == [c] + (segments[0] + [SLASH] + Join(segments[1..]));
    }
  }

  lemma {:induction false} JoinSplit(s: string)
    ensures NoSlash(Split(s)) && Join(Split(s)) == s
  {
    if s != "" {
      var rest := Split(s[1..]);
      JoinSplit(s[1..]);
      assert s == [s[0]] + s[1..];
      if s[0] == SLASH {
        JoinCons("", rest);
        assert "" + [SLASH] + s[1..] == s;
      } else {
        JoinChar(s[0], rest);
      }
    }
  }

  /** The first segment of a path that starts with a segment and a slash. */
  lemma {:induction false} SplitFirst(first: string, rest: string)
    requires SLASH !in first
    ensures Split(first + [SLASH] + rest) == [first] + Split(rest)
  {
    var s := first + [SLASH] + rest;
    if first == "" {
      assert s[1..] == rest;
    } else {
      SplitFirst(first[1..], rest);
      assert s[1..] == first[1..] + [SLASH] + rest;
      assert s[0] == first[0] && s[0] in first;
      assert Split(s[1..])[1..] == Split(rest);
      assert first == [first[0]] + first[1..];
    }
  }

  lemma {:induction false} SplitOne(s: string)
    requires SLASH !in s
    ensures Split(s) == [s]
  {
    if s != "" {
      assert s[0] in s;
      SplitOne(s[1..]);
      assert s == [s[0]] + s[1..];
    }
  }

  lemma {:induction false} SplitJoin(segments: seq<string>)
    requires segments != [] && NoSlash(segments)
    ensures Split(Join(segments)) == segments
  {
    if |segments| == 1 {
      SplitOne(segments[0]);
    } else {
      SplitJoin(segments[1..]);
      SplitFirst(segments[0], Join(segments[1..]));
    }
  }
}
