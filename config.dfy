/** The `cors_origins` setting of backend/app/core/config.py and its
    validator `parse_cors_origins`. */
module Config {
  import opened Common

  const DefaultCorsOrigins := "http://localhost:3000,http://localhost:3001"

  const FallbackOrigins: seq<string> := ["http://localhost:3000", "http://localhost:3001"]

  /** The raw value the validator receives. */
  datatype CorsValue = ListValue(items: seq<string>) | StrValue(text: string) | OtherValue

  /** Python's `str.isspace` on one character. */
  predicate IsSpace(c: char)
  {
    || ('\U{9}' <= c <= '\U{D}') || ('\U{1C}' <= c <= ' ') || c == '\U{85}' || c == '\U{A0}'
    || c == '\U{1680}' || ('\U{2000}' <= c <= '\U{200A}') || c == '\U{2028}' || c == '\U{2029}'
    || c == '\U{202F}' || c == '\U{205F}' || c == '\U{3000}'
  }

  // ==================== split ====================

  /** `sep.join(pieces)`. */
  function Join(pieces: seq<string>, sep: char): string
    requires |pieces| >= 1
  {
    if |pieces| == 1 then pieces[0] else pieces[0] + [sep] + Join(pieces[1..], sep)
  }

  /** `s.split(sep)`: the pieces between separators, empty ones included. */
  function Split(s: string, sep: char): (pieces: seq<string>)
    ensures |pieces| >= 1
    ensures forall k :: 0 <= k < |pieces| ==> sep !in pieces[k]
    ensures Join(pieces, sep) == s
    decreases |s|
  {
    var i := FirstMatch(s, (c: char) => c == sep);
    if i == |s| then
      assert forall c :: c in s ==> c != sep;
      [s]
    else
      var rest := Split(s[i + 1..], sep);
      assert forall c :: c in s[..i] ==> c != sep;
      assert s == s[..i] + [sep] + s[i + 1..];
      assert ([s[..i]] + rest)[1..] == rest;
      [s[..i]] + rest
  }

  /** Splitting a join of separator-free pieces gives the pieces back. */
  lemma {:induction false} SplitJoin(pieces: seq<string>, sep: char)
    requires |pieces| >= 1
    requires forall k :: 0 <= k < |pieces| ==> sep !in pieces[k]
    ensures Split(Join(pieces, sep), sep) == pieces
    decreases |pieces|
  {
    var s := Join(pieces, sep);
    var i := FirstMatch(s, (c: char) => c == sep);
    if |pieces| > 1 {
      var head := pieces[0];
      var tail := Join(pieces[1..], sep);
      assert s == head + [sep] + tail;
      assert s[|head|] == sep;
      assert i == |head|;
      assert s[..i] == head && s[i + 1..] == tail;
      SplitJoin(pieces[1..], sep);
      assert pieces == [head] + pieces[1..];
    }
  }

  // ==================== strip ====================

  /** The number of leading whitespace characters. */
  function Leading(s: string): (n: nat)
    ensures n <= |s|
    ensures forall k :: 0 <= k < n ==> IsSpace(s[k])
    ensures n < |s| ==> !IsSpace(s[n])
  {
    FirstMatch(s, (c: char) => !IsSpace(c))
  }

  /** The number of trailing whitespace characters. */
  function Trailing(s: string): (n: nat)
    ensures n <= |s|
    ensures forall k :: |s| - n <= k < |s| ==> IsSpace(s[k])
    ensures n < |s| ==> !IsSpace(s[|s| - 1 - n])
  {
    if |s| == 0 || !IsSpace(s[|s| - 1]) then 0
    else 1 + Trailing(s[..|s| - 1])
  }

  /** `s.strip()`. */
  function Strip(s: string): (r: string)
    ensures r == [] || (!IsSpace(r[0]) && !IsSpace(r[|r| - 1]))
    ensures forall c :: c in r ==> c in s
    ensures r == [] <==> forall k :: 0 <= k < |s| ==> IsSpace(s[k])
    ensures |s| > 0 && !IsSpace(s[0]) && !IsSpace(s[|s| - 1]) ==> r == s
  {
    var i := Leading(s);
    var t := s[i..];
    var r := t[..|t| - Trailing(t)];
    assert forall c :: c in r ==> c in t;
    r
  }

  /** `strip` removes only surrounding whitespace: its result is a slice of
      the text with nothing but whitespace on either side of it.  With the
      non-whitespace ends of the result this fixes it completely. */
  lemma StripIsWindow(s: string)
    ensures exists i, j :: 0 <= i <= j <= |s| && Strip(s) == s[i..j]
                           && (forall k :: 0 <= k < i ==> IsSpace(s[k]))
                           && (forall k :: j <= k < |s| ==> IsSpace(s[k]))
  {
    var i := Leading(s);
    var j := |s| - Trailing(s[i..]);
    TrailingOfSuffix(s, i);
    assert Strip(s) == s[i..][..|s[i..]| - Trailing(s[i..])] == s[i..j];
  }

  /** The trailing whitespace of a suffix is trailing whitespace of the
      whole text. */
  lemma TrailingOfSuffix(s: string, i: nat)
    requires i <= |s|
    ensures var j := |s| - Trailing(s[i..]);
            && i <= j
            && (forall k :: j <= k < |s| ==> IsSpace(s[k]))
            && (j > i ==> !IsSpace(s[j - 1]))
  {
    var t := s[i..];
    forall k | |s| - Trailing(t) <= k < |s| ensures IsSpace(s[k]) {
      assert s[k] == t[k - i];
    }
  }

  lemma StripIdempotent(s: string)
    ensures Strip(Strip(s)) == Strip(s)
  {
  }

  // ==================== parse_cors_origins ====================

  /** An origin as the parser hands it on: non-empty, no surrounding
      whitespace. */
  predicate Trimmed(o: string)
  {
    o != [] && !IsSpace(o[0]) && !IsSpace(o[|o| - 1])
  }

  /** `[p.strip() for p in pieces if p.strip()]`. */
  function StripAll(pieces: seq<string>): (r: seq<string>)
    ensures |r| <= |pieces|
    ensures forall k :: 0 <= k < |r| ==> Trimmed(r[k])
    ensures (forall k :: 0 <= k < |pieces| ==> ',' !in pieces[k]) ==> forall k :: 0 <= k < |r| ==> ',' !in r[k]
  {
    if |pieces| == 0 then []
    else
      var t := Strip(pieces[0]);
      var rest := StripAll(pieces[1..]);
      assert forall k :: 0 <= k < |pieces| - 1 ==> pieces[1..][k] == pieces[k + 1];
      if t != [] then [t] + rest else rest
  }

  /** Stripping a list piece by piece: one piece gives its stripped text,
      or nothing when that is empty. */
  lemma StripAllSingle(p: string)
    ensures StripAll([p]) == if Strip(p) == [] then [] else [Strip(p)]
  {
    assert [p][1..] == [];
  }

  /** Each piece is stripped on its own, in order: the origins of two runs
      of pieces are those of the first followed by those of the second. */
  lemma {:induction false} StripAllAppend(a: seq<string>, b: seq<string>)
    ensures StripAll(a + b) == StripAll(a) + StripAll(b)
    decreases |a|
  {
    if |a| == 0 {
      assert a + b == b;
    } else {
      assert (a + b)[0] == a[0];
      assert (a + b)[1..] == a[1..] + b;
      StripAllAppend(a[1..], b);
    }
  }

  /** `parse_cors_origins`. */
  function ParseCorsOrigins(v: CorsValue): (origins: seq<string>)
    ensures v.ListValue? ==> origins == v.items
    ensures v.OtherValue? ==> origins == FallbackOrigins
    ensures v.StrValue? ==> forall k :: 0 <= k < |origins| ==> Trimmed(origins[k]) && ',' !in origins[k]
    ensures v.StrValue? ==> |origins| <= |Split(v.text, ',')|
  {
    match v
    case ListValue(items) => items
    case StrValue(text) => StripAll(Split(text, ','))
    case OtherValue => FallbackOrigins
  }

  lemma {:induction false} StripAllOfTrimmed(pieces: seq<string>)
    requires forall k :: 0 <= k < |pieces| ==> Trimmed(pieces[k])
    ensures StripAll(pieces) == pieces
  {
    if |pieces| > 0 {
      StripAllOfTrimmed(pieces[1..]);
      assert pieces == [pieces[0]] + pieces[1..];
    }
  }

  /** A string value is parsed piece by piece: for the comma-free pieces of
      any string, its origins are those pieces stripped, the empty ones
      dropped, in order. */
  lemma ParseCorsOriginsOfPieces(pieces: seq<string>)
    requires |pieces| >= 1
    requires forall k :: 0 <= k < |pieces| ==> ',' !in pieces[k]
    ensures ParseCorsOrigins(StrValue(Join(pieces, ','))) == StripAll(pieces)
  {
    SplitJoin(pieces, ',');
  }

  lemma StripSpacedA()
    ensures Strip(" a ") == "a"
  {
    assert Leading(" a ") == 1;
    assert " a "[1..] == "a ";
    assert Trailing("a ") == 1 by { assert "a "[..1] == "a"; }
  }

  lemma StripSpacedB()
    ensures Strip("b ") == "b"
  {
    assert Leading("b ") == 0;
    assert "b "[0..] == "b ";
    assert Trailing("b ") == 1 by { assert "b "[..1] == "b"; }
  }

  lemma JoinSpacedPieces()
    ensures Join([" a ", " ", "b "], ',') == " a , ,b "
  {
    var pieces := [" a ", " ", "b "];
    assert pieces[1..] == [" ", "b "];
    assert pieces[1..][1..] == ["b "];
  }

  lemma StripBlank()
    ensures Strip(" ") == []
  {
  }

  lemma StripAllSpacedTail()
    ensures StripAll([" ", "b "]) == ["b"]
  {
    StripBlank();
    StripSpacedB();
    var q := [" ", "b "];
    assert q[1..] == ["b "];
    assert ["b "][1..] == [];
  }

  lemma StripAllSpacedPieces()
    ensures StripAll([" a ", " ", "b "]) == ["a", "b"]
  {
    StripSpacedA();
    StripAllSpacedTail();
    var p := [" a ", " ", "b "];
    assert p[1..] == [" ", "b "];
  }

  /** Spaces around the pieces are dropped and so are empty pieces:
      " a , ,b " gives "a" and "b". */
  lemma SpacedOriginsParse()
    ensures ParseCorsOrigins(StrValue(" a , ,b ")) == ["a", "b"]
  {
    JoinSpacedPieces();
    ParseCorsOriginsOfPieces([" a ", " ", "b "]);
    StripAllSpacedPieces();
  }

  /** Writing trimmed, comma-free origins as one comma-separated string and
      parsing it gives the origins back, in order. */
  lemma ParseJoinedOrigins(origins: seq<string>)
    requires |origins| >= 1
    requires forall k :: 0 <= k < |origins| ==> Trimmed(origins[k]) && ',' !in origins[k]
    ensures ParseCorsOrigins(StrValue(Join(origins, ','))) == origins
  {
    SplitJoin(origins, ',');
    StripAllOfTrimmed(origins);
  }

  /** The default setting is the two fallback origins joined by a comma. */
  lemma DefaultIsJoined()
    ensures Join(FallbackOrigins, ',') == DefaultCorsOrigins
  {
    assert FallbackOrigins[1..] == [FallbackOrigins[1]];
  }

  /** Each fallback origin is trimmed and has no comma. */
  lemma FallbackOriginsClean()
    ensures forall k :: 0 <= k < |FallbackOrigins| ==> Trimmed(FallbackOrigins[k]) && ',' !in FallbackOrigins[k]
  {
    var a := FallbackOrigins[0];
    var b := FallbackOrigins[1];
    assert a[0] == 'h' && a[|a| - 1] == '0';
    assert b[0] == 'h' && b[|b| - 1] == '1';
    assert ',' !in a && ',' !in b;
  }

  /** The default setting is the two local development origins. */
  lemma DefaultParsesToLocalOrigins()
    ensures ParseCorsOrigins(StrValue(DefaultCorsOrigins)) == FallbackOrigins
  {
    DefaultIsJoined();
    FallbackOriginsClean();
    ParseJoinedOrigins(FallbackOrigins);
  }
}
