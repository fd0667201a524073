/** String helpers with the semantics the store relies on: Python's
    argument-less `str.split()` (split on runs of whitespace, drop empty
    pieces), `' '.join(...)`, and the database's case-insensitive substring
    test used by `icontains` lookups. */
module Text {

  /** The characters Python's `str.isspace()` accepts, i.e. the separators of
      an argument-less `str.split()`. */
  predicate IsSpace(c: char) {
    c == ' ' || ('\t' <= c <= '\r') || ('\U{1C}' <= c <= '\U{1F}')
    || c == '\U{85}' || c == '\U{A0}' || c == '\U{1680}' || ('\U{2000}' <= c <= '\U{200A}')
    || c == '\U{2028}' || c == '\U{2029}' || c == '\U{202F}' || c == '\U{205F}' || c == '\U{3000}'
  }

  predicate NoSpace(s: string) {
    forall i :: 0 <= i < |s| ==> !IsSpace(s[i])
  }

  /** A token as `str.split()` yields it: non-empty, free of whitespace. */
  predicate IsToken(t: string) {
    t != [] && NoSpace(t)
  }

  /** The longest whitespace-free prefix of `s`. */
  function Word(s: string): (w: string)
    ensures |w| <= |s| && w == s[..|w|]
    ensures NoSpace(w)
    ensures s != [] && !IsSpace(s[0]) ==> |w| >= 1
    ensures |w| < |s| ==> IsSpace(s[|w|])
  {
    if s == [] || IsSpace(s[0]) then [] else [s[0]] + Word(s[1..])
  }

  /** `s.split()` */
  function Tokens(s: string): seq<string>
    decreases |s|
  {
    if s == [] then []
    else if IsSpace(s[0]) then Tokens(s[1..])
    else var w := Word(s); [w] + Tokens(s[|w|..])
  }

  /** `sep.join(ts)` */
  function Join(ts: seq<string>, sep: string): string {
    if ts == [] then "" else if |ts| == 1 then ts[0] else ts[0] + sep + Join(ts[1..], sep)
  }

  function Concat(ts: seq<string>): string {
    if ts == [] then "" else ts[0] + Concat(ts[1..])
  }

  /** The characters of `s` that are not whitespace, in order. */
  function NonSpace(s: string): string {
    if s == [] then "" else (if IsSpace(s[0]) then "" else [s[0]]) + NonSpace(s[1..])
  }

  /** Every piece `str.split()` returns is a token. */
  lemma {:induction false} TokensAreTokens(s: string)
    ensures forall t <- Tokens(s) :: IsToken(t)
    decreases |s|
  {
    if s == [] {
    } else if IsSpace(s[0]) {
      TokensAreTokens(s[1..]);
    } else {
      var w := Word(s);
      TokensAreTokens(s[|w|..]);
    }
  }

  lemma {:induction false} NonSpaceAppend(a: string, b: string)
    ensures NonSpace(a + b) == NonSpace(a) + NonSpace(b)
  {
    if a == [] {
      assert a + b == b;
    } else {
      assert (a + b)[1..] == a[1..] + b;
      NonSpaceAppend(a[1..], b);
    }
  }

  lemma {:induction false} NonSpaceOfNoSpace(w: string)
    requires NoSpace(w)
    ensures NonSpace(w) == w
  {
    if w != [] {
      NonSpaceOfNoSpace(w[1..]);
    }
  }

  /** Splitting loses only whitespace: the tokens, glued together, are the
      non-whitespace characters of the input, in order. */
  lemma {:induction false} TokensKeepText(s: string)
    ensures Concat(Tokens(s)) == NonSpace(s)
    decreases |s|
  {
    if s == [] {
    } else if IsSpace(s[0]) {
      TokensKeepText(s[1..]);
    } else {
      var w := Word(s);
      TokensKeepText(s[|w|..]);
      assert s == w + s[|w|..];
      NonSpaceAppend(w, s[|w|..]);
      NonSpaceOfNoSpace(w);
    }
  }

  lemma {:induction false} WordOfToken(t: string, rest: string)
    requires NoSpace(t)
    requires rest == [] || IsSpace(rest[0])
    ensures Word(t + rest) == t
  {
    if t == [] {
      assert t + rest == rest;
    } else {
      assert (t + rest)[1..] == t[1..] + rest;
      WordOfToken(t[1..], rest);
    }
  }

  lemma {:induction false} TokensOfToken(t: string, rest: string)
    requires IsToken(t)
    requires rest == [] || IsSpace(rest[0])
    ensures Tokens(t + rest) == [t] + Tokens(rest)
  {
    WordOfToken(t, rest);
    assert (t + rest)[|t|..] == rest;
  }

  /** Joining tokens with single spaces and splitting again gives the tokens back. */
  lemma {:induction false} SplitJoin(ts: seq<string>)
    requires forall t <- ts :: IsToken(t)
    ensures Tokens(Join(ts, " ")) == ts
  {
    if ts == [] {
    } else if |ts| == 1 {
      TokensOfToken(ts[0], "");
      assert ts[0] + "" == ts[0];
    } else {
      var rest := Join(ts[1..], " ");
      assert ts[0] + " " + rest == ts[0] + (" " + rest);
      TokensOfToken(ts[0], " " + rest);
      assert (" " + rest)[1..] == rest;
      SplitJoin(ts[1..]);
      assert ts == [ts[0]] + ts[1..];
    }
  }

  function LowerChar(c: char): char {
    if 'A' <= c <= 'Z' then (c as int + 32) as char else c
  }

  function Lower(s: string): (r: string)
    ensures |r| == |s|
    ensures forall i :: 0 <= i < |s| ==> r[i] == LowerChar(s[i])
  {
    if s == [] then "" else [LowerChar(s[0])] + Lower(s[1..])
  }

  /** `needle` occurs in `hay` at some position. */
  predicate IsInfix(needle: string, hay: string)
    decreases |hay|
  {
    needle <= hay || (hay != [] && IsInfix(needle, hay[1..]))
  }

  /** The `icontains` lookup: a case-insensitive substring test. */
  predicate ContainsIgnoringCase(hay: string, needle: string) {
    IsInfix(Lower(needle), Lower(hay))
  }
}
