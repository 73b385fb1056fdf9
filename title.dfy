/** Article title normalisation: `value.replace(/\s+/g, '_')` in getWikiPage. */
module Title {

  /** The code points ECMAScript's `\s` matches: WhiteSpace (TAB, VT, FF, ZWNBSP and the
      Unicode Space_Separator category) and LineTerminator (LF, CR, LS, PS). The proofs
      below rely only on the underscore not being one of them. */
  predicate IsWhitespace(c: char) {
    c == '\t' || c == '\n' || c == '\U{000B}' || c == '\U{000C}' || c == '\r' || c == ' '
    || c == '\U{00A0}' || c == '\U{1680}' || ('\U{2000}' <= c <= '\U{200A}')
    || c == '\U{2028}' || c == '\U{2029}' || c == '\U{202F}' || c == '\U{205F}'
    || c == '\U{3000}' || c == '\U{FEFF}'
  }

  predicate NoWhitespace(s: string) {
    forall i :: 0 <= i < |s| ==> !IsWhitespace(s[i])
  }

  predicate AllWhitespace(s: string) {
    forall i :: 0 <= i < |s| ==> IsWhitespace(s[i])
  }

  /** What is left of `s` once its leading whitespace run is consumed. */
  function SkipWhitespace(s: string): (r: string)
    ensures |r| <= |s|
    ensures r == [] || !IsWhitespace(r[0])
  {
    if s != [] && IsWhitespace(s[0]) then SkipWhitespace(s[1..]) else s
  }

  /** The global, greedy replacement: every maximal run of whitespace becomes one `_`.
      The result never contains whitespace and is never longer than the input. */
  function Normalize(s: string): (r: string)
    ensures |r| <= |s|
    ensures NoWhitespace(r)
    decreases |s|
  {
    if s == [] then []
    else if IsWhitespace(s[0]) then "_" + Normalize(SkipWhitespace(s[1..]))
    else [s[0]] + Normalize(s[1..])
  }

  /** A title without whitespace is left as it is. */
  lemma {:induction false} NormalizeWord(w: string)
    requires NoWhitespace(w)
    ensures Normalize(w) == w
    decreases |w|
  {
    if w != [] {
      NormalizeWord(w[1..]);
    }
  }

  lemma {:induction false} SkipRun(g: string, t: string)
    requires AllWhitespace(g)
    requires t == [] || !IsWhitespace(t[0])
    ensures SkipWhitespace(g + t) == t
    decreases |g|
  {
    if g != [] {
      assert (g + t)[1..] == g[1..] + t;
      SkipRun(g[1..], t);
    } else {
      assert g + t == t;
    }
  }

  /** A word, a maximal whitespace run and the rest: the word is kept, the whole run
      becomes exactly one `_`, and the rest is normalised on its own. */
  lemma {:induction false} NormalizeRun(w: string, g: string, t: string)
    requires NoWhitespace(w)
    requires |g| > 0 && AllWhitespace(g)
    requires t == [] || !IsWhitespace(t[0])
    ensures Normalize(w + g + t) == w + "_" + Normalize(t)
    decreases |w|
  {
    if w == [] {
      assert w + g + t == g + t;
      assert (g + t)[1..] == g[1..] + t;
      SkipRun(g[1..], t);
    } else {
      assert (w + g + t)[1..] == w[1..] + g + t;
      NormalizeRun(w[1..], g, t);
      assert w + "_" + Normalize(t) == [w[0]] + (w[1..] + "_" + Normalize(t));
    }
  }

  /** Normalising an already normalised title changes nothing. */
  lemma NormalizeIdempotent(s: string)
    ensures Normalize(Normalize(s)) == Normalize(s)
  {
    NormalizeWord(Normalize(s));
  }

  /** `s` with every whitespace character deleted. */
  function DropWhitespace(s: string): (r: string)
    ensures NoWhitespace(r)
  {
    if s == [] then []
    else if IsWhitespace(s[0]) then DropWhitespace(s[1..])
    else [s[0]] + DropWhitespace(s[1..])
  }

  /** `s` with every underscore deleted. */
  function DropUnderscores(s: string): string {
    if s == [] then []
    else if s[0] == '_' then DropUnderscores(s[1..])
    else [s[0]] + DropUnderscores(s[1..])
  }

  lemma {:induction false} DropWhitespaceRun(s: string)
    ensures DropWhitespace(s) == DropWhitespace(SkipWhitespace(s))
    decreases |s|
  {
    if s != [] && IsWhitespace(s[0]) {
      DropWhitespaceRun(s[1..]);
    }
  }

  /** Apart from the underscores, the normalised title holds exactly the input's
      non-whitespace characters, in their order. */
  lemma {:induction false} NormalizeKeepsText(s: string)
    ensures DropUnderscores(Normalize(s)) == DropUnderscores(DropWhitespace(s))
    decreases |s|
  {
    if s == [] {
    } else if IsWhitespace(s[0]) {
      var rest := SkipWhitespace(s[1..]);
      NormalizeKeepsText(rest);
      DropWhitespaceRun(s[1..]);
      assert ("_" + Normalize(rest))[1..] == Normalize(rest);
    } else {
      NormalizeKeepsText(s[1..]);
      assert ([s[0]] + Normalize(s[1..]))[1..] == Normalize(s[1..]);
      assert ([s[0]] + DropWhitespace(s[1..]))[1..] == DropWhitespace(s[1..]);
    }
  }
}
