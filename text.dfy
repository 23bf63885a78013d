/** The few Python `str` operations the core relies on, over `seq<char>`. */
module Text {
  import opened Outcomes

  /** `str.isspace()` for one character: the characters Python's `str.strip()`
      removes when it is called without arguments. */
  predicate IsSpace(c: char)
  {
    var n := c as int;
    (9 <= n <= 13) || (28 <= n <= 32) || n == 0x85 || n == 0xA0 || n == 0x1680
    || (0x2000 <= n <= 0x200A) || n == 0x2028 || n == 0x2029 || n == 0x202F
    || n == 0x205F || n == 0x3000
  }

  predicate IsSlash(c: char)
  {
    c == '/'
  }

  /** The length of the longest prefix of `s` whose characters all satisfy `p`. */
  function Span(s: string, p: char -> bool): (n: nat)
    ensures n <= |s|
    ensures forall i | 0 <= i < n :: p(s[i])
    ensures n < |s| ==> !p(s[n])
    decreases |s|
  {
    if s == [] || !p(s[0]) then 0 else 1 + Span(s[1..], p)
  }

  /** `Span` of a concatenation whose first part satisfies `p` throughout and
      whose second part does not start with a character satisfying `p`. */
  lemma {:induction false} SpanOfConcat(a: string, b: string, p: char -> bool)
    requires forall i | 0 <= i < |a| :: p(a[i])
    requires b == [] || !p(b[0])
    ensures Span(a + b, p) == |a|
    decreases |a|
  {
    if a != [] {
      assert (a + b)[1..] == a[1..] + b;
      SpanOfConcat(a[1..], b, p);
    } else {
      assert a + b == b;
    }
  }

  /** `s.lstrip(chars)`, with the set of characters given as a predicate. */
  function TrimLeft(s: string, p: char -> bool): (r: string)
    ensures |r| <= |s| && r == s[|s| - |r|..]
    ensures forall i | 0 <= i < |s| - |r| :: p(s[i])
    ensures r == [] || !p(r[0])
  {
    s[Span(s, p)..]
  }

  /** `s.rstrip(chars)`, with the set of characters given as a predicate. */
  function TrimRight(s: string, p: char -> bool): (r: string)
    ensures |r| <= |s| && r == s[..|r|]
    ensures forall i | |r| <= i < |s| :: p(s[i])
    ensures r == [] || !p(r[|r| - 1])
    decreases |s|
  {
    if s != [] && p(s[|s| - 1]) then TrimRight(s[..|s| - 1], p) else s
  }

  /** A string whose last character is not stripped is its own `rstrip`. */
  lemma TrimRightUnchanged(s: string, p: char -> bool)
    requires s == [] || !p(s[|s| - 1])
    ensures TrimRight(s, p) == s
  {
  }

  /** `s.strip()`: whitespace removed from both ends. */
  function Strip(s: string): string
  {
    TrimRight(TrimLeft(s, IsSpace), IsSpace)
  }

  /** A string that neither starts nor ends with white space is its own `strip()`. */
  lemma StripUnchanged(s: string)
    requires s == [] || (!IsSpace(s[0]) && !IsSpace(s[|s| - 1]))
    ensures Strip(s) == s
  {
    assert Span(s, IsSpace) == 0;
    assert TrimLeft(s, IsSpace) == s[0..] == s;
    TrimRightUnchanged(s, IsSpace);
  }

  predicate OccursAt(s: string, pat: string, i: nat)
  {
    i + |pat| <= |s| && s[i..i + |pat|] == pat
  }

  /** `s.find(pat, from)` as an option: the first index at or after `from` where
      `pat` occurs. The empty pattern occurs at `from` itself. */
  function FindFrom(s: string, pat: string, from: nat): (r: Option<nat>)
    requires from <= |s|
    ensures r.Some? ==> from <= r.value && OccursAt(s, pat, r.value)
    ensures r.Some? ==> forall j | from <= j < r.value :: !OccursAt(s, pat, j)
    ensures r.None? ==> forall j | from <= j <= |s| :: !OccursAt(s, pat, j)
    decreases |s| - from
  {
    if from + |pat| > |s| then None
    else if s[from..from + |pat|] == pat then Some(from)
    else if from == |s| then None
    else FindFrom(s, pat, from + 1)
  }

  /** `s.replace(pat, repl, 1)`: the first occurrence of `pat` replaced by `repl`;
      with no occurrence, `s` itself. */
  function ReplaceFirst(s: string, pat: string, repl: string): (r: string)
    ensures (forall j | 0 <= j <= |s| :: !OccursAt(s, pat, j)) ==> r == s
    ensures forall i: nat | OccursAt(s, pat, i) && (forall j | 0 <= j < i :: !OccursAt(s, pat, j)) ::
              r == s[..i] + repl + s[i + |pat|..]
  {
    match FindFrom(s, pat, 0)
    case None => s
    case Some(i) => s[..i] + repl + s[i + |pat|..]
  }

  /** The first occurrence, at `i`, is the one replaced. */
  lemma ReplaceFirstAt(s: string, pat: string, repl: string, i: nat)
    requires OccursAt(s, pat, i)
    requires forall j | 0 <= j < i :: !OccursAt(s, pat, j)
    ensures ReplaceFirst(s, pat, repl) == s[..i] + repl + s[i + |pat|..]
  {
  }

  /** When `s` starts with `pat`, only that prefix is replaced. */
  lemma ReplaceFirstOfPrefix(pat: string, repl: string, rest: string)
    ensures ReplaceFirst(pat + rest, pat, repl) == repl + rest
  {
    var s := pat + rest;
    assert OccursAt(s, pat, 0) by {
      assert s[0..|pat|] == pat;
    }
    assert s[..0] + repl + s[|pat|..] == repl + rest by {
      assert s[|pat|..] == rest;
    }
  }

  /** `sep.join(parts)`. */
  function Join(sep: string, parts: seq<string>): string
    decreases |parts|
  {
    if |parts| == 0 then ""
    else if |parts| == 1 then parts[0]
    else parts[0] + sep + Join(sep, parts[1..])
  }
}
