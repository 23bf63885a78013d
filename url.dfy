/** The part of Python's `urllib.parse` that the core depends on: the scheme
    and network location of an absolute URL (`urlparse(url).scheme`,
    `urlparse(url).netloc`), and the relative paths for which `urljoin` is a
    plain concatenation. */
module Url {
  import opened Text

  predicate IsAsciiAlpha(c: char)
  {
    ('a' <= c <= 'z') || ('A' <= c <= 'Z')
  }

  /** The characters urllib accepts in a scheme: letters, digits, `+`, `-` and `.`. */
  predicate IsSchemeChar(c: char)
  {
    IsAsciiAlpha(c) || ('0' <= c <= '9') || c == '+' || c == '-' || c == '.'
  }

  predicate IsNotColon(c: char)
  {
    c != ':'
  }

  /** Characters that may appear in a network location: anything but the
      delimiters `/`, `?` and `#` that end it. */
  predicate IsNetlocChar(c: char)
  {
    c != '/' && c != '?' && c != '#'
  }

  function LowerChar(c: char): char
  {
    if 'A' <= c <= 'Z' then (c as int + 32) as char else c
  }

  /** `s.lower()` restricted to ASCII, which is all a scheme can hold. */
  function AsciiLower(s: string): (r: string)
    ensures |r| == |s|
    ensures forall i | 0 <= i < |s| :: r[i] == LowerChar(s[i])
  {
    seq(|s|, i requires 0 <= i < |s| => LowerChar(s[i]))
  }

  /** Lower-casing leaves a string without capitals unchanged. */
  lemma AsciiLowerUnchanged(s: string)
    requires forall i | 0 <= i < |s| :: !('A' <= s[i] <= 'Z')
    ensures AsciiLower(s) == s
  {
  }

  /** The scheme step of `urlsplit`: when the text before the first `:` is a
      letter followed by scheme characters, it is the (lower-cased) scheme and
      the rest follows the `:`; otherwise there is no scheme. */
  function SplitScheme(url: string): (string, string)
  {
    var i := Span(url, IsNotColon);
    if 0 < i < |url| && IsAsciiAlpha(url[0]) && Span(url[..i], IsSchemeChar) == i
    then (AsciiLower(url[..i]), url[i + 1..])
    else ("", url)
  }

  /** `urlparse(url).scheme`. */
  function Scheme(url: string): string
  {
    SplitScheme(url).0
  }

  /** `urlparse(url).netloc`: after the scheme, the text between a leading `//`
      and the first `/`, `?` or `#`; empty when there is no leading `//`. */
  function Netloc(url: string): string
  {
    var rest := SplitScheme(url).1;
    if |rest| >= 2 && rest[..2] == "//" then
      var authority := rest[2..];
      authority[..Span(authority, IsNetlocChar)]
    else ""
  }

  /** For a URL written `scheme://host` followed by a path, query or fragment,
      urlparse yields the lower-cased scheme and `host` as the netloc. */
  lemma AuthorityUrl(scheme: string, host: string, tail: string)
    requires |scheme| > 0 && IsAsciiAlpha(scheme[0])
    requires forall i | 0 <= i < |scheme| :: IsSchemeChar(scheme[i])
    requires forall i | 0 <= i < |host| :: IsNetlocChar(host[i])
    requires tail == [] || !IsNetlocChar(tail[0])
    ensures Scheme(scheme + "://" + host + tail) == AsciiLower(scheme)
    ensures Netloc(scheme + "://" + host + tail) == host
  {
    var url := scheme + "://" + host + tail;
    var afterScheme := "//" + host + tail;
    assert url == scheme + ([':'] + afterScheme);
    SpanOfConcat(scheme, [':'] + afterScheme, IsNotColon);
    var i := |scheme|;
    assert url[..i] == scheme;
    assert url[i + 1..] == afterScheme;
    SpanOfConcat(scheme, [], IsSchemeChar);
    assert scheme + [] == scheme;
    assert SplitScheme(url) == (AsciiLower(scheme), afterScheme);
    assert afterScheme[..2] == "//";
    assert afterScheme[2..] == host + tail;
    SpanOfConcat(host, tail, IsNetlocChar);
    assert (host + tail)[..|host|] == host;
  }

  predicate IsNotSlash(c: char)
  {
    c != '/'
  }

  /** Characters for which `urljoin` is plain concatenation: no scheme or port
      separator, no query, fragment or parameter delimiter, and nothing urllib
      strips (space and control characters). */
  predicate IsPlainPathChar(c: char)
  {
    c > ' ' && c != ':' && c != '?' && c != '#' && c != ';'
  }

  /** A path made of segments that `urljoin` leaves alone: none is `.` or `..`,
      and only the last may be empty (so there is no leading or doubled `/`). */
  predicate PlainSegments(rel: string)
    decreases |rel|
  {
    var k := Span(rel, IsNotSlash);
    var segment := rel[..k];
    segment != "." && segment != ".."
    && (k == |rel| || (segment != "" && PlainSegments(rel[k + 1..])))
  }

  /** A plain segment followed by a slash and more plain segments. */
  lemma PlainSegmentsCons(segment: string, rest: string)
    requires segment != "" && segment != "." && segment != ".."
    requires forall i | 0 <= i < |segment| :: IsNotSlash(segment[i])
    requires PlainSegments(rest)
    ensures PlainSegments(segment + "/" + rest)
  {
    var rel := segment + "/" + rest;
    assert rel == segment + ("/" + rest);
    SpanOfConcat(segment, "/" + rest, IsNotSlash);
    assert rel[..|segment|] == segment;
    assert rel[|segment| + 1..] == rest;
  }

  /** A last segment: no slash in it, and neither `.` nor `..`. */
  lemma PlainSegmentsLast(segment: string)
    requires segment != "." && segment != ".."
    requires forall i | 0 <= i < |segment| :: IsNotSlash(segment[i])
    ensures PlainSegments(segment)
  {
    SpanOfConcat(segment, [], IsNotSlash);
    assert segment + [] == segment;
  }

  /** A relative reference that `urljoin(base, rel)` appends to a base ending in
      `/` without resolving or normalising anything. */
  predicate PlainRelative(rel: string)
  {
    (forall i | 0 <= i < |rel| :: IsPlainPathChar(rel[i])) && PlainSegments(rel)
  }

  /** One non-empty path segment that `urljoin` copies as it is. */
  predicate PlainSegment(segment: string)
  {
    segment != "" && segment != "." && segment != ".."
    && forall i | 0 <= i < |segment| :: IsPlainPathChar(segment[i]) && IsNotSlash(segment[i])
  }

  /** Plain segments joined by `/` form a plain relative path. */
  lemma {:induction false} JoinedSegmentsArePlain(segments: seq<string>)
    requires |segments| > 0
    requires forall k | 0 <= k < |segments| :: PlainSegment(segments[k])
    ensures PlainRelative(Join("/", segments))
    decreases |segments|
  {
    if |segments| == 1 {
      PlainSegmentsLast(segments[0]);
    } else {
      var rest := Join("/", segments[1..]);
      JoinedSegmentsArePlain(segments[1..]);
      PlainSegmentsCons(segments[0], rest);
      var rel := segments[0] + "/" + rest;
      assert rel == Join("/", segments);
      forall i | 0 <= i < |rel| ensures IsPlainPathChar(rel[i]) {
        if i > |segments[0]| {
          assert rel[i] == rest[i - |segments[0]| - 1];
        }
      }
    }
  }
}
