/** `django_keycloak/response.py`: the 401 response and its
    `WWW-Authenticate` challenge. Scheme and attribute names must be tokens
    (RFC 7230 section 3.2.6, as used by the challenge grammar of RFC 7235
    section 2.1 and the Bearer challenge of RFC 6750 section 3); attribute
    values are written as quoted strings. */
module AuthResponse {
  import opened Outcomes
  import opened Text

  /** `tchar` of RFC 7230 section 3.2.6: the character class of `_TOKEN_RE`,
      which is every visible ASCII character except the delimiters. */
  predicate IsTChar(c: char)
  {
    c == '!' || c == '#' || c == '$' || c == '%' || c == '&' || c == '\'' || c == '*'
    || c == '+' || c == '-' || c == '.' || c == '^' || c == '_' || c == '`' || c == '|'
    || c == '~' || ('0' <= c <= '9') || ('A' <= c <= 'Z') || ('a' <= c <= 'z')
  }

  /** The listed characters are exactly the visible ASCII characters that are
      not among the delimiters of RFC 7230 section 3.2.6. */
  lemma TCharIsVisibleNonDelimiter(c: char)
    ensures IsTChar(c) <==> '!' <= c <= '~' && c !in "\"(),/:;<=>?@[\\]{}"
  {
  }

  /** `_TOKEN_RE.fullmatch(s)`: one or more `tchar`, so no white space and
      none of the characters that delimit a parameter. */
  predicate IsToken(s: string): (b: bool)
    ensures b ==> s != [] && forall i | 0 <= i < |s| ::
      !IsSpace(s[i]) && s[i] !in {'\r', '\n', '"', ',', '=', '\\'}
  {
    |s| > 0 && forall i | 0 <= i < |s| :: IsTChar(s[i])
  }

  predicate NoCrLf(s: string)
  {
    forall i | 0 <= i < |s| :: s[i] != '\r' && s[i] != '\n'
  }

  /** `_sanitize_token`: the input with surrounding white space removed when
      that is a token, otherwise the fallback. */
  function SanitizeToken(value: string, fallback: Option<string>): (r: Option<string>)
    ensures IsToken(Strip(value)) ==> r == Some(Strip(value))
    ensures !IsToken(Strip(value)) ==> r == fallback
  {
    var token := Strip(value);
    if IsToken(token) then Some(token) else fallback
  }

  /** A sanitised result that is not the fallback is a non-empty run of `tchar`:
      no white space, CR, LF, `"`, `,`, `=` or `\` can be in it. */
  lemma SanitizedTokenIsSafe(value: string, fallback: Option<string>)
    requires fallback.None? || IsToken(fallback.value)
    ensures var r := SanitizeToken(value, fallback);
      r.Some? ==> && IsToken(r.value) && NoCrLf(r.value)
                  && forall i | 0 <= i < |r.value| ::
                       !IsSpace(r.value[i]) && r.value[i] !in {'"', ',', '=', '\\'}
  {
  }

  /** Sanitising a token returns it unchanged. */
  lemma SanitizeTokenIdempotent(token: string, fallback: Option<string>)
    requires IsToken(token)
    ensures SanitizeToken(token, fallback) == Some(token)
  {
    assert !IsSpace(token[0]) && !IsSpace(token[|token| - 1]);
    StripUnchanged(token);
  }

  // ---------------------------------------------------------------- values

  /** `s.replace(c, by)` for a one-character pattern. */
  function ReplaceChar(s: string, c: char, repl: string): string
    decreases |s|
  {
    if s == [] then [] else (if s[0] == c then repl else [s[0]]) + ReplaceChar(s[1..], c, repl)
  }

  /** The value escaping of `_format_auth_attributes`: backslashes doubled,
      then quotes escaped, then CR and LF deleted, in the source's order. */
  function EscapeValue(value: string): string
  {
    var escaped := ReplaceChar(ReplaceChar(value, '\\', "\\\\"), '"', "\\\"");
    ReplaceChar(ReplaceChar(escaped, '\r', ""), '\n', "")
  }

  /** What the four replacements do to one character. */
  function EscapeChar(c: char): string
  {
    if c == '\\' then "\\\\"
    else if c == '"' then "\\\""
    else if c == '\r' || c == '\n' then ""
    else [c]
  }

  /** The value with every CR and LF taken out. */
  function DeleteCrLf(value: string): string
    decreases |value|
  {
    if value == [] then []
    else (if value[0] == '\r' || value[0] == '\n' then [] else [value[0]]) + DeleteCrLf(value[1..])
  }

  lemma {:induction false} ReplaceCharConcat(a: string, b: string, c: char, repl: string)
    ensures ReplaceChar(a + b, c, repl) == ReplaceChar(a, c, repl) + ReplaceChar(b, c, repl)
    decreases |a|
  {
    if a == [] {
      assert a + b == b;
    } else {
      assert (a + b)[1..] == a[1..] + b;
      ReplaceCharConcat(a[1..], b, c, repl);
    }
  }

  lemma ReplaceCharSingle(x: char, c: char, repl: string)
    ensures ReplaceChar([x], c, repl) == if x == c then repl else [x]
  {
    assert [x][1..] == [];
  }

  /** Escaping works character by character. */
  lemma EscapeValueConcat(a: string, b: string)
    ensures EscapeValue(a + b) == EscapeValue(a) + EscapeValue(b)
  {
    ReplaceCharConcat(a, b, '\\', "\\\\");
    var a1, b1 := ReplaceChar(a, '\\', "\\\\"), ReplaceChar(b, '\\', "\\\\");
    ReplaceCharConcat(a1, b1, '"', "\\\"");
    var a2, b2 := ReplaceChar(a1, '"', "\\\""), ReplaceChar(b1, '"', "\\\"");
    ReplaceCharConcat(a2, b2, '\r', "");
    var a3, b3 := ReplaceChar(a2, '\r', ""), ReplaceChar(b2, '\r', "");
    ReplaceCharConcat(a3, b3, '\n', "");
  }

  lemma EscapeValueOfChar(c: char)
    ensures EscapeValue([c]) == EscapeChar(c)
  {
    ReplaceCharSingle(c, '\\', "\\\\");
    if c == '\\' {
      ReplaceCharConcat("\\", "\\", '"', "\\\"");
      ReplaceCharSingle('\\', '"', "\\\"");
      ReplaceCharConcat("\\", "\\", '\r', "");
      ReplaceCharSingle('\\', '\r', "");
      ReplaceCharConcat("\\", "\\", '\n', "");
      ReplaceCharSingle('\\', '\n', "");
    } else {
      ReplaceCharSingle(c, '"', "\\\"");
      if c == '"' {
        ReplaceCharConcat("\\", "\"", '\r', "");
        ReplaceCharSingle('\\', '\r', "");
        ReplaceCharSingle('"', '\r', "");
        ReplaceCharConcat("\\", "\"", '\n', "");
        ReplaceCharSingle('\\', '\n', "");
        ReplaceCharSingle('"', '\n', "");
      } else {
        ReplaceCharSingle(c, '\r', "");
        if c != '\r' {
          ReplaceCharSingle(c, '\n', "");
        }
      }
    }
  }

  lemma EscapeValueEmpty()
    ensures EscapeValue([]) == []
  {
    assert ReplaceChar([], '\\', "\\\\") == [];
  }

  lemma EscapeValueCons(c: char, rest: string)
    ensures EscapeValue([c] + rest) == EscapeChar(c) + EscapeValue(rest)
  {
    EscapeValueConcat([c], rest);
    EscapeValueOfChar(c);
  }

  /** Reads a quoted string whose opening quote has already been consumed:
      the unescaped content (`\x` stands for `x`) and what follows the closing
      quote, or `None` when the string is not closed. */
  function ParseQuoted(s: string): (r: Option<(string, string)>)
    ensures r.Some? ==> |r.value.1| < |s|
    decreases |s|
  {
    if s == [] then None
    else if s[0] == '"' then Some(([], s[1..]))
    else if s[0] == '\\' then
      if |s| < 2 then None
      else match ParseQuoted(s[2..])
        case None => None
        case Some((v, rest)) => Some(([s[1]] + v, rest))
    else match ParseQuoted(s[1..])
      case None => None
      case Some((v, rest)) => Some(([s[0]] + v, rest))
  }

  /** Escape round trip: an escaped value, closed by a quote, reads back as
      the original value with its CR and LF deleted, and reading stops at
      exactly that closing quote. */
  lemma {:induction false} EscapeValueRoundTrip(value: string, rest: string)
    ensures ParseQuoted(EscapeValue(value) + "\"" + rest) == Some((DeleteCrLf(value), rest))
    decreases |value|
  {
    if value == [] {
      EscapeValueEmpty();
      assert EscapeValue(value) + "\"" + rest == ['"'] + rest;
    } else {
      var c, tail := value[0], value[1..];
      assert value == [c] + tail;
      EscapeValueRoundTrip(tail, rest);
      EscapedConsRoundTrip(c, tail, rest);
    }
  }

  /** One more character in front of a value whose round trip holds. */
  lemma EscapedConsRoundTrip(c: char, tail: string, rest: string)
    requires ParseQuoted(EscapeValue(tail) + "\"" + rest) == Some((DeleteCrLf(tail), rest))
    ensures ParseQuoted(EscapeValue([c] + tail) + "\"" + rest) == Some((DeleteCrLf([c] + tail), rest))
  {
    EscapeValueCons(c, tail);
    var after := EscapeValue(tail) + "\"" + rest;
    assert EscapeValue([c] + tail) + "\"" + rest == EscapeChar(c) + after;
    DeleteCrLfCons(c, tail);
    ParseEscapedChar(c, after, DeleteCrLf(tail), rest);
  }

  lemma DeleteCrLfCons(c: char, tail: string)
    ensures DeleteCrLf([c] + tail) == DeleteCrLf([c]) + DeleteCrLf(tail)
  {
    assert ([c] + tail)[1..] == tail;
    assert [c][1..] == [];
  }

  /** Reading one escaped character in front of a quoted string. */
  lemma ParseEscapedChar(c: char, after: string, v: string, rest: string)
    requires ParseQuoted(after) == Some((v, rest))
    ensures ParseQuoted(EscapeChar(c) + after) == Some((DeleteCrLf([c]) + v, rest))
  {
    assert [c][1..] == [];
    assert DeleteCrLf([c]) == if c == '\r' || c == '\n' then [] else [c];
    var s := EscapeChar(c) + after;
    if c == '\\' || c == '"' {
      assert s == ['\\', c] + after;
      assert s[2..] == after;
    } else if c == '\r' || c == '\n' {
      assert s == after;
      assert DeleteCrLf([c]) + v == v;
    } else {
      assert s == [c] + after;
      assert s[1..] == after;
    }
  }

  /** Escaped values hold no CR or LF, and every quote in them is preceded
      by a backslash. */
  lemma {:induction false} EscapedValueIsSafe(value: string)
    ensures NoCrLf(EscapeValue(value))
    ensures var e := EscapeValue(value);
      forall i | 0 <= i < |e| && e[i] == '"' :: i > 0 && e[i - 1] == '\\'
    ensures EscapeValue(value) == [] || EscapeValue(value)[0] != '"'
    decreases |value|
  {
    if value == [] {
      EscapeValueEmpty();
    } else {
      var c, tail := value[0], value[1..];
      assert value == [c] + tail;
      EscapeValueCons(c, tail);
      EscapedValueIsSafe(tail);
      var head, e := EscapeChar(c), EscapeValue(value);
      assert e == head + EscapeValue(tail);
      forall i | 0 <= i < |e| ensures e[i] != '\r' && e[i] != '\n' {
        if i >= |head| {
          assert e[i] == EscapeValue(tail)[i - |head|];
        }
      }
      forall i | 0 <= i < |e| && e[i] == '"' ensures i > 0 && e[i - 1] == '\\' {
        if i >= |head| {
          assert e[i] == EscapeValue(tail)[i - |head|];
          if i > |head| {
            assert e[i - 1] == EscapeValue(tail)[i - 1 - |head|];
          }
        }
      }
    }
  }

  // ---------------------------------------------------------------- challenge

  /** One step of `_format_auth_attributes`: the `key="value"` segment of an
      attribute, or `None` when its key does not sanitise. */
  function AttributeSegment(key: string, rawValue: string): (segment: Option<string>)
    ensures segment.Some? <==> IsToken(Strip(key))
    ensures segment.Some? ==> segment.value == Strip(key) + "=\"" + EscapeValue(rawValue) + "\""
  {
    var sanitizedKey := SanitizeToken(key, None);
    if sanitizedKey.None? || sanitizedKey.value == "" then None
    else Some(sanitizedKey.value + "=\"" + EscapeValue(rawValue) + "\"")
  }

  /** `_format_auth_attributes`: the segments of the attributes whose keys
      sanitise, in input order. The dict's items are a sequence of pairs. */
  function FormatAttributes(attributes: seq<(string, string)>): (segments: seq<string>)
    ensures |segments| <= |attributes|
    decreases |attributes|
  {
    if attributes == [] then []
    else
      var rest := FormatAttributes(attributes[1..]);
      match AttributeSegment(attributes[0].0, attributes[0].1)
      case None => rest
      case Some(segment) => [segment] + rest
  }

  /** The scheme of the challenge: the sanitised method, or `Bearer`. */
  function ChallengeScheme(authorizationMethod: string): (scheme: string)
    ensures IsToken(scheme)
    ensures IsToken(Strip(authorizationMethod)) ==> scheme == Strip(authorizationMethod)
    ensures !IsToken(Strip(authorizationMethod)) ==> scheme == "Bearer"
  {
    var sanitized := SanitizeToken(authorizationMethod, Some("Bearer"));
    if sanitized.Some? && sanitized.value != "" then sanitized.value else "Bearer"
  }

  /** The `WWW-Authenticate` value assembled in `HttpResponseNotAuthorized`. */
  function ChallengeHeader(authorizationMethod: string, attributes: seq<(string, string)>): (h: string)
    ensures var scheme := ChallengeScheme(authorizationMethod);
      && |scheme| <= |h| && h[..|scheme|] == scheme
      && (h == scheme <==> FormatAttributes(attributes) == [])
  {
    var scheme := ChallengeScheme(authorizationMethod);
    var segments := FormatAttributes(attributes);
    if segments == [] then scheme else scheme + " " + Join(", ", segments)
  }

  /** What a challenge is meant to say: the sanitised name and the value
      without CR and LF of every attribute whose name is a token, in order. */
  function IntendedAttributes(attributes: seq<(string, string)>): seq<(string, string)>
    decreases |attributes|
  {
    if attributes == [] then []
    else
      var rest := IntendedAttributes(attributes[1..]);
      match SanitizeToken(attributes[0].0, None)
      case None => rest
      case Some(key) => [(key, DeleteCrLf(attributes[0].1))] + rest
  }

  // ---------------------------------------------------------------- reading back

  /** The longest token prefix and what follows it. */
  function ParseToken(s: string): (string, string)
  {
    var n := Span(s, IsTChar);
    (s[..n], s[n..])
  }

  /** `name="value"` at the front of `s`: name, unescaped value, rest. */
  function ParseParam(s: string): (r: Option<(string, string, string)>)
    ensures r.Some? ==> |r.value.2| < |s|
  {
    var (name, afterName) := ParseToken(s);
    if name == [] || |afterName| < 2 || afterName[0] != '=' || afterName[1] != '"' then None
    else match ParseQuoted(afterName[2..])
      case None => None
      case Some((value, rest)) => Some((name, value, rest))
  }

  /** A non-empty list of parameters separated by `, `. */
  function ParseParams(s: string): Option<seq<(string, string)>>
    decreases |s|
  {
    match ParseParam(s)
    case None => None
    case Some((name, value, rest)) =>
      if rest == [] then Some([(name, value)])
      else if |rest| >= 2 && rest[0] == ',' && rest[1] == ' ' then
        match ParseParams(rest[2..])
        case None => None
        case Some(more) => Some([(name, value)] + more)
      else None
  }

  /** A challenge in the form `scheme [SP param *(", " param)]`, the
      `auth-scheme [ 1*SP #auth-param ]` shape of RFC 7235 section 2.1 with
      single separators. */
  function ParseChallenge(h: string): Option<(string, seq<(string, string)>)>
  {
    var (scheme, afterScheme) := ParseToken(h);
    if scheme == [] then None
    else if afterScheme == [] then Some((scheme, []))
    else if afterScheme[0] != ' ' then None
    else match ParseParams(afterScheme[1..])
      case None => None
      case Some(params) => Some((scheme, params))
  }

  lemma ParseTokenOf(token: string, rest: string)
    requires IsToken(token)
    requires rest == [] || !IsTChar(rest[0])
    ensures ParseToken(token + rest) == (token, rest)
  {
    SpanOfConcat(token, rest, IsTChar);
    assert (token + rest)[..|token|] == token;
    assert (token + rest)[|token|..] == rest;
  }

  lemma ParamRoundTrip(name: string, value: string, rest: string)
    requires IsToken(name)
    ensures ParseParam(name + "=\"" + EscapeValue(value) + "\"" + rest)
      == Some((name, DeleteCrLf(value), rest))
  {
    var afterName := "=\"" + EscapeValue(value) + "\"" + rest;
    assert name + "=\"" + EscapeValue(value) + "\"" + rest == name + afterName;
    ParseTokenOf(name, afterName);
    assert afterName[2..] == EscapeValue(value) + "\"" + rest;
    EscapeValueRoundTrip(value, rest);
  }

  /** Formatting drops exactly the attributes the intended reading drops. */
  lemma {:induction false} FormatAttributesEmpty(attributes: seq<(string, string)>)
    ensures FormatAttributes(attributes) == [] <==> IntendedAttributes(attributes) == []
    decreases |attributes|
  {
    if attributes != [] {
      FormatAttributesEmpty(attributes[1..]);
    }
  }

  /** The joined segments read back as the intended attributes. */
  lemma {:induction false} FormatAttributesRoundTrip(attributes: seq<(string, string)>)
    requires FormatAttributes(attributes) != []
    ensures ParseParams(Join(", ", FormatAttributes(attributes))) == Some(IntendedAttributes(attributes))
    decreases |attributes|
  {
    var key, value, tail := attributes[0].0, attributes[0].1, attributes[1..];
    assert attributes == [(key, value)] + tail;
    FormatAttributesEmpty(tail);
    if FormatAttributes(tail) != [] {
      FormatAttributesRoundTrip(tail);
    }
    if IsToken(Strip(key)) {
      KeptAttributeRoundTrip(key, value, tail);
    } else {
      DroppedAttribute(key, value, tail);
    }
  }

  /** An attribute whose key is not a token adds nothing. */
  lemma DroppedAttribute(key: string, value: string, tail: seq<(string, string)>)
    requires !IsToken(Strip(key))
    ensures FormatAttributes([(key, value)] + tail) == FormatAttributes(tail)
    ensures IntendedAttributes([(key, value)] + tail) == IntendedAttributes(tail)
  {
    assert ([(key, value)] + tail)[1..] == tail;
  }

  /** A kept attribute in front of the rest. */
  lemma KeptAttributeRoundTrip(key: string, value: string, tail: seq<(string, string)>)
    requires IsToken(Strip(key))
    requires FormatAttributes(tail) == [] <==> IntendedAttributes(tail) == []
    requires FormatAttributes(tail) != [] ==>
      ParseParams(Join(", ", FormatAttributes(tail))) == Some(IntendedAttributes(tail))
    ensures ParseParams(Join(", ", FormatAttributes([(key, value)] + tail)))
      == Some(IntendedAttributes([(key, value)] + tail))
  {
    var attributes := [(key, value)] + tail;
    assert attributes[0] == (key, value) && attributes[1..] == tail;
    var name := Strip(key);
    var segment := name + "=\"" + EscapeValue(value) + "\"";
    var more := FormatAttributes(tail);
    assert FormatAttributes(attributes) == [segment] + more;
    assert IntendedAttributes(attributes) == [(name, DeleteCrLf(value))] + IntendedAttributes(tail);
    if more == [] {
      assert segment + "" == segment;
      ParamRoundTrip(name, value, "");
      JoinedParams(segment, name, DeleteCrLf(value), more, []);
    } else {
      var joinedMore := Join(", ", more);
      ParamRoundTrip(name, value, ", " + joinedMore);
      assert segment + ", " + joinedMore == segment + (", " + joinedMore);
      JoinedParams(segment, name, DeleteCrLf(value), more, IntendedAttributes(tail));
    }
  }

  /** A parameter in front of `, ` and more parameters, or alone. */
  lemma JoinedParams(segment: string, name: string, v: string, more: seq<string>, parsedMore: seq<(string, string)>)
    requires more == [] ==> ParseParam(segment) == Some((name, v, ""))
    requires more != [] ==> ParseParam(segment + ", " + Join(", ", more)) == Some((name, v, ", " + Join(", ", more)))
    requires more != [] ==> ParseParams(Join(", ", more)) == Some(parsedMore)
    ensures ParseParams(Join(", ", [segment] + more)) == Some([(name, v)] + (if more == [] then [] else parsedMore))
  {
    if more == [] {
      assert [segment] + more == [segment];
      assert Join(", ", [segment]) == segment;
      assert ParseParams(segment) == Some([(name, v)]);
      assert [(name, v)] + [] == [(name, v)];
    } else {
      var joinedMore := Join(", ", more);
      assert ([segment] + more)[1..] == more;
      assert Join(", ", [segment] + more) == segment + ", " + joinedMore;
      assert (", " + joinedMore)[2..] == joinedMore;
    }
  }

  /** A token scheme followed by the formatted attributes reads back. */
  lemma ChallengeOfScheme(scheme: string, attributes: seq<(string, string)>)
    requires IsToken(scheme)
    ensures var segments := FormatAttributes(attributes);
      ParseChallenge(if segments == [] then scheme else scheme + " " + Join(", ", segments))
        == Some((scheme, IntendedAttributes(attributes)))
  {
    var segments := FormatAttributes(attributes);
    FormatAttributesEmpty(attributes);
    if segments == [] {
      ParseTokenOf(scheme, []);
      assert scheme + [] == scheme;
    } else {
      var joined := Join(", ", segments);
      ParseTokenOf(scheme, " " + joined);
      assert scheme + " " + joined == scheme + (" " + joined);
      assert (" " + joined)[1..] == joined;
      FormatAttributesRoundTrip(attributes);
    }
  }

  /** The header reads back, under the challenge grammar, as exactly the
      scheme and the intended attributes: no value can end its quoted
      string early or add a parameter or a header line of its own. */
  lemma ChallengeRoundTrip(authorizationMethod: string, attributes: seq<(string, string)>)
    ensures ParseChallenge(ChallengeHeader(authorizationMethod, attributes))
      == Some((ChallengeScheme(authorizationMethod), IntendedAttributes(attributes)))
  {
    ChallengeOfScheme(ChallengeScheme(authorizationMethod), attributes);
  }

  // ---------------------------------------------------------------- line safety

  lemma NoCrLfConcat(a: string, b: string)
    ensures NoCrLf(a + b) <==> NoCrLf(a) && NoCrLf(b)
  {
    if NoCrLf(a) && NoCrLf(b) {
      forall i | 0 <= i < |a + b| ensures (a + b)[i] != '\r' && (a + b)[i] != '\n' {
        if i >= |a| {
          assert (a + b)[i] == b[i - |a|];
        }
      }
    }
    if NoCrLf(a + b) {
      forall i | 0 <= i < |b| ensures b[i] != '\r' && b[i] != '\n' {
        assert (a + b)[|a| + i] == b[i];
      }
      forall i | 0 <= i < |a| ensures a[i] != '\r' && a[i] != '\n' {
        assert (a + b)[i] == a[i];
      }
    }
  }

  lemma {:induction false} JoinNoCrLf(sep: string, parts: seq<string>)
    requires NoCrLf(sep)
    requires forall i | 0 <= i < |parts| :: NoCrLf(parts[i])
    ensures NoCrLf(Join(sep, parts))
    decreases |parts|
  {
    if |parts| > 1 {
      JoinNoCrLf(sep, parts[1..]);
      NoCrLfConcat(parts[0], sep);
      NoCrLfConcat(parts[0] + sep, Join(sep, parts[1..]));
    }
  }

  lemma SegmentNoCrLf(name: string, value: string)
    requires IsToken(name)
    ensures NoCrLf(name + "=\"" + EscapeValue(value) + "\"")
  {
    EscapedValueIsSafe(value);
    NoCrLfConcat(name, "=\"");
    NoCrLfConcat(name + "=\"", EscapeValue(value));
    NoCrLfConcat(name + "=\"" + EscapeValue(value), "\"");
  }

  lemma {:induction false} FormattedSegmentsNoCrLf(attributes: seq<(string, string)>)
    ensures forall i | 0 <= i < |FormatAttributes(attributes)| :: NoCrLf(FormatAttributes(attributes)[i])
    decreases |attributes|
  {
    if attributes != [] {
      FormattedSegmentsNoCrLf(attributes[1..]);
      var (key, value) := attributes[0];
      var rest := FormatAttributes(attributes[1..]);
      if IsToken(Strip(key)) {
        var segment := Strip(key) + "=\"" + EscapeValue(value) + "\"";
        SegmentNoCrLf(Strip(key), value);
        var segments := FormatAttributes(attributes);
        assert segments == [segment] + rest;
        forall i | 0 <= i < |segments| ensures NoCrLf(segments[i]) {
          if i > 0 {
            assert segments[i] == rest[i - 1];
            assert NoCrLf(rest[i - 1]);
          } else {
            assert segments[i] == segment;
          }
        }
      }
    }
  }

  lemma TokenNoCrLf(token: string)
    requires IsToken(token)
    ensures NoCrLf(token)
  {
    forall i | 0 <= i < |token| ensures token[i] != '\r' && token[i] != '\n' {
      assert IsTChar(token[i]);
    }
  }

  lemma SeparatorsNoCrLf(space: string, comma: string)
    requires space == " " && comma == ", "
    ensures NoCrLf(space) && NoCrLf(comma)
  {
  }

  lemma LineOfParts(scheme: string, space: string, comma: string, segments: seq<string>)
    requires NoCrLf(scheme) && NoCrLf(space) && NoCrLf(comma)
    requires forall i | 0 <= i < |segments| :: NoCrLf(segments[i])
    ensures NoCrLf(scheme + space + Join(comma, segments))
  {
    JoinNoCrLf(comma, segments);
    NoCrLfConcat(scheme, space);
    NoCrLfConcat(scheme + space, Join(comma, segments));
  }

  lemma LineOfScheme(scheme: string, segments: seq<string>)
    requires IsToken(scheme)
    requires forall i | 0 <= i < |segments| :: NoCrLf(segments[i])
    ensures NoCrLf(if segments == [] then scheme else scheme + " " + Join(", ", segments))
  {
    TokenNoCrLf(scheme);
    SeparatorsNoCrLf(" ", ", ");
    LineOfParts(scheme, " ", ", ", segments);
  }

  /** Whatever the method and the attributes, the header is a single line:
      no CR or LF reaches it. */
  lemma ChallengeHeaderIsOneLine(authorizationMethod: string, attributes: seq<(string, string)>)
    ensures NoCrLf(ChallengeHeader(authorizationMethod, attributes))
  {
    FormattedSegmentsNoCrLf(attributes);
    LineOfScheme(ChallengeScheme(authorizationMethod), FormatAttributes(attributes));
  }

  /** A method that is not a token after stripping gives the bare `Bearer`
      challenge when there are no attributes. */
  lemma InjectedMethodFallsBack(authorizationMethod: string)
    requires authorizationMethod == "Bearer\r\nFoo: bar"
    ensures ChallengeHeader(authorizationMethod, []) == "Bearer"
  {
    StripUnchanged(authorizationMethod);
    assert !IsTChar(authorizationMethod[6]);
  }

  /** A value without backslashes, quotes, CR or LF. */
  predicate IsPlainValue(value: string)
  {
    forall i | 0 <= i < |value| :: value[i] !in {'\\', '"', '\r', '\n'}
  }

  /** A plain value is written as it is. */
  lemma {:induction false} EscapeValuePlain(value: string)
    requires IsPlainValue(value)
    ensures EscapeValue(value) == value
    decreases |value|
  {
    if value == [] {
      EscapeValueEmpty();
    } else {
      assert value == [value[0]] + value[1..];
      EscapeValueCons(value[0], value[1..]);
      EscapeValuePlain(value[1..]);
    }
  }

  /** The response built with its defaults carries the bare `Bearer` challenge. */
  lemma DefaultChallenge()
    ensures ChallengeHeader("Bearer", []) == "Bearer"
  {
    SanitizeTokenIdempotent("Bearer", Some("Bearer"));
  }

  // ---------------------------------------------------------------- the response

  lemma {:induction false} FormatAttributesSnoc(attributes: seq<(string, string)>, attribute: (string, string))
    ensures FormatAttributes(attributes + [attribute]) == FormatAttributes(attributes) + FormatAttributes([attribute])
    decreases |attributes|
  {
    if attributes == [] {
      assert attributes + [attribute] == [attribute];
    } else {
      assert (attributes + [attribute])[1..] == attributes[1..] + [attribute];
      FormatAttributesSnoc(attributes[1..], attribute);
    }
  }

  /** One more item adds its segment, if any, at the end. */
  lemma FormatAttributesStep(attributes: seq<(string, string)>, i: nat)
    requires i < |attributes|
    ensures var segment := AttributeSegment(attributes[i].0, attributes[i].1);
      FormatAttributes(attributes[..i + 1])
        == FormatAttributes(attributes[..i]) + (if segment.Some? then [segment.value] else [])
  {
    assert attributes[..i + 1] == attributes[..i] + [attributes[i]];
    FormatAttributesSnoc(attributes[..i], attributes[i]);
    assert [attributes[i]][1..] == [];
  }

  /** The generator `_format_auth_attributes`, run to the end as
      `list(...)` does: one pass over the items, skipping those whose key
      does not sanitise. */
  method FormatAuthAttributes(attributes: seq<(string, string)>) returns (segments: seq<string>)
    ensures segments == FormatAttributes(attributes)
  {
    segments := [];
    for i := 0 to |attributes|
      invariant segments == FormatAttributes(attributes[..i])
    {
      FormatAttributesStep(attributes, i);
      var (key, rawValue) := attributes[i];
      var sanitizedKey := SanitizeToken(key, None);
      if sanitizedKey.None? || sanitizedKey.value == "" {
        continue;
      }
      var value := EscapeValue(rawValue);
      segments := segments + [sanitizedKey.value + "=\"" + value + "\""];
    }
    assert attributes[..|attributes|] == attributes;
  }

  /** The header value assembled in `HttpResponseNotAuthorized.__init__`:
      the scheme, followed by the attribute segments when there are any. */
  method ChallengeValue(authorizationMethod: string, attributes: seq<(string, string)>) returns (headerValue: string)
    ensures headerValue == ChallengeHeader(authorizationMethod, attributes)
  {
    var sanitizedMethod := SanitizeToken(authorizationMethod, Some("Bearer"));
    var scheme := if sanitizedMethod.Some? && sanitizedMethod.value != "" then sanitizedMethod.value else "Bearer";
    var segments := FormatAuthAttributes(attributes);
    headerValue := scheme;
    if segments != [] {
      headerValue := scheme + " " + Join(", ", segments);
    }
  }

  /** `HttpResponseNotAuthorized`: a 401 response whose only header of its
      own is the challenge. A missing attribute collection counts as empty. */
  class NotAuthorizedResponse {
    const statusCode: int
    const content: string
    var headers: map<string, string>

    constructor (content: string, authorizationMethod: string, attributes: Option<seq<(string, string)>>)
      ensures statusCode == 401 && this.content == content
      ensures var items := if attributes.Some? then attributes.value else [];
        headers == map["WWW-Authenticate" := ChallengeHeader(authorizationMethod, items)]
    {
      statusCode := 401;
      this.content := content;
      var items := if attributes.Some? then attributes.value else [];
      var headerValue := ChallengeValue(authorizationMethod, items);
      headers := map["WWW-Authenticate" := headerValue];
    }
  }
}
