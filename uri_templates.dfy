/**
 * The string helpers the registry uses to match resource URIs
 * (src/mcp/services/mcp-registry.service.ts): `convertUri` strips a scheme,
 * `convertTemplate` rewrites `{var}` placeholders to `:var`, and a segment
 * matcher stands in for the `path-to-regexp` matcher.
 */
module UriTemplates {
  import opened Values

  // ---------------------------------------------------------------- convertUri

  /** `://` starts at position `i` of `s`. */
  predicate SepAt(s: string, i: int) {
    0 <= i && i + 3 <= |s| && s[i] == ':' && s[i + 1] == '/' && s[i + 2] == '/'
  }

  predicate ContainsSep(s: string) {
    exists i :: 0 <= i < |s| && SepAt(s, i)
  }

  /** The position of the first `://` in `s` at or after `k`, if any. */
  function IndexOfSepFrom(s: string, k: nat): (r: Option<nat>)
    ensures r.None? ==> forall j :: k <= j ==> !SepAt(s, j)
    ensures r.Some? ==> k <= r.value && SepAt(s, r.value) && forall j :: k <= j < r.value ==> !SepAt(s, j)
    decreases |s| - k
  {
    if k + 3 > |s| then None
    else if SepAt(s, k) then Some(k)
    else IndexOfSepFrom(s, k + 1)
  }

  /** The position of the first `://` in `s`, if any. */
  function IndexOfSep(s: string): (r: Option<nat>)
    ensures r.None? <==> !ContainsSep(s)
    ensures r.Some? ==> SepAt(s, r.value) && forall j :: 0 <= j < r.value ==> !SepAt(s, j)
  {
    IndexOfSepFrom(s, 0)
  }

  /** `uri.includes('://') ? uri.split('://')[1] : uri` */
  function ConvertUri(uri: string): string {
    match IndexOfSep(uri)
    case None => uri
    case Some(i) => UpToSep(uri[i + 3..])
  }

  /** `s` up to its first `://`, or all of `s` when it has none. */
  function UpToSep(s: string): string {
    match IndexOfSep(s)
    case None => s
    case Some(j) => s[..j]
  }

  /** `://` occurs in a suffix of `s` exactly where it occurs in `s`, shifted. */
  lemma SepAtSuffix(s: string, k: nat, p: nat)
    requires k <= |s|
    ensures SepAt(s[k..], p) <==> SepAt(s, p + k)
  {
    if SepAt(s[k..], p) || SepAt(s, p + k) {
      assert s[k..][p] == s[p + k] && s[k..][p + 1] == s[p + k + 1] && s[k..][p + 2] == s[p + k + 2];
    }
  }

  /** A prefix of `s` ending before the first `://` holds no `://`. */
  lemma NoSepBefore(s: string, j: nat)
    requires j <= |s|
    requires forall p :: 0 <= p < j ==> !SepAt(s, p)
    ensures !ContainsSep(s[..j])
  {
    forall p | 0 <= p < j && SepAt(s[..j], p) ensures false {
      assert s[..j][p] == s[p] && s[..j][p + 1] == s[p + 1] && s[..j][p + 2] == s[p + 2];
      assert SepAt(s, p);
    }
  }

  /** Without `://` the URI is returned unchanged. */
  lemma {:induction false} ConvertUriUnchanged(uri: string)
    requires !ContainsSep(uri)
    ensures ConvertUri(uri) == uri
  {
  }

  /**
   * `r` is the text of `uri` that starts just after the `://` at `i` and runs
   * to the next `://` or the end, and it holds no `://` itself.
   */
  predicate StrippedAt(uri: string, i: nat, r: string) {
    i + 3 + |r| <= |uri| && uri[i + 3..i + 3 + |r|] == r &&
    (i + 3 + |r| == |uri| || SepAt(uri, i + 3 + |r|)) &&
    !ContainsSep(r)
  }

  /**
   * With `://`, the result is the text between the first `://` and the next
   * `://` (or the end of the URI), and it never holds `://` itself.
   */
  lemma {:induction false} ConvertUriBetween(uri: string)
    requires ContainsSep(uri)
    ensures StrippedAt(uri, IndexOfSep(uri).value, ConvertUri(uri))
  {
    var i := IndexOfSep(uri).value;
    var next := IndexOfSep(uri[i + 3..]);
    if next.Some? {
      ConvertUriToNextSep(uri, i, next.value);
      BetweenToNextSep(uri, i, uri[i + 3..], next.value);
    } else {
      BetweenToEnd(uri, i);
    }
  }

  /** With its first `://` at `i`, a URI converts to the suffix after it, cut at its own first `://`. */
  lemma ConvertUriAt(uri: string, i: nat)
    requires IndexOfSep(uri) == Some(i)
    ensures ConvertUri(uri) == UpToSep(uri[i + 3..])
  {
  }

  /** Cutting at the first `://` at `j` keeps the text before it. */
  lemma UpToSepAt(s: string, j: nat)
    requires IndexOfSep(s) == Some(j)
    ensures j <= |s| && UpToSep(s) == s[..j]
  {
  }

  /** With a second `://` at `j` past the first at `i`, the result is the text between them. */
  lemma ConvertUriToNextSep(uri: string, i: nat, j: nat)
    requires IndexOfSep(uri) == Some(i)
    requires IndexOfSep(uri[i + 3..]) == Some(j)
    ensures i + 3 + j <= |uri| && ConvertUri(uri) == uri[i + 3..i + 3 + j]
  {
    var after := uri[i + 3..];
    ConvertUriAt(uri, i);
    UpToSepAt(after, j);
    assert after[..j] == uri[i + 3..i + 3 + j];
  }

  /** The facts `StrippedAt` is made of. */
  lemma StrippedAtIntro(uri: string, i: nat, r: string)
    requires i + 3 + |r| <= |uri| && uri[i + 3..i + 3 + |r|] == r
    requires i + 3 + |r| == |uri| || SepAt(uri, i + 3 + |r|)
    requires !ContainsSep(r)
    ensures StrippedAt(uri, i, r)
  {
  }

  /**
   * The case of `ConvertUriBetween` where a second `://` follows at `j` past
   * the first at `i`: the text between them is stripped as promised.
   */
  lemma BetweenToNextSep(uri: string, i: nat, after: string, j: nat)
    requires i + 3 <= |uri| && after == uri[i + 3..]
    requires SepAt(after, j) && forall p :: 0 <= p < j ==> !SepAt(after, p)
    ensures StrippedAt(uri, i, uri[i + 3..i + 3 + j])
  {
    var r := uri[i + 3..i + 3 + j];
    assert |r| == j;
    NoSepBefore(after, j);
    assert after[..j] == r;
    SepAtSuffix(uri, i + 3, j);
    StrippedAtIntro(uri, i, r);
  }

  /** The case of `ConvertUriBetween` where no second `://` follows the first. */
  lemma BetweenToEnd(uri: string, i: nat)
    requires IndexOfSep(uri) == Some(i)
    requires IndexOfSep(uri[i + 3..]).None?
    ensures StrippedAt(uri, i, ConvertUri(uri))
  {
    var r := uri[i + 3..];
    assert UpToSep(r) == r;
    assert uri[i + 3..i + 3 + |r|] == r;
  }

  /** Stripping the scheme twice is the same as stripping it once. */
  lemma ConvertUriIdempotent(uri: string)
    ensures ConvertUri(ConvertUri(uri)) == ConvertUri(uri)
  {
    if ContainsSep(uri) {
      ConvertUriBetween(uri);
    }
    ConvertUriUnchanged(ConvertUri(uri));
  }

  /** `IndexOfSep` finds the first `://`. */
  lemma FirstSep(s: string, k: nat)
    requires SepAt(s, k)
    requires forall j :: 0 <= j < k ==> !SepAt(s, j)
    ensures IndexOfSep(s) == Some(k)
  {
    var r := IndexOfSep(s);
    assert r.Some?;
    assert !(r.value < k) && !(k < r.value);
  }

  /** Text without a colon holds no `://`. */
  lemma NoColonNoSep(s: string)
    requires ':' !in s
    ensures !ContainsSep(s)
  {
    forall i | 0 <= i < |s| ensures !SepAt(s, i) {
      assert s[i] in s;
    }
  }

  /** A scheme without a colon ends at the first `://`. */
  lemma SchemeSep(scheme: string, rest: string)
    requires ':' !in scheme && SepAt(rest, 0)
    ensures IndexOfSep(scheme + rest) == Some(|scheme|)
  {
    var uri := scheme + rest;
    forall j | 0 <= j < |scheme| ensures !SepAt(uri, j) {
      assert uri[j] == scheme[j] && scheme[j] in scheme;
    }
    assert uri[|scheme|..] == rest;
    SepAtSuffix(uri, |scheme|, 0);
    FirstSep(uri, |scheme|);
  }

  lemma ConvertUriExample()
    ensures ConvertUri("scheme://items/42") == "items/42"
    ensures ConvertUri("items/42") == "items/42"
  {
    var scheme, plain := "scheme", "items/42";
    NoColonNoSep(plain);
    ConvertUriUnchanged(plain);
    var uri := scheme + ("://" + plain);
    assert uri == "scheme://items/42";
    SchemeSep(scheme, "://" + plain);
    assert uri[|scheme| + 3..] == plain;
    assert UpToSep(plain) == plain;
  }

  // ----------------------------------------------------------- convertTemplate

  /** `\w`: an ASCII letter, digit or underscore. */
  predicate IsWordChar(c: char) {
    ('a' <= c <= 'z') || ('A' <= c <= 'Z') || ('0' <= c <= '9') || c == '_'
  }

  predicate IsWord(w: string) {
    |w| > 0 && forall i :: 0 <= i < |w| ==> IsWordChar(w[i])
  }

  /** The length of the run of word characters that `s` starts with. */
  function WordRun(s: string): (n: nat)
    ensures n <= |s|
    ensures forall i :: 0 <= i < n ==> IsWordChar(s[i])
    ensures n < |s| ==> !IsWordChar(s[n])
  {
    if s == [] || !IsWordChar(s[0]) then 0 else 1 + WordRun(s[1..])
  }

  /**
   * The length of the word of the `{word}` placeholder `s` starts with,
   * or 0 when `s` does not start with one (`/{(\w+)}/` at position 0).
   */
  function PlaceholderAt(s: string): (n: nat)
    ensures n > 0 ==> n + 2 <= |s| && s[0] == '{' && IsWord(s[1..n + 1]) && s[n + 1] == '}'
  {
    if |s| < 3 || s[0] != '{' then 0
    else
      var n := WordRun(s[1..]);
      if n > 0 && n + 1 < |s| && s[n + 1] == '}' then n else 0
  }

  /** `template.replace(/{(\w+)}/g, ':$1')` */
  function ConvertTemplate(t: string): string
    decreases |t|
  {
    if t == [] then []
    else
      var n := PlaceholderAt(t);
      if n > 0 then [':'] + t[1..n + 1] + ConvertTemplate(t[n + 2..])
      else [t[0]] + ConvertTemplate(t[1..])
  }

  /** Text without `{` is left unchanged. */
  lemma {:induction false} ConvertTemplateNoBrace(t: string)
    requires '{' !in t
    ensures ConvertTemplate(t) == t
  {
    if t != [] {
      assert t[0] in t;
      assert forall c :: c in t[1..] ==> c in t;
      ConvertTemplateNoBrace(t[1..]);
      assert t == [t[0]] + t[1..];
    }
  }

  /** A run of `n` word characters followed by a non-word character has length `n`. */
  lemma {:induction false} WordRunExact(s: string, n: nat)
    requires n < |s| && !IsWordChar(s[n])
    requires forall i :: 0 <= i < n ==> IsWordChar(s[i])
    ensures WordRun(s) == n
  {
    if n > 0 {
      WordRunExact(s[1..], n - 1);
    }
  }

  /** A `{word}` placeholder becomes `:word` and the rest is converted in turn. */
  lemma ConvertTemplatePlaceholder(w: string, rest: string)
    requires IsWord(w)
    ensures ConvertTemplate("{" + w + "}" + rest) == ":" + w + ConvertTemplate(rest)
  {
    var t := "{" + w + "}" + rest;
    var u := t[1..];
    assert u == w + "}" + rest;
    assert forall i :: 0 <= i < |w| ==> u[i] == w[i];
    assert u[|w|] == '}';
    WordRunExact(u, |w|);
    assert PlaceholderAt(t) == |w|;
    assert t[1..|w| + 1] == w;
    assert t[|w| + 2..] == rest;
  }

  /** A prefix without `{` is copied unchanged. */
  lemma {:induction false} ConvertTemplatePrefix(a: string, b: string)
    requires '{' !in a
    ensures ConvertTemplate(a + b) == a + ConvertTemplate(b)
  {
    if a != [] {
      assert a == [a[0]] + a[1..];
      assert a[0] != '{';
      var t := a + b;
      assert t[0] == a[0] && t[1..] == a[1..] + b;
      assert PlaceholderAt(t) == 0;
      ConvertTemplatePrefix(a[1..], b);
      calc {
        ConvertTemplate(t);
        [t[0]] + ConvertTemplate(t[1..]);
        [a[0]] + (a[1..] + ConvertTemplate(b));
        a + ConvertTemplate(b);
      }
    } else {
      assert a + b == b;
    }
  }

  /**
   * A template that does not start with a `{word}` placeholder keeps its
   * first character; with `ConvertTemplatePlaceholder` this determines the
   * conversion of every template.
   */
  lemma ConvertTemplateLiteral(t: string)
    requires |t| > 0 && PlaceholderAt(t) == 0
    ensures ConvertTemplate(t) == [t[0]] + ConvertTemplate(t[1..])
  {
  }

  /**
   * A `{` that is not followed by a word character opens no placeholder:
   * it is copied as it is and conversion resumes right after it.
   */
  lemma ConvertTemplateStrayBrace(rest: string)
    requires rest == [] || !IsWordChar(rest[0])
    ensures ConvertTemplate("{" + rest) == "{" + ConvertTemplate(rest)
  {
    var t := "{" + rest;
    assert t[1..] == rest;
    if |t| >= 3 {
      assert WordRun(t[1..]) == 0;
    }
    assert PlaceholderAt(t) == 0;
  }

  /** Of two opening braces only the inner one opens the placeholder. */
  lemma ConvertTemplateDoubleBraceExample()
    ensures ConvertTemplate("{{id}}") == "{:id}"
  {
    var word := "id";
    assert IsWord(word);
    ConvertTemplatePlaceholder(word, "}");
    ConvertTemplateNoBrace("}");
    assert !IsWordChar('{');
    ConvertTemplateStrayBrace("{" + word + "}" + "}");
    assert "{{id}}" == "{" + ("{" + word + "}" + "}");
    assert "{:id}" == "{" + (":" + word + "}");
  }

  lemma ConvertTemplateExample()
    ensures ConvertTemplate("items/{id}") == "items/:id"
  {
    var prefix, word := "items/", "id";
    assert IsWord(word);
    assert '{' !in prefix;
    ConvertTemplatePlaceholder(word, "");
    ConvertTemplatePrefix(prefix, "{" + word + "}" + "");
    assert "items/{id}" == prefix + ("{" + word + "}" + "");
    assert "items/:id" == prefix + (":" + word + "");
  }

  // ------------------------------------------------------------ path matching

  /** `s.split('/')` */
  function Split(s: string): (r: seq<string>)
    ensures |r| > 0
    decreases |s|
  {
    if s == [] then [""]
    else
      var rest := Split(s[1..]);
      if s[0] == '/' then [""] + rest else [[s[0]] + rest[0]] + rest[1..]
  }

  /** A path segment of the form `:name` captures one non-empty path segment. */
  predicate IsParamSegment(seg: string) {
    |seg| > 1 && seg[0] == ':' && IsWord(seg[1..])
  }

  /** An ASCII upper-case letter becomes lower-case; every other character is kept. */
  function FoldCase(c: char): char {
    if 'A' <= c <= 'Z' then (c as int + 32) as char else c
  }

  /** Equal text, ignoring the case of ASCII letters. */
  predicate SameIgnoringCase(a: string, b: string) {
    |a| == |b| && forall i :: 0 <= i < |a| ==> FoldCase(a[i]) == FoldCase(b[i])
  }

  /**
   * Segment `t` of a template accepts segment `p` of a path: a parameter takes
   * any non-empty segment, a literal one equal to it up to the case of ASCII
   * letters (path-to-regexp matches case-insensitively unless told otherwise).
   */
  predicate SegmentAccepts(t: string, p: string) {
    if IsParamSegment(t) then p != "" else SameIgnoringCase(t, p)
  }

  /**
   * Matches template segments against path segments one by one, collecting the
   * parameters; when a name repeats, the later segment's value wins.
   */
  function MatchSegments(ts: seq<string>, ps: seq<string>): Option<map<string, string>>
    decreases |ts|
  {
    if ts == [] || ps == [] then
      if ts == [] && ps == [] then Some(map[]) else None
    else if !SegmentAccepts(ts[0], ps[0]) then None
    else
      match MatchSegments(ts[1..], ps[1..])
      case None => None
      case Some(rest) =>
        if IsParamSegment(ts[0]) then Some(map[ts[0][1..] := ps[0]] + rest) else Some(rest)
  }

  /** The simple stand-in for `match(templatePath)(path)`. */
  function MatchPath(template: string, path: string): Option<map<string, string>> {
    MatchSegments(Split(template), Split(path))
  }

  /** The names of the parameter segments of a template. */
  function ParamNames(ts: seq<string>): set<string> {
    set i | 0 <= i < |ts| && IsParamSegment(ts[i]) :: ts[i][1..]
  }

  /**
   * Matching succeeds exactly when both have as many segments and each template
   * segment accepts its path segment; the parameters are then exactly the
   * template's parameter names, each bound to a segment it captured.
   */
  lemma {:induction false} MatchSegmentsIff(ts: seq<string>, ps: seq<string>)
    ensures MatchSegments(ts, ps).Some? <==>
      |ts| == |ps| && forall i :: 0 <= i < |ts| ==> SegmentAccepts(ts[i], ps[i])
    ensures MatchSegments(ts, ps).Some? ==>
      var m := MatchSegments(ts, ps).value;
      m.Keys == ParamNames(ts) &&
      forall k :: k in m ==> exists i :: 0 <= i < |ts| && IsParamSegment(ts[i]) && ts[i][1..] == k && ps[i] == m[k]
  {
    MatchSegmentsAccepts(ts, ps);
    MatchSegmentsBindings(ts, ps);
  }

  lemma {:induction false} MatchSegmentsAccepts(ts: seq<string>, ps: seq<string>)
    ensures MatchSegments(ts, ps).Some? <==>
      |ts| == |ps| && forall i :: 0 <= i < |ts| ==> SegmentAccepts(ts[i], ps[i])
  {
    if ts != [] && ps != [] {
      MatchSegmentsAccepts(ts[1..], ps[1..]);
      assert forall i :: 1 <= i < |ts| ==> ts[1..][i - 1] == ts[i];
      assert forall i :: 1 <= i < |ps| ==> ps[1..][i - 1] == ps[i];
    }
  }

  /** The parameter names of a template: its first segment's, then the rest's. */
  lemma ParamNamesCons(ts: seq<string>)
    requires ts != []
    ensures ParamNames(ts) == (if IsParamSegment(ts[0]) then {ts[0][1..]} else {}) + ParamNames(ts[1..])
  {
    forall k | k in ParamNames(ts)
      ensures k in (if IsParamSegment(ts[0]) then {ts[0][1..]} else {}) + ParamNames(ts[1..])
    {
      var i :| 0 <= i < |ts| && IsParamSegment(ts[i]) && ts[i][1..] == k;
      if i > 0 { assert ts[1..][i - 1] == ts[i]; }
    }
    forall k | k in ParamNames(ts[1..]) ensures k in ParamNames(ts) {
      var i :| 0 <= i < |ts[1..]| && IsParamSegment(ts[1..][i]) && ts[1..][i][1..] == k;
      assert ts[i + 1] == ts[1..][i];
    }
  }

  lemma {:induction false} MatchSegmentsBindings(ts: seq<string>, ps: seq<string>)
    ensures MatchSegments(ts, ps).Some? ==>
      var m := MatchSegments(ts, ps).value;
      |ts| == |ps| && m.Keys == ParamNames(ts) &&
      forall k :: k in m ==> exists i :: 0 <= i < |ts| && IsParamSegment(ts[i]) && ts[i][1..] == k && ps[i] == m[k]
  {
    if ts != [] && ps != [] && MatchSegments(ts, ps).Some? {
      MatchSegmentsBindings(ts[1..], ps[1..]);
      MatchSegmentsAccepts(ts, ps);
      var m := MatchSegments(ts, ps).value;
      var rest := MatchSegments(ts[1..], ps[1..]).value;
      ParamNamesCons(ts);
      forall k | k in m
        ensures exists i :: 0 <= i < |ts| && IsParamSegment(ts[i]) && ts[i][1..] == k && ps[i] == m[k]
      {
        if k in rest {
          var i :| 0 <= i < |ts[1..]| && IsParamSegment(ts[1..][i]) && ts[1..][i][1..] == k && ps[1..][i] == rest[k];
          assert ts[i + 1] == ts[1..][i] && ps[i + 1] == ps[1..][i];
        } else {
          assert IsParamSegment(ts[0]) && k == ts[0][1..];
        }
      }
    }
  }

  /** Text without `/` is a single segment. */
  lemma {:induction false} SplitNoSlash(a: string)
    requires '/' !in a
    ensures Split(a) == [a]
  {
    if a != [] {
      assert a[0] in a;
      assert forall c :: c in a[1..] ==> c in a;
      SplitNoSlash(a[1..]);
      assert a == [a[0]] + a[1..];
    }
  }

  /** The segment before the first `/` comes first, then the segments after it. */
  lemma {:induction false} SplitAtSlash(a: string, b: string)
    requires '/' !in a
    ensures Split(a + "/" + b) == [a] + Split(b)
  {
    if a == [] {
      assert a + "/" + b == ['/'] + b;
      assert (['/'] + b)[1..] == b;
    } else {
      assert a[0] in a;
      assert forall c :: c in a[1..] ==> c in a;
      SplitAtSlash(a[1..], b);
      assert (a + "/" + b)[1..] == a[1..] + "/" + b;
      assert a == [a[0]] + a[1..];
    }
  }

  /**
   * A template `lit/:name` matches `lit/value` for any non-empty `value`
   * without `/`, binding `name` to `value`; the bare `lit` does not match.
   */
  lemma MatchLiteralThenParam(lit: string, name: string, value: string)
    requires '/' !in lit && !IsParamSegment(lit) && IsWord(name)
    requires '/' !in value && value != ""
    ensures MatchPath(lit + "/:" + name, lit + "/" + value) == Some(map[name := value])
    ensures MatchPath(lit + "/:" + name, lit) == None
  {
    var param := ":" + name;
    assert param[1..] == name;
    assert '/' !in param by {
      forall i | 0 <= i < |param| ensures param[i] != '/' {
        if i > 0 { assert param[i] == name[i - 1] && IsWordChar(name[i - 1]); }
      }
    }
    assert lit + "/:" + name == lit + "/" + param;
    SplitAtSlash(lit, param);
    SplitNoSlash(param);
    SplitAtSlash(lit, value);
    SplitNoSlash(value);
    SplitNoSlash(lit);
    assert IsParamSegment(param);
    var none: seq<string> := [];
    var empty: map<string, string> := map[];
    assert [lit, param][1..] == [param] && [lit, value][1..] == [value];
    assert [param][1..] == none && [value][1..] == none;
    assert MatchSegments([param], [value]) == Some(map[name := value] + empty);
    assert map[name := value] + empty == map[name := value];
    MatchSegmentsIff([lit, param], [lit]);
  }

  /**
   * `lit/:name` matches a two-segment path exactly when its first segment equals
   * `lit` up to the case of ASCII letters; the parameter is bound as written.
   */
  lemma MatchLiteralIgnoresCase(lit: string, other: string, name: string, value: string)
    requires '/' !in lit && '/' !in other && !IsParamSegment(lit)
    requires IsWord(name) && '/' !in value && value != ""
    ensures MatchPath(lit + "/:" + name, other + "/" + value) ==
      if SameIgnoringCase(lit, other) then Some(map[name := value]) else None
  {
    var param := ":" + name;
    assert param[1..] == name;
    assert '/' !in param by {
      forall i | 0 <= i < |param| ensures param[i] != '/' {
        if i > 0 { assert param[i] == name[i - 1] && IsWordChar(name[i - 1]); }
      }
    }
    assert lit + "/:" + name == lit + "/" + param;
    SplitAtSlash(lit, param);
    SplitNoSlash(param);
    SplitAtSlash(other, value);
    SplitNoSlash(value);
    assert IsParamSegment(param);
    var none: seq<string> := [];
    var empty: map<string, string> := map[];
    assert [lit, param][1..] == [param] && [other, value][1..] == [value];
    assert [param][1..] == none && [value][1..] == none;
    assert MatchSegments([param], [value]) == Some(map[name := value] + empty);
    assert map[name := value] + empty == map[name := value];
  }

  /** `ITEMS/42` matches `items/:id`, binding the parameter as written. */
  lemma MatchPathIgnoresCaseExample()
    ensures MatchPath("items/:id", "ITEMS/42") == Some(map["id" := "42"])
  {
    assert IsWordChar('i') && IsWordChar('d');
    assert IsWord("id");
    assert !IsParamSegment("items");
    assert SameIgnoringCase("items", "ITEMS");
    MatchLiteralIgnoresCase("items", "ITEMS", "id", "42");
    assert "items/:id" == "items" + "/:" + "id" && "ITEMS/42" == "ITEMS" + "/" + "42";
  }

  /** Letters other than a case change still tell literal segments apart. */
  lemma MatchPathLiteralMismatchExample()
    ensures MatchPath("items/:id", "itemz/42") == None
  {
    assert IsWordChar('i') && IsWordChar('d');
    assert IsWord("id");
    assert !IsParamSegment("items");
    assert !SameIgnoringCase("items", "itemz") by {
      assert FoldCase("items"[4]) != FoldCase("itemz"[4]);
    }
    MatchLiteralIgnoresCase("items", "itemz", "id", "42");
    assert "items/:id" == "items" + "/:" + "id" && "itemz/42" == "itemz" + "/" + "42";
  }
}
