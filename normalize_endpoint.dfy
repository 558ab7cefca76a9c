/**
 * Endpoint normalisation (src/mcp/utils/normalize-endpoint.ts): every run of
 * slashes becomes a single slash, then one leading slash is dropped. A missing
 * endpoint (`null` or `undefined`) normalises to the empty string.
 */
module Endpoints {
  import opened Values

  /** No two consecutive characters of `s` are both `/`. */
  predicate NoDoubleSlash(s: string) {
    forall i :: 0 <= i < |s| - 1 ==> !(s[i] == '/' && s[i + 1] == '/')
  }

  predicate StartsWithSlash(s: string) {
    |s| > 0 && s[0] == '/'
  }

  /** The characters of `s` other than `/`, in their original order. */
  function NonSlash(s: string): string {
    if s == [] then []
    else if s[0] == '/' then NonSlash(s[1..])
    else [s[0]] + NonSlash(s[1..])
  }

  /** `s.replace(/\/+/g, '/')`: a slash followed by a slash is dropped. */
  function CollapseSlashes(s: string): string {
    if |s| <= 1 then s
    else if s[0] == '/' && s[1] == '/' then CollapseSlashes(s[1..])
    else [s[0]] + CollapseSlashes(s[1..])
  }

  /** `normalizeEndpoint(endpoint)`, where `None` stands for `null` or `undefined`. */
  function NormalizeEndpoint(endpoint: Option<string>): string {
    var normalized := if endpoint.None? then "" else CollapseSlashes(endpoint.value);
    if StartsWithSlash(normalized) then normalized[1..] else normalized
  }

  /** Collapsing keeps the first and the last character and leaves no `//`. */
  lemma {:induction false} CollapseShape(s: string)
    ensures NoDoubleSlash(CollapseSlashes(s))
    ensures |CollapseSlashes(s)| <= |s|
    ensures |s| > 0 ==> |CollapseSlashes(s)| > 0 && CollapseSlashes(s)[0] == s[0]
    ensures |s| > 0 ==> CollapseSlashes(s)[|CollapseSlashes(s)| - 1] == s[|s| - 1]
  {
    if |s| > 1 {
      CollapseShape(s[1..]);
      var rest := CollapseSlashes(s[1..]);
      if !(s[0] == '/' && s[1] == '/') {
        var r := [s[0]] + rest;
        assert r[1..] == rest;
        forall i | 0 <= i < |r| - 1
          ensures !(r[i] == '/' && r[i + 1] == '/')
        {
          if i > 0 {
            assert r[i] == rest[i - 1] && r[i + 1] == rest[i];
          }
        }
      }
    }
  }

  /** A string without `//` is left as it is by collapsing. */
  lemma {:induction false} CollapseKeepsClean(s: string)
    requires NoDoubleSlash(s)
    ensures CollapseSlashes(s) == s
  {
    if |s| > 1 {
      assert !(s[0] == '/' && s[1] == '/');
      assert NoDoubleSlash(s[1..]) by {
        forall i | 0 <= i < |s[1..]| - 1
          ensures !(s[1..][i] == '/' && s[1..][i + 1] == '/')
        {
          assert s[1..][i] == s[i + 1] && s[1..][i + 1] == s[i + 2];
        }
      }
      CollapseKeepsClean(s[1..]);
      assert s == [s[0]] + s[1..];
    }
  }

  /** Collapsing only removes slashes: the other characters stay, in order. */
  lemma {:induction false} CollapseKeepsNonSlash(s: string)
    ensures NonSlash(CollapseSlashes(s)) == NonSlash(s)
  {
    if |s| > 1 {
      CollapseKeepsNonSlash(s[1..]);
      if !(s[0] == '/' && s[1] == '/') {
        assert ([s[0]] + CollapseSlashes(s[1..]))[1..] == CollapseSlashes(s[1..]);
      }
    }
  }

  /** `k` slashes in a row. */
  function Slashes(k: nat): (r: string)
    ensures |r| == k && forall i :: 0 <= i < k ==> r[i] == '/'
  {
    seq(k, _ => '/')
  }

  /** A run of slashes in front of text that does not start with one collapses to a single slash. */
  lemma {:induction false} CollapseRun(k: nat, b: string)
    requires k >= 1 && !StartsWithSlash(b)
    ensures CollapseSlashes(Slashes(k) + b) == "/" + CollapseSlashes(b)
  {
    var s := Slashes(k) + b;
    if k == 1 {
      if b != [] {
        assert s[0] == '/' && s[1] == b[0] && s[1..] == b;
      } else {
        assert s == "/";
      }
    } else {
      assert s[0] == '/' && s[1] == '/';
      assert s[1..] == Slashes(k - 1) + b;
      CollapseRun(k - 1, b);
    }
  }

  /** Text that does not end with a slash collapses on its own, whatever follows it. */
  lemma {:induction false} CollapseSplit(a: string, rest: string)
    requires a == [] || a[|a| - 1] != '/'
    ensures CollapseSlashes(a + rest) == CollapseSlashes(a) + CollapseSlashes(rest)
  {
    if a != [] {
      var s := a + rest;
      if |a| == 1 {
        assert CollapseSlashes(a) == a == [a[0]];
        if rest != [] {
          assert s[0] == a[0] && s[1..] == rest;
          assert CollapseSlashes(s) == [a[0]] + CollapseSlashes(rest);
        } else {
          assert s == a;
        }
      } else {
        assert s[0] == a[0] && s[1] == a[1] && s[1..] == a[1..] + rest;
        assert a[1..][|a[1..]| - 1] == a[|a| - 1];
        CollapseSplit(a[1..], rest);
        assert |s| > 1;
        if a[0] == '/' && a[1] == '/' {
          assert CollapseSlashes(s) == CollapseSlashes(a[1..] + rest);
          assert CollapseSlashes(a) == CollapseSlashes(a[1..]);
        } else {
          assert CollapseSlashes(s) == [a[0]] + CollapseSlashes(a[1..] + rest);
          assert CollapseSlashes(a) == [a[0]] + CollapseSlashes(a[1..]);
          assert [a[0]] + (CollapseSlashes(a[1..]) + CollapseSlashes(rest))
              == ([a[0]] + CollapseSlashes(a[1..])) + CollapseSlashes(rest);
        }
      }
    } else {
      assert a + rest == rest;
    }
  }

  /**
   * Each run of slashes becomes exactly one slash and the text on either
   * side is collapsed on its own: `a//…/b` becomes `a/b` with `a` and `b`
   * collapsed.
   */
  lemma CollapseRunBetween(a: string, k: nat, b: string)
    requires a == [] || a[|a| - 1] != '/'
    requires k >= 1 && !StartsWithSlash(b)
    ensures CollapseSlashes(a + Slashes(k) + b) == CollapseSlashes(a) + "/" + CollapseSlashes(b)
  {
    assert a + Slashes(k) + b == a + (Slashes(k) + b);
    CollapseSplit(a, Slashes(k) + b);
    CollapseRun(k, b);
  }

  /** Dropping the first character of a string keeps it free of `//`. */
  lemma TailNoDoubleSlash(s: string)
    requires |s| > 0 && NoDoubleSlash(s)
    ensures NoDoubleSlash(s[1..])
  {
    forall i | 0 <= i < |s[1..]| - 1
      ensures !(s[1..][i] == '/' && s[1..][i + 1] == '/')
    {
      assert s[1..][i] == s[i + 1] && s[1..][i + 1] == s[i + 2];
    }
  }

  /** An endpoint without any slash is already normal. */
  lemma NormalizeSlashFree(s: string)
    requires '/' !in s
    ensures NormalizeEndpoint(Some(s)) == s
  {
    forall i | 0 <= i < |s| - 1 ensures s[i] != '/' {
      assert s[i] in s;
    }
    CollapseKeepsClean(s);
    if s != [] {
      assert s[0] in s;
    }
  }

  /** `null` and `undefined` give the empty string. */
  lemma NormalizeMissing()
    ensures NormalizeEndpoint(None) == ""
  {
  }

  /**
   * The result never holds `//` and never starts with `/`; the characters other
   * than `/` are those of the input, in the same order.
   */
  lemma NormalizeShape(endpoint: string)
    ensures NoDoubleSlash(NormalizeEndpoint(Some(endpoint)))
    ensures !StartsWithSlash(NormalizeEndpoint(Some(endpoint)))
    ensures NonSlash(NormalizeEndpoint(Some(endpoint))) == NonSlash(endpoint)
  {
    var n := CollapseSlashes(endpoint);
    CollapseShape(endpoint);
    CollapseKeepsNonSlash(endpoint);
    if StartsWithSlash(n) {
      TailNoDoubleSlash(n);
      assert |n| > 1 ==> n[1] != '/';
      assert n == [n[0]] + n[1..];
    }
  }

  /** Normalising twice is the same as normalising once. */
  lemma NormalizeIdempotent(endpoint: Option<string>)
    ensures NormalizeEndpoint(Some(NormalizeEndpoint(endpoint))) == NormalizeEndpoint(endpoint)
  {
    var r := NormalizeEndpoint(endpoint);
    if endpoint.Some? {
      NormalizeShape(endpoint.value);
    }
    CollapseKeepsClean(r);
  }

  /**
   * A trailing slash survives normalisation as long as the endpoint holds at
   * least one character other than `/`.
   */
  lemma NormalizeKeepsTrailingSlash(endpoint: string)
    requires |endpoint| > 0 && endpoint[|endpoint| - 1] == '/'
    requires NonSlash(endpoint) != ""
    ensures var r := NormalizeEndpoint(Some(endpoint)); |r| > 0 && r[|r| - 1] == '/'
  {
    CollapseShape(endpoint);
    NormalizeShape(endpoint);
  }

  lemma NormalizeExample()
    ensures NormalizeEndpoint(Some("//a//b/")) == "a/b/"
  {
    assert CollapseSlashes("/b/") == "/b/";
    assert CollapseSlashes("//b/") == "/b/";
    assert CollapseSlashes("a//b/") == "a/b/";
    assert CollapseSlashes("/a//b/") == "/a/b/";
  }
}
