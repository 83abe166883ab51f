/**
 * Model of src/Sanitizer.php: the slug sanitizer, the path sanitizer and the
 * character-class filter that the two patterns of that class describe.
 * Strings are sequences of characters; `preg_replace` is modelled as deleting
 * every character outside the pattern's class.
 */
module Sanitizer {

  // ---------------------------------------------------------------------------
  // The character classes of the two patterns
  // ---------------------------------------------------------------------------

  /** The class kept by the slug pattern: lower-case ASCII letters, digits, '-' and '_'. */
  predicate IsSlugChar(c: char) {
    ('a' <= c <= 'z') || ('0' <= c <= '9') || c == '-' || c == '_'
  }

  /** The class kept by the path pattern: ASCII letters, digits, '/', '-', '_' and '.'. */
  predicate IsPathChar(c: char) {
    ('a' <= c <= 'z') || ('A' <= c <= 'Z') || ('0' <= c <= '9')
    || c == '/' || c == '-' || c == '_' || c == '.'
  }

  /** Every character of s is in the class p. */
  ghost predicate AllChars(s: string, p: char -> bool) {
    forall i :: 0 <= i < |s| ==> p(s[i])
  }

  // ---------------------------------------------------------------------------
  // Subsequences
  // ---------------------------------------------------------------------------

  /** a is obtained from b by deleting characters, keeping the order of the rest. */
  ghost predicate IsSubsequence<T>(a: seq<T>, b: seq<T>)
    decreases |b|
  {
    a == [] || (b != [] && ((a[0] == b[0] && IsSubsequence(a[1..], b[1..])) || IsSubsequence(a, b[1..])))
  }

  lemma {:induction false} SubsequenceTransitive<T>(a: seq<T>, b: seq<T>, c: seq<T>)
    requires IsSubsequence(a, b) && IsSubsequence(b, c)
    ensures IsSubsequence(a, c)
    decreases |c|
  {
    if a != [] {
      if IsSubsequence(b, c[1..]) {
        SubsequenceTransitive(a, b, c[1..]);
      } else if a[0] == b[0] && IsSubsequence(a[1..], b[1..]) {
        SubsequenceTransitive(a[1..], b[1..], c[1..]);
      } else {
        SubsequenceTransitive(a, b[1..], c[1..]);
      }
    }
  }

  /** A consecutive slice of s is a subsequence of s. */
  lemma {:induction false} SliceIsSubsequence<T>(s: seq<T>, i: nat, j: nat)
    requires i <= j <= |s|
    ensures IsSubsequence(s[i..j], s)
    decreases |s|
  {
    if i < j {
      SliceIsSubsequence(s[1..], if i == 0 then 0 else i - 1, j - 1);
      if i == 0 {
        assert s[i..j][1..] == s[1..][0..j - 1];
      } else {
        assert s[i..j] == s[1..][i - 1..j - 1];
      }
    }
  }

  /** Deleting characters cannot bring in a character outside a class. */
  lemma {:induction false} SubsequenceKeepsClass(a: string, b: string, p: char -> bool)
    requires IsSubsequence(a, b) && AllChars(b, p)
    ensures AllChars(a, p)
    decreases |b|
  {
    if a != [] {
      assert AllChars(b[1..], p) by {
        forall i | 0 <= i < |b[1..]| ensures p(b[1..][i]) { assert b[1..][i] == b[i + 1]; }
      }
      if a[0] == b[0] && IsSubsequence(a[1..], b[1..]) {
        SubsequenceKeepsClass(a[1..], b[1..], p);
        forall i | 0 <= i < |a| ensures p(a[i]) {
          if i > 0 { assert a[i] == a[1..][i - 1]; }
        }
      } else {
        SubsequenceKeepsClass(a, b[1..], p);
      }
    }
  }

  // ---------------------------------------------------------------------------
  // preg_replace with a negated character class and an empty replacement
  // ---------------------------------------------------------------------------

  /** s with every character outside the class `keep` deleted. */
  function Filter(s: string, keep: char -> bool): (r: string)
    ensures |r| <= |s|
  {
    if s == [] then [] else (if keep(s[0]) then [s[0]] else []) + Filter(s[1..], keep)
  }

  /** Every character the filter keeps is in the class. */
  lemma {:induction false} FilterKeepsClass(s: string, keep: char -> bool)
    ensures AllChars(Filter(s, keep), keep)
  {
    if s != [] {
      FilterKeepsClass(s[1..], keep);
      var rest := Filter(s[1..], keep);
      var r := Filter(s, keep);
      assert r == (if keep(s[0]) then [s[0]] else []) + rest;
      forall i | 0 <= i < |r| ensures keep(r[i]) {
        if keep(s[0]) && i > 0 {
          assert r[i] == rest[i - 1];
        }
      }
    }
  }

  lemma {:induction false} FilterIsSubsequence(s: string, keep: char -> bool)
    ensures IsSubsequence(Filter(s, keep), s)
  {
    if s != [] {
      FilterIsSubsequence(s[1..], keep);
      var r := Filter(s, keep);
      if keep(s[0]) {
        assert r == [s[0]] + Filter(s[1..], keep);
        assert r[0] == s[0] && r[1..] == Filter(s[1..], keep);
      } else {
        assert r == Filter(s[1..], keep);
      }
    }
  }

  /** Each character of the class occurs as often in the result as in s; no other character occurs. */
  lemma {:induction false} FilterCounts(s: string, keep: char -> bool, c: char)
    ensures multiset(Filter(s, keep))[c] == if keep(c) then multiset(s)[c] else 0
  {
    if s != [] {
      FilterCounts(s[1..], keep, c);
      assert s == [s[0]] + s[1..];
      assert multiset(s) == multiset([s[0]]) + multiset(s[1..]);
    }
  }

  /** The filter leaves s unchanged exactly when s is already within the class. */
  lemma {:induction false} FilterFixedPoint(s: string, keep: char -> bool)
    ensures Filter(s, keep) == s <==> AllChars(s, keep)
  {
    FilterKeepsClass(s, keep);
    if s != [] && AllChars(s, keep) {
      assert AllChars(s[1..], keep) by {
        forall i | 0 <= i < |s[1..]| ensures keep(s[1..][i]) { assert s[1..][i] == s[i + 1]; }
      }
      FilterFixedPoint(s[1..], keep);
      assert s == [s[0]] + s[1..];
    }
  }

  lemma FilterIdempotent(s: string, keep: char -> bool)
    ensures Filter(Filter(s, keep), keep) == Filter(s, keep)
  {
    FilterKeepsClass(s, keep);
    FilterFixedPoint(Filter(s, keep), keep);
  }

  /** The filter works character by character, so it distributes over concatenation. */
  lemma {:induction false} FilterConcat(a: string, b: string, keep: char -> bool)
    ensures Filter(a + b, keep) == Filter(a, keep) + Filter(b, keep)
  {
    if a != [] {
      assert (a + b)[0] == a[0] && (a + b)[1..] == a[1..] + b;
      FilterConcat(a[1..], b, keep);
      assert Filter(a + b, keep) == (if keep(a[0]) then [a[0]] else []) + Filter(a[1..] + b, keep);
    } else {
      assert a + b == b;
    }
  }

  // ---------------------------------------------------------------------------
  // sanitizeSlugRegExp
  // ---------------------------------------------------------------------------

  /**
   * The slug with every character outside [a-z0-9-_] deleted. Upper-case
   * letters are deleted, not lowered, and '-' is kept as it is.
   */
  function SanitizeSlugRegExp(slug: string): (r: string)
    ensures AllChars(r, IsSlugChar)
    ensures |r| <= |slug|
  {
    FilterKeepsClass(slug, IsSlugChar);
    Filter(slug, IsSlugChar)
  }

  /**
   * The result is determined exactly: a subsequence of the input that keeps
   * every occurrence of every slug character (and, by the ensures of
   * SanitizeSlugRegExp, nothing else).
   */
  lemma SlugIsExactDeletion(slug: string)
    ensures IsSubsequence(SanitizeSlugRegExp(slug), slug)
    ensures forall c :: IsSlugChar(c) ==> multiset(SanitizeSlugRegExp(slug))[c] == multiset(slug)[c]
  {
    FilterIsSubsequence(slug, IsSlugChar);
    forall c | IsSlugChar(c) ensures multiset(Filter(slug, IsSlugChar))[c] == multiset(slug)[c] {
      FilterCounts(slug, IsSlugChar, c);
    }
  }

  /** A slug already over [a-z0-9-_] is left alone, and only such a slug is. */
  lemma SlugFixedPoint(slug: string)
    ensures SanitizeSlugRegExp(slug) == slug <==> AllChars(slug, IsSlugChar)
  {
    FilterFixedPoint(slug, IsSlugChar);
  }

  lemma SlugIdempotent(slug: string)
    ensures SanitizeSlugRegExp(SanitizeSlugRegExp(slug)) == SanitizeSlugRegExp(slug)
  {
    FilterIdempotent(slug, IsSlugChar);
  }

  // ---------------------------------------------------------------------------
  // trim($s, '/')
  // ---------------------------------------------------------------------------

  /** s without its leading run of c. */
  function TrimLeading(s: string, c: char): (r: string)
    ensures |r| <= |s| && r == s[|s| - |r|..]
    ensures forall i :: 0 <= i < |s| - |r| ==> s[i] == c
    ensures r == [] || r[0] != c
  {
    if s != [] && s[0] == c then TrimLeading(s[1..], c) else s
  }

  /** s without its trailing run of c. */
  function TrimTrailing(s: string, c: char): (r: string)
    ensures |r| <= |s| && r == s[..|r|]
    ensures forall i :: |r| <= i < |s| ==> s[i] == c
    ensures r == [] || r[|r| - 1] != c
  {
    if s != [] && s[|s| - 1] == c then TrimTrailing(s[..|s| - 1], c) else s
  }

  /** PHP's trim($s, '/'): every leading and every trailing '/' removed. */
  function TrimSlashes(s: string): (r: string)
    ensures r == [] || (r[0] != '/' && r[|r| - 1] != '/')
  {
    TrimTrailing(TrimLeading(s, '/'), '/')
  }

  /** The trim only deletes characters. */
  lemma TrimSlashesIsSubsequence(s: string)
    ensures IsSubsequence(TrimSlashes(s), s)
  {
    var t := TrimLeading(s, '/');
    var r := TrimTrailing(t, '/');
    assert r == s[|s| - |t|..|s| - |t| + |r|];
    SliceIsSubsequence(s, |s| - |t|, |s| - |t| + |r|);
  }

  /** The trim removes exactly the leading and the trailing runs of '/' and nothing else. */
  lemma TrimSlashesExact(lead: string, core: string, trail: string)
    requires forall i :: 0 <= i < |lead| ==> lead[i] == '/'
    requires forall i :: 0 <= i < |trail| ==> trail[i] == '/'
    requires core == [] || (core[0] != '/' && core[|core| - 1] != '/')
    ensures TrimSlashes(lead + core + trail) == core
  {
    if core == [] {
      assert lead + core + trail == (lead + trail) + [];
      TrimLeadingRun(lead + trail, []);
    } else {
      assert lead + core + trail == lead + (core + trail);
      TrimLeadingRun(lead, core + trail);
      TrimTrailingRun(core, trail);
    }
  }

  lemma {:induction false} TrimLeadingRun(lead: string, rest: string)
    requires forall i :: 0 <= i < |lead| ==> lead[i] == '/'
    requires rest == [] || rest[0] != '/'
    ensures TrimLeading(lead + rest, '/') == rest
    decreases |lead|
  {
    if lead == [] {
      assert lead + rest == rest;
    } else {
      assert (lead + rest)[0] == '/' && (lead + rest)[1..] == lead[1..] + rest;
      TrimLeadingRun(lead[1..], rest);
    }
  }

  lemma {:induction false} TrimTrailingRun(rest: string, trail: string)
    requires forall i :: 0 <= i < |trail| ==> trail[i] == '/'
    requires rest == [] || rest[|rest| - 1] != '/'
    ensures TrimTrailing(rest + trail, '/') == rest
    decreases |trail|
  {
    var s := rest + trail;
    if trail == [] {
      assert s == rest;
    } else {
      assert s[|s| - 1] == '/' && s[..|s| - 1] == rest + trail[..|trail| - 1];
      TrimTrailingRun(rest, trail[..|trail| - 1]);
    }
  }

  // ---------------------------------------------------------------------------
  // sanitizePath
  // ---------------------------------------------------------------------------

  /** PHP's strpos($path, '..') !== false. */
  predicate ContainsDotDot(s: string) {
    exists i :: 0 <= i < |s| - 1 && s[i] == '.' && s[i + 1] == '.'
  }

  /**
   * One call of PHP's str_replace('..', '', $s): the occurrences of ".." are
   * found from left to right, without overlapping, and deleted.
   */
  function RemoveDotDot(s: string): (r: string)
    ensures |r| <= |s|
    decreases |s|
  {
    if |s| < 2 then s
    else if s[0] == '.' && s[1] == '.' then RemoveDotDot(s[2..])
    else [s[0]] + RemoveDotDot(s[1..])
  }

  /** The termination argument of the loop: a pass that finds ".." shortens the string. */
  lemma {:induction false} RemoveDotDotShrinks(s: string)
    requires ContainsDotDot(s)
    ensures |RemoveDotDot(s)| < |s|
    decreases |s|
  {
    if !(s[0] == '.' && s[1] == '.') {
      var i :| 0 <= i < |s| - 1 && s[i] == '.' && s[i + 1] == '.';
      assert s[1..][i - 1] == s[i] && s[1..][i] == s[i + 1];
      RemoveDotDotShrinks(s[1..]);
    }
  }

  /** str_replace keeps a first character that is not '.'. */
  lemma RemoveDotDotHead(s: string)
    requires s != [] && s[0] != '.'
    ensures RemoveDotDot(s) != [] && RemoveDotDot(s)[0] == s[0]
  {
  }

  /** A string without ".." passes through str_replace unchanged. */
  lemma {:induction false} RemoveDotDotIdentity(s: string)
    requires !ContainsDotDot(s)
    ensures RemoveDotDot(s) == s
    decreases |s|
  {
    if |s| >= 2 {
      assert !(s[0] == '.' && s[1] == '.');
      assert !ContainsDotDot(s[1..]) by {
        forall i | 0 <= i < |s[1..]| - 1 ensures !(s[1..][i] == '.' && s[1..][i + 1] == '.') {
          assert s[1..][i] == s[i + 1] && s[1..][i + 1] == s[i + 2];
        }
      }
      RemoveDotDotIdentity(s[1..]);
      assert s == [s[0]] + s[1..];
    }
  }

  /**
   * A single str_replace pass already leaves no "..": a '.' that survives is
   * never followed by another '.', because such a pair would have been deleted.
   */
  lemma {:induction false} RemoveDotDotComplete(s: string)
    ensures !ContainsDotDot(RemoveDotDot(s))
    decreases |s|
  {
    if |s| >= 2 {
      if s[0] == '.' && s[1] == '.' {
        RemoveDotDotComplete(s[2..]);
      } else {
        var t := RemoveDotDot(s[1..]);
        RemoveDotDotComplete(s[1..]);
        var r := [s[0]] + t;
        assert s[1..][0] == s[1];
        if s[1] != '.' {
          RemoveDotDotHead(s[1..]);
        }
        forall i | 0 <= i < |r| - 1 ensures !(r[i] == '.' && r[i + 1] == '.') {
          if i > 0 {
            assert r[i] == t[i - 1] && r[i + 1] == t[i];
          }
        }
      }
    }
  }

  lemma {:induction false} RemoveDotDotIsSubsequence(s: string)
    ensures IsSubsequence(RemoveDotDot(s), s)
    decreases |s|
  {
    if |s| < 2 {
      SliceIsSubsequence(s, 0, |s|);
      assert s[0..|s|] == s;
    } else if s[0] == '.' && s[1] == '.' {
      RemoveDotDotIsSubsequence(s[2..]);
      SliceIsSubsequence(s, 2, |s|);
      assert s[2..|s|] == s[2..];
      SubsequenceTransitive(RemoveDotDot(s[2..]), s[2..], s);
    } else {
      RemoveDotDotIsSubsequence(s[1..]);
      var r := RemoveDotDot(s);
      assert r[0] == s[0] && r[1..] == RemoveDotDot(s[1..]);
    }
  }

  /** A pass cannot join a pair across a boundary that is not preceded by '.'. */
  lemma {:induction false} RemoveDotDotConcat(a: string, b: string)
    requires a == [] || a[|a| - 1] != '.'
    ensures RemoveDotDot(a + b) == RemoveDotDot(a) + RemoveDotDot(b)
    decreases |a|
  {
    var ab := a + b;
    if a == [] {
      assert ab == b;
    } else if |a| == 1 {
      if b == [] {
        assert ab == a;
      } else {
        assert ab[0] == a[0] && ab[1..] == b;
        assert RemoveDotDot(ab) == [a[0]] + RemoveDotDot(b);
      }
    } else if a[0] == '.' && a[1] == '.' {
      assert ab[0] == '.' && ab[1] == '.';
      assert ab[2..] == a[2..] + b;
      RemoveDotDotConcat(a[2..], b);
    } else {
      assert ab[0] == a[0] && ab[1] == a[1];
      assert ab[1..] == a[1..] + b;
      RemoveDotDotConcat(a[1..], b);
    }
  }

  /** The value the while loop of sanitizePath leaves: ".." removed until none is left. */
  function StripDotDot(s: string): (r: string)
    ensures !ContainsDotDot(r)
    decreases |s|
  {
    if ContainsDotDot(s) then
      RemoveDotDotShrinks(s);
      StripDotDot(RemoveDotDot(s))
    else s
  }

  /** The loop body runs at most once: its first pass already removes every "..". */
  lemma SinglePassSuffices(s: string)
    ensures StripDotDot(s) == RemoveDotDot(s)
  {
    if ContainsDotDot(s) {
      RemoveDotDotShrinks(s);
      RemoveDotDotComplete(s);
      RemoveDotDotIdentity(RemoveDotDot(s));
    } else {
      RemoveDotDotIdentity(s);
    }
  }

  /** What sanitizePath returns: the path without "..", and "" in place of a lone "/". */
  function SanitizedPath(path: string): (r: string)
    ensures !ContainsDotDot(r)
    ensures r != "/"
  {
    var p := StripDotDot(path);
    if p != "/" then p else ""
  }

  /** sanitizePath only deletes characters. */
  lemma SanitizedPathIsSubsequence(path: string)
    ensures IsSubsequence(SanitizedPath(path), path)
  {
    SinglePassSuffices(path);
    RemoveDotDotIsSubsequence(path);
    assert IsSubsequence("", path);
  }

  /**
   * sanitizePath: the source's while loop, which deletes every ".." and tests
   * again until none is found, then maps a lone "/" to "".
   */
  method SanitizePath(path0: string) returns (path: string)
    ensures path == SanitizedPath(path0)
    ensures !ContainsDotDot(path)
  {
    path := path0;
    while ContainsDotDot(path)
      invariant StripDotDot(path) == StripDotDot(path0)
      decreases |path|
    {
      RemoveDotDotShrinks(path);
      path := RemoveDotDot(path);
    }
    path := if path != "/" then path else "";
  }

  /** sanitizePath leaves a path alone exactly when it has no ".." and is not "/". */
  lemma SanitizedPathFixedPoint(path: string)
    ensures SanitizedPath(path) == path <==> !ContainsDotDot(path) && path != "/"
  {
    if !ContainsDotDot(path) {
      assert StripDotDot(path) == path;
    }
  }

  lemma SanitizedPathIdempotent(path: string)
    ensures SanitizedPath(SanitizedPath(path)) == SanitizedPath(path)
  {
    SanitizedPathFixedPoint(SanitizedPath(path));
  }

  /** sanitizePath is "" exactly when one str_replace pass leaves "" or "/"; otherwise it is that pass. */
  lemma SanitizedPathIsOnePass(path: string)
    ensures SanitizedPath(path) == "" <==> RemoveDotDot(path) in {"", "/"}
    ensures SanitizedPath(path) != "" ==> SanitizedPath(path) == RemoveDotDot(path)
  {
    SinglePassSuffices(path);
  }

  // ---------------------------------------------------------------------------
  // sanitizePathRegExp
  // ---------------------------------------------------------------------------

  /**
   * Filter to the path class, trim '/' from both ends, then sanitizePath. The
   * trim comes before the ".." removal, so a '/' can reappear at either end
   * (see LeadingSlashCanReappear).
   */
  function SanitizePathRegExp(path: string): (r: string)
    ensures AllChars(r, IsPathChar)
    ensures !ContainsDotDot(r)
  {
    var filtered := Filter(path, IsPathChar);
    var trimmed := TrimSlashes(filtered);
    var r := SanitizedPath(trimmed);
    FilterKeepsClass(path, IsPathChar);
    TrimSlashesIsSubsequence(filtered);
    SanitizedPathIsSubsequence(trimmed);
    SubsequenceTransitive(r, trimmed, filtered);
    SubsequenceKeepsClass(r, filtered, IsPathChar);
    r
  }

  /** sanitizePathRegExp only deletes characters: the result is a subsequence of the input. */
  lemma SanitizePathRegExpIsSubsequence(path: string)
    ensures IsSubsequence(SanitizePathRegExp(path), path)
  {
    var filtered := Filter(path, IsPathChar);
    var trimmed := TrimSlashes(filtered);
    FilterIsSubsequence(path, IsPathChar);
    TrimSlashesIsSubsequence(filtered);
    SanitizedPathIsSubsequence(trimmed);
    SubsequenceTransitive(trimmed, filtered, path);
    SubsequenceTransitive(SanitizedPath(trimmed), trimmed, path);
  }
}
