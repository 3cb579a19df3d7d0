/** `normalize` from GitCondDB.cpp: relative steps in object paths are
    removed by rewriting every `/<segment>/../` and `/./` to `/`, as
    `std::regex_replace` does with the pattern `(/[^/]+/\.\./)|(/\./)`,
    until the length stops changing. */
module Normalize {
  import opened Text
  import opened DBImpl

  /** `s` starts with `/<segment>/../` of length `n`, `<segment>` being a
      non-empty run without '/'. */
  predicate ParentAt(s: string, n: nat)
  {
    6 <= n <= |s| && s[0] == '/'
    && s[n - 4] == '/' && s[n - 3] == '.' && s[n - 2] == '.' && s[n - 1] == '/'
    && forall j :: 1 <= j < n - 4 ==> s[j] != '/'
  }

  /** `s` starts with `/./`. */
  predicate DotAt(s: string)
  {
    |s| >= 3 && s[0] == '/' && s[1] == '.' && s[2] == '/'
  }

  /** The length of the `/<segment>/../` prefix of `s`, 0 when there is
      none. The segment runs up to the next '/', so there is at most one. */
  function ParentPrefix(s: string): (n: nat)
    ensures n > 0 ==> ParentAt(s, n)
    ensures forall m :: ParentAt(s, m) ==> m == n
  {
    if |s| > 0 && s[0] == '/' then
      var k := FirstIndexOf(s[1..], '/');
      assert forall j :: 1 <= j < 1 + k ==> s[j] == s[1..][j - 1];
      assert forall m :: ParentAt(s, m) ==> m == k + 5 by {
        forall m: nat | ParentAt(s, m) ensures m == k + 5 {
          assert s[m - 4] == '/';
        }
      }
      if k > 0 && k + 5 <= |s| && s[k + 2] == '.' && s[k + 3] == '.' && s[k + 4] == '/' then k + 5 else 0
    else 0
  }

  /** Length of the match of the pattern at the start of `s`, 0 when there
      is none; the first alternative is tried first. */
  function MatchLen(s: string): (n: nat)
    ensures n == 0 || 3 <= n <= |s|
    ensures n == 0 <==> ParentPrefix(s) == 0 && !DotAt(s)
  {
    if ParentPrefix(s) > 0 then ParentPrefix(s) else if DotAt(s) then 3 else 0
  }

  /** No match starts at any position of `s`. */
  predicate NoMatch(s: string)
    decreases |s|
  {
    s == [] || (MatchLen(s) == 0 && NoMatch(s[1..]))
  }

  /** One `regex_replace`: scanning left to right, each match is replaced
      by "/" and the scan resumes after it. */
  function Replace(s: string): (r: string)
    ensures |r| <= |s|
    ensures s != [] ==> r != []
    decreases |s|
  {
    if s == [] then []
    else if MatchLen(s) > 0 then "/" + Replace(s[MatchLen(s)..])
    else [s[0]] + Replace(s[1..])
  }

  /** A pass shortens the text exactly when the pattern occurs in it, and
      otherwise leaves it unchanged. */
  lemma {:induction false} ReplaceShortens(s: string)
    ensures |Replace(s)| == |s| <==> NoMatch(s)
    ensures NoMatch(s) ==> Replace(s) == s
    decreases |s|
  {
    if s != [] {
      if MatchLen(s) > 0 {
      } else {
        ReplaceShortens(s[1..]);
        assert s == [s[0]] + s[1..];
      }
    }
  }

  /** The fixpoint `normalize` computes. */
  function Normalized(s: string): (r: string)
    ensures NoMatch(r)
    ensures |r| <= |s|
    decreases |s|
  {
    var t := Replace(s);
    ReplaceShortens(s);
    if |t| == |s| then t else Normalized(t)
  }

  /** `normalize`: rewrite until a pass leaves the length unchanged. */
  method Normalize(input: string) returns (path: string)
    ensures path == Normalized(input)
  {
    path := input;
    var oldPath := "";
    while |oldPath| != |path|
      invariant (oldPath == [] && path == input)
                || (oldPath != [] && path == Replace(oldPath) && Normalized(oldPath) == Normalized(input))
      decreases if oldPath == [] then |path| + 1 else |oldPath|
    {
      oldPath, path := path, oldPath;
      path := Replace(oldPath);
    }
  }

  /** A position where the pattern matches, in the terms of the regex. */
  predicate MatchesAt(s: string, i: int)
    requires 0 <= i <= |s|
  {
    DotAt(s[i..]) || exists n :: 0 <= n <= |s| - i && ParentAt(s[i..], n)
  }

  /** `NoMatch` means the pattern matches nowhere. */
  lemma {:induction false} NoMatchNowhere(s: string)
    ensures NoMatch(s) <==> forall i :: 0 <= i <= |s| ==> !MatchesAt(s, i)
    decreases |s|
  {
    if s != [] {
      NoMatchNowhere(s[1..]);
      assert s[0..] == s;
      if NoMatch(s) {
        forall i | 0 <= i <= |s| ensures !MatchesAt(s, i) {
          if i > 0 {
            assert s[i..] == s[1..][i - 1..];
            assert !MatchesAt(s[1..], i - 1);
          }
        }
      } else if MatchLen(s) > 0 {
        if ParentPrefix(s) > 0 {
          assert ParentAt(s[0..], ParentPrefix(s));
        }
        assert MatchesAt(s, 0);
      } else {
        var i :| 0 <= i <= |s[1..]| && MatchesAt(s[1..], i);
        assert s[i + 1..] == s[1..][i..];
        assert MatchesAt(s, i + 1);
      }
    }
  }

  /** What `normalize` returns contains neither `/<segment>/../` nor
      `/./`, and it is never longer than its input. */
  lemma NormalizedHasNoPattern(s: string)
    ensures forall i :: 0 <= i <= |Normalized(s)| ==> !MatchesAt(Normalized(s), i)
    ensures |Normalized(s)| <= |s|
  {
    NoMatchNowhere(Normalized(s));
  }

  /** Normalising twice changes nothing. */
  lemma NormalizeIdempotent(s: string)
    ensures Normalized(Normalized(s)) == Normalized(s)
  {
    ReplaceShortens(Normalized(s));
  }

  /** A path without relative steps is left as it is. */
  lemma PlainPathUnchanged(s: string)
    requires forall i :: 0 <= i <= |s| ==> !MatchesAt(s, i)
    ensures Normalized(s) == s
  {
    NoMatchNowhere(s);
    ReplaceShortens(s);
  }

  /** A pass copies text without '/' unchanged: no match starts in it. */
  lemma {:induction false} SlashFreePrefix(w: string, t: string)
    requires '/' !in w
    ensures Replace(w + t) == w + Replace(t)
    decreases |w|
  {
    if w != [] {
      var s := w + t;
      assert s[0] == w[0];
      assert MatchLen(s) == 0;
      assert s[1..] == w[1..] + t;
      SlashFreePrefix(w[1..], t);
      assert w == [w[0]] + w[1..];
    } else {
      assert w + t == t;
    }
  }

  /** A pass rewrites `/<segment>/../` to `/`. */
  lemma ParentStep(segment: string, rest: string)
    requires segment != [] && '/' !in segment
    ensures Replace("/" + segment + "/../" + rest) == "/" + Replace(rest)
  {
    var s := "/" + segment + "/../" + rest;
    assert s[1..] == segment + ("/../" + rest);
    assert s[1..][|segment|] == '/';
    assert FirstIndexOf(s[1..], '/') == |segment|;
    assert s[|segment| + 1] == '/' && s[|segment| + 2] == '.' && s[|segment| + 3] == '.' && s[|segment| + 4] == '/';
    assert s[|segment| + 5..] == rest;
  }

  lemma FirstIndexAbsent(s: string, c: char)
    requires c !in s
    ensures FirstIndexOf(s, c) == |s|
  {
  }

  lemma SlashFreeUnchanged(w: string)
    requires '/' !in w
    ensures Replace(w) == w
  {
    SlashFreePrefix(w, []);
    assert w + [] == w;
  }

  /** One pass removes `/<segment>/../` between two components. */
  lemma ReplaceParentSegment(a: string, segment: string, b: string)
    requires '/' !in a && '/' !in b && '/' !in segment && segment != []
    ensures Replace(a + ("/" + segment + "/../" + b)) == a + ("/" + b)
  {
    SlashFreePrefix(a, "/" + segment + "/../" + b);
    ParentStep(segment, b);
    SlashFreeUnchanged(b);
  }

  /** A pass leaves two components joined by '/' unchanged. */
  lemma ReplaceTwoComponents(a: string, b: string)
    requires '/' !in a && '/' !in b
    ensures Replace(a + ("/" + b)) == a + ("/" + b)
  {
    var u := "/" + b;
    SlashFreePrefix(a, u);
    assert u[1..] == b;
    FirstIndexAbsent(b, '/');
    assert ParentPrefix(u) == 0;
    assert MatchLen(u) == 0;
    SlashFreeUnchanged(b);
    assert u == [u[0]] + u[1..];
  }

  /** `a/<segment>/../b` normalises to `a/b` when `a`, `<segment>` and
      `b` are single path components. */
  lemma ParentSegmentRemoved(a: string, segment: string, b: string)
    requires '/' !in a && '/' !in b && '/' !in segment && segment != []
    ensures Normalized(a + ("/" + segment + "/../" + b)) == a + ("/" + b)
  {
    ReplaceParentSegment(a, segment, b);
    ReplaceTwoComponents(a, b);
    assert |a + ("/" + b)| < |a + ("/" + segment + "/../" + b)|;
  }

  /** A path component that is not a relative step. */
  predicate PlainName(c: string)
  {
    c != [] && '/' !in c && c != "." && c != ".."
  }

  /** `/c1/c2/.../cn`. */
  function Suffix(comps: seq<string>): (s: string)
    ensures s == [] || s[0] == '/'
  {
    if comps == [] then [] else "/" + comps[0] + Suffix(comps[1..])
  }

  lemma SuffixSnoc(comps: seq<string>, c: string)
    ensures Suffix(comps + [c]) == Suffix(comps) + "/" + c
  {
    if comps != [] {
      assert (comps + [c])[1..] == comps[1..] + [c];
      SuffixSnoc(comps[1..], c);
    } else {
      assert Suffix([c]) == "/" + c + Suffix([]);
    }
  }

  /** The pattern does not match at `/c` when `c` is a plain name and what
      follows is either nothing or a '/' that does not open `/../`. */
  lemma ComponentNoMatch(c: string, t: string)
    requires PlainName(c)
    requires t == [] || t[0] == '/'
    requires !(|t| >= 4 && t[1] == '.' && t[2] == '.' && t[3] == '/')
    ensures MatchLen("/" + c + t) == 0
  {
    var s := "/" + c + t;
    var k := |c|;
    assert s[1..] == c + t;
    assert (c + t)[..k] == c;
    if t == [] {
      assert c + t == c;
      FirstIndexAbsent(c, '/');
    } else {
      FirstIndexAt(c + t, '/', k);
    }
    assert FirstIndexOf(s[1..], '/') == k;
    assert k + 5 <= |s| ==> s[k + 2] == t[1] && s[k + 3] == t[2] && s[k + 4] == t[3];
    assert ParentPrefix(s) == 0;
    assert s[1] == c[0];
    if k == 1 {
      assert c == [c[0]];
      assert |s| >= 3 ==> s[2] == t[0];
    } else {
      assert s[2] == c[1];
    }
    assert !DotAt(s);
  }

  /** A pass keeps such a component `/c` and goes on after it. */
  lemma ReplaceComponent(c: string, t: string)
    requires PlainName(c)
    requires t == [] || t[0] == '/'
    requires !(|t| >= 4 && t[1] == '.' && t[2] == '.' && t[3] == '/')
    ensures Replace("/" + c + t) == "/" + c + Replace(t)
  {
    KeepSlash(c, t);
    SlashFreePrefix(c, t);
  }

  lemma KeepSlash(c: string, t: string)
    requires PlainName(c)
    requires t == [] || t[0] == '/'
    requires !(|t| >= 4 && t[1] == '.' && t[2] == '.' && t[3] == '/')
    ensures Replace("/" + c + t) == "/" + Replace(c + t)
  {
    ComponentNoMatch(c, t);
    AppendAssociates("/", c, t);
    KeepFirst('/', c + t);
  }

  /** Where the pattern does not match, a pass copies the first character. */
  lemma KeepFirst(x: char, rest: string)
    requires MatchLen([x] + rest) == 0
    ensures Replace([x] + rest) == [x] + Replace(rest)
  {
    assert ([x] + rest)[1..] == rest;
  }

  /** A pass leaves a path of plain components unchanged. */
  lemma {:induction false} PlainSuffixUnchanged(comps: seq<string>)
    requires forall k :: 0 <= k < |comps| ==> PlainName(comps[k])
    ensures Replace(Suffix(comps)) == Suffix(comps)
    decreases |comps|
  {
    if comps != [] {
      var t := Suffix(comps[1..]);
      PlainSuffixUnchanged(comps[1..]);
      if comps[1..] != [] {
        var d := comps[1];
        var u := Suffix(comps[2..]);
        assert comps[1..][1..] == comps[2..];
        assert t == "/" + d + u;
        assert t[1] == d[0];
        if |d| == 1 {
          assert |t| >= 4 ==> t[2] == u[0] == '/';
        } else if |d| == 2 {
          assert t[2] == d[1];
          assert d == [d[0], d[1]];
        } else {
          assert t[3] == d[2];
        }
      }
      ReplaceComponent(comps[0], t);
    }
  }

  /** A first component without '/' followed by plain components is
      already normal: `normalize` returns it as it is. */
  lemma PlainPathNormal(w: string, comps: seq<string>)
    requires '/' !in w
    requires forall k :: 0 <= k < |comps| ==> PlainName(comps[k])
    ensures Normalized(w + Suffix(comps)) == w + Suffix(comps)
  {
    SlashFreePrefix(w, Suffix(comps));
    PlainSuffixUnchanged(comps);
  }

  /** The relative key `../v1` inside `Cond/group` reaches `Cond/v1`. */
  lemma GroupParentExample()
    ensures Normalized("Cond/group" + "/" + "../v1") == "Cond/v1"
  {
    assert "Cond/group" + "/" + "../v1" == "Cond" + ("/" + "group" + "/../" + "v1");
    ParentSegmentRemoved("Cond", "group", "v1");
    assert "Cond" + ("/" + "v1") == "Cond/v1";
  }
}
