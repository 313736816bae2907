/** String helpers shared by the catalog, the session and the discovery registrar. */
module Text {

  /** No character of `s` is a dot. */
  ghost predicate NoDot(s: string) {
    forall i :: 0 <= i < |s| ==> s[i] != '.'
  }

  /** `a + "." + b` determines `a` and `b` when `a` holds no dot. */
  lemma {:induction false} DotJoinInjective(a: string, b: string, c: string, d: string)
    requires NoDot(a) && NoDot(c)
    requires a + "." + b == c + "." + d
    ensures a == c && b == d
  {
    var l, r := a + "." + b, c + "." + d;
    SameDotPosition(a, b, c, d);
    assert a == l[..|a|] == r[..|c|] == c;
    assert b == l[|a| + 1..] == r[|c| + 1..] == d;
  }

  lemma SameDotPosition(a: string, b: string, c: string, d: string)
    requires NoDot(a) && NoDot(c)
    requires a + "." + b == c + "." + d
    ensures |a| == |c|
  {
    var l, r := a + "." + b, c + "." + d;
    var k := if |a| < |c| then |a| else |c|;
    assert l[k] == r[k];
  }

  /** `p` is a prefix of `s`. */
  predicate IsPrefix(p: string, s: string) {
    |p| <= |s| && s[..|p|] == p
  }

  /** JavaScript's `s.indexOf(sub) > -1`. */
  predicate Contains(s: string, sub: string)
    decreases |s|
  {
    IsPrefix(sub, s) || (|s| > 0 && Contains(s[1..], sub))
  }

  /** A string shorter than `sub` cannot contain it. */
  lemma {:induction false} ShorterNotContains(s: string, sub: string)
    requires |s| < |sub|
    ensures !Contains(s, sub)
    decreases |s|
  {
    if |s| > 0 {
      ShorterNotContains(s[1..], sub);
    }
  }

  /** The characters JavaScript's `String.prototype.trim` removes. */
  predicate IsSpace(c: char) {
    c == ' ' || c == '\t' || c == '\n' || c == '\r' || c == '\U{B}' || c == '\U{C}'
    || c == '\U{A0}' || c == '\U{1680}' || ('\U{2000}' <= c <= '\U{200A}')
    || c == '\U{2028}' || c == '\U{2029}' || c == '\U{202F}' || c == '\U{205F}'
    || c == '\U{3000}' || c == '\U{FEFF}'
  }

  function TrimStart(s: string): string
    decreases |s|
  {
    if |s| > 0 && IsSpace(s[0]) then TrimStart(s[1..]) else s
  }

  function TrimEnd(s: string): string
    decreases |s|
  {
    if |s| > 0 && IsSpace(s[|s| - 1]) then TrimEnd(s[..|s| - 1]) else s
  }

  /** JavaScript's `s.trim()`. */
  function Trim(s: string): string {
    TrimEnd(TrimStart(s))
  }

  ghost predicate AllSpace(s: string) {
    forall i :: 0 <= i < |s| ==> IsSpace(s[i])
  }

  lemma {:induction false} TrimStartEmpty(s: string)
    ensures TrimStart(s) == "" <==> AllSpace(s)
    decreases |s|
  {
    if |s| > 0 && IsSpace(s[0]) {
      TrimStartEmpty(s[1..]);
      assert AllSpace(s[1..]) <==> AllSpace(s) by {
        if AllSpace(s[1..]) {
          forall i | 0 <= i < |s| ensures IsSpace(s[i]) {
            if i > 0 { assert s[i] == s[1..][i - 1]; }
          }
        }
      }
    } else if |s| > 0 {
      assert !AllSpace(s);
    }
  }

  lemma {:induction false} TrimEndSame(s: string)
    requires |s| == 0 || !IsSpace(s[0])
    ensures TrimEnd(s) == "" <==> s == ""
    decreases |s|
  {
    if |s| > 0 && IsSpace(s[|s| - 1]) {
      assert |s| > 1;
      TrimEndSame(s[..|s| - 1]);
    }
  }

  /** `s.trim() === ''` exactly when every character of `s` is white space. */
  lemma TrimEmpty(s: string)
    ensures Trim(s) == "" <==> AllSpace(s)
  {
    var t := TrimStart(s);
    TrimStartEmpty(s);
    TrimStartNoLeadingSpace(s);
    TrimEndSame(t);
  }

  lemma {:induction false} TrimStartNoLeadingSpace(s: string)
    ensures |TrimStart(s)| == 0 || !IsSpace(TrimStart(s)[0])
    decreases |s|
  {
    if |s| > 0 && IsSpace(s[0]) {
      TrimStartNoLeadingSpace(s[1..]);
    }
  }

  /** JavaScript's `s.replaceAll(c, '')` for a one-character pattern. */
  function RemoveChar(s: string, c: char): (r: string)
    ensures forall i :: 0 <= i < |r| ==> r[i] != c
    ensures |r| <= |s|
  {
    if s == [] then []
    else (if s[0] == c then [] else [s[0]]) + RemoveChar(s[1..], c)
  }

  /** `s.split('.').slice(0, 1).join()`: the text before the first dot, or all of `s`. */
  function FirstSegment(s: string): (r: string)
    ensures IsPrefix(r, s)
    ensures NoDot(r)
    ensures r == s || s[|r|] == '.'
  {
    if s == [] then []
    else if s[0] == '.' then []
    else [s[0]] + FirstSegment(s[1..])
  }
}
