/** The string operations the pages use: `trim`, `toLowerCase`, `toUpperCase`, `includes`, `substring`. */
module Text {

  /** The characters `String.prototype.trim` removes: ECMAScript WhiteSpace and LineTerminator. */
  predicate IsWhitespace(c: char)
  {
    c == '\t' || c == '\n' || c == '\U{000B}' || c == '\U{000C}' || c == '\r' || c == ' ' ||
    c == '\U{00A0}' || c == '\U{1680}' || ('\U{2000}' <= c <= '\U{200A}') ||
    c == '\U{2028}' || c == '\U{2029}' || c == '\U{202F}' || c == '\U{205F}' ||
    c == '\U{3000}' || c == '\U{FEFF}'
  }

  function TrimStart(s: string): (r: string)
  {
    if s != [] && IsWhitespace(s[0]) then TrimStart(s[1..]) else s
  }

  function TrimEnd(s: string): (r: string)
  {
    if s != [] && IsWhitespace(s[|s| - 1]) then TrimEnd(s[..|s| - 1]) else s
  }

  function Trim(s: string): (r: string)
  {
    TrimEnd(TrimStart(s))
  }

  /** `!s.trim()`: nothing is left once surrounding whitespace is removed. */
  predicate IsBlank(s: string)
  {
    Trim(s) == ""
  }

  /**
   * `trimStart` drops exactly the leading whitespace: the result is the suffix after a run of
   * whitespace, and it does not itself start with whitespace (so the run is the longest).
   */
  lemma {:induction false} TrimStartSpec(s: string)
    ensures TrimStart(s) == "" <==> forall i :: 0 <= i < |s| ==> IsWhitespace(s[i])
    ensures TrimStart(s) != "" ==> !IsWhitespace(TrimStart(s)[0])
    ensures exists k :: 0 <= k <= |s| && TrimStart(s) == s[k..] && forall i :: 0 <= i < k ==> IsWhitespace(s[i])
  {
    if s != [] && IsWhitespace(s[0]) {
      TrimStartSpec(s[1..]);
      var k :| 0 <= k <= |s[1..]| && TrimStart(s[1..]) == s[1..][k..] && forall i :: 0 <= i < k ==> IsWhitespace(s[1..][i]);
      assert TrimStart(s) == s[k + 1..];
      assert forall i :: 1 <= i < |s| ==> s[i] == s[1..][i - 1];
      assert forall i :: 0 <= i < k + 1 ==> IsWhitespace(s[i]);
    } else {
      assert TrimStart(s) == s[0..];
    }
  }

  /**
   * `trimEnd` drops exactly the trailing whitespace: the result is the prefix before a run of
   * whitespace, and it does not itself end with whitespace (so the run is the longest).
   */
  lemma {:induction false} TrimEndSpec(s: string)
    ensures TrimEnd(s) == "" <==> forall i :: 0 <= i < |s| ==> IsWhitespace(s[i])
    ensures TrimEnd(s) != "" ==> !IsWhitespace(TrimEnd(s)[|TrimEnd(s)| - 1])
    ensures exists k :: 0 <= k <= |s| && TrimEnd(s) == s[..k] && forall i :: k <= i < |s| ==> IsWhitespace(s[i])
  {
    if s != [] && IsWhitespace(s[|s| - 1]) {
      var p := s[..|s| - 1];
      TrimEndSpec(p);
      var k :| 0 <= k <= |p| && TrimEnd(p) == p[..k] && forall i :: k <= i < |p| ==> IsWhitespace(p[i]);
      assert TrimEnd(s) == s[..k];
      assert forall i :: 0 <= i < |p| ==> s[i] == p[i];
      assert forall i :: k <= i < |s| ==> IsWhitespace(s[i]);
    } else {
      assert TrimEnd(s) == s[..|s|];
    }
  }

  /** A string is blank exactly when every character of it is whitespace (so "" is blank). */
  lemma BlankIffAllWhitespace(s: string)
    ensures IsBlank(s) <==> forall i :: 0 <= i < |s| ==> IsWhitespace(s[i])
  {
    TrimStartSpec(s);
    var t := TrimStart(s);
    TrimEndSpec(t);
    if t != "" {
      assert !IsWhitespace(t[0]);
    }
  }

  /** `trim` leaves no whitespace at either end of its result. */
  lemma TrimEnds(s: string)
    ensures Trim(s) != "" ==> !IsWhitespace(Trim(s)[0]) && !IsWhitespace(Trim(s)[|Trim(s)| - 1])
  {
    TrimStartSpec(s);
    var t := TrimStart(s);
    TrimEndSpec(t);
    if Trim(s) != "" {
      var k :| 0 <= k <= |t| && TrimEnd(t) == t[..k] && forall i :: k <= i < |t| ==> IsWhitespace(t[i]);
      assert Trim(s)[0] == t[0];
    }
  }

  /** `trim` keeps the middle of the string: what it drops before and after the result is whitespace. */
  lemma TrimMiddle(s: string)
    ensures exists a, b :: TrimmedBetween(s, a, b)
  {
    var a := LeadingRun(s);
    var k := TrailingRun(TrimStart(s));
    Between(s, TrimStart(s), a, k);
  }

  /** The length of the whitespace run `trimStart` drops. */
  lemma LeadingRun(s: string) returns (a: nat)
    ensures a <= |s| && TrimStart(s) == s[a..] && forall i :: 0 <= i < a ==> IsWhitespace(s[i])
  {
    TrimStartSpec(s);
    a :| 0 <= a <= |s| && TrimStart(s) == s[a..] && forall i :: 0 <= i < a ==> IsWhitespace(s[i]);
  }

  /** The length of what `trimEnd` keeps. */
  lemma TrailingRun(t: string) returns (k: nat)
    ensures k <= |t| && TrimEnd(t) == t[..k] && forall i :: k <= i < |t| ==> IsWhitespace(t[i])
  {
    TrimEndSpec(t);
    k :| 0 <= k <= |t| && TrimEnd(t) == t[..k] && forall i :: k <= i < |t| ==> IsWhitespace(t[i]);
  }

  /** Whitespace before `a` and after `k` characters of `s[a..]` bound `Trim(s)` when it is that prefix. */
  lemma Between(s: string, t: string, a: nat, k: nat)
    requires a <= |s| && t == s[a..] && forall i :: 0 <= i < a ==> IsWhitespace(s[i])
    requires k <= |t| && Trim(s) == t[..k] && forall i :: k <= i < |t| ==> IsWhitespace(t[i])
    ensures TrimmedBetween(s, a, a + k)
  {
    assert t[..k] == s[a..a + k];
    assert forall i :: a + k <= i < |s| ==> s[i] == t[i - a];
  }

  /** `Trim(s)` is `s[a..b]` and everything outside `a..b` is whitespace. */
  ghost predicate TrimmedBetween(s: string, a: int, b: int)
  {
    0 <= a <= b <= |s| && Trim(s) == s[a..b] &&
    (forall i :: 0 <= i < a ==> IsWhitespace(s[i])) &&
    (forall i :: b <= i < |s| ==> IsWhitespace(s[i]))
  }

  /** Trimming an already trimmed string changes nothing. */
  lemma TrimIdempotent(s: string)
    ensures Trim(Trim(s)) == Trim(s)
  {
    var r := Trim(s);
    if r != "" {
      TrimEnds(s);
      assert TrimStart(r) == r;
      assert TrimEnd(r) == r;
    }
  }

  /** ASCII case mapping, as `toLowerCase` does on the ASCII range. */
  function LowerChar(c: char): (r: char)
  {
    if 'A' <= c <= 'Z' then (c as int + 32) as char else c
  }

  function UpperChar(c: char): (r: char)
  {
    if 'a' <= c <= 'z' then (c as int - 32) as char else c
  }

  function ToLower(s: string): (r: string)
    ensures |r| == |s|
    ensures forall i :: 0 <= i < |s| ==> r[i] == LowerChar(s[i])
  {
    seq(|s|, i requires 0 <= i < |s| => LowerChar(s[i]))
  }

  function ToUpper(s: string): (r: string)
    ensures |r| == |s|
    ensures forall i :: 0 <= i < |s| ==> r[i] == UpperChar(s[i])
  {
    seq(|s|, i requires 0 <= i < |s| => UpperChar(s[i]))
  }

  lemma ToLowerIdempotent(s: string)
    ensures ToLower(ToLower(s)) == ToLower(s)
  {
  }

  /** Upper-casing leaves no ASCII lower-case letter behind. */
  lemma ToUpperHasNoLower(s: string)
    ensures forall i :: 0 <= i < |ToUpper(s)| ==> !('a' <= ToUpper(s)[i] <= 'z')
  {
  }

  /** `t` occurs in `s` starting at index `i`. */
  predicate OccursAt(s: string, t: string, i: int)
  {
    0 <= i && i + |t| <= |s| && s[i..i + |t|] == t
  }

  /** `s.includes(t)`: a search from the left for an occurrence of `t`. */
  predicate Includes(s: string, t: string)
    decreases |s|
  {
    (|t| <= |s| && s[..|t|] == t) || (s != [] && Includes(s[1..], t))
  }

  /** `Includes` agrees with the definition by occurrence position. */
  lemma {:induction false} IncludesIffOccurs(s: string, t: string)
    ensures Includes(s, t) <==> exists i :: OccursAt(s, t, i)
    decreases |s|
  {
    if s != [] {
      IncludesIffOccurs(s[1..], t);
      if exists i :: OccursAt(s[1..], t, i) {
        var i :| OccursAt(s[1..], t, i);
        assert s[i + 1..i + 1 + |t|] == s[1..][i..i + |t|];
        assert OccursAt(s, t, i + 1);
      }
      if exists i :: OccursAt(s, t, i) {
        var i :| OccursAt(s, t, i);
        if i > 0 {
          assert s[1..][i - 1..i - 1 + |t|] == s[i..i + |t|];
          assert OccursAt(s[1..], t, i - 1);
        } else {
          assert s[..|t|] == t;
        }
      }
    }
    if |t| <= |s| && s[..|t|] == t {
      assert s[0..0 + |t|] == t;
      assert OccursAt(s, t, 0);
    }
  }

  /** Every string includes the empty string. */
  lemma IncludesEmpty(s: string)
    ensures Includes(s, "")
  {
    assert s[..0] == "";
  }

  /** `s.toLowerCase().includes(t.toLowerCase())`: the search both list pages use. */
  predicate ContainsIgnoringCase(s: string, t: string)
  {
    Includes(ToLower(s), ToLower(t))
  }

  /** An empty search term is found in every field. */
  lemma EmptyTermMatches(s: string)
    ensures ContainsIgnoringCase(s, "")
  {
    assert ToLower("") == "";
    IncludesEmpty(ToLower(s));
  }
}
