/** String primitives the chat controller relies on: `trim`, `toLowerCase`
    and `includes`, stated over Dafny strings (sequences of Unicode scalar values). */
module Text {

  /** The characters `String.prototype.trim` removes: the WhiteSpace and
      LineTerminator code points of ECMAScript (section 12.2 and 12.3 of ECMA-262). */
  predicate IsTrimmable(c: char) {
    || c == '\t' || c == '\n' || c == '\U{000B}' || c == '\U{000C}' || c == '\r'
    || c == ' ' || c == '\U{00A0}' || c == '\U{1680}'
    || ('\U{2000}' <= c <= '\U{200A}')
    || c == '\U{2028}' || c == '\U{2029}' || c == '\U{202F}' || c == '\U{205F}'
    || c == '\U{3000}' || c == '\U{FEFF}'
  }

  /** Every character of `t` is removed by trim. */
  predicate AllTrimmable(t: string) {
    forall k :: 0 <= k < |t| ==> IsTrimmable(t[k])
  }

  /** Drops leading whitespace: the result is a suffix of `s`, what was dropped is
      all whitespace, and the result does not itself start with whitespace. */
  function TrimStart(s: string): (r: string)
    ensures |r| <= |s| && r == s[|s| - |r|..]
    ensures AllTrimmable(s[..|s| - |r|])
    ensures |r| > 0 ==> !IsTrimmable(r[0])
    decreases |s|
  {
    if |s| > 0 && IsTrimmable(s[0]) then TrimStart(s[1..]) else s
  }

  /** Drops trailing whitespace: the result is a prefix of `s`, what was dropped is
      all whitespace, and the result does not itself end with whitespace. */
  function TrimEnd(s: string): (r: string)
    ensures |r| <= |s| && r == s[..|r|]
    ensures AllTrimmable(s[|r|..])
    ensures |r| > 0 ==> !IsTrimmable(r[|r| - 1])
    decreases |s|
  {
    if |s| > 0 && IsTrimmable(s[|s| - 1]) then TrimEnd(s[..|s| - 1]) else s
  }

  /** `String.prototype.trim`: never longer than its input, and what it keeps neither
      starts nor ends with whitespace. */
  function Trim(s: string): (r: string)
    ensures |r| <= |s|
    ensures |r| > 0 ==> !IsTrimmable(r[0]) && !IsTrimmable(r[|r| - 1])
  {
    var a := TrimStart(s);
    var r := TrimEnd(a);
    assert |r| > 0 ==> r[0] == a[0];
    r
  }

  /** Trim keeps the contiguous middle of `s`: what it drops before and after is all whitespace. */
  lemma TrimIsMiddle(s: string)
    ensures var r := Trim(s);
      exists i :: 0 <= i <= |s| - |r| && r == s[i..i + |r|]
                  && AllTrimmable(s[..i]) && AllTrimmable(s[i + |r|..])
  {
    var a := TrimStart(s);
    var r := TrimEnd(a);
    var i := |s| - |a|;
    assert a == s[i..];
    assert r == s[i..i + |r|];
    assert s[i + |r|..] == a[|r|..];
  }

  /** Trim yields the empty string exactly when `s` is all whitespace. */
  lemma TrimEmptyIffBlank(s: string)
    ensures Trim(s) == [] <==> AllTrimmable(s)
  {
    var a := TrimStart(s);
    var i := |s| - |a|;
    assert a == s[i..];
    if Trim(s) == [] {
      assert a == [];
      assert s == s[..i];
    } else {
      assert a[0] == s[i];
      assert !IsTrimmable(s[i]);
    }
  }

  /** A string that neither starts nor ends with whitespace is its own trim. */
  lemma TrimKeepsSignificant(s: string)
    requires |s| > 0 ==> !IsTrimmable(s[0]) && !IsTrimmable(s[|s| - 1])
    ensures Trim(s) == s
  {
  }

  /** Trimming an already trimmed string changes nothing. */
  lemma TrimIdempotent(s: string)
    ensures Trim(Trim(s)) == Trim(s)
  {
    var t := Trim(s);
    assert TrimStart(t) == t;
    assert TrimEnd(t) == t;
  }

  /** `toLowerCase` on one character: the ASCII capitals and the Kelvin sign, the one
      non-ASCII character whose lower case is an ASCII letter. No capital is left, and
      every other character is kept as it is. */
  function LowerChar(c: char): (r: char)
    ensures !('A' <= r <= 'Z') && r != '\U{212A}'
    ensures r == c || 'A' <= c <= 'Z' || c == '\U{212A}'
  {
    if 'A' <= c <= 'Z' then (c as int + 32) as char
    else if c == '\U{212A}' then 'k'
    else c
  }

  /** `String.prototype.toLowerCase`, character by character: each ASCII capital
      becomes its small letter, the Kelvin sign becomes `k`, and nothing else changes. */
  function Lower(s: string): (r: string)
    ensures |r| == |s|
    ensures forall k :: 0 <= k < |s| ==> !('A' <= r[k] <= 'Z') && r[k] != '\U{212A}'
    ensures forall k :: 0 <= k < |s| && 'A' <= s[k] <= 'Z' ==> r[k] as int == s[k] as int + 32
    ensures forall k :: 0 <= k < |s| && s[k] == '\U{212A}' ==> r[k] == 'k'
    ensures forall k :: 0 <= k < |s| && !('A' <= s[k] <= 'Z') && s[k] != '\U{212A}' ==> r[k] == s[k]
  {
    seq(|s|, k requires 0 <= k < |s| => LowerChar(s[k]))
  }

  /** A lowered string has no capital ASCII letter left, and lowering it again changes nothing. */
  lemma LowerIsIdempotent(s: string)
    ensures forall k :: 0 <= k < |s| ==> !('A' <= Lower(s)[k] <= 'Z')
    ensures Lower(Lower(s)) == Lower(s)
  {
  }

  /** Lowering a string with no capital letter (and no Kelvin sign) changes nothing. */
  lemma LowerKeepsLowercase(s: string)
    requires forall k :: 0 <= k < |s| ==> LowerChar(s[k]) == s[k]
    ensures Lower(s) == s
  {
  }

  /** `p` occurs in `s` starting at index `i`. */
  predicate OccursAt(s: string, p: string, i: nat) {
    i + |p| <= |s| && s[i..i + |p|] == p
  }

  /** `String.prototype.includes`: is `p` a substring of `s`? Scans the start positions of
      `s` left to right. */
  function Includes(s: string, p: string): (r: bool)
    ensures r ==> |p| <= |s|
    ensures |p| == 0 ==> r
    decreases |s|
  {
    if |p| > |s| then false
    else if s[..|p|] == p then true
    else Includes(s[1..], p)
  }

  /** The scan finds `p` exactly when `p` occurs somewhere in `s`. */
  lemma {:induction false} IncludesIffOccurs(s: string, p: string)
    ensures Includes(s, p) <==> exists i: nat :: OccursAt(s, p, i)
    decreases |s|
  {
    if |p| > |s| {
    } else if s[..|p|] == p {
      assert OccursAt(s, p, 0);
    } else {
      IncludesIffOccurs(s[1..], p);
      assert !OccursAt(s, p, 0);
      forall i: nat | OccursAt(s, p, i) && i > 0
        ensures OccursAt(s[1..], p, i - 1)
      {
        assert s[1..][i - 1..i - 1 + |p|] == s[i..i + |p|];
      }
      forall i: nat | OccursAt(s[1..], p, i)
        ensures OccursAt(s, p, i + 1)
      {
        assert s[1..][i..i + |p|] == s[i + 1..i + 1 + |p|];
      }
    }
  }

  /** Whatever contains `u + p + v` contains `p`: the reason a longer word such as
      "catalog" or "login" contains the keyword "log". */
  lemma IncludesInfix(u: string, p: string, v: string)
    ensures Includes(u + p + v, p)
  {
    var s := u + p + v;
    assert OccursAt(s, p, |u|) by {
      assert s[|u|..|u| + |p|] == p;
    }
    IncludesIffOccurs(s, p);
  }

  /** A word with a character that `s` lacks is not in `s`. */
  lemma MissingCharExcludes(s: string, p: string, j: nat)
    requires j < |p| && p[j] !in s
    ensures !Includes(s, p)
  {
    forall i: nat ensures !OccursAt(s, p, i) {
      if i + |p| <= |s| {
        assert s[i..i + |p|][j] == s[i + j];
      }
    }
    IncludesIffOccurs(s, p);
  }

  /** Character `c` of a command reads as the small letter or space `d` once lowered:
      it is `d` itself, its ASCII capital, or the Kelvin sign standing for `k`. */
  predicate SameIgnoringCase(c: char, d: char) {
    || c == d
    || ('a' <= d <= 'z' && c as int == d as int - 32)
    || (d == 'k' && c == '\U{212A}')
  }

  /** Keyword `p` occurs in `s` at index `i`, ignoring case. */
  predicate OccursIgnoringCaseAt(s: string, p: string, i: nat) {
    i + |p| <= |s| && forall j :: 0 <= j < |p| ==> SameIgnoringCase(s[i + j], p[j])
  }

  /** Keywords of small letters and spaces: all the router looks for. */
  predicate IsPlainKeyword(p: string) {
    forall j :: 0 <= j < |p| ==> 'a' <= p[j] <= 'z' || p[j] == ' '
  }

  /** Searching the lowered command for a plain keyword finds it exactly when the
      keyword occurs in the command as typed, in any capitalisation. */
  lemma IncludesLowerIgnoresCase(s: string, p: string)
    requires IsPlainKeyword(p)
    ensures Includes(Lower(s), p) <==> exists i: nat :: OccursIgnoringCaseAt(s, p, i)
  {
    var low := Lower(s);
    IncludesIffOccurs(low, p);
    forall i: nat ensures OccursAt(low, p, i) <==> OccursIgnoringCaseAt(s, p, i) {
      if i + |p| <= |s| {
        forall j | 0 <= j < |p| ensures low[i + j] == p[j] <==> SameIgnoringCase(s[i + j], p[j]) {
          assert low[i + j] == LowerChar(s[i + j]);
        }
        if OccursAt(low, p, i) {
          forall j | 0 <= j < |p| ensures SameIgnoringCase(s[i + j], p[j]) {
            assert low[i..i + |p|][j] == low[i + j];
          }
        }
        if OccursIgnoringCaseAt(s, p, i) {
          assert low[i..i + |p|] == p;
        }
      }
    }
  }
}
