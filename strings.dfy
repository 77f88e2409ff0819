/**
 * The few Python string operations the core relies on: `str.strip()`,
 * `str.lower()` (only as far as comparing with "y"), and `sep.join(lines)`.
 * Characters are Unicode scalar values, as Python's `str` holds code points.
 */
module Strings {

  /**
   * The characters for which Python's `str.isspace()` holds, those
   * `str.strip()` removes: tab to carriage return, the four information
   * separators, space, next line, no-break space, and the Unicode spaces and
   * line and paragraph separators.
   */
  predicate IsSpace(c: char) {
    || c == ' ' || c == '\n' || c == '\t' || c == '\r' || c == '\U{b}' || c == '\U{c}'
    || c == '\U{1c}' || c == '\U{1d}' || c == '\U{1e}' || c == '\U{1f}'
    || c == '\U{85}' || c == '\U{a0}' || c == '\U{1680}'
    || c == '\U{2000}' || c == '\U{2001}' || c == '\U{2002}' || c == '\U{2003}' || c == '\U{2004}'
    || c == '\U{2005}' || c == '\U{2006}' || c == '\U{2007}' || c == '\U{2008}' || c == '\U{2009}'
    || c == '\U{200a}' || c == '\U{2028}' || c == '\U{2029}' || c == '\U{202f}' || c == '\U{205f}'
    || c == '\U{3000}'
  }

  predicate AllSpace(s: string) {
    forall i :: 0 <= i < |s| ==> IsSpace(s[i])
  }

  /** `s` neither starts nor ends with whitespace. */
  predicate Stripped(s: string) {
    s == "" || (!IsSpace(s[0]) && !IsSpace(s[|s| - 1]))
  }

  /** The first index at or after `i` that holds no whitespace, or `|s|`. */
  function SkipSpace(s: string, i: nat): (j: nat)
    requires i <= |s|
    ensures i <= j <= |s|
    decreases |s| - i
  {
    if i < |s| && IsSpace(s[i]) then SkipSpace(s, i + 1) else i
  }

  /** `SkipSpace` passes over whitespace only, and stops at the first character that is not. */
  lemma {:induction false} SkipSpaceStops(s: string, i: nat)
    requires i <= |s|
    ensures forall k :: i <= k < SkipSpace(s, i) ==> IsSpace(s[k])
    ensures SkipSpace(s, i) < |s| ==> !IsSpace(s[SkipSpace(s, i)])
    decreases |s| - i
  {
    if i < |s| && IsSpace(s[i]) {
      SkipSpaceStops(s, i + 1);
    }
  }

  /** The end of `s[lo..j]` once its trailing whitespace is dropped. */
  function SkipSpaceBack(s: string, lo: nat, j: nat): (k: nat)
    requires lo <= j <= |s|
    ensures lo <= k <= j
  {
    if j > lo && IsSpace(s[j - 1]) then SkipSpaceBack(s, lo, j - 1) else j
  }

  /** `SkipSpaceBack` passes backwards over whitespace only, and stops after the last character of `s[lo..j]` that is not. */
  lemma {:induction false} SkipSpaceBackStops(s: string, lo: nat, j: nat)
    requires lo <= j <= |s|
    ensures forall m :: SkipSpaceBack(s, lo, j) <= m < j ==> IsSpace(s[m])
    ensures SkipSpaceBack(s, lo, j) > lo ==> !IsSpace(s[SkipSpaceBack(s, lo, j) - 1])
  {
    if j > lo && IsSpace(s[j - 1]) {
      SkipSpaceBackStops(s, lo, j - 1);
    }
  }

  /** How many whitespace characters `s` starts with. */
  function LeadingSpace(s: string): (n: nat)
    ensures n <= |s|
  {
    SkipSpace(s, 0)
  }

  /** Python's `s.strip()`: `s` without its leading and trailing whitespace. */
  function Strip(s: string): (r: string)
    ensures |r| <= |s|
  {
    var a := SkipSpace(s, 0);
    s[a..SkipSpaceBack(s, a, |s|)]
  }

  /**
   * What `strip()` returns: the infix of `s` after its leading whitespace,
   * neither starting nor ending with whitespace, followed in `s` by
   * whitespace only, and empty exactly when `s` is all whitespace.
   */
  lemma StripSpec(s: string)
    ensures Strip(s) == "" <==> AllSpace(s)
    ensures Stripped(Strip(s))
    ensures |Strip(s)| <= |s| - LeadingSpace(s)
    ensures Strip(s) == s[LeadingSpace(s)..LeadingSpace(s) + |Strip(s)|]
    ensures forall k :: LeadingSpace(s) + |Strip(s)| <= k < |s| ==> IsSpace(s[k])
  {
    var a := SkipSpace(s, 0);
    SkipSpaceStops(s, 0);
    SkipSpaceBackStops(s, a, |s|);
  }

  /** `StripSpec` determines `strip()`: any string meeting its clauses is `Strip(s)`. */
  lemma StripSpecDetermines(s: string, t: string)
    requires t == "" <==> AllSpace(s)
    requires Stripped(t)
    requires LeadingSpace(s) + |t| <= |s| && t == s[LeadingSpace(s)..LeadingSpace(s) + |t|]
    requires forall k :: LeadingSpace(s) + |t| <= k < |s| ==> IsSpace(s[k])
    ensures t == Strip(s)
  {
    StripSpec(s);
    var a, r := LeadingSpace(s), Strip(s);
    // the last character of each is not whitespace, so neither can end before the other
    if r != "" {
      assert r[|r| - 1] == s[a + |r| - 1];
    }
    if t != "" {
      assert t[|t| - 1] == s[a + |t| - 1];
    }
  }

  /** The strings `strip()` leaves as they are are exactly those without whitespace at either end. */
  lemma StrippedIsFixpoint(s: string)
    ensures Stripped(s) <==> Strip(s) == s
  {
    StripSpec(s);
    if Stripped(s) && s != "" {
      assert SkipSpace(s, 0) == 0;
      assert SkipSpaceBack(s, 0, |s|) == |s|;
    }
  }

  /** Stripping twice is stripping once. */
  lemma StripIdempotent(s: string)
    ensures Strip(Strip(s)) == Strip(s)
  {
    StripSpec(s);
    StrippedIsFixpoint(Strip(s));
  }

  lemma {:induction false} AllSpaceConcat(a: string, b: string)
    ensures AllSpace(a + b) <==> AllSpace(a) && AllSpace(b)
  {
    if AllSpace(a) && AllSpace(b) {
      forall i | 0 <= i < |a + b| ensures IsSpace((a + b)[i]) {
        if i < |a| { assert (a + b)[i] == a[i]; } else { assert (a + b)[i] == b[i - |a|]; }
      }
    }
    if AllSpace(a + b) {
      forall i | 0 <= i < |a| ensures IsSpace(a[i]) { assert (a + b)[i] == a[i]; }
      forall i | 0 <= i < |b| ensures IsSpace(b[i]) { assert (a + b)[|a| + i] == b[i]; }
    }
  }

  /** Python's `sep.join(lines)`. */
  function Join(lines: seq<string>, sep: string): string {
    if |lines| == 0 then ""
    else if |lines| == 1 then lines[0]
    else lines[0] + sep + Join(lines[1..], sep)
  }

  /**
   * Joining with a whitespace separator gives an all-whitespace text exactly
   * when every joined line is all whitespace: so `"\n".join(lines).strip()`
   * is empty exactly when every line is blank.
   */
  lemma {:induction false} JoinAllSpace(lines: seq<string>, sep: string)
    requires AllSpace(sep)
    ensures AllSpace(Join(lines, sep)) <==> forall k :: 0 <= k < |lines| ==> AllSpace(lines[k])
  {
    if |lines| > 1 {
      JoinAllSpace(lines[1..], sep);
      AllSpaceConcat(lines[0] + sep, Join(lines[1..], sep));
      AllSpaceConcat(lines[0], sep);
      if forall k :: 0 <= k < |lines[1..]| ==> AllSpace(lines[1..][k]) {
        if AllSpace(lines[0]) {
          forall k | 0 <= k < |lines| ensures AllSpace(lines[k]) {
            if k > 0 { assert lines[k] == lines[1..][k - 1]; }
          }
        }
      }
      if forall k :: 0 <= k < |lines| ==> AllSpace(lines[k]) {
        forall k | 0 <= k < |lines[1..]| ensures AllSpace(lines[1..][k]) {
          assert lines[1..][k] == lines[k + 1];
        }
      }
    }
  }

  /** Maps ASCII upper-case letters to lower case and leaves every other character alone. */
  function LowerChar(c: char): char {
    if 'A' <= c <= 'Z' then (c as int + 32) as char else c
  }

  /** `str.lower()` restricted to ASCII letters. */
  function Lower(s: string): (r: string)
    ensures |r| == |s|
  {
    if s == [] then [] else [LowerChar(s[0])] + Lower(s[1..])
  }

  /** Each character is lowered on its own. */
  lemma {:induction false} LowerPointwise(s: string)
    ensures forall i :: 0 <= i < |s| ==> Lower(s)[i] == LowerChar(s[i])
  {
    if s != [] {
      LowerPointwise(s[1..]);
      assert forall i :: 1 <= i < |s| ==> Lower(s)[i] == Lower(s[1..])[i - 1];
    }
  }

  /** The only strings whose lower-case form is "y" are "y" and "Y". */
  lemma LowerIsY(s: string)
    ensures Lower(s) == "y" <==> s == "y" || s == "Y"
  {
    if Lower(s) == "y" {
      assert |s| == 1;
      assert Lower(s) == [LowerChar(s[0])] + Lower(s[1..]);
      assert Lower(s)[0] == LowerChar(s[0]);
      assert s[0] == 'y' || s[0] == 'Y';
      assert s == [s[0]];
    }
  }
}
