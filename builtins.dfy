/** The few JavaScript built-ins that the pages' logic relies on, written out
    over Dafny's unbounded integers and exact reals: Math.round, Math.min,
    Math.abs, the truncating remainder operator, String.prototype.trim and
    an ASCII String.prototype.toUpperCase. */
module Builtins {

  datatype Option<T> = None | Some(value: T)

  /** Math.round: the nearest integer, halves rounded up (towards +infinity). */
  function Round(x: real): (n: int)
    ensures n as real - 0.5 <= x < n as real + 0.5
  {
    (x + 0.5).Floor
  }

  /** Rounding never leaves an interval whose ends are integers. */
  lemma RoundWithin(x: real, lo: int, hi: int)
    requires lo as real <= x <= hi as real
    ensures lo <= Round(x) <= hi
  {
  }

  function MinInt(a: int, b: int): int { if a < b then a else b }

  function MinReal(a: real, b: real): real { if a < b then a else b }

  function Abs(x: real): (y: real)
    ensures y >= 0.0 && (y == x || y == -x)
  {
    if x < 0.0 then -x else x
  }

  /** The `%` operator of JavaScript: the sign of the result follows the dividend. */
  function JsRem(a: int, b: int): (r: int)
    requires b > 0
    ensures a >= 0 ==> 0 <= r < b && r == a % b
    ensures a < 0 ==> -b < r <= 0
  {
    if a >= 0 then a % b else -((-a) % b)
  }

  /** The characters String.prototype.trim removes: WhiteSpace and LineTerminator. */
  predicate IsSpace(c: char)
  {
    c == ' ' || c == '\t' || c == '\n' || c == '\r' || c == '\U{000B}' || c == '\U{000C}'
    || c == '\U{00A0}' || c == '\U{1680}' || ('\U{2000}' <= c <= '\U{200A}')
    || c == '\U{2028}' || c == '\U{2029}' || c == '\U{202F}' || c == '\U{205F}'
    || c == '\U{3000}' || c == '\U{FEFF}'
  }

  function TrimStart(s: string): (r: string)
    ensures |r| <= |s| && r == s[|s| - |r|..]
    ensures r == [] || !IsSpace(r[0])
    ensures forall i :: 0 <= i < |s| - |r| ==> IsSpace(s[i])
  {
    if s == [] || !IsSpace(s[0]) then s else TrimStart(s[1..])
  }

  function TrimEnd(s: string): (r: string)
    ensures |r| <= |s| && r == s[..|r|]
    ensures r == [] || !IsSpace(r[|r| - 1])
    ensures forall i :: |r| <= i < |s| ==> IsSpace(s[i])
  {
    if s == [] || !IsSpace(s[|s| - 1]) then s else TrimEnd(s[..|s| - 1])
  }

  /** String.prototype.trim. */
  function Trim(s: string): string
  {
    TrimEnd(TrimStart(s))
  }

  /** trim() gives back a slice of its input that neither starts nor ends
      with white space, and what it cut off is all white space; it is empty
      exactly when the input is blank. */
  lemma TrimFacts(s: string)
    ensures exists a, b ::
      && 0 <= a <= b <= |s| && Trim(s) == s[a..b]
      && (forall i :: 0 <= i < a ==> IsSpace(s[i]))
      && (forall i :: b <= i < |s| ==> IsSpace(s[i]))
    ensures Trim(s) == [] || (!IsSpace(Trim(s)[0]) && !IsSpace(Trim(s)[|Trim(s)| - 1]))
    ensures Trim(s) == [] <==> forall i :: 0 <= i < |s| ==> IsSpace(s[i])
  {
    var a, b := TrimCut(s);
    if Trim(s) == [] {
      forall i | 0 <= i < |s|
        ensures IsSpace(s[i])
      {
        if i >= a {
          assert i >= b;
        }
      }
    } else {
      assert !IsSpace(s[a]);
    }
  }

  /** Where trim cuts: s[..a] and s[b..] are white space, and s[a..b] is
      the result. */
  lemma TrimCut(s: string) returns (a: nat, b: nat)
    ensures a <= b <= |s| && Trim(s) == s[a..b]
    ensures forall i :: 0 <= i < a ==> IsSpace(s[i])
    ensures forall i :: b <= i < |s| ==> IsSpace(s[i])
    ensures a < b ==> !IsSpace(s[a]) && !IsSpace(s[b - 1])
  {
    var t := TrimStart(s);
    var u := TrimEnd(t);
    a := |s| - |t|;
    b := a + |u|;
    assert t == s[a..];
    assert u == t[..|u|];
    forall i | b <= i < |s|
      ensures IsSpace(s[i])
    {
      assert s[i] == t[i - a];
    }
    if a < b {
      assert u[0] == s[a] && u[|u| - 1] == s[b - 1];
    }
  }

  function UpperChar(c: char): char
  {
    if 'a' <= c <= 'z' then (c as int - 32) as char else c
  }

  /** String.prototype.toUpperCase restricted to the ASCII letters. */
  function ToUpper(s: string): (r: string)
    ensures |r| == |s|
    ensures forall i :: 0 <= i < |s| ==> r[i] == UpperChar(s[i])
  {
    if s == [] then [] else [UpperChar(s[0])] + ToUpper(s[1..])
  }

  lemma UpperCharMatches(c: char, d: char)
    requires 'A' <= d <= 'Z'
    ensures UpperChar(c) == d <==> c == d || c as int == d as int + 32
  {
  }

  /** An upper-case ASCII word w is what toUpperCase gives for s exactly when
      s spells w letter by letter in either case. */
  lemma UpperMatches(s: string, w: string)
    requires forall i :: 0 <= i < |w| ==> 'A' <= w[i] <= 'Z'
    ensures ToUpper(s) == w <==>
      |s| == |w| && forall i :: 0 <= i < |s| ==> s[i] == w[i] || s[i] as int == w[i] as int + 32
  {
    if |s| == |w| {
      forall i | 0 <= i < |s|
        ensures ToUpper(s)[i] == w[i] <==> s[i] == w[i] || s[i] as int == w[i] as int + 32
      {
        UpperCharMatches(s[i], w[i]);
      }
    }
  }
}
