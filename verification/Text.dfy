/** The string operations the domain uses: strip, lower, upper, replace(" ", "-"), on ASCII text. */
module Text {

  predicate IsSpace(c: char) {
    9 <= c as int <= 13 || 28 <= c as int <= 32
  }

  /** str.strip(): white space comes off both ends. */
  function Strip(s: string): (r: string)
    ensures r == "" || (!IsSpace(r[0]) && !IsSpace(r[|r| - 1]))
    decreases |s|
  {
    if s != "" && IsSpace(s[0]) then Strip(s[1..])
    else if s != "" && IsSpace(s[|s| - 1]) then Strip(s[..|s| - 1])
    else s
  }

  /** Only white space is taken off, and only at the ends. */
  lemma {:induction false} StripCutsEnds(s: string) returns (from: nat, upTo: nat)
    ensures from <= upTo <= |s| && Strip(s) == s[from..upTo]
    ensures forall k :: 0 <= k < |s| && !(from <= k < upTo) ==> IsSpace(s[k])
    decreases |s|
  {
    from, upTo := 0, |s|;
    if s != "" && IsSpace(s[0]) {
      var i, j := StripCutsEnds(s[1..]);
      from, upTo := i + 1, j + 1;
      forall k | 0 <= k < |s| && !(from <= k < upTo) ensures IsSpace(s[k]) {
        assert k > 0 ==> s[1..][k - 1] == s[k];
      }
    } else if s != "" && IsSpace(s[|s| - 1]) {
      from, upTo := StripCutsEnds(s[..|s| - 1]);
      forall k | 0 <= k < |s| && !(from <= k < upTo) ensures IsSpace(s[k]) {
        assert k < |s| - 1 ==> s[..|s| - 1][k] == s[k];
      }
    }
  }

  /** Text that already has no outer white space is left alone. */
  lemma StripFixed(s: string)
    requires s == "" || (!IsSpace(s[0]) && !IsSpace(s[|s| - 1]))
    ensures Strip(s) == s
  {
  }

  predicate IsBlank(s: string) {
    Strip(s) == ""
  }

  function LowerChar(c: char): char {
    if 'A' <= c <= 'Z' then (c as int + 32) as char else c
  }

  function Lower(s: string): (r: string)
    ensures |r| == |s|
    ensures forall k :: 0 <= k < |s| ==> r[k] == LowerChar(s[k])
  {
    seq(|s|, k requires 0 <= k < |s| => LowerChar(s[k]))
  }

  function Hyphenate(s: string): (r: string)
    ensures |r| == |s|
    ensures forall k :: 0 <= k < |s| ==> r[k] == if s[k] == ' ' then '-' else s[k]
  {
    seq(|s|, k requires 0 <= k < |s| => if s[k] == ' ' then '-' else s[k])
  }

  function Upper(s: string): (r: string)
    ensures |r| == |s|
    ensures forall k :: 0 <= k < |s| ==> r[k] == if 'a' <= s[k] <= 'z' then (s[k] as int - 32) as char else s[k]
  {
    seq(|s|, k requires 0 <= k < |s| => if 'a' <= s[k] <= 'z' then (s[k] as int - 32) as char else s[k])
  }

  predicate Distinct<T(==)>(s: seq<T>) {
    forall i, j :: 0 <= i < j < |s| ==> s[i] != s[j]
  }
}
