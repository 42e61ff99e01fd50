/** The string operations the adapter relies on: Python's `str.strip(chars)`,
    `str.replace(old, new)`, and the decimal rendering of integers. */
module Strings {

  /** `pat` occurs in `s` starting at index `i`. */
  predicate OccursAt(s: string, pat: string, i: nat)
  {
    i + |pat| <= |s| && s[i..i + |pat|] == pat
  }

  /** `pat` occurs somewhere in `s`. */
  ghost predicate Contains(s: string, pat: string)
  {
    exists i: nat :: OccursAt(s, pat, i)
  }

  /** `s.lstrip(cs)`: drops the leading characters that belong to `cs`. */
  function LStrip(s: string, cs: set<char>): (r: string)
    ensures |r| <= |s| && r == s[|s| - |r|..]
    ensures forall k :: 0 <= k < |s| - |r| ==> s[k] in cs
    ensures r != [] ==> r[0] !in cs
  {
    if s != [] && s[0] in cs then LStrip(s[1..], cs) else s
  }

  /** `s.rstrip(cs)`: drops the trailing characters that belong to `cs`. */
  function RStrip(s: string, cs: set<char>): (r: string)
    ensures |r| <= |s| && r == s[..|r|]
    ensures forall k :: |r| <= k < |s| ==> s[k] in cs
    ensures r != [] ==> r[|r| - 1] !in cs
  {
    if s != [] && s[|s| - 1] in cs then RStrip(s[..|s| - 1], cs) else s
  }

  /** Where the stripped string starts in `s`. */
  function StripStart(s: string, cs: set<char>): nat
  {
    |s| - |LStrip(s, cs)|
  }

  /** `s.strip(cs)`: the slice of `s` left after removing every leading and
      every trailing character of `cs`; it neither starts nor ends with one. */
  function Strip(s: string, cs: set<char>): (r: string)
    ensures StripStart(s, cs) + |r| <= |s|
    ensures r == s[StripStart(s, cs)..StripStart(s, cs) + |r|]
    ensures forall k :: 0 <= k < StripStart(s, cs) ==> s[k] in cs
    ensures forall k :: StripStart(s, cs) + |r| <= k < |s| ==> s[k] in cs
    ensures r != [] ==> r[0] !in cs && r[|r| - 1] !in cs
  {
    var l := LStrip(s, cs);
    var r := RStrip(l, cs);
    assert forall k :: StripStart(s, cs) + |r| <= k < |s| ==> s[k] == l[k - StripStart(s, cs)];
    r
  }

  /** Any slice `s[i..j]` that is obtained by removing only characters of `cs`
      and that neither starts nor ends with one is what `Strip` returns. */
  lemma StripUnique(s: string, cs: set<char>, i: nat, j: nat)
    requires i <= j <= |s|
    requires forall k :: 0 <= k < i ==> s[k] in cs
    requires forall k :: j <= k < |s| ==> s[k] in cs
    requires i < j ==> s[i] !in cs && s[j - 1] !in cs
    ensures Strip(s, cs) == s[i..j]
  {
    var a := StripStart(s, cs);
    var r := Strip(s, cs);
    if i < j {
      assert a <= i;
      assert r != [] && r[0] == s[a];
      assert a == i;
      assert a + |r| >= j;
      assert r[j - 1 - a] == s[j - 1];
      assert a + |r| == j;
    } else {
      assert forall k :: 0 <= k < |s| ==> s[k] in cs;
      assert r == [];
    }
  }

  /** Stripping twice strips nothing more. */
  lemma StripIdempotent(s: string, cs: set<char>)
    ensures Strip(Strip(s, cs), cs) == Strip(s, cs)
  {
    var r := Strip(s, cs);
    StripUnique(r, cs, 0, |r|);
  }

  /** `s.replace(pat, rep)`: every occurrence of `pat`, found left to right
      without overlaps, replaced by `rep`. */
  function ReplaceAll(s: string, pat: string, rep: string): string
    requires pat != []
    decreases |s|
  {
    if s == [] then []
    else if OccursAt(s, pat, 0) then rep + ReplaceAll(s[|pat|..], pat, rep)
    else [s[0]] + ReplaceAll(s[1..], pat, rep)
  }

  /** A string without the pattern comes back unchanged. */
  lemma {:induction false} ReplaceAllAbsent(s: string, pat: string, rep: string)
    requires pat != []
    requires !Contains(s, pat)
    ensures ReplaceAll(s, pat, rep) == s
  {
    if s != [] {
      assert !OccursAt(s, pat, 0);
      forall i: nat | OccursAt(s[1..], pat, i) ensures OccursAt(s, pat, i + 1) {
        assert s[1..][i..i + |pat|] == s[i + 1..i + 1 + |pat|];
      }
      ReplaceAllAbsent(s[1..], pat, rep);
    }
  }

  /** A string that contains the pattern gets the replacement somewhere. */
  lemma {:induction false} ReplaceAllInserts(s: string, pat: string, rep: string)
    requires pat != []
    requires Contains(s, pat)
    ensures Contains(ReplaceAll(s, pat, rep), rep)
  {
    var i: nat :| OccursAt(s, pat, i);
    if OccursAt(s, pat, 0) {
      assert OccursAt(ReplaceAll(s, pat, rep), rep, 0);
    } else {
      assert i > 0;
      assert s[1..][i - 1..i - 1 + |pat|] == s[i..i + |pat|];
      assert OccursAt(s[1..], pat, i - 1);
      ReplaceAllInserts(s[1..], pat, rep);
      var t := ReplaceAll(s[1..], pat, rep);
      var k: nat :| OccursAt(t, rep, k);
      assert ([s[0]] + t)[k + 1..k + 1 + |rep|] == t[k..k + |rep|];
      assert OccursAt(ReplaceAll(s, pat, rep), rep, k + 1);
    }
  }

  /** When the first occurrence of the pattern follows `a`, the result is `a`,
      then the replacement, then the rest replaced. */
  lemma {:induction false} ReplaceAllFirst(a: string, pat: string, b: string, rep: string)
    requires pat != []
    requires forall i: nat :: i < |a| ==> !OccursAt(a + pat + b, pat, i)
    ensures ReplaceAll(a + pat + b, pat, rep) == a + rep + ReplaceAll(b, pat, rep)
  {
    var s := a + pat + b;
    if a == [] {
      assert s == pat + b;
      assert OccursAt(s, pat, 0);
      assert s[|pat|..] == b;
    } else {
      assert !OccursAt(s, pat, 0);
      assert s[1..] == a[1..] + pat + b;
      forall i: nat | i < |a[1..]| ensures !OccursAt(a[1..] + pat + b, pat, i) {
        assert !OccursAt(s, pat, i + 1);
        assert s[i + 1..i + 1 + |pat|] == (a[1..] + pat + b)[i..i + |pat|];
      }
      ReplaceAllFirst(a[1..], pat, b, rep);
      assert [a[0]] + (a[1..] + rep + ReplaceAll(b, pat, rep)) == a + rep + ReplaceAll(b, pat, rep);
    }
  }

  /** The number a string of decimal digits denotes, most significant first. */
  ghost function DecimalValue(s: string): nat
  {
    if s == [] then 0
    else 10 * DecimalValue(s[..|s| - 1]) + (if '0' <= s[|s| - 1] <= '9' then (s[|s| - 1] - '0') as nat else 0)
  }

  /** Decimal digits of a natural number, as Python's `str` prints them: the
      digits denote `n`, and there is no leading zero except in `"0"`. */
  function NatToString(n: nat): (r: string)
    ensures r != []
    ensures forall k :: 0 <= k < |r| ==> '0' <= r[k] <= '9'
    ensures DecimalValue(r) == n
    ensures r[0] == '0' ==> r == "0"
    decreases n
  {
    var d := ['0' + (n % 10) as char];
    if n < 10 then d
    else
      var r := NatToString(n / 10) + d;
      assert r[..|r| - 1] == NatToString(n / 10);
      r
  }

  /** Python's `str` of an integer: a `-` exactly for negative numbers,
      followed by the decimal digits of the magnitude. */
  function IntToString(n: int): (r: string)
    ensures r != []
    ensures n < 0 <==> r[0] == '-'
    ensures forall k :: (if n < 0 then 1 else 0) <= k < |r| ==> '0' <= r[k] <= '9'
    ensures n >= 0 ==> DecimalValue(r) == n && (r[0] == '0' ==> r == "0")
    ensures n < 0 ==> |r| >= 2 && DecimalValue(r[1..]) == -n && r[1] != '0'
  {
    if n < 0 then
      var r := "-" + NatToString(-n);
      assert r[1..] == NatToString(-n);
      r
    else NatToString(n)
  }
}
