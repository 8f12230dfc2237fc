/**
 * String helpers shared by every component: ASCII lower-casing (standing in for JavaScript's
 * `toLowerCase`), `includes`, `split(' ')[0]`, `join`, decimal rendering of integers inside
 * template literals, and JavaScript truthiness of an optional string.
 */
module Strings {
  import opened Wrappers

  /** `c.toLowerCase()` restricted to ASCII letters. */
  function LowerChar(c: char): char {
    if 'A' <= c <= 'Z' then (c as int + 32) as char else c
  }

  /** `s.toLowerCase()` over ASCII: every letter lower-cased, everything else kept. */
  function Lower(s: string): (r: string)
    ensures |r| == |s|
    ensures forall i :: 0 <= i < |s| ==> r[i] == LowerChar(s[i])
  {
    seq(|s|, i requires 0 <= i < |s| => LowerChar(s[i]))
  }

  /** `needle` occurs in `hay` starting at position `i`. */
  predicate OccursAt(hay: string, needle: string, i: int) {
    0 <= i <= |hay| - |needle| && hay[i..i + |needle|] == needle
  }

  /** `hay.includes(needle)`: `needle` occurs at some position of `hay`. */
  predicate Contains(hay: string, needle: string) {
    exists i :: 0 <= i <= |hay| - |needle| && OccursAt(hay, needle, i)
  }

  /** The case-insensitive search test that every table and dialog uses:
      `x.toLowerCase().includes(term.toLowerCase())`. */
  predicate ContainsIgnoringCase(hay: string, term: string) {
    Contains(Lower(hay), Lower(term))
  }

  /** An optional string is truthy in JavaScript exactly when it is present and non-empty. */
  predicate Truthy(o: Option<string>) {
    o.Some? && o.value != ""
  }

  /** `o || null`: the empty string collapses to null. */
  function OrNull(o: Option<string>): (r: Option<string>)
    ensures Truthy(o) ==> r == o
    ensures !Truthy(o) ==> r == None
  {
    if Truthy(o) then o else None
  }

  /** `o || fallback`. */
  function OrElse(o: Option<string>, fallback: string): (r: string)
    ensures Truthy(o) ==> r == o.value
    ensures !Truthy(o) ==> r == fallback
  {
    if Truthy(o) then o.value else fallback
  }

  /** `s.split(' ')[0]`: the text before the first space, or all of `s` when it has none. */
  function BeforeSpace(s: string): (r: string)
    ensures |r| <= |s| && r == s[..|r|]
    ensures ' ' !in r
    ensures |r| < |s| ==> s[|r|] == ' '
  {
    if s == [] || s[0] == ' ' then [] else [s[0]] + BeforeSpace(s[1..])
  }

  /** The cut ends at the first space: if no space comes before index `k` and `k` is a space or
      the end, the part before the space is exactly `s[..k]`. */
  lemma {:induction false} BeforeSpaceUpTo(s: string, k: int)
    requires 0 <= k <= |s|
    requires forall j :: 0 <= j < k ==> s[j] != ' '
    requires k == |s| || s[k] == ' '
    ensures BeforeSpace(s) == s[..k]
    decreases k
  {
    if k > 0 {
      BeforeSpaceUpTo(s[1..], k - 1);
      assert s[..k] == [s[0]] + s[1..][..k - 1];
    }
  }

  /** `parts.join(sep)`. */
  function Join(parts: seq<string>, sep: string): string {
    if |parts| == 0 then ""
    else if |parts| == 1 then parts[0]
    else parts[0] + sep + Join(parts[1..], sep)
  }

  /** The decimal digits of `n`, as a template literal prints a non-negative integer. */
  function NatToString(n: nat): (r: string)
    ensures |r| >= 1
    ensures forall i :: 0 <= i < |r| ==> '0' <= r[i] <= '9'
  {
    if n < 10 then [('0' as int + n) as char]
    else NatToString(n / 10) + [('0' as int + n % 10) as char]
  }

  /** `${i}` for any integer: a minus sign before the digits of a negative number. */
  function IntToString(i: int): (r: string)
    ensures |r| >= 1
    ensures (r[0] == '-') <==> i < 0
  {
    if i < 0 then "-" + NatToString(-i) else NatToString(i)
  }

  // ---------------------------------------------------------------------------
  // Facts about the helpers
  // ---------------------------------------------------------------------------

  /** Every string includes the empty string, so an empty search term keeps every row. */
  lemma ContainsEmpty(hay: string)
    ensures Contains(hay, "")
    ensures ContainsIgnoringCase(hay, "")
  {
    ContainsAt(hay, "", 0);
    ContainsAt(Lower(hay), "", 0);
  }

  /** An occurrence at a known position is an occurrence. */
  lemma ContainsAt(hay: string, needle: string, i: int)
    requires OccursAt(hay, needle, i)
    ensures Contains(hay, needle)
  {
  }

  /** An occurrence survives text being added on either side. */
  lemma {:induction false} ContainsExtend(a: string, hay: string, b: string, needle: string)
    requires Contains(hay, needle)
    ensures Contains(a + hay + b, needle)
  {
    var i :| 0 <= i <= |hay| - |needle| && OccursAt(hay, needle, i);
    var whole := a + hay + b;
    assert whole[|a| + i..|a| + i + |needle|] == hay[i..i + |needle|];
    ContainsAt(whole, needle, |a| + i);
  }

  lemma LowerCharIdempotent(c: char)
    ensures LowerChar(LowerChar(c)) == LowerChar(c)
  {
  }

  /** Lower-casing twice is lower-casing once. */
  lemma LowerIdempotent(s: string)
    ensures Lower(Lower(s)) == Lower(s)
  {
    forall i | 0 <= i < |s| ensures Lower(Lower(s))[i] == Lower(s)[i] {
      LowerCharIdempotent(s[i]);
    }
  }

  /** Lower-casing commutes with concatenation. */
  lemma LowerAppend(a: string, b: string)
    ensures Lower(a + b) == Lower(a) + Lower(b)
  {
  }

  /** A join of non-empty parts is empty exactly when there are no parts. */
  lemma {:induction false} JoinEmptyIff(parts: seq<string>, sep: string)
    requires forall k :: 0 <= k < |parts| ==> parts[k] != ""
    ensures (Join(parts, sep) == "") <==> (parts == [])
  {
    if |parts| >= 1 {
      assert |parts[0]| >= 1;
      if |parts| == 1 {
        assert Join(parts, sep) == parts[0];
      } else {
        assert Join(parts, sep) == parts[0] + sep + Join(parts[1..], sep);
      }
    }
  }
}
