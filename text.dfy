/**
 * The few JavaScript string operations the portal's decisions rest on:
 * `startsWith`, `includes`, `toLowerCase` and `Number.prototype.toString`.
 */
module Text {

  /** True iff `t` occurs in `s` starting at index `i`. */
  ghost predicate OccursAt(s: string, t: string, i: int)
  {
    0 <= i && i + |t| <= |s| && s[i..i + |t|] == t
  }

  /** `s.startsWith(prefix)`. */
  function StartsWith(s: string, prefix: string): (r: bool)
    ensures r <==> OccursAt(s, prefix, 0)
  {
    if prefix == [] then true
    else if s == [] then false
    else s[0] == prefix[0] && StartsWith(s[1..], prefix[1..])
  }

  /** `s.includes(t)`: some occurrence of `t` anywhere in `s`. */
  function Includes(s: string, t: string): (r: bool)
    ensures r <==> exists i :: OccursAt(s, t, i)
    decreases |s|
  {
    if StartsWith(s, t) then true
    else if s == [] then false
    else
      OccurrenceShift(s, t);
      Includes(s[1..], t)
  }

  /** Occurrences in the tail of `s` are the occurrences in `s` past its first position. */
  lemma OccurrenceShift(s: string, t: string)
    requires s != []
    ensures forall i :: OccursAt(s[1..], t, i) ==> OccursAt(s, t, i + 1)
    ensures forall i :: OccursAt(s, t, i) && i != 0 ==> OccursAt(s[1..], t, i - 1)
  {
    forall i | 0 <= i ensures OccursAt(s[1..], t, i) <==> OccursAt(s, t, i + 1) {
      if 0 <= i && i + 1 + |t| <= |s| {
        assert s[1..][i..i + |t|] == s[i + 1..i + 1 + |t|];
      }
    }
  }

  /** The empty string occurs in every string, so an empty search term matches everything. */
  lemma IncludesEmpty(s: string)
    ensures Includes(s, "")
  {
    assert OccursAt(s, "", 0);
  }

  /** `String.prototype.toLowerCase` restricted to the ASCII letters A-Z. */
  function LowerChar(c: char): char
  {
    if 'A' <= c <= 'Z' then (c as int + 32) as char else c
  }

  function Lower(s: string): (r: string)
    ensures |r| == |s|
    ensures forall i :: 0 <= i < |s| ==> r[i] == LowerChar(s[i])
  {
    if s == [] then [] else [LowerChar(s[0])] + Lower(s[1..])
  }

  /** Lower-casing twice changes nothing more, so lower-casing a search term is harmless. */
  lemma LowerIdempotent(s: string)
    ensures Lower(Lower(s)) == Lower(s)
  {
    var l := Lower(s);
    assert forall i :: 0 <= i < |l| ==> LowerChar(l[i]) == l[i];
  }

  /** Case-insensitive containment, as every list search of the admin pages does it. */
  predicate ContainsIgnoringCase(field: string, term: string)
  {
    Includes(Lower(field), Lower(term))
  }

  lemma EmptyTermMatchesAll(field: string)
    ensures ContainsIgnoringCase(field, "")
  {
    IncludesEmpty(Lower(field));
  }

  /** A search term matches exactly when its lower-cased form does. */
  lemma ContainsIgnoringCaseOfLowered(field: string, term: string)
    ensures ContainsIgnoringCase(field, Lower(term)) == ContainsIgnoringCase(field, term)
  {
    LowerIdempotent(term);
  }

  predicate IsDigit(c: char)
  {
    '0' <= c <= '9'
  }

  predicate AllDigits(s: string)
  {
    forall i :: 0 <= i < |s| ==> IsDigit(s[i])
  }

  function DigitChar(d: nat): (c: char)
    requires d < 10
    ensures IsDigit(c) && c as int - '0' as int == d
  {
    ('0' as int + d) as char
  }

  /** `n.toString()` for a non-negative integer: decimal, no leading zeros. */
  function NatToString(n: nat): (r: string)
    ensures |r| >= 1 && AllDigits(r)
    ensures |r| > 1 ==> r[0] != '0'
  {
    if n < 10 then [DigitChar(n)] else NatToString(n / 10) + [DigitChar(n % 10)]
  }

  /** Reads a decimal digit string back as a number: the inverse of `NatToString`. */
  function ParseNat(s: string): nat
    requires AllDigits(s)
  {
    if s == [] then 0 else ParseNat(s[..|s| - 1]) * 10 + (s[|s| - 1] as int - '0' as int)
  }

  /** The id sent as a string identifies the record: parsing it back yields the number. */
  lemma {:induction false} ParseNatToString(n: nat)
    ensures ParseNat(NatToString(n)) == n
  {
    if n >= 10 {
      var s := NatToString(n);
      assert s[..|s| - 1] == NatToString(n / 10);
      ParseNatToString(n / 10);
    }
  }

  /** Distinct ids are sent as distinct strings. */
  lemma NatToStringInjective(m: nat, n: nat)
    requires NatToString(m) == NatToString(n)
    ensures m == n
  {
    ParseNatToString(m);
    ParseNatToString(n);
  }
}
