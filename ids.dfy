/** Store identifiers. The document store's ids are 12-byte values spelled as
    24 hexadecimal digits; the driver accepts either letter case and always
    prints lower case. */
module Ids {
  import opened Wrappers
  import opened Json

  predicate IsHex(c: char) {
    '0' <= c <= '9' || 'a' <= c <= 'f' || 'A' <= c <= 'F'
  }

  predicate IsLowerHex(c: char) {
    '0' <= c <= '9' || 'a' <= c <= 'f'
  }

  /** `Types.ObjectId.isValid(s)` for a string: 24 hexadecimal digits. */
  predicate IsValidId(s: string) {
    |s| == 24 && forall i :: 0 <= i < |s| ==> IsHex(s[i])
  }

  /** An id as the store prints it (`_id.toString()`). */
  predicate IsCanonical(s: string) {
    |s| == 24 && forall i :: 0 <= i < |s| ==> IsLowerHex(s[i])
  }

  function LowerChar(c: char): char {
    if 'A' <= c <= 'F' then (c as int + 32) as char else c
  }

  /** `new Types.ObjectId(s).toString()`: the id fixed to lower case. */
  function Canon(s: string): (r: string)
    requires IsValidId(s)
    ensures IsCanonical(r)
    ensures forall i :: 0 <= i < |s| ==> r[i] == LowerChar(s[i])
    ensures IsCanonical(s) ==> r == s
  {
    var r := seq(|s|, i requires 0 <= i < |s| => LowerChar(s[i]));
    assert IsCanonical(s) ==> r == s by {
      if IsCanonical(s) {
        assert forall i :: 0 <= i < |s| ==> r[i] == s[i];
      }
    }
    r
  }

  lemma CanonicalIsValid(s: string)
    requires IsCanonical(s)
    ensures IsValidId(s) && Canon(s) == s
  {
  }

  /** The id the driver makes of a query value, `None` where the cast fails.
      Only strings of 24 hex digits are accepted here. */
  function Cast(v: Js): (r: Option<string>)
    ensures r.Some? <==> v.JStr? && IsValidId(v.s)
    ensures r.Some? ==> IsCanonical(r.value) && r.value == Canon(v.s)
    ensures v.JStr? && IsCanonical(v.s) ==> r == Some(v.s)
  {
    if v.JStr? && IsValidId(v.s) then Some(Canon(v.s)) else None
  }

  /** `v && Types.ObjectId.isValid(v)` for a request or cache value. */
  predicate IsIdValue(o: Option<Js>) {
    o.Some? && o.value.JStr? && IsValidId(o.value.s)
  }

  /** `s.replace(/[^a-f0-9]/gi, "")`: every character that is not a hex digit removed. */
  function StripNonHex(s: string): (r: string)
    ensures |r| <= |s|
    ensures forall i :: 0 <= i < |r| ==> IsHex(r[i])
  {
    if s == [] then []
    else if IsHex(s[0]) then [s[0]] + StripNonHex(s[1..])
    else StripNonHex(s[1..])
  }

  /** Stripping distributes over concatenation, so it keeps the hex digits in order. */
  lemma {:induction false} StripNonHexAppend(a: string, b: string)
    ensures StripNonHex(a + b) == StripNonHex(a) + StripNonHex(b)
  {
    if a == [] {
      assert a + b == b;
    } else {
      assert (a + b)[1..] == a[1..] + b;
      StripNonHexAppend(a[1..], b);
    }
  }

  /** A string of hex digits is left as it is, so a valid id is its own sanitised form. */
  lemma {:induction false} StripNonHexKeepsHex(s: string)
    requires forall i :: 0 <= i < |s| ==> IsHex(s[i])
    ensures StripNonHex(s) == s
  {
    if s != [] {
      StripNonHexKeepsHex(s[1..]);
    }
  }

  /** Sanitising twice is sanitising once. */
  lemma StripNonHexIdempotent(s: string)
    ensures StripNonHex(StripNonHex(s)) == StripNonHex(s)
  {
    StripNonHexKeepsHex(StripNonHex(s));
  }

  /** A string with no hex digit sanitises to the empty string. */
  lemma {:induction false} StripNonHexDropsAll(s: string)
    requires forall i :: 0 <= i < |s| ==> !IsHex(s[i])
    ensures StripNonHex(s) == ""
  {
    if s != [] {
      StripNonHexDropsAll(s[1..]);
    }
  }
}
