/** Wallet address normalisation and comparison. */
module Address {
  import opened Wrappers
  import opened Js
  import opened Text

  predicate IsHexDigit(c: char) {
    ('0' <= c <= '9') || ('a' <= c <= 'f') || ('A' <= c <= 'F')
  }

  /** The address pattern: a lower-case `0x` followed by exactly forty hexadecimal digits, nothing else. */
  predicate IsAddressText(t: string) {
    |t| == 42 && t[0] == '0' && t[1] == 'x' && forall i :: 2 <= i < 42 ==> IsHexDigit(t[i])
  }

  /** `normalizeAddress`: a string that, once trimmed, has the address shape, lower-cased; otherwise null. */
  function NormalizeAddress(v: Value): (r: Option<string>)
    ensures !v.Str? ==> r == None
    ensures v.Str? && IsAddressText(Trim(v.s)) ==> r == Some(Lower(Trim(v.s)))
    ensures v.Str? && !IsAddressText(Trim(v.s)) ==> r == None
  {
    match v
    case Str(s) =>
      var trimmed := Trim(s);
      if IsAddressText(trimmed) then Some(Lower(trimmed)) else None
    case _ => None
  }

  /** `isSameAddress`: both sides normalise, to the same address. */
  predicate IsSameAddress(left: Value, right: Value) {
    var l := NormalizeAddress(left);
    var r := NormalizeAddress(right);
    l.Some? && r.Some? && l.value == r.value
  }

  /** Lower-casing keeps the address shape, and a normalised address has no upper-case letter. */
  lemma LowerKeepsShape(t: string)
    requires IsAddressText(t)
    ensures IsAddressText(Lower(t))
  {
    var u := Lower(t);
    forall i | 2 <= i < 42 ensures IsHexDigit(u[i]) {
      assert u[i] == LowerChar(t[i]);
    }
  }

  /** A normalised address is a fixed point: it already has the shape, no whitespace and no capitals. */
  lemma NormalizeIdempotent(v: Value)
    requires NormalizeAddress(v).Some?
    ensures NormalizeAddress(Str(NormalizeAddress(v).value)) == NormalizeAddress(v)
  {
    var a := NormalizeAddress(v).value;
    var t := Trim(v.s);
    LowerKeepsShape(t);
    assert NoSpace(a) by {
      forall i | 0 <= i < |a| ensures !IsSpace(a[i]) {
        assert i < 2 || IsHexDigit(a[i]);
      }
    }
    TrimNoSpace(a);
    LowerIdempotent(t);
  }

  /** Every accepted address is exactly 42 characters, `0x` and forty lower-case hex digits. */
  lemma NormalizedShape(v: Value)
    requires NormalizeAddress(v).Some?
    ensures var a := NormalizeAddress(v).value;
      IsAddressText(a) && forall i :: 0 <= i < |a| ==> !('A' <= a[i] <= 'Z')
  {
    LowerKeepsShape(Trim(v.s));
  }

  /** Comparison is symmetric. */
  lemma SameAddressSymmetric(left: Value, right: Value)
    ensures IsSameAddress(left, right) <==> IsSameAddress(right, left)
  {
  }

  /** Comparison ignores letter case and surrounding whitespace: an address matches its normal form. */
  lemma SameAddressAsNormalized(v: Value)
    requires NormalizeAddress(v).Some?
    ensures IsSameAddress(v, Str(NormalizeAddress(v).value))
  {
    NormalizeIdempotent(v);
  }

  /** Two addresses that agree after case folding compare equal, whatever their original case. */
  lemma SameAddressCaseInsensitive(a: string, b: string)
    requires IsAddressText(Trim(a)) && IsAddressText(Trim(b))
    requires Lower(Trim(a)) == Lower(Trim(b))
    ensures IsSameAddress(Str(a), Str(b))
  {
  }

  /** A value that does not normalise matches nothing, not even itself. */
  lemma NotAddressMatchesNothing(left: Value, right: Value)
    requires NormalizeAddress(left).None?
    ensures !IsSameAddress(left, right) && !IsSameAddress(right, left)
  {
  }

  /** The short string "0xabc" is rejected. */
  lemma ShortHexRejected()
    ensures NormalizeAddress(Str("0xabc")) == None
  {
    assert Trim("0xabc") == "0xabc" by { TrimOfTrimmed("0xabc"); }
  }
}
