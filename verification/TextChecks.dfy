/** The two display-text checks: `plain` counts Python code points, `validateText`
    counts Java UTF-16 units. This module says exactly when they agree. */
module TextChecks {
  type CodePoint = c: int | 0 <= c <= 0x10FFFF
  type Unit = u: int | 0 <= u <= 0xFFFF
  type Text = seq<CodePoint>

  /** `Character.isISOControl`, and the bidirectional formatting characters. */
  predicate Hidden(c: int) {
    c <= 0x1f || 0x7f <= c <= 0x9f || 0x202a <= c <= 0x202e || 0x2066 <= c <= 0x2069
  }

  predicate Surrogate(c: int) {
    0xd800 <= c <= 0xdfff
  }

  /** The code points that `plain` refuses. */
  predicate Refused(c: int) {
    c < 32 || 0x7f <= c <= 0x9f || 0x202a <= c <= 0x202e || 0x2066 <= c <= 0x2069 || 0xd800 <= c <= 0xdfff
  }

  /** `plain` in rootauth.py. */
  predicate Plain(value: Text, limit: nat, empty: bool) {
    && |value| <= limit
    && (value != [] || empty)
    && forall c :: c in value ==> !Refused(c)
  }

  /** What `validateText` lets through. */
  predicate Displayable(value: seq<Unit>, limit: nat, empty: bool) {
    && (value != [] || empty)
    && |value| <= limit
    && forall c :: c in value ==> !Hidden(c)
  }

  method ValidateText(value: seq<Unit>, limit: nat, allowEmpty: bool) returns (accepted: bool)
    ensures accepted == Displayable(value, limit, allowEmpty)
  {
    if (!allowEmpty && value == []) || |value| > limit {
      return false;
    }
    for i := 0 to |value|
      invariant forall j :: 0 <= j < i ==> !Hidden(value[j])
    {
      var c := value[i];
      var isoControl := c <= 0x1f || 0x7f <= c <= 0x9f;
      assert value[i] in value;
      if isoControl || 0x202a <= c <= 0x202e || 0x2066 <= c <= 0x2069 {
        return false;
      }
    }
    return true;
  }

  /** UTF-16 (section 2.1 of RFC 2781). */
  function Utf16(s: Text): (u: seq<Unit>)
    ensures |s| <= |u| <= 2 * |s|
  {
    if s == [] then []
    else if s[0] < 0x10000 then [s[0]] + Utf16(s[1..])
    else
      var v := s[0] - 0x10000;
      [0xd800 + v / 0x400, 0xdc00 + v % 0x400] + Utf16(s[1..])
  }

  /** Every surrogate unit is half of a high-low pair. */
  predicate WellFormed(u: seq<Unit>) {
    if u == [] then true
    else if !Surrogate(u[0]) then WellFormed(u[1..])
    else u[0] < 0xdc00 && |u| >= 2 && 0xdc00 <= u[1] <= 0xdfff && WellFormed(u[2..])
  }

  function Decode(u: seq<Unit>): (s: Text)
    requires WellFormed(u)
    ensures |s| <= |u|
  {
    if u == [] then []
    else if !Surrogate(u[0]) then [u[0]] + Decode(u[1..])
    else [0x10000 + (u[0] - 0xd800) * 0x400 + (u[1] - 0xdc00)] + Decode(u[2..])
  }

  lemma {:induction false} EncodeThenDecode(s: Text)
    requires forall c :: c in s ==> !Surrogate(c)
    ensures WellFormed(Utf16(s)) && Decode(Utf16(s)) == s
  {
    if s != [] {
      EncodeThenDecode(s[1..]);
      assert s == [s[0]] + s[1..];
      if s[0] < 0x10000 {
        assert Utf16(s)[1..] == Utf16(s[1..]);
      } else {
        assert Utf16(s)[2..] == Utf16(s[1..]);
      }
    }
  }

  lemma {:induction false} DecodeThenEncode(u: seq<Unit>)
    requires WellFormed(u)
    ensures Utf16(Decode(u)) == u
  {
    if u != [] {
      if !Surrogate(u[0]) {
        DecodeThenEncode(u[1..]);
        assert u == [u[0]] + u[1..];
        assert Decode(u)[1..] == Decode(u[1..]);
      } else {
        DecodeThenEncode(u[2..]);
        assert u == [u[0], u[1]] + u[2..];
        assert Decode(u)[1..] == Decode(u[2..]);
      }
    }
  }

  lemma {:induction false} EncodingHidesNothing(s: Text)
    requires forall c :: c in s ==> !Surrogate(c)
    ensures (forall u :: u in Utf16(s) ==> !Hidden(u)) <==> (forall c :: c in s ==> !Hidden(c))
  {
    if s != [] {
      EncodingHidesNothing(s[1..]);
      assert s == [s[0]] + s[1..];
      if s[0] < 0x10000 {
        assert Utf16(s)[0] == s[0];
        assert Utf16(s) == [s[0]] + Utf16(s[1..]);
      } else {
        var v := s[0] - 0x10000;
        var pair := [0xd800 + v / 0x400, 0xdc00 + v % 0x400];
        assert Utf16(s) == pair + Utf16(s[1..]);
        assert forall u :: u in pair ==> Surrogate(u);
      }
    }
  }

  /** A text the computer accepts is refused by the phone exactly when its UTF-16
      form is too long. */
  lemma PhoneAcceptsExactlyWithinUtf16Limit(s: Text, limit: nat, empty: bool)
    requires Plain(s, limit, empty)
    ensures Displayable(Utf16(s), limit, empty) <==> |Utf16(s)| <= limit
  {
    EncodingHidesNothing(s);
  }

  /** Every well-formed text the phone accepts decodes to one the computer accepts. */
  lemma PhoneTextIsPlain(u: seq<Unit>, limit: nat, empty: bool)
    requires WellFormed(u) && Displayable(u, limit, empty)
    ensures Plain(Decode(u), limit, empty) && Utf16(Decode(u)) == u
  {
    DecodeThenEncode(u);
    DecodesToScalars(u);
    EncodingHidesNothing(Decode(u));
  }

  lemma {:induction false} DecodesToScalars(u: seq<Unit>)
    requires WellFormed(u)
    ensures forall c :: c in Decode(u) ==> !Surrogate(c)
  {
    if u != [] {
      DecodesToScalars(if Surrogate(u[0]) then u[2..] else u[1..]);
    }
  }

  /** The two limits really differ: more than half the limit in supplementary
      characters passes the computer's check and fails the phone's. */
  lemma SupplementaryTextIsRefused(s: Text, limit: nat)
    requires limit < 2 * |s| && |s| <= limit
    requires forall i :: 0 <= i < |s| ==> s[i] >= 0x10000
    ensures Plain(s, limit, false) && !Displayable(Utf16(s), limit, false)
  {
    SupplementaryLength(s);
  }

  lemma {:induction false} SupplementaryLength(s: Text)
    requires forall i :: 0 <= i < |s| ==> s[i] >= 0x10000
    ensures |Utf16(s)| == 2 * |s|
  {
    if s != [] {
      SupplementaryLength(s[1..]);
    }
  }
}
