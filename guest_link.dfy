/**
 * The guest link: the plaintext `{guestId}-{eventId}` that the user service
 * encrypts for a new guest, and the parse the invitation service applies to
 * the decrypted uri (`Long.parseLong(decryptedUri.split("-")[1])`).
 */
module GuestLink {
  import opened Wrappers
  import opened Errors

  /**
   * The `Aes` utility, which is not part of this model: any pair of
   * functions, `decrypt` answering `None` where the Java code returns `null`.
   */
  datatype Aes = Aes(encrypt: string -> string, decrypt: string -> Option<string>)

  const MaxLong: int := 0x7fff_ffff_ffff_ffff
  const MinLong: int := -0x8000_0000_0000_0000

  predicate IsDigit(c: char) { '0' <= c <= '9' }

  predicate AllDigits(s: string) { forall i :: 0 <= i < |s| ==> IsDigit(s[i]) }

  function DigitChar(d: nat): char
    requires d < 10
  {
    ['0', '1', '2', '3', '4', '5', '6', '7', '8', '9'][d]
  }

  /** `Long.toString` of a non-negative number: decimal digits, no sign, no leading zeros. */
  function NatToString(n: nat): (s: string)
    ensures |s| >= 1 && AllDigits(s)
    decreases n
  {
    if n < 10 then [DigitChar(n)] else NatToString(n / 10) + [DigitChar(n % 10)]
  }

  /** Java's string conversion of a `Long`, `null` included. */
  function LongToString(x: Option<int>): string
  {
    match x
    case None => "null"
    case Some(v) => if v < 0 then "-" + NatToString(-v) else NatToString(v)
  }

  function DigitValue(c: char): nat
    requires IsDigit(c)
  {
    c as int - '0' as int
  }

  /** The value of a string of decimal digits. */
  function DigitsValue(s: string): nat
    requires AllDigits(s)
  {
    if s == [] then 0 else 10 * DigitsValue(s[..|s| - 1]) + DigitValue(s[|s| - 1])
  }

  /** `Long.parseLong`: an optional sign and at least one digit, within 64 bits. */
  function ParseLong(s: string): (r: Result<int, Error>)
    ensures r.Success? ==> MinLong <= r.value <= MaxLong
    ensures s == [] ==> r == Failure(NumberFormat)
  {
    var negative := |s| > 0 && s[0] == '-';
    var digits := if |s| > 0 && (s[0] == '-' || s[0] == '+') then s[1..] else s;
    if digits == [] || !AllDigits(digits) then Failure(NumberFormat)
    else
      var v: int := if negative then -(DigitsValue(digits) as int) else DigitsValue(digits);
      if MinLong <= v <= MaxLong then Success(v) else Failure(NumberFormat)
  }

  /** Every field of `s` between the separators `-`, empty ones included. */
  function Fields(s: string): (r: seq<string>)
    ensures |r| >= 1
  {
    if s == [] then [""]
    else
      var rest := Fields(s[1..]);
      if s[0] == '-' then [""] + rest else [[s[0]] + rest[0]] + rest[1..]
  }

  /** `fs` without its trailing empty strings. */
  function DropTrailingEmpty(fs: seq<string>): (r: seq<string>)
    ensures |r| <= |fs| && r == fs[..|r|]
    ensures r != [] ==> r[|r| - 1] != ""
  {
    if fs == [] then []
    else if fs[|fs| - 1] == "" then DropTrailingEmpty(fs[..|fs| - 1])
    else fs
  }

  /**
   * Java's `s.split("-")`: the whole string when it holds no `-`; otherwise
   * the fields with trailing empty ones removed.
   */
  function JavaSplit(s: string): seq<string>
  {
    if '-' !in s then [s] else DropTrailingEmpty(Fields(s))
  }

  /** The plaintext a guest's uri encrypts: `guestId + "-" + eventId`. */
  function GuestPlaintext(guestId: Option<int>, eventId: Option<int>): string
  {
    LongToString(guestId) + "-" + LongToString(eventId)
  }

  /**
   * The event id read back from a decrypted uri: index 1 of the split (an
   * index error when missing), parsed as a `Long`.
   */
  function EventIdOf(plaintext: string): (r: Result<int, Error>)
    ensures JavaSplit(plaintext) == [plaintext] ==> r == Failure(IndexOutOfBounds)
  {
    var parts := JavaSplit(plaintext);
    if |parts| < 2 then Failure(IndexOutOfBounds) else ParseLong(parts[1])
  }

  // ---------------------------------------------------------------------------
  // Properties of the link format

  lemma {:induction false} DigitsOfNat(n: nat)
    ensures DigitsValue(NatToString(n)) == n
    decreases n
  {
    var s := NatToString(n);
    if n < 10 {
      assert s[..|s| - 1] == [];
    } else {
      assert s[..|s| - 1] == NatToString(n / 10);
      DigitsOfNat(n / 10);
    }
  }

  /** The fields of a string with no `-` in it are that string alone. */
  lemma {:induction false} FieldsWithoutDash(s: string)
    requires '-' !in s
    ensures Fields(s) == [s]
  {
    if s != [] {
      assert '-' !in s[1..] by {
        forall i | 0 <= i < |s[1..]| ensures s[1..][i] != '-' { assert s[1..][i] == s[i + 1]; }
      }
      FieldsWithoutDash(s[1..]);
      assert [s[0]] + s[1..] == s;
    }
  }

  /** A prefix without `-` joins the first field. */
  lemma {:induction false} FieldsOfJoin(a: string, b: string)
    requires '-' !in a
    ensures Fields(a + "-" + b) == [a] + Fields(b)
  {
    if a == [] {
      assert a + "-" + b == "-" + b;
      assert ("-" + b)[1..] == b;
    } else {
      assert (a + "-" + b)[1..] == a[1..] + "-" + b;
      assert '-' !in a[1..] by {
        forall i | 0 <= i < |a[1..]| ensures a[1..][i] != '-' { assert a[1..][i] == a[i + 1]; }
      }
      FieldsOfJoin(a[1..], b);
      assert [a[0]] + a[1..] == a;
    }
  }

  lemma NatStringHasNoDash(n: nat)
    ensures '-' !in NatToString(n)
  {
    var s := NatToString(n);
    forall i | 0 <= i < |s| ensures s[i] != '-' {
      assert IsDigit(s[i]);
    }
  }

  /**
   * Round trip of the link format: for every event id a `Long` can hold that
   * is not negative, the parse of the plaintext gives the event id back.
   */
  lemma GuestLinkRoundTrip(guestId: nat, eventId: int)
    requires 0 <= eventId <= MaxLong
    ensures EventIdOf(GuestPlaintext(Some(guestId), Some(eventId))) == Success(eventId)
  {
    var g := NatToString(guestId);
    var e := NatToString(eventId);
    NatStringHasNoDash(guestId);
    NatStringHasNoDash(eventId);
    var p := GuestPlaintext(Some(guestId), Some(eventId));
    assert p == g + "-" + e;
    assert p[|g|] == '-';
    FieldsOfJoin(g, e);
    FieldsWithoutDash(e);
    assert Fields(p) == [g, e];
    assert e != "";
    assert JavaSplit(p) == [g, e];
    DigitsOfNat(eventId);
    assert e[0] != '-' && e[0] != '+' by { assert IsDigit(e[0]); }
  }

  /** A negative event id puts an empty field after the first `-`: the parse fails. */
  lemma NegativeEventIdIsUnreadable(guestId: nat, eventId: int)
    requires eventId < 0
    ensures EventIdOf(GuestPlaintext(Some(guestId), Some(eventId))) == Failure(NumberFormat)
  {
    var g := NatToString(guestId);
    var e := NatToString(-eventId);
    NatStringHasNoDash(guestId);
    NatStringHasNoDash(-eventId);
    var p := GuestPlaintext(Some(guestId), Some(eventId));
    assert p == g + "-" + ("-" + e);
    FieldsOfJoin(g, "-" + e);
    FieldsOfJoin("", e);
    assert "" + "-" + e == "-" + e;
    FieldsWithoutDash(e);
    assert Fields(p) == [g, "", e];
    assert p[|g|] == '-';
    assert e != "";
    assert JavaSplit(p) == [g, "", e];
  }

  /** A string that starts with a character other than a sign or a digit is no number. */
  lemma ParseLongRejectsLetter(s: string)
    requires |s| > 0 && s[0] != '-' && s[0] != '+' && !IsDigit(s[0])
    ensures ParseLong(s) == Failure(NumberFormat)
  {
    assert !AllDigits(s);
  }

  /** A `null` event id is written as "null", which does not parse. */
  lemma NullEventIdIsUnreadable(guestId: nat)
    ensures EventIdOf(GuestPlaintext(Some(guestId), None)) == Failure(NumberFormat)
  {
    var g := NatToString(guestId);
    NatStringHasNoDash(guestId);
    var p := GuestPlaintext(Some(guestId), None);
    assert p == g + "-" + "null";
    FieldsOfJoin(g, "null");
    FieldsWithoutDash("null");
    assert p[|g|] == '-';
    assert JavaSplit(p) == [g, "null"];
    ParseLongRejectsLetter("null");
  }
}
