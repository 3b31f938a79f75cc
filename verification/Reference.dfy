/** The text form of a retry reference, "<webhook id>:<attempt>", as the scored set stores it. */
module Reference {
  import opened Domain

  // ---------------------------------------------------------------- decimal integers

  const DIGITS := "0123456789"

  function NatText(n: nat): string {
    if n < 10 then [DIGITS[n]] else NatText(n / 10) + [DIGITS[n % 10]]
  }

  /** `strconv.Itoa`. */
  function Itoa(n: int): string {
    if n < 0 then "-" + NatText(-n) else NatText(n)
  }

  predicate IsDigit(c: char) {
    '0' <= c <= '9'
  }

  /** The value of a string of digits; the empty string has none. */
  function Digits(s: string): Option<nat> {
    if s == [] || !IsDigit(s[|s| - 1]) then None
    else
      var d := (s[|s| - 1] as int) - ('0' as int);
      if |s| == 1 then Some(d)
      else match Digits(s[..|s| - 1])
           case None => None
           case Some(high) => Some(10 * high + d)
  }

  const MAX_INT64 := 0x7fff_ffff_ffff_ffff

  predicate IsInt64(n: int) {
    -MAX_INT64 - 1 <= n <= MAX_INT64
  }

  /** `strconv.Atoi` on a 64-bit platform: an optional sign, then digits, then the range check. */
  function Atoi(s: string): Option<int> {
    var signed := s != [] && (s[0] == '-' || s[0] == '+');
    match Digits(if signed then s[1..] else s)
    case None => None
    case Some(n) =>
      var sign := if signed && s[0] == '-' then -1 else 1;
      var v := sign * n;
      if IsInt64(v) then Some(v) else None
  }

  lemma {:induction false} NatTextDigits(n: nat)
    ensures Digits(NatText(n)) == Some(n)
    ensures forall i :: 0 <= i < |NatText(n)| ==> IsDigit(NatText(n)[i])
    ensures NatText(n) != []
  {
    if n >= 10 {
      NatTextDigits(n / 10);
      var s := NatText(n);
      assert s[..|s| - 1] == NatText(n / 10);
    }
  }

  /** A text of digits has no sign, so `Atoi` reads all of it. */
  lemma Unsigned(s: string)
    requires s != [] && forall i :: 0 <= i < |s| ==> IsDigit(s[i])
    requires Digits(s).Some? && IsInt64(Digits(s).value)
    ensures Atoi(s) == Some(Digits(s).value) && ':' !in s
  {
  }

  lemma Signed(s: string)
    requires s != [] && forall i :: 0 <= i < |s| ==> IsDigit(s[i])
    requires Digits(s).Some? && IsInt64(-1 * Digits(s).value)
    ensures Atoi("-" + s) == Some(-1 * Digits(s).value) && ':' !in "-" + s
  {
    assert ("-" + s)[1..] == s;
  }

  /** Reading back a printed 64-bit integer gives the integer. */
  lemma AtoiOfItoa(n: int)
    requires IsInt64(n)
    ensures Atoi(Itoa(n)) == Some(n)
    ensures ':' !in Itoa(n)
  {
    var k: nat := if n < 0 then -n else n;
    NatTextDigits(k);
    if n < 0 {
      Signed(NatText(k));
    } else {
      Unsigned(NatText(k));
    }
  }

  // ---------------------------------------------------------------- splitting

  /** `strings.Split(s, ":")`. */
  function Split(s: string): (parts: seq<string>)
    ensures |parts| == Colons(s) + 1
  {
    if s == [] then [""]
    else
      var rest := Split(s[1..]);
      if s[0] == ':' then [""] + rest else [[s[0]] + rest[0]] + rest[1..]
  }

  function Colons(s: string): nat {
    if s == [] then 0 else Colons(s[1..]) + (if s[0] == ':' then 1 else 0)
  }

  lemma {:induction false} SplitAt(a: string, b: string)
    requires ':' !in a
    ensures Split(a + ":" + b) == [a] + Split(b)
  {
    var s := a + ":" + b;
    if a == [] {
      assert s[1..] == b;
    } else {
      SplitAt(a[1..], b);
      assert s[1..] == a[1..] + ":" + b;
      assert ([a[1..]] + Split(b))[1..] == Split(b);
      assert [a[0]] + a[1..] == a;
    }
  }

  lemma {:induction false} SplitOne(a: string)
    requires ':' !in a
    ensures Split(a) == [a]
  {
    if a != [] {
      SplitOne(a[1..]);
      assert [a[0]] + a[1..] == a;
    }
  }

  lemma {:induction false} ColonsOfConcat(a: string, b: string)
    ensures Colons(a + b) == Colons(a) + Colons(b)
    ensures Colons(a) > 0 <==> ':' in a
  {
    if a == [] {
      assert a + b == b;
    } else {
      ColonsOfConcat(a[1..], b);
      assert (a + b)[1..] == a[1..] + b;
    }
  }

  // ---------------------------------------------------------------- references

  function Format(r: Ref): string {
    r.id + ":" + Itoa(r.attempt)
  }

  /** `parseReference`; None is its error. */
  function Parse(ref: string): Option<Ref> {
    var parts := Split(ref);
    if |parts| != 2 then None
    else match Atoi(parts[1])
         case None => None
         case Some(attempt) => Some(Ref(parts[0], attempt))
  }

  /** Main result: a formatted reference parses back to the same pair exactly when the webhook id has no colon. */
  lemma ParseOfFormat(r: Ref)
    requires IsInt64(r.attempt)
    ensures Parse(Format(r)) == Some(r) <==> ':' !in r.id
    ensures ':' in r.id ==> Parse(Format(r)) == None
  {
    AtoiOfItoa(r.attempt);
    if ':' !in r.id {
      SplitAt(r.id, Itoa(r.attempt));
      SplitOne(Itoa(r.attempt));
    } else {
      ColonsOfConcat(r.id + ":", Itoa(r.attempt));
      ColonsOfConcat(r.id, ":");
      assert Colons(":") == 1;
    }
  }

  /** References to different attempts have different texts, so acknowledging one can never remove another. */
  lemma FormatInjective(r: Ref, r': Ref)
    requires IsInt64(r.attempt) && IsInt64(r'.attempt) && ':' !in r.id && ':' !in r'.id
    ensures Format(r) == Format(r') ==> r == r'
  {
    ParseOfFormat(r);
    ParseOfFormat(r');
  }

  // ---------------------------------------------------------------- decimal notation

  function Pow10(n: nat): nat {
    if n == 0 then 1 else 10 * Pow10(n - 1)
  }

  /** Every digit counts by the place it stands at. */
  function PlaceValue(s: string): int {
    if s == [] then 0 else (s[0] as int - '0' as int) * Pow10(|s| - 1) + PlaceValue(s[1..])
  }

  lemma {:induction false} OnePlaceMore(s: string, c: char)
    ensures PlaceValue(s + [c]) == 10 * PlaceValue(s) + (c as int - '0' as int)
  {
    if s == [] {
      assert [c][1..] == [] && s + [c] == [c] && Pow10(0) == 1;
    } else {
      OnePlaceMore(s[1..], c);
      assert (s + [c])[1..] == s[1..] + [c];
      var d := s[0] as int - '0' as int;
      assert d * Pow10(|s|) == d * (10 * Pow10(|s| - 1)) == 10 * (d * Pow10(|s| - 1));
    }
  }

  predicate AllDigits(s: string) {
    s != [] && forall i :: 0 <= i < |s| ==> IsDigit(s[i])
  }

  lemma {:induction false} DigitsArePlaces(s: string)
    ensures Digits(s).Some? <==> AllDigits(s)
    ensures AllDigits(s) ==> Digits(s).value == PlaceValue(s)
  {
    if s != [] {
      var front, last := s[..|s| - 1], s[|s| - 1];
      assert s == front + [last];
      DigitsArePlaces(front);
      OnePlaceMore(front, last);
      if front != [] && !AllDigits(front) {
        var i :| 0 <= i < |front| && !IsDigit(front[i]);
        assert s[i] == front[i];
      }
    }
  }

  /** Main result: an attempt is read as the decimal number its digits denote by their places, with its sign, exactly
      when there is nothing but digits after the sign and the number fits 64 bits. */
  lemma DecimalTold(s: string)
    ensures var digits := if s != [] && s[0] in "+-" then s[1..] else s;
            var v := if s != [] && s[0] == '-' then -PlaceValue(digits) else PlaceValue(digits);
            Atoi(s) == if AllDigits(digits) && -0x8000_0000_0000_0000 <= v < 0x8000_0000_0000_0000
                       then Some(v) else None
  {
    DigitsArePlaces(if s != [] && s[0] in "+-" then s[1..] else s);
  }

  lemma {:induction false} NoLeadingZero(n: nat)
    ensures NatText(n) == "0" || (AllDigits(NatText(n)) && NatText(n)[0] != '0')
    ensures NatText(n) == "0" <==> n == 0
  {
    NatTextDigits(n);
    if n >= 10 {
      NoLeadingZero(n / 10);
      NatTextDigits(n / 10);
    }
  }

  /** A printed number has a sign exactly when it is negative, then digits alone, and no leading zero. */
  lemma PrintedPlain(n: int)
    ensures n == 0 <==> Itoa(n) == "0"
    ensures 0 < n ==> AllDigits(Itoa(n)) && Itoa(n)[0] != '0'
    ensures n < 0 ==> Itoa(n) != [] && Itoa(n)[0] == '-' && AllDigits(Itoa(n)[1..]) && Itoa(n)[1] != '0'
  {
    NoLeadingZero(if n < 0 then -n else n);
  }

  /** A text without a colon, or with two, is refused, and so is one whose attempt is not a number. */
  lemma RefusedTold(a: string, b: string, d: string)
    requires ':' !in a && ':' !in b && ':' !in d
    ensures Parse(a) == None && Parse(a + ":" + (b + ":" + d)) == None
    ensures Atoi(b).None? ==> Parse(a + ":" + b) == None
    ensures Atoi(b).Some? ==> Parse(a + ":" + b) == Some(Ref(a, Atoi(b).value))
  {
    SplitOne(a);
    SplitOne(b);
    SplitOne(d);
    SplitAt(a, b);
    SplitAt(b, d);
    SplitAt(a, b + ":" + d);
  }
}
