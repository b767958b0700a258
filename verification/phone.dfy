/** The South African mobile-number field of components/ui/phone-input.tsx:
    display formatting `082 832 2321`, the validator, and what a keystroke
    hands to the parent form. */
module Phone {
  import opened Wrappers
  import opened Text

  const MaxDigits := 10

  const PhoneRequired := "Selfoonnommer word vereis"
  const PhoneLeadingZero := "Selfoonnommer moet begin met 0"
  const PhoneTooShort := "Selfoonnommer moet 10 syfers wees"

  /** `digits.slice(0, 10)`. */
  function Limit(d: string): (r: string)
    ensures |r| == if |d| <= MaxDigits then |d| else MaxDigits
    ensures r == d[..|r|]
  {
    if |d| <= MaxDigits then d else d[..MaxDigits]
  }

  /** The 3-3-4 grouping of an already limited digit string. */
  function Group(d: string): string
  {
    if |d| <= 3 then d
    else if |d| <= 6 then d[..3] + " " + d[3..]
    else d[..3] + " " + d[3..6] + " " + d[6..]
  }

  /** `formatPhoneNumber`. */
  function FormatPhoneNumber(value: string): (r: string)
    ensures |r| <= 12
    ensures r == "" <==> DigitsOnly(value) == ""
  {
    Group(Limit(DigitsOnly(value)))
  }

  /** Where the grouping puts its spaces, for a digit string of length `n`. */
  function SpacePositions(n: nat): set<nat>
  {
    if n <= 3 then {} else if n <= 6 then {3} else {3, 7}
  }

  /** `s` with every space removed. */
  function RemoveSpaces(s: string): (r: string)
    ensures |r| <= |s|
  {
    if |s| == 0 then ""
    else if s[0] == ' ' then RemoveSpaces(s[1..])
    else [s[0]] + RemoveSpaces(s[1..])
  }

  lemma {:induction false} RemoveSpacesAppend(a: string, b: string)
    ensures RemoveSpaces(a + b) == RemoveSpaces(a) + RemoveSpaces(b)
  {
    if |a| == 0 {
      assert a + b == b;
    } else {
      assert (a + b)[1..] == a[1..] + b;
      RemoveSpacesAppend(a[1..], b);
    }
  }

  lemma {:induction false} RemoveSpacesOfDigits(s: string)
    requires AllDigits(s)
    ensures RemoveSpaces(s) == s
  {
    if |s| > 0 {
      RemoveSpacesOfDigits(s[1..]);
    }
  }

  /** One inserted space vanishes under both kinds of stripping. */
  lemma {:induction false} StripSpace(x: string, y: string)
    ensures RemoveSpaces(x + " " + y) == RemoveSpaces(x) + RemoveSpaces(y)
    ensures DigitsOnly(x + " " + y) == DigitsOnly(x) + DigitsOnly(y)
  {
    var sy := [' '] + y;
    assert x + " " + y == x + sy;
    assert sy[1..] == y;
    assert RemoveSpaces(sy) == RemoveSpaces(y);
    assert DigitsOnly(sy) == DigitsOnly(y);
    RemoveSpacesAppend(x, sy);
    DigitsOnlyAppend(x, sy);
  }

  lemma StripDigits(d: string)
    requires AllDigits(d)
    ensures RemoveSpaces(d) == d && DigitsOnly(d) == d
  {
    RemoveSpacesOfDigits(d);
    DigitsOnlyOfDigits(d);
  }

  /** Grouping only inserts spaces: stripping them, or keeping only the
      digits, gives the digits back. */
  lemma GroupStrips(d: string)
    requires AllDigits(d)
    ensures RemoveSpaces(Group(d)) == d
    ensures DigitsOnly(Group(d)) == d
  {
    if |d| <= 3 {
      StripDigits(d);
    } else if |d| <= 6 {
      var a, b := d[..3], d[3..];
      StripDigits(a); StripDigits(b);
      StripSpace(a, b);
      assert Group(d) == a + " " + b;
      assert a + b == d;
    } else {
      var a, b, c := d[..3], d[3..6], d[6..];
      StripDigits(a); StripDigits(b); StripDigits(c);
      StripSpace(a, b);
      StripSpace(a + " " + b, c);
      assert Group(d) == (a + " " + b) + " " + c;
      assert a + b + c == d;
    }
  }

  /** The formatted value holds the first min(10, #digits) digits of the
      input, in order, and nothing else but spaces. */
  lemma FormatKeepsLeadingDigits(value: string)
    ensures var d := DigitsOnly(value);
      && RemoveSpaces(FormatPhoneNumber(value)) == d[..if |d| <= MaxDigits then |d| else MaxDigits]
      && DigitsOnly(FormatPhoneNumber(value)) == d[..if |d| <= MaxDigits then |d| else MaxDigits]
  {
    GroupStrips(Limit(DigitsOnly(value)));
  }

  /** The layout of the formatted value: a space exactly at the grouping
      positions (none for up to 3 digits, after the third for 4 to 6, after
      the third and sixth digit otherwise), digits everywhere else, and at
      most 12 characters. */
  lemma FormatLayout(value: string)
    ensures var r := FormatPhoneNumber(value);
      var n := |Limit(DigitsOnly(value))|;
      && |r| == n + |SpacePositions(n)|
      && |r| <= 12
      && (forall i :: 0 <= i < |r| ==> (r[i] == ' ' <==> i in SpacePositions(n)))
      && (forall i :: 0 <= i < |r| && i !in SpacePositions(n) ==> IsDigit(r[i]))
  {
    var d := Limit(DigitsOnly(value));
    var r := FormatPhoneNumber(value);
    var n := |d|;
    if n <= 3 {
    } else if n <= 6 {
      assert r == d[..3] + " " + d[3..];
      assert |SpacePositions(n)| == 1;
      forall i | 0 <= i < |r| ensures (r[i] == ' ' <==> i in SpacePositions(n)) && (i !in SpacePositions(n) ==> IsDigit(r[i])) {
        if i < 3 { assert r[i] == d[i]; } else if i > 3 { assert r[i] == d[i - 1]; }
      }
    } else {
      assert r == d[..3] + " " + d[3..6] + " " + d[6..];
      assert |SpacePositions(n)| == 2;
      forall i | 0 <= i < |r| ensures (r[i] == ' ' <==> i in SpacePositions(n)) && (i !in SpacePositions(n) ==> IsDigit(r[i])) {
        if i < 3 { assert r[i] == d[i]; }
        else if 3 < i < 7 { assert r[i] == d[i - 1]; }
        else if i > 7 { assert r[i] == d[i - 2]; }
      }
    }
  }

  /** Formatting an already formatted value changes nothing. */
  lemma FormatIdempotent(value: string)
    ensures FormatPhoneNumber(FormatPhoneNumber(value)) == FormatPhoneNumber(value)
  {
    var d := Limit(DigitsOnly(value));
    GroupStrips(d);
    assert DigitsOnly(FormatPhoneNumber(value)) == d;
    assert Limit(d) == d;
  }

  /** `validatePhoneNumber`: the checks run on the digits of the value in a
      fixed order, and the first that fails gives the message. */
  function ValidatePhoneNumber(value: string): (r: Option<string>)
    ensures r.None? <==> var d := DigitsOnly(value); |d| >= MaxDigits && d[0] == '0'
  {
    var d := DigitsOnly(value);
    if |d| == 0 then Some(PhoneRequired)
    else if d[0] != '0' then Some(PhoneLeadingZero)
    else if |d| < MaxDigits then Some(PhoneTooShort)
    else None
  }

  /** The validator's verdict for each input: which message, when. */
  lemma ValidatePhoneNumberOrder(value: string)
    ensures var d := DigitsOnly(value);
      && (ValidatePhoneNumber(value) == Some(PhoneRequired) <==> |d| == 0)
      && (ValidatePhoneNumber(value) == Some(PhoneLeadingZero) <==> |d| > 0 && d[0] != '0')
      && (ValidatePhoneNumber(value) == Some(PhoneTooShort) <==> |d| > 0 && d[0] == '0' && |d| < MaxDigits)
  {
  }

  /** What one keystroke in the field produces. */
  datatype PhoneChange = PhoneChange(display: string, emitted: string, error: Option<string>)

  /** `handleChange`: the display and the validation see the formatted,
      truncated value, while the parent receives every digit typed. */
  function HandleChange(input: string): (c: PhoneChange)
    ensures c.emitted == DigitsOnly(input)
  {
    var formatted := FormatPhoneNumber(input);
    PhoneChange(formatted, DigitsOnly(input), ValidatePhoneNumber(formatted))
  }

  /** The display carries the first ten emitted digits, and the field accepts
      exactly when at least ten digits were typed and the first is '0'. */
  lemma HandleChangeAgrees(input: string)
    ensures var c := HandleChange(input);
      && DigitsOnly(c.display) == c.emitted[..if |c.emitted| <= MaxDigits then |c.emitted| else MaxDigits]
      && (c.error.None? <==> |c.emitted| >= MaxDigits && c.emitted[0] == '0')
  {
    FormatKeepsLeadingDigits(input);
  }

  /** More than ten typed digits reach the parent untruncated while the
      display, and the validation, keep only the first ten. */
  lemma HandleChangeOverflow(input: string)
    requires AllDigits(input) && |input| > MaxDigits && input[0] == '0'
    ensures HandleChange(input).emitted == input
    ensures DigitsOnly(HandleChange(input).display) == input[..MaxDigits]
    ensures HandleChange(input).error.None?
  {
    DigitsOnlyOfDigits(input);
    FormatKeepsLeadingDigits(input);
  }

  lemma GroupExample()
    ensures Group("0828322321") == "082 832 2321"
  {
    var t := "0828322321";
    assert t[..3] == "082" && t[3..6] == "832" && t[6..] == "2321";
  }

  /** The documented example "0828322321" is accepted and shown as
      "082 832 2321". */
  lemma PhoneAcceptedExample(a: string)
    requires a == "0828322321"
    ensures FormatPhoneNumber(a) == "082 832 2321"
    ensures ValidatePhoneNumber(a).None?
  {
    assert AllDigits(a);
    DigitsOnlyOfDigits(a);
    assert Limit(a) == a;
    GroupExample();
  }

  /** "1234567890" lacks the leading zero; "08312" is too short. */
  lemma PhoneRejectedExamples()
    ensures ValidatePhoneNumber("1234567890") == Some(PhoneLeadingZero)
    ensures ValidatePhoneNumber("08312") == Some(PhoneTooShort)
  {
    var b, c := "1234567890", "08312";
    assert AllDigits(b) && AllDigits(c);
    DigitsOnlyOfDigits(b);
    DigitsOnlyOfDigits(c);
  }
}
