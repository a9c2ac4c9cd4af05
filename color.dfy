/**
 * The colour utility of components/chart.tsx: `hexToRGB` reads the three
 * hex digit pairs of a `#RRGGBB` string and writes them back as a CSS
 * `rgb(...)` or `rgba(...)` colour with decimal channels.
 *
 * Beside it, as its partner, a reader of the CSS colour text it writes
 * (`ParseCssColor`), and the writer of `#RRGGBB` strings (`HexColor`)
 * that its channel parsing inverts.
 */
module Color {
  import opened Wrappers

  /**
   * The `alpha` argument, reduced to what the code observes of it: whether
   * the number is falsy (0, -0, NaN) and, if it is not, the text JavaScript
   * prints for it when it is concatenated to a string.
   */
  datatype Alpha = Zero | NonZero(token: string)

  // ---------------------------------------------------------------------
  // Hex digits and channels (parseInt(..., 16) on a pair of hex digits)
  // ---------------------------------------------------------------------

  predicate IsHexDigit(c: char) {
    '0' <= c <= '9' || 'a' <= c <= 'f' || 'A' <= c <= 'F'
  }

  predicate IsLowerHexDigit(c: char) {
    '0' <= c <= '9' || 'a' <= c <= 'f'
  }

  /** The value parseInt gives a hex digit, either case. */
  function HexDigitValue(c: char): (v: nat)
    requires IsHexDigit(c)
    ensures v < 16
  {
    if '0' <= c <= '9' then c as int - '0' as int
    else if 'a' <= c <= 'f' then c as int - 'a' as int + 10
    else c as int - 'A' as int + 10
  }

  /** The lower-case hex digit of a value below 16. */
  function HexChar(d: nat): (c: char)
    requires d < 16
    ensures IsHexDigit(c) && HexDigitValue(c) == d
    ensures IsLowerHexDigit(c)
  {
    if d < 10 then ('0' as int + d) as char else ('a' as int + d - 10) as char
  }

  /**
   * What the model requires of a colour given to `hexToRGB`: hex digits at
   * positions 1 to 6.
   * Position 0 (the `#`) and anything after position 6 are never read.
   */
  predicate ParsableHex(hex: string) {
    |hex| >= 7 && forall i | 1 <= i < 7 :: IsHexDigit(hex[i])
  }

  /** A `#RRGGBB` colour with lower-case digits, the form of every built-in palette entry. */
  predicate IsHexColor(s: string) {
    && |s| == 7 && s[0] == '#'
    && IsLowerHexDigit(s[1]) && IsLowerHexDigit(s[2])
    && IsLowerHexDigit(s[3]) && IsLowerHexDigit(s[4])
    && IsLowerHexDigit(s[5]) && IsLowerHexDigit(s[6])
  }

  /** parseInt(hex.slice(i, i + 2), 16): the two digits read as one base-16 number. */
  function Channel(hex: string, i: nat): (v: nat)
    requires i + 1 < |hex| && IsHexDigit(hex[i]) && IsHexDigit(hex[i + 1])
    ensures v <= 255
  {
    16 * HexDigitValue(hex[i]) + HexDigitValue(hex[i + 1])
  }

  function Red(hex: string): (v: nat)
    requires ParsableHex(hex)
    ensures v <= 255
    ensures v == 16 * HexDigitValue(hex[1]) + HexDigitValue(hex[2])
  {
    Channel(hex, 1)
  }

  function Green(hex: string): (v: nat)
    requires ParsableHex(hex)
    ensures v <= 255
    ensures v == 16 * HexDigitValue(hex[3]) + HexDigitValue(hex[4])
  {
    Channel(hex, 3)
  }

  function Blue(hex: string): (v: nat)
    requires ParsableHex(hex)
    ensures v <= 255
    ensures v == 16 * HexDigitValue(hex[5]) + HexDigitValue(hex[6])
  {
    Channel(hex, 5)
  }

  /**
   * A summary of the contracts of `Red`, `Green` and `Blue` in one place:
   * each channel is a byte, and is 16 times the first digit of its pair
   * plus the second: red from positions 1-2, green from 3-4, blue from 5-6.
   */
  lemma ChannelsAreBytes(hex: string)
    requires ParsableHex(hex)
    ensures Red(hex) <= 255 && Green(hex) <= 255 && Blue(hex) <= 255
    ensures Red(hex) == 16 * HexDigitValue(hex[1]) + HexDigitValue(hex[2])
    ensures Green(hex) == 16 * HexDigitValue(hex[3]) + HexDigitValue(hex[4])
    ensures Blue(hex) == 16 * HexDigitValue(hex[5]) + HexDigitValue(hex[6])
  {
  }

  /** `#RRGGBB` in lower case, for three bytes. */
  function HexColor(r: nat, g: nat, b: nat): (s: string)
    requires r <= 255 && g <= 255 && b <= 255
    ensures IsHexColor(s) && ParsableHex(s)
  {
    ['#', HexChar(r / 16), HexChar(r % 16), HexChar(g / 16), HexChar(g % 16),
     HexChar(b / 16), HexChar(b % 16)]
  }

  /** Reading the channels of a written colour gives back the bytes. */
  lemma HexColorRoundTrip(r: nat, g: nat, b: nat)
    requires r <= 255 && g <= 255 && b <= 255
    ensures Red(HexColor(r, g, b)) == r
    ensures Green(HexColor(r, g, b)) == g
    ensures Blue(HexColor(r, g, b)) == b
  {
  }

  /** A lower-case hex digit is the digit written for its value. */
  lemma HexCharOfValue(c: char)
    requires IsLowerHexDigit(c)
    ensures HexChar(HexDigitValue(c)) == c
  {
  }

  /** The two lower-case digits of a pair are the digits written for the byte they denote. */
  lemma PairCanonical(hi: char, lo: char)
    requires IsLowerHexDigit(hi)
    requires IsLowerHexDigit(lo)
    ensures HexChar((16 * HexDigitValue(hi) + HexDigitValue(lo)) / 16) == hi
    ensures HexChar((16 * HexDigitValue(hi) + HexDigitValue(lo)) % 16) == lo
  {
    var h, l := HexDigitValue(hi), HexDigitValue(lo);
    assert (16 * h + l) / 16 == h && (16 * h + l) % 16 == l;
    HexCharOfValue(hi);
    HexCharOfValue(lo);
  }

  /** Writing back the channels read from a lower-case colour gives the colour itself. */
  lemma HexColorCanonical(s: string)
    requires IsHexColor(s)
    ensures ParsableHex(s)
    ensures HexColor(Red(s), Green(s), Blue(s)) == s
  {
    assert ParsableHex(s);
    PairCanonical(s[1], s[2]);
    PairCanonical(s[3], s[4]);
    PairCanonical(s[5], s[6]);
    assert s == [s[0], s[1], s[2], s[3], s[4], s[5], s[6]];
  }

  // ---------------------------------------------------------------------
  // Decimal text of a non-negative integer (JavaScript's number-to-string)
  // ---------------------------------------------------------------------

  predicate IsDigit(c: char) {
    '0' <= c <= '9'
  }

  predicate AllDigits(s: string) {
    forall i | 0 <= i < |s| :: IsDigit(s[i])
  }

  function DigitValue(c: char): (d: nat)
    requires IsDigit(c)
    ensures d < 10
  {
    c as int - '0' as int
  }

  function DigitChar(d: nat): (c: char)
    requires d < 10
    ensures IsDigit(c) && DigitValue(c) == d
  {
    ('0' as int + d) as char
  }

  /**
   * How JavaScript prints a channel value (an integer from 0 up to, but not
   * including, 10^21): its decimal digits, with no leading zero except for 0
   * itself.
   */
  function DecimalString(n: nat): (s: string)
    ensures |s| > 0 && AllDigits(s)
    ensures s[0] == '0' <==> n == 0
  {
    if n < 10 then [DigitChar(n)] else DecimalString(n / 10) + [DigitChar(n % 10)]
  }

  /** The number a non-empty string of decimal digits denotes. */
  function DigitsValue(s: string): nat
    requires AllDigits(s)
  {
    if s == [] then 0 else 10 * DigitsValue(s[..|s| - 1]) + DigitValue(s[|s| - 1])
  }

  /** Reading the printed digits gives back the number. */
  lemma {:induction false} DecimalRoundTrip(n: nat)
    ensures DigitsValue(DecimalString(n)) == n
  {
    if n >= 10 {
      DecimalRoundTrip(n / 10);
      var s := DecimalString(n);
      assert s[..|s| - 1] == DecimalString(n / 10);
    }
  }

  /** The length of the run of decimal digits that starts the string. */
  function DigitRun(s: string): (k: nat)
    ensures k <= |s| && AllDigits(s[..k])
    ensures k == |s| || !IsDigit(s[k])
  {
    if s == [] || !IsDigit(s[0]) then 0
    else
      var k := 1 + DigitRun(s[1..]);
      assert s[..k] == [s[0]] + s[1..][..k - 1];
      k
  }

  /** A decimal number at the start of the string, and what follows it. */
  function ParseNat(s: string): Option<(nat, string)> {
    var k := DigitRun(s);
    if k == 0 then None else Some((DigitsValue(s[..k]), s[k..]))
  }

  /** The printed number, followed by anything that is not a digit, reads back as that number. */
  lemma ParseDecimalString(n: nat, rest: string)
    requires rest == [] || !IsDigit(rest[0])
    ensures ParseNat(DecimalString(n) + rest) == Some((n, rest))
  {
    var d := DecimalString(n);
    var s := d + rest;
    var k := DigitRun(s);
    assert k == |d| by {
      assert forall i | 0 <= i < |d| :: s[i] == d[i];
      assert forall i | 0 <= i < k :: s[..k][i] == s[i];
      assert |rest| > 0 ==> s[|d|] == rest[0];
    }
    assert s[..k] == d && s[k..] == rest;
    DecimalRoundTrip(n);
  }

  // ---------------------------------------------------------------------
  // hexToRGB and a reader of the CSS colours it writes
  // ---------------------------------------------------------------------

  /**
   * `hexToRGB(hex, alpha)`: `rgba(r, g, b, alpha)` when `alpha` is truthy,
   * `rgb(r, g, b)` (an opaque colour) when it is falsy, with each channel in
   * decimal.
   */
  function HexToRGB(hex: string, alpha: Alpha): (s: string)
    requires ParsableHex(hex)
    ensures |s| > 0 && s[|s| - 1] == ')'
  {
    var r, g, b := DecimalString(Red(hex)), DecimalString(Green(hex)), DecimalString(Blue(hex));
    match alpha
    case NonZero(token) => "rgba(" + r + ", " + g + ", " + b + ", " + token + ")"
    case Zero => "rgb(" + r + ", " + g + ", " + b + ")"
  }

  /** A CSS colour in functional notation: three channels, and the alpha text when there is one. */
  datatype CssColor = CssColor(red: nat, green: nat, blue: nat, alpha: Option<string>)

  /** What is left of `s` once `prefix` is taken off its front, if it starts with it. */
  function After(prefix: string, s: string): (r: Option<string>)
    ensures r.Some? ==> s == prefix + r.value
  {
    if |prefix| <= |s| && s[..|prefix|] == prefix then Some(s[|prefix|..]) else None
  }

  /**
   * Regrouping a concatenation, used to bring a written colour to the
   * shape `prefix + rest` that `After` takes apart.
   */
  lemma ConcatAssociative(a: string, b: string, c: string)
    ensures a + b + c == a + (b + c)
  {
  }

  /** Three decimal channels separated by ", ", and what follows the third. */
  function ParseChannels(s: string): Option<(nat, nat, nat, string)> {
    match ParseNat(s)
    case None => None
    case Some((r, s1)) =>
      match After(", ", s1)
      case None => None
      case Some(s2) =>
        match ParseNat(s2)
        case None => None
        case Some((g, s3)) =>
          match After(", ", s3)
          case None => None
          case Some(s4) =>
            match ParseNat(s4)
            case None => None
            case Some((b, s5)) => Some((r, g, b, s5))
  }

  /**
   * Reads `rgb(R, G, B)` or `rgba(R, G, B, A)` with decimal channels and
   * the single-space separators used above; the alpha text is everything
   * between the last separator and the closing parenthesis.
   */
  function ParseCssColor(s: string): Option<CssColor> {
    match After("rgba(", s)
    case Some(body) =>
      (match ParseChannels(body)
       case None => None
       case Some((r, g, b, rest)) =>
         match After(", ", rest)
         case None => None
         case Some(tail) =>
           if |tail| > 0 && tail[|tail| - 1] == ')'
           then Some(CssColor(r, g, b, Some(tail[..|tail| - 1])))
           else None)
    case None =>
      match After("rgb(", s)
      case None => None
      case Some(body) =>
        match ParseChannels(body)
        case None => None
        case Some((r, g, b, rest)) =>
          if rest == ")" then Some(CssColor(r, g, b, None)) else None
  }

  /** Three numbers, each but the last followed by the separator, read as three channels. */
  lemma ParseChannelsSteps(s1: string, s2: string, s3: string, r: nat, g: nat, b: nat, rest: string)
    requires ParseNat(s1) == Some((r, ", " + s2))
    requires ParseNat(s2) == Some((g, ", " + s3))
    requires ParseNat(s3) == Some((b, rest))
    ensures ParseChannels(s1) == Some((r, g, b, rest))
  {
    assert After(", ", ", " + s2) == Some(s2);
    assert After(", ", ", " + s3) == Some(s3);
  }

  /** Three printed channels with the separators, then a non-digit, read back as the channels. */
  lemma ParseWrittenChannels(r: nat, g: nat, b: nat, rest: string)
    requires |rest| > 0 && !IsDigit(rest[0])
    ensures ParseChannels(DecimalString(r) + ", " + DecimalString(g) + ", " + DecimalString(b) + rest)
         == Some((r, g, b, rest))
  {
    var dr, dg, db := DecimalString(r), DecimalString(g), DecimalString(b);
    var s3 := db + rest;
    var s2 := dg + (", " + s3);
    var s1 := dr + (", " + s2);
    ConcatAssociative(dr + ", " + dg + ", ", db, rest);
    ConcatAssociative(dr + ", " + dg, ", ", s3);
    ConcatAssociative(dr + ", ", dg, ", " + s3);
    ConcatAssociative(dr, ", ", s2);
    ParseDecimalString(r, ", " + s2);
    ParseDecimalString(g, ", " + s3);
    ParseDecimalString(b, rest);
    ParseChannelsSteps(s1, s2, s3, r, g, b, rest);
  }

  /** The three printed channels of `hex`, joined by ", " as `hexToRGB` joins them. */
  function ChannelText(hex: string): string
    requires ParsableHex(hex)
  {
    DecimalString(Red(hex)) + ", " + DecimalString(Green(hex)) + ", " + DecimalString(Blue(hex))
  }

  /** `hexToRGB`'s output is the opening, the channel text, and the tail that holds the alpha. */
  lemma HexToRGBParts(hex: string, alpha: Alpha)
    requires ParsableHex(hex)
    ensures alpha.NonZero? ==> HexToRGB(hex, alpha) == "rgba(" + (ChannelText(hex) + (", " + alpha.token + ")"))
    ensures alpha.Zero? ==> HexToRGB(hex, alpha) == "rgb(" + (ChannelText(hex) + ")")
  {
    var dr, dg, db := DecimalString(Red(hex)), DecimalString(Green(hex)), DecimalString(Blue(hex));
    var channels := ChannelText(hex);
    var p := if alpha.NonZero? then "rgba(" else "rgb(";
    ConcatAssociative(p, dr, ", ");
    ConcatAssociative(p, dr + ", ", dg);
    ConcatAssociative(p, dr + ", " + dg, ", ");
    ConcatAssociative(p, dr + ", " + dg + ", ", db);
    if alpha.NonZero? {
      ConcatAssociative(p, channels, ", ");
      ConcatAssociative(p, channels + ", ", alpha.token);
      ConcatAssociative(p, channels + ", " + alpha.token, ")");
      ConcatAssociative(channels, ", ", alpha.token);
      ConcatAssociative(channels, ", " + alpha.token, ")");
    } else {
      ConcatAssociative(p, channels, ")");
    }
  }

  /** A truthy alpha: the output reads back as the channels with the alpha text. */
  lemma ParseHexToRGBA(hex: string, token: string)
    requires ParsableHex(hex)
    ensures ParseCssColor(HexToRGB(hex, NonZero(token)))
         == Some(CssColor(Red(hex), Green(hex), Blue(hex), Some(token)))
  {
    var rest := ", " + token + ")";
    var body := ChannelText(hex) + rest;
    HexToRGBParts(hex, NonZero(token));
    assert After("rgba(", "rgba(" + body) == Some(body);
    ParseWrittenChannels(Red(hex), Green(hex), Blue(hex), rest);
    ConcatAssociative(", ", token, ")");
    assert After(", ", rest) == Some(token + ")");
    assert (token + ")")[..|token|] == token;
  }

  /** A falsy alpha: the output reads back as the channels with no alpha at all. */
  lemma ParseHexToOpaqueRGB(hex: string)
    requires ParsableHex(hex)
    ensures ParseCssColor(HexToRGB(hex, Zero)) == Some(CssColor(Red(hex), Green(hex), Blue(hex), None))
  {
    var body := ChannelText(hex) + ")";
    var s := "rgb(" + body;
    HexToRGBParts(hex, Zero);
    assert s[4] == DecimalString(Red(hex))[0];
    assert After("rgba(", s) == None by {
      assert s[..5][4] == s[4];
    }
    assert After("rgb(", s) == Some(body);
    ParseWrittenChannels(Red(hex), Green(hex), Blue(hex), ")");
  }

  /**
   * The colour `hexToRGB` writes reads back as the hex string's three
   * channels, with the alpha text for a truthy alpha and no alpha at all
   * (an opaque colour, not a transparent one) for a falsy one.
   */
  lemma ParseHexToRGB(hex: string, alpha: Alpha)
    requires ParsableHex(hex)
    ensures ParseCssColor(HexToRGB(hex, alpha))
         == Some(CssColor(Red(hex), Green(hex), Blue(hex),
                          if alpha.NonZero? then Some(alpha.token) else None))
  {
    match alpha
    case NonZero(token) => ParseHexToRGBA(hex, token);
    case Zero => ParseHexToOpaqueRGB(hex);
  }
}
