/**
 * The name part of getOutputImagePath: "IMAGE_" + timestamp + "_" + width +
 * "x" + height + ".jpg", where each number is written as Java's
 * String.valueOf writes an int or a long. The name is proved to determine
 * the three numbers it was built from.
 */
module ImageName {
  import opened Wrappers

  predicate IsDigit(c: char) {
    '0' <= c <= '9'
  }

  predicate AllDigits(s: string) {
    forall i :: 0 <= i < |s| ==> IsDigit(s[i])
  }

  function DigitChar(d: nat): (c: char)
    requires d < 10
    ensures IsDigit(c) && DigitValue(c) == d
  {
    ('0' as int + d) as char
  }

  function DigitValue(c: char): nat
    requires IsDigit(c)
  {
    c as int - '0' as int
  }

  /** The decimal digits of a natural number, without leading zeros. */
  function Digits(n: nat): (s: string)
    ensures |s| >= 1 && AllDigits(s)
    ensures (s[0] == '0') == (n == 0)
  {
    if n < 10 then [DigitChar(n)] else Digits(n / 10) + [DigitChar(n % 10)]
  }

  /** String.valueOf on an int or a long: a minus sign for negative values, then the digits. */
  function DecimalString(n: int): (s: string)
    ensures |s| >= 1
    ensures s[0] == '-' <==> n < 0
    ensures AllDigits(if n < 0 then s[1..] else s)
  {
    if n < 0 then "-" + Digits(-n) else Digits(n)
  }

  /** The value of a non-empty run of decimal digits. */
  function ParseDigits(s: string): nat
    requires |s| >= 1 && AllDigits(s)
  {
    if |s| == 1 then DigitValue(s[0]) else 10 * ParseDigits(s[..|s| - 1]) + DigitValue(s[|s| - 1])
  }

  /** Reads an optionally negative decimal integer; None for anything else. */
  function ParseDecimal(s: string): Option<int> {
    if |s| >= 2 && s[0] == '-' && AllDigits(s[1..]) then Some(0 - ParseDigits(s[1..]))
    else if |s| >= 1 && AllDigits(s) then Some(ParseDigits(s))
    else None
  }

  lemma {:induction false} ParseDigitsOfDigits(n: nat)
    ensures ParseDigits(Digits(n)) == n
  {
    if n >= 10 {
      var s := Digits(n);
      assert s[..|s| - 1] == Digits(n / 10);
      ParseDigitsOfDigits(n / 10);
    }
  }

  /** Reading back what String.valueOf wrote gives the number again. */
  lemma DecimalRoundTrip(n: int)
    ensures ParseDecimal(DecimalString(n)) == Some(n)
  {
    var s := DecimalString(n);
    if n < 0 {
      var d := Digits(-n);
      assert s == "-" + d;
      assert s[1..] == d;
      ParseDigitsOfDigits(-n);
      assert ParseDecimal(s) == Some(0 - ParseDigits(d));
    } else {
      assert s == Digits(n);
      ParseDigitsOfDigits(n);
      assert ParseDecimal(s) == Some(ParseDigits(s));
    }
  }

  /** The first position of `c` in `s`, if any. */
  function IndexOf(s: string, c: char): (r: Option<nat>)
    ensures r.Some? ==> r.value < |s| && s[r.value] == c && c !in s[..r.value]
    ensures r.None? ==> c !in s
  {
    if |s| == 0 then None
    else if s[0] == c then Some(0)
    else match IndexOf(s[1..], c)
      case None => None
      case Some(k) => assert s[1..][..k] == s[1..k + 1]; Some(k + 1)
  }

  /** The image file name for a capture taken at `timeStamp` milliseconds, of `width` by `height` pixels. */
  function ImageFileName(timeStamp: int, width: int, height: int): string {
    "IMAGE_" + StampAndSize(timeStamp, width, height) + ".jpg"
  }

  function StampAndSize(timeStamp: int, width: int, height: int): string {
    DecimalString(timeStamp) + "_" + Size(width, height)
  }

  function Size(width: int, height: int): string {
    DecimalString(width) + "x" + DecimalString(height)
  }

  /** Splits an image file name back into its timestamp, width and height. */
  function ParseImageFileName(name: string): Option<(int, int, int)> {
    if |name| >= 10 && name[..6] == "IMAGE_" && name[|name| - 4..] == ".jpg" then
      ParseStampAndSize(name[6..|name| - 4])
    else None
  }

  /** Splits "<timestamp>_<width>x<height>" at its first '_' and the first 'x' after it. */
  function ParseStampAndSize(middle: string): Option<(int, int, int)> {
    match IndexOf(middle, '_')
    case None => None
    case Some(i) =>
      match (ParseDecimal(middle[..i]), ParseSize(middle[i + 1..]))
      case (Some(t), Some((w, h))) => Some((t, w, h))
      case _ => None
  }

  /** Splits "<width>x<height>" at its first 'x'. */
  function ParseSize(size: string): Option<(int, int)> {
    match IndexOf(size, 'x')
    case None => None
    case Some(j) =>
      match (ParseDecimal(size[..j]), ParseDecimal(size[j + 1..]))
      case (Some(w), Some(h)) => Some((w, h))
      case _ => None
  }

  /** Neither '_' nor 'x' occurs in a number that String.valueOf wrote. */
  lemma DecimalStringHasNoSeparator(n: int)
    ensures '_' !in DecimalString(n) && 'x' !in DecimalString(n)
  {
    var s := DecimalString(n);
    forall i | 0 <= i < |s| ensures s[i] != '_' && s[i] != 'x' {
      if n < 0 && i > 0 {
        assert s[i] == s[1..][i - 1];
      }
    }
  }

  /** The first occurrence of `c` in a + [c] + b is right after `a` when `a` has none. */
  lemma IndexOfAfter(a: string, c: char, b: string)
    requires c !in a
    ensures IndexOf(a + [c] + b, c) == Some(|a|)
  {
    var s := a + [c] + b;
    assert s[|a|] == c;
    assert forall i :: 0 <= i < |a| ==> s[i] == a[i];
  }

  lemma ParseSizeRoundTrip(width: int, height: int)
    ensures ParseSize(Size(width, height)) == Some((width, height))
  {
    var w, h := DecimalString(width), DecimalString(height);
    var size := Size(width, height);
    assert size == w + ['x'] + h;
    DecimalStringHasNoSeparator(width);
    IndexOfAfter(w, 'x', h);
    assert size[..|w|] == w;
    assert size[|w| + 1..] == h;
    DecimalRoundTrip(width);
    DecimalRoundTrip(height);
  }

  lemma ParseStampAndSizeRoundTrip(timeStamp: int, width: int, height: int)
    ensures ParseStampAndSize(StampAndSize(timeStamp, width, height)) == Some((timeStamp, width, height))
  {
    var t, size := DecimalString(timeStamp), Size(width, height);
    var middle := StampAndSize(timeStamp, width, height);
    assert middle == t + ['_'] + size;
    DecimalStringHasNoSeparator(timeStamp);
    IndexOfAfter(t, '_', size);
    assert middle[..|t|] == t;
    assert middle[|t| + 1..] == size;
    DecimalRoundTrip(timeStamp);
    ParseSizeRoundTrip(width, height);
  }

  /** The file name determines the timestamp and both dimensions it was built from. */
  lemma ImageFileNameRoundTrip(timeStamp: int, width: int, height: int)
    ensures ParseImageFileName(ImageFileName(timeStamp, width, height)) == Some((timeStamp, width, height))
  {
    var name := ImageFileName(timeStamp, width, height);
    var middle := StampAndSize(timeStamp, width, height);
    assert name[..6] == "IMAGE_";
    assert name[|name| - 4..] == ".jpg";
    assert name[6..|name| - 4] == middle;
    ParseStampAndSizeRoundTrip(timeStamp, width, height);
  }

  /** Two captures get the same file name only when timestamp and dimensions agree. */
  lemma ImageFileNameInjective(t1: int, w1: int, h1: int, t2: int, w2: int, h2: int)
    requires ImageFileName(t1, w1, h1) == ImageFileName(t2, w2, h2)
    ensures t1 == t2 && w1 == w2 && h1 == h2
  {
    ImageFileNameRoundTrip(t1, w1, h1);
    ImageFileNameRoundTrip(t2, w2, h2);
  }

  /** One step of writing out a number of two or more digits. */
  lemma DigitsStep(n: nat)
    requires n >= 10
    ensures Digits(n) == Digits(n / 10) + [DigitChar(n % 10)]
  {
  }

  /** The file name of a 1920x1080 still captured at epoch millisecond 1700000000000. */
  lemma ImageFileNameExample()
    ensures ImageFileName(1700000000000, 1920, 1080) == "IMAGE_1700000000000_1920x1080.jpg"
  {
    ExampleStrings();
    ImageFileNameOf(1700000000000, 1920, 1080, "1700000000000", "1920", "1080");
    ExampleNameSpelling();
  }

  /** The file name spelled out from the decimal forms of its three numbers. */
  lemma ImageFileNameOf(timeStamp: int, width: int, height: int, t: string, w: string, h: string)
    requires DecimalString(timeStamp) == t && DecimalString(width) == w && DecimalString(height) == h
    ensures ImageFileName(timeStamp, width, height) == "IMAGE_" + (t + "_" + (w + "x" + h)) + ".jpg"
  {
  }

  lemma ExampleNameSpelling()
    ensures "IMAGE_" + ("1700000000000" + "_" + ("1920" + "x" + "1080")) + ".jpg" == "IMAGE_1700000000000_1920x1080.jpg"
  {
  }

  lemma ExampleStrings()
    ensures DecimalString(1700000000000) == "1700000000000"
    ensures DecimalString(1920) == "1920" && DecimalString(1080) == "1080"
  {
    ExampleDigits();
  }

  lemma ExampleDigits()
    ensures Digits(1700000000000) == "1700000000000"
    ensures Digits(1920) == "1920" && Digits(1080) == "1080"
  {
    DigitsStep(17);
    DigitsStep(170);
    DigitsStep(1700);
    DigitsStep(17000);
    DigitsStep(170000);
    DigitsStep(1700000);
    DigitsStep(17000000);
    DigitsStep(170000000);
    DigitsStep(1700000000);
    DigitsStep(17000000000);
    DigitsStep(170000000000);
    DigitsStep(1700000000000);
    DigitsStep(19);
    DigitsStep(192);
    DigitsStep(1920);
    DigitsStep(108);
    DigitsStep(1080);
  }
}
