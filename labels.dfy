/**
 * `y_num = np.array([int(cls[:-1]) for cls in y])`: each label line loses
 * its last character (the line break) and the rest is read as a decimal
 * integer; a line that does not read as one raises, which is None here.
 */
module Labels {
  import opened Wrappers

  /** `cls[:-1]`: everything but the last character; an empty line stays empty. */
  function DropLast(line: string): (s: string)
    ensures |line| > 0 ==> line == s + [line[|line| - 1]]
    ensures |line| == 0 ==> s == []
  {
    if |line| == 0 then [] else line[..|line| - 1]
  }

  predicate IsDigit(ch: char) {
    '0' <= ch <= '9'
  }

  function DigitValue(ch: char): (v: nat)
    requires IsDigit(ch)
    ensures v < 10
  {
    (ch - '0') as nat
  }

  function DigitChar(v: nat): (ch: char)
    requires v < 10
    ensures IsDigit(ch) && DigitValue(ch) == v
  {
    '0' + v as char
  }

  /** The value of a non-empty run of decimal digits (leading zeros allowed). */
  function ParseDigits(s: string): Option<nat> {
    if |s| == 0 || !IsDigit(s[|s| - 1]) then None
    else if |s| == 1 then Some(DigitValue(s[0]))
    else match ParseDigits(s[..|s| - 1])
      case None => None
      case Some(v) => Some(10 * v + DigitValue(s[|s| - 1]))
  }

  /** Python's int() on a string: an optional sign, then decimal digits. */
  function ParseInt(s: string): Option<int> {
    if |s| > 0 && s[0] == '-' then
      match ParseDigits(s[1..])
      case None => None
      case Some(v) => Some(-(v as int))
    else if |s| > 0 && s[0] == '+' then ParseDigits(s[1..])
    else match ParseDigits(s)
      case None => None
      case Some(v) => Some(v)
  }

  /**
   * `int(cls[:-1])`: the line without its last character, read as an
   * integer. A label needs a digit besides that character.
   */
  function ParseLabel(line: string): (r: Option<int>)
    ensures |line| > 0 ==> r == ParseInt(line[..|line| - 1])
    ensures r.Some? ==> 2 <= |line|
  {
    ParseIntNonEmpty(DropLast(line));
    ParseInt(DropLast(line))
  }

  lemma ParseIntNonEmpty(s: string)
    ensures ParseInt(s).Some? ==> 0 < |s|
  {
    if |s| == 0 {
      assert ParseDigits(s).None?;
    }
  }

  /** The whole comprehension: every line parsed, or None when any line fails. */
  function ParseLabels(lines: seq<string>): (r: Option<seq<int>>)
    ensures r.Some? <==> forall i :: 0 <= i < |lines| ==> ParseLabel(lines[i]).Some?
    ensures r.Some? ==> |r.value| == |lines|
    ensures r.Some? ==> forall i :: 0 <= i < |lines| ==> r.value[i] == ParseLabel(lines[i]).value
  {
    if |lines| == 0 then Some([])
    else match (ParseLabel(lines[0]), ParseLabels(lines[1..]))
      case (Some(v), Some(vs)) => Some([v] + vs)
      case _ => None
  }

  /** The decimal digits of n, no leading zeros. */
  function Decimal(n: nat): (s: string)
    ensures |s| > 0 && forall i :: 0 <= i < |s| ==> IsDigit(s[i])
  {
    if n < 10 then [DigitChar(n)] else Decimal(n / 10) + [DigitChar(n % 10)]
  }

  lemma {:induction false} ParseDecimal(n: nat)
    ensures ParseDigits(Decimal(n)) == Some(n)
  {
    if n >= 10 {
      ParseDecimal(n / 10);
      var s := Decimal(n);
      assert s[..|s| - 1] == Decimal(n / 10);
    }
  }

  /** A non-negative label written in decimal with a line break reads back as itself. */
  lemma LabelLineRoundTrip(n: nat)
    ensures ParseLabel(Decimal(n) + "\n") == Some(n)
  {
    var s := Decimal(n);
    assert DropLast(s + "\n") == s;
    assert IsDigit(s[0]);
    ParseDecimal(n);
  }

  /** So does a negative one, written with a minus sign. */
  lemma NegativeLabelLineRoundTrip(n: nat)
    requires n > 0
    ensures ParseLabel("-" + Decimal(n) + "\n") == Some(-(n as int))
  {
    var s := "-" + Decimal(n);
    assert DropLast(s + "\n") == s;
    assert s[1..] == Decimal(n);
    ParseDecimal(n);
  }

  /** A final line without a line break loses its last digit instead: "3" fails and "12" reads as 1. */
  lemma LastLineWithoutBreak()
    ensures ParseLabel("3") == None
    ensures ParseLabel("12") == Some(1)
  {
    assert DropLast("12") == "1";
  }
}
