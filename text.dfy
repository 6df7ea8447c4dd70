/** Text fields of the model-file records: decimal integers as `operator<<`
    prints them, and the whitespace-separated words an `istringstream`
    extracts with `>>`. */
module Text {
  import opened Errors
  import StringUtil

  /** The characters `>>` skips between words. */
  const Whitespace: seq<char> := [' ', '\t', '\n', '\r', '\U{000B}', '\U{000C}']

  predicate IsDigit(ch: char)
  {
    '0' <= ch <= '9'
  }

  predicate AllDigits(s: string)
  {
    forall i :: 0 <= i < |s| ==> IsDigit(s[i])
  }

  function DigitChar(d: nat): (ch: char)
    requires d < 10
    ensures IsDigit(ch)
  {
    ('0' as int + d) as char
  }

  function DigitValue(ch: char): (d: nat)
    requires IsDigit(ch)
    ensures d < 10
  {
    ch as int - '0' as int
  }

  /** Decimal digits of n, most significant first, no leading zeros. */
  function NatToString(n: nat): (r: string)
    ensures |r| >= 1 && AllDigits(r)
    decreases n
  {
    if n < 10 then [DigitChar(n)] else NatToString(n / 10) + [DigitChar(n % 10)]
  }

  /** What `out << n` writes for an integer n. */
  function IntToString(n: int): (r: string)
  {
    if n < 0 then "-" + NatToString(-n) else NatToString(n)
  }

  function DigitsValue(s: string): nat
    requires |s| >= 1 && AllDigits(s)
    decreases |s|
  {
    if |s| == 1 then DigitValue(s[0]) else DigitsValue(s[..|s| - 1]) * 10 + DigitValue(s[|s| - 1])
  }

  /** A word read as an integer field: an optional sign and at least one digit. */
  function ParseInt(s: string): Option<int>
  {
    if |s| >= 2 && s[0] == '-' && AllDigits(s[1..]) then Some(0 - DigitsValue(s[1..]) as int)
    else if |s| >= 2 && s[0] == '+' && AllDigits(s[1..]) then Some(DigitsValue(s[1..]))
    else if |s| >= 1 && AllDigits(s) then Some(DigitsValue(s))
    else None
  }

  lemma {:induction false} DigitsOfNat(n: nat)
    ensures DigitsValue(NatToString(n)) == n
    decreases n
  {
    if n >= 10 {
      DigitsOfNat(n / 10);
      var r := NatToString(n);
      assert r[..|r| - 1] == NatToString(n / 10);
    }
  }

  /** Printing an integer and reading it back gives the integer. */
  lemma ParseIntToString(n: int)
    ensures ParseInt(IntToString(n)) == Some(n)
  {
    var r := IntToString(n);
    if n < 0 {
      var d := NatToString(-n);
      DigitsOfNat(-n);
      assert r == "-" + d && r[1..] == d;
      assert ParseInt(r) == Some(0 - DigitsValue(d) as int);
    } else {
      DigitsOfNat(n);
      assert IsDigit(r[0]);
      assert ParseInt(r) == Some(DigitsValue(r));
    }
  }

  /** A field that `>>` reads back whole: non-empty and free of whitespace. */
  predicate WordSafe(w: string)
  {
    |w| > 0 && forall j :: 0 <= j < |w| ==> w[j] !in Whitespace
  }

  lemma IntToStringWordSafe(n: int)
    ensures WordSafe(IntToString(n))
  {
    var r := IntToString(n);
    forall j | 0 <= j < |r| ensures r[j] !in Whitespace {
      if n < 0 && j == 0 {
      } else if n < 0 {
        assert r[j] == NatToString(-n)[j - 1];
      }
    }
  }

  /** The strings that are not empty, in order. */
  function NonEmpty(ts: seq<string>): (r: seq<string>)
    ensures |r| <= |ts|
    ensures forall i :: 0 <= i < |r| ==> r[i] != ""
  {
    if ts == [] then [] else (if ts[0] == "" then [] else [ts[0]]) + NonEmpty(ts[1..])
  }

  /** The words successive `>>` extractions of strings read from a line. */
  function Words(line: string): seq<string>
  {
    NonEmpty(StringUtil.Split(line, Whitespace))
  }

  /** A line written as words separated by single spaces. */
  function Line(ws: seq<string>): string
  {
    StringUtil.JoinWith(ws, ' ')
  }

  lemma {:induction false} NonEmptyOfNonEmpty(ts: seq<string>)
    requires forall i :: 0 <= i < |ts| ==> ts[i] != ""
    ensures NonEmpty(ts) == ts
  {
    if ts != [] {
      NonEmptyOfNonEmpty(ts[1..]);
      assert ts == [ts[0]] + ts[1..];
    }
  }

  /** Reading the words of a written line gives the words back. */
  lemma WordsOfLine(ws: seq<string>)
    requires |ws| >= 1
    requires forall i :: 0 <= i < |ws| ==> WordSafe(ws[i])
    ensures Words(Line(ws)) == ws
  {
    StringUtil.JoinSplit(ws, ' ', Whitespace);
    NonEmptyOfNonEmpty(ws);
  }

  /** The i-th word read as a string field; `>>` past the end leaves it empty. */
  function WordAt(ws: seq<string>, i: nat): string
  {
    if i < |ws| then ws[i] else ""
  }

  /** The i-th word read as an integer field. */
  function IntAt(ws: seq<string>, i: nat, field: string): Result<int>
  {
    if i < |ws| then
      match ParseInt(ws[i])
      case Some(n) => Ok(n)
      case None => Err(Unparseable(field))
    else Err(Unparseable(field))
  }
}
