/** Text helpers shared by the archive writer, the replay reader, the dashboard and the
    query builders: Go's strings.Split and strings.Repeat, the decimal text of an unsigned
    integer (what `%v` / `%d` print) and strconv.Atoi. */
module Text {

  datatype Option<+T> = None | Some(value: T)

  const Int64Min: int := -0x8000_0000_0000_0000
  const Int64Max: int := 0x7FFF_FFFF_FFFF_FFFF
  const Uint64Modulus: int := 0x1_0000_0000_0000_0000

  /** strings.Repeat(string(c), n) */
  function Repeat(c: char, n: nat): (r: string)
    ensures |r| == n
    ensures forall i :: 0 <= i < n ==> r[i] == c
  {
    if n == 0 then [] else [c] + Repeat(c, n - 1)
  }

  /** Go's integer division of int64 values truncates toward zero. */
  function TruncDiv(a: int, b: int): (q: int)
    requires b > 0
    ensures a >= 0 ==> q == a / b
    ensures a < 0 ==> q == -((-a) / b)
  {
    if a >= 0 then a / b else -((-a) / b)
  }

  predicate IsDigit(c: char) { '0' <= c <= '9' }

  predicate AllDigits(s: string) { forall i :: 0 <= i < |s| ==> IsDigit(s[i]) }

  function DigitChar(d: nat): (c: char)
    requires d < 10
    ensures IsDigit(c)
  {
    ['0','1','2','3','4','5','6','7','8','9'][d]
  }

  function DigitValue(c: char): (d: nat)
    requires IsDigit(c)
    ensures d < 10
  {
    (c as int - '0' as int) as nat
  }

  /** The value of a non-empty run of decimal digits. */
  function DigitsValue(s: string): nat
    requires AllDigits(s)
  {
    if s == [] then 0 else DigitsValue(s[..|s| - 1]) * 10 + DigitValue(s[|s| - 1])
  }

  /** The decimal text Go prints for an unsigned integer (`%d`, `%v`). */
  function Decimal(n: nat): (r: string)
    ensures |r| >= 1 && AllDigits(r)
  {
    if n < 10 then [DigitChar(n)] else Decimal(n / 10) + [DigitChar(n % 10)]
  }

  lemma {:induction false} DecimalValue(n: nat)
    ensures DigitsValue(Decimal(n)) == n
  {
    var r := Decimal(n);
    if n < 10 {
      assert r[..|r| - 1] == [];
    } else {
      DecimalValue(n / 10);
      assert r[..|r| - 1] == Decimal(n / 10);
    }
  }

  lemma {:induction false} DecimalShort(n: nat)
    requires n < 1000
    ensures n < 10 ==> |Decimal(n)| == 1
    ensures 10 <= n < 100 ==> |Decimal(n)| == 2
    ensures 100 <= n ==> |Decimal(n)| == 3
  {
    if n >= 10 { DecimalShort(n / 10); }
  }

  /** fmt's `%3d`: the decimal text, left-padded with spaces to width 3. */
  function Pad3(n: nat): string
  {
    var d := Decimal(n);
    if |d| < 3 then Repeat(' ', 3 - |d|) + d else d
  }

  /** The digits of a number's text: what follows an optional leading sign. */
  function Unsigned(s: string): string
  {
    if |s| >= 1 && (s[0] == '-' || s[0] == '+') then s[1..] else s
  }

  /** strconv.Atoi on a 64-bit platform: an optional sign, at least one decimal digit,
      nothing else, and a value inside the int64 range; anything else is an error. */
  function Atoi(s: string): (r: Option<int>)
    ensures r.Some? ==> Int64Min <= r.value <= Int64Max
    ensures r.Some? ==> |s| >= 1 && AllDigits(Unsigned(s)) && |Unsigned(s)| >= 1
    ensures r.Some? && s[0] != '-' ==> r.value == DigitsValue(Unsigned(s))
    ensures r.Some? && s[0] == '-' ==> r.value == -(DigitsValue(Unsigned(s)) as int)
  {
    if |s| == 0 then None
    else
      var neg := s[0] == '-';
      var digits := Unsigned(s);
      if |digits| == 0 || !AllDigits(digits) then None
      else
        var v: int := if neg then -(DigitsValue(digits) as int) else DigitsValue(digits);
        if Int64Min <= v <= Int64Max then Some(v) else None
  }

  lemma DigitsHaveNoPunctuation(s: string)
    requires AllDigits(s)
    ensures ',' !in s && '/' !in s && ':' !in s
  {
  }

  lemma DigitsAreOneLine(s: string)
    requires AllDigits(s)
    ensures '\n' !in s && '\r' !in s
  {
  }

  /** Go's conversion uint64(v) of an int: two's-complement wrap-around. */
  function ToUint64(v: int): (u: nat)
    ensures u < Uint64Modulus
    ensures 0 <= v < Uint64Modulus ==> u == v
  {
    v % Uint64Modulus
  }

  /** Atoi reads back what Decimal printed, for every value int64 can hold. */
  lemma AtoiDecimal(n: nat)
    requires n <= Int64Max
    ensures Atoi(Decimal(n)) == Some(n)
  {
    DecimalValue(n);
    var d := Decimal(n);
    assert IsDigit(d[0]);
  }

  /** strings.Split(s, string(sep)): the pieces between separators; n separators give
      n + 1 pieces, and the empty string gives one empty piece. */
  function Split(s: string, sep: char): (r: seq<string>)
    ensures |r| >= 1
    ensures forall i :: 0 <= i < |r| ==> sep !in r[i]
  {
    if |s| == 0 then [""]
    else
      var rest := Split(s[1..], sep);
      if s[0] == sep then [""] + rest else [[s[0]] + rest[0]] + rest[1..]
  }

  /** strings.Join(fields, string(sep)) */
  function Join(fields: seq<string>, sep: char): string
  {
    if |fields| == 0 then ""
    else if |fields| == 1 then fields[0]
    else fields[0] + [sep] + Join(fields[1..], sep)
  }

  lemma {:induction false} SplitNoSep(a: string, sep: char)
    requires sep !in a
    ensures Split(a, sep) == [a]
  {
    if |a| > 0 {
      SplitNoSep(a[1..], sep);
      assert [a[0]] + a[1..] == a;
    }
  }

  lemma {:induction false} SplitAtFirst(a: string, sep: char, b: string)
    requires sep !in a
    ensures Split(a + [sep] + b, sep) == [a] + Split(b, sep)
  {
    if |a| == 0 {
      assert a + [sep] + b == [sep] + b;
      assert ([sep] + b)[1..] == b;
    } else {
      assert (a + [sep] + b)[1..] == a[1..] + [sep] + b;
      SplitAtFirst(a[1..], sep, b);
      assert [a[0]] + a[1..] == a;
    }
  }

  /** Splitting a joined row gives back its fields when no field holds the separator. */
  lemma {:induction false} SplitJoin(fields: seq<string>, sep: char)
    requires |fields| >= 1
    requires forall i :: 0 <= i < |fields| ==> sep !in fields[i]
    ensures Split(Join(fields, sep), sep) == fields
  {
    if |fields| == 1 {
      SplitNoSep(fields[0], sep);
    } else {
      SplitJoin(fields[1..], sep);
      SplitAtFirst(fields[0], sep, Join(fields[1..], sep));
      assert [fields[0]] + fields[1..] == fields;
    }
  }

  /** Joining the pieces with the separator gives back the string that was split. */
  lemma {:induction false} JoinSplit(s: string, sep: char)
    ensures Join(Split(s, sep), sep) == s
  {
    if |s| > 0 {
      JoinSplit(s[1..], sep);
      var rest := Split(s[1..], sep);
      if s[0] == sep {
        assert ([""] + rest)[1..] == rest;
      } else if |rest| > 1 {
        assert ([[s[0]] + rest[0]] + rest[1..])[1..] == rest[1..];
      }
      assert [s[0]] + s[1..] == s;
    }
  }

  /** Joining adds no character other than the separator. */
  lemma {:induction false} JoinNoSepInside(fields: seq<string>, sep: char, other: char)
    requires other != sep
    requires forall i :: 0 <= i < |fields| ==> other !in fields[i]
    ensures other !in Join(fields, sep)
  {
    if |fields| > 1 {
      JoinNoSepInside(fields[1..], sep, other);
    }
  }

  /** Joining one more field appends the separator and the field. */
  lemma {:induction false} JoinSnoc(fields: seq<string>, x: string, sep: char)
    requires |fields| >= 1
    ensures Join(fields + [x], sep) == Join(fields, sep) + [sep] + x
  {
    if |fields| == 1 {
      assert (fields + [x])[1..] == [x];
    } else {
      assert (fields + [x])[1..] == fields[1..] + [x];
      JoinSnoc(fields[1..], x, sep);
    }
  }

  /** One more newline-terminated line appends that line and its newline to the text. */
  lemma JoinTerminatedSnoc(lines: seq<string>, x: string)
    requires |lines| >= 1
    ensures Join(lines + [x] + [""], '\n') == Join(lines + [""], '\n') + x + "\n"
  {
    var j, nl := Join(lines, '\n'), ['\n'];
    JoinSnoc(lines, x, '\n');
    assert Join(lines + [x], '\n') == j + nl + x;
    JoinSnoc(lines + [x], "", '\n');
    assert Join(lines + [x] + [""], '\n') == j + nl + x + nl;
    JoinSnoc(lines, "", '\n');
    assert Join(lines + [""], '\n') == j + nl;
  }

  predicate EndsInCR(s: string) { |s| > 0 && s[|s| - 1] == '\r' }

  /** Joining fields that hold no newline, with a separator that is neither '\n' nor '\r',
      gives one line, which ends in '\r' only if the last field does. */
  lemma {:induction false} JoinIsOneLine(fields: seq<string>, sep: char)
    requires sep != '\n' && sep != '\r'
    requires forall i :: 0 <= i < |fields| ==> '\n' !in fields[i]
    requires |fields| > 0 ==> !EndsInCR(fields[|fields| - 1])
    ensures '\n' !in Join(fields, sep) && !EndsInCR(Join(fields, sep))
  {
    if |fields| > 1 {
      JoinIsOneLine(fields[1..], sep);
      var rest := Join(fields[1..], sep);
      assert Join(fields, sep) == fields[0] + [sep] + rest;
    }
  }

  /** A text bufio.Scanner returns whole as one line. */
  predicate OneLine(s: string) { '\n' !in s && !EndsInCR(s) }

  lemma OneLinesSnoc(lines: seq<string>, x: string)
    requires forall i :: 0 <= i < |lines| ==> OneLine(lines[i])
    requires OneLine(x)
    ensures forall i :: 0 <= i < |lines + [x]| ==> OneLine((lines + [x])[i])
  {
  }

  /** A line as bufio.ScanLines returns it: without one trailing '\r'. */
  function DropCR(s: string): string
  {
    if EndsInCR(s) then s[..|s| - 1] else s
  }

  /** The lines a bufio.Scanner with the default ScanLines reads from a text: the text cut at
      every '\n', each piece without a trailing '\r', and no line after a final '\n'. */
  function ScanLines(s: string): seq<string>
  {
    var pieces := Split(s, '\n');
    DropCRs(if pieces[|pieces| - 1] == "" then pieces[..|pieces| - 1] else pieces)
  }

  function DropCRs(pieces: seq<string>): (r: seq<string>)
    ensures |r| == |pieces|
  {
    if |pieces| == 0 then [] else DropCRs(pieces[..|pieces| - 1]) + [DropCR(pieces[|pieces| - 1])]
  }

  lemma {:induction false} DropCRsOfLines(lines: seq<string>)
    requires forall i :: 0 <= i < |lines| ==> OneLine(lines[i])
    ensures DropCRs(lines) == lines
  {
    if |lines| > 0 {
      var init := lines[..|lines| - 1];
      DropCRsOfLines(init);
      assert OneLine(lines[|lines| - 1]);
      assert init + [lines[|lines| - 1]] == lines;
    }
  }

  /** Lines that hold no '\n' and do not end in '\r', each written with a newline after it,
      are read back by ScanLines exactly, in order. */
  lemma ScanLinesJoin(lines: seq<string>)
    requires forall i :: 0 <= i < |lines| ==> OneLine(lines[i])
    ensures ScanLines(Join(lines + [""], '\n')) == lines
  {
    var all := lines + [""];
    TerminatedHasNoNewline(lines);
    SplitJoin(all, '\n');
    assert Split(Join(all, '\n'), '\n') == all;
    assert all[..|all| - 1] == lines;
    DropCRsOfLines(lines);
  }

  lemma TerminatedHasNoNewline(lines: seq<string>)
    requires forall i :: 0 <= i < |lines| ==> OneLine(lines[i])
    ensures forall i :: 0 <= i < |lines + [""]| ==> '\n' !in (lines + [""])[i]
  {
    forall i | 0 <= i < |lines + [""]|
      ensures '\n' !in (lines + [""])[i]
    {
      if i < |lines| { assert (lines + [""])[i] == lines[i]; }
    }
  }

  /** A first line followed by one-line rows, all newline-terminated, scans back as exactly
      those lines. */
  lemma ScanLinesAfterFirst(first: string, rows: seq<string>, text: string)
    requires OneLine(first)
    requires forall i :: 0 <= i < |rows| ==> OneLine(rows[i])
    requires text == Join([first] + rows + [""], '\n')
    ensures ScanLines(text) == [first] + rows
  {
    var ls := [first] + rows;
    forall i | 0 <= i < |ls|
      ensures OneLine(ls[i])
    {
      if i > 0 { assert ls[i] == rows[i - 1]; }
    }
    ScanLinesJoin(ls);
  }
}
