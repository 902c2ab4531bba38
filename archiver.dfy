/** The archive row written for every handled envelope (archiver.go): seven comma-separated
    columns, timestamp, origin, job/index, metric, value, event type, unit, and a newline.

    Float text (`%v` of a float64, strconv.ParseFloat) and the wall-clock part of an
    RFC 3339 timestamp are not modelled character by character: a Codec supplies them.
    ValidCodec states what the model relies on for the wall clock (over the instants whose
    year has four digits, the text is 19 characters, holds no comma and reads back), and
    FloatPrints states it for one float value. SampleCodec shows that both can hold. The
    time-zone suffix, integer text and everything else are modelled exactly. */
module Archiver {
  import opened Text
  import opened Envelopes

  datatype Codec = Codec(
    wallClock: int -> string,         // "2006-01-02T15:04:05" of local wall-clock seconds
    parseWall: string -> Option<int>,
    formatFloat: real -> string,      // `%v` of a float64
    parseFloat: string -> Option<real>)

  /** 0001-01-01T00:00:00 and 9999-12-31T23:59:59 in Unix seconds. */
  const MinWall: int := -62135596800
  const MaxWall: int := 253402300799

  /** The instants whose year has four digits, for which the layout prints 19 characters. */
  predicate FourDigitYear(t: int) { MinWall <= t <= MaxWall }

  /** The wall-clock text of every four-digit-year instant is 19 characters long, holds no
      comma and reads back as that instant. */
  ghost predicate ValidCodec(c: Codec)
  {
    forall t | FourDigitYear(t) :: |c.wallClock(t)| == 19 && ',' !in c.wallClock(t) && c.parseWall(c.wallClock(t)) == Some(t)
  }

  /** The `%v` text of x holds no comma and ParseFloat reads it back as x. Go promises this
      for every finite float64: `%v` prints the shortest text that reads back exactly. */
  predicate FloatPrints(c: Codec, x: real)
  {
    ',' !in c.formatFloat(x) && c.parseFloat(c.formatFloat(x)) == Some(x)
  }

  /** A Go int64, the type of an envelope's nanosecond timestamp. */
  predicate Int64(n: int) { Int64Min <= n <= Int64Max }

  const NanosPerSecond: int := 1_000_000_000

  /** A local zone's offset from UTC, in whole minutes, less than a day either way. */
  predicate ZoneOffset(minutes: int) { -1440 < minutes < 1440 }

  function TwoDigits(n: nat): (r: string)
    requires n < 100
    ensures |r| == 2 && AllDigits(r)
  {
    [DigitChar(n / 10), DigitChar(n % 10)]
  }

  /** The "Z07:00" element of Go's RFC 3339 layout: "Z" for UTC, else ±hh:mm. */
  function ZoneSuffix(minutes: int): (r: string)
    requires ZoneOffset(minutes)
    ensures ',' !in r
  {
    if minutes == 0 then "Z"
    else
      var a := if minutes < 0 then -minutes else minutes;
      [if minutes < 0 then '-' else '+'] + TwoDigits(a / 60) + ":" + TwoDigits(a % 60)
  }

  lemma ZoneSuffixOneLine(minutes: int)
    requires ZoneOffset(minutes)
    ensures '\n' !in ZoneSuffix(minutes)
  {
    if minutes != 0 {
      var a := if minutes < 0 then -minutes else minutes;
      DigitsAreOneLine(TwoDigits(a / 60));
      DigitsAreOneLine(TwoDigits(a % 60));
    }
  }

  /** time.Unix(secs, 0).Format(time.RFC3339) in a zone `minutes` east of UTC. */
  function FormatRfc3339(c: Codec, secs: int, minutes: int): (r: string)
    requires ValidCodec(c) && ZoneOffset(minutes) && FourDigitYear(secs + 60 * minutes)
    ensures |r| >= 20 && ',' !in r
    ensures r[..19] == c.wallClock(secs + 60 * minutes) && r[19..] == ZoneSuffix(minutes)
  {
    c.wallClock(secs + 60 * minutes) + ZoneSuffix(minutes)
  }

  /** The column names of the header row written when archiving starts (main.go:161). */
  const HeaderFields: seq<string> := ["time", "job/index", "metric", "value", "type", "unit"]

  /** The header row without its newline: six names, where every data row has seven columns. */
  function HeaderLine(): string
  {
    Join(HeaderFields, ',')
  }

  /** The interface{} arguments archiveMetric prints with `%v`. */
  datatype Printed = Float(x: real) | Unsigned(n: nat) | Str(s: string)

  function Show(c: Codec, v: Printed): string
  {
    match v
    case Float(x) => c.formatFloat(x)
    case Unsigned(n) => Decimal(n)
    case Str(s) => s
  }

  /** Every int64 nanosecond timestamp, truncated to seconds and moved by less than a day,
      falls on an instant whose year has four digits (1677 to 2262). */
  lemma SecondsInRange(ts: int, minutes: int)
    requires Int64(ts) && ZoneOffset(minutes)
    ensures FourDigitYear(TruncDiv(ts, NanosPerSecond) + 60 * minutes)
  {
    var q := TruncDiv(ts, NanosPerSecond);
    assert -9223372037 <= q <= 9223372037;
  }

  /** The seven columns archiveMetric prints (archiver.go:12-21). */
  function Columns(c: Codec, minutes: int, e: Envelope, metric: string, value: Printed, unit: Printed): (r: seq<string>)
    requires ValidCodec(c) && ZoneOffset(minutes) && Int64(e.timestamp)
    ensures |r| == 7 && r[1] == e.origin && r[2] == e.job + "/" + e.index && r[3] == metric
    ensures r[0] == FormatRfc3339(c, TruncDiv(e.timestamp, NanosPerSecond), minutes)
    ensures r[4] == Show(c, value) && r[5] == EventTypeName(e.event) && r[6] == Show(c, unit)
  {
    SecondsInRange(e.timestamp, minutes);
    [FormatRfc3339(c, TruncDiv(e.timestamp, NanosPerSecond), minutes),
     e.origin,
     e.job + "/" + e.index,
     metric,
     Show(c, value),
     EventTypeName(e.event),
     Show(c, unit)]
  }

  function ArchiveLine(c: Codec, minutes: int, e: Envelope, metric: string, value: Printed, unit: Printed): string
    requires ValidCodec(c) && ZoneOffset(minutes) && Int64(e.timestamp)
  {
    Join(Columns(c, minutes, e, metric, value, unit), ',')
  }

  /** The row archiveMetric writes: the columns joined by commas, then a newline. */
  function ArchiveRow(c: Codec, minutes: int, e: Envelope, metric: string, value: Printed, unit: Printed): string
    requires ValidCodec(c) && ZoneOffset(minutes) && Int64(e.timestamp)
  {
    ArchiveLine(c, minutes, e, metric, value, unit) + "\n"
  }

  /** What parseEnvelope passes to archiveMetric (collector.go:184, 189): a value metric's
      value and unit string, or a counter's delta and total. */
  function ArchivedLine(c: Codec, minutes: int, e: Envelope): string
    requires ValidCodec(c) && ZoneOffset(minutes) && Int64(e.timestamp) && !e.event.OtherEvent?
  {
    match e.event
    case ValueMetric(name, value, unit) => ArchiveLine(c, minutes, e, name, Float(value), Str(unit))
    case CounterEvent(name, delta, total) => ArchiveLine(c, minutes, e, name, Unsigned(delta), Unsigned(total))
  }

  /** No column of an archived envelope holds a comma, job and index hold no slash, and the
      timestamp is an int64. */
  predicate Plain(e: Envelope)
  {
    && Int64(e.timestamp)
    && ',' !in e.origin && ',' !in e.job && ',' !in e.index
    && '/' !in e.job && '/' !in e.index
    && !e.event.OtherEvent?
    && (e.event.ValueMetric? ==> ',' !in e.event.name && ',' !in e.event.unit)
    && (e.event.CounterEvent? ==> ',' !in e.event.name)
  }

  /** The row of an archived envelope is one line of the file: no column holds a newline
      (neither a string field nor the wall-clock and float text), and the unit, the last
      column, does not end in a carriage return. */
  predicate OneLineRow(c: Codec, minutes: int, e: Envelope)
  {
    && '\n' !in e.origin && '\n' !in e.job && '\n' !in e.index
    && '\n' !in c.wallClock(TruncDiv(e.timestamp, NanosPerSecond) + 60 * minutes)
    && (e.event.ValueMetric? ==>
          && '\n' !in e.event.name && '\n' !in e.event.unit && !EndsInCR(e.event.unit)
          && '\n' !in c.formatFloat(e.event.value))
    && (e.event.CounterEvent? ==> '\n' !in e.event.name)
  }

  /** When no field holds a comma the row has exactly seven comma-separated columns (not the
      six of the header comment), the origin second, and the timestamp column is the
      nanosecond timestamp truncated to whole seconds. */
  lemma ArchivedColumns(c: Codec, minutes: int, e: Envelope)
    requires ValidCodec(c) && ZoneOffset(minutes) && Plain(e)
    requires e.event.ValueMetric? ==> FloatPrints(c, e.event.value)
    ensures var d := Split(ArchivedLine(c, minutes, e), ',');
      && |d| == 7
      && d[0] == FormatRfc3339(c, TruncDiv(e.timestamp, NanosPerSecond), minutes)
      && d[1] == e.origin
      && d[2] == e.job + "/" + e.index
      && d[5] == EventTypeName(e.event)
      && (e.event.ValueMetric? ==> d[3] == e.event.name && d[4] == c.formatFloat(e.event.value) && d[6] == e.event.unit)
      && (e.event.CounterEvent? ==> d[3] == e.event.name && d[4] == Decimal(e.event.delta) && d[6] == Decimal(e.event.total))
  {
    match e.event
    case ValueMetric(name, value, unit) =>
      RowSplits(c, minutes, e, name, Float(value), Str(unit));
    case CounterEvent(name, delta, total) =>
      DigitsHaveNoPunctuation(Decimal(delta));
      DigitsHaveNoPunctuation(Decimal(total));
      RowSplits(c, minutes, e, name, Unsigned(delta), Unsigned(total));
  }

  /** A row whose fields hold no comma splits back into its seven columns. */
  lemma RowSplits(c: Codec, minutes: int, e: Envelope, metric: string, value: Printed, unit: Printed)
    requires ValidCodec(c) && ZoneOffset(minutes) && Int64(e.timestamp)
    requires ',' !in e.origin && ',' !in e.job && ',' !in e.index && ',' !in metric
    requires ',' !in Show(c, value) && ',' !in Show(c, unit)
    ensures Split(ArchiveLine(c, minutes, e, metric, value, unit), ',') == Columns(c, minutes, e, metric, value, unit)
  {
    var cols := Columns(c, minutes, e, metric, value, unit);
    assert ',' !in cols[2];
    assert ',' !in EventTypeName(e.event);
    SplitJoin(cols, ',');
  }

  /** A row whose fields hold no newline, and whose last field does not end in a carriage
      return, is one line. */
  lemma RowIsOneLine(c: Codec, minutes: int, e: Envelope, metric: string, value: Printed, unit: Printed)
    requires ValidCodec(c) && ZoneOffset(minutes) && Int64(e.timestamp)
    requires '\n' !in e.origin && '\n' !in e.job && '\n' !in e.index && '\n' !in metric
    requires '\n' !in c.wallClock(TruncDiv(e.timestamp, NanosPerSecond) + 60 * minutes)
    requires '\n' !in Show(c, value) && '\n' !in Show(c, unit) && !EndsInCR(Show(c, unit))
    ensures '\n' !in ArchiveLine(c, minutes, e, metric, value, unit)
    ensures !EndsInCR(ArchiveLine(c, minutes, e, metric, value, unit))
  {
    var cols := Columns(c, minutes, e, metric, value, unit);
    ZoneSuffixOneLine(minutes);
    assert '\n' !in cols[0];
    assert '\n' !in cols[2];
    assert '\n' !in EventTypeName(e.event);
    JoinIsOneLine(cols, ',');
  }

  /** An archived row is one line of the file: it holds no newline and does not end in a
      carriage return, so bufio.Scanner reads it back whole. */
  lemma ArchivedLineIsOneLine(c: Codec, minutes: int, e: Envelope)
    requires ValidCodec(c) && ZoneOffset(minutes) && Plain(e) && OneLineRow(c, minutes, e)
    ensures OneLine(ArchivedLine(c, minutes, e))
  {
    match e.event
    case ValueMetric(name, value, unit) =>
      RowIsOneLine(c, minutes, e, name, Float(value), Str(unit));
    case CounterEvent(name, delta, total) =>
      DigitsAreOneLine(Decimal(delta));
      DigitsAreOneLine(Decimal(total));
      RowIsOneLine(c, minutes, e, name, Unsigned(delta), Unsigned(total));
  }

  /** The text of an archive file whose rows (without their newlines) are `rows`: the
      header line and every row, each followed by a newline. */
  function FileText(rows: seq<string>): string
  {
    Join([HeaderLine()] + rows + [""], '\n')
  }

  /** The file is written as the writer writes it: the header row first (main.go:162), then
      each row archiveMetric prints, with its newline, appended in order (archiver.go:12). */
  lemma FileTextGrows(rows: seq<string>, x: string)
    ensures FileText([]) == HeaderLine() + "\n"
    ensures FileText(rows + [x]) == FileText(rows) + x + "\n"
  {
    var h := [HeaderLine()];
    assert h + [] + [""] == h + [""];
    JoinSnoc(h, "", '\n');
    assert h + (rows + [x]) + [""] == (h + rows) + [x] + [""];
    JoinTerminatedSnoc(h + rows, x);
  }

  function Pow10(k: nat): nat
  {
    if k == 0 then 1 else 10 * Pow10(k - 1)
  }

  /** The k-digit decimal text of n, padded with leading zeros. */
  function Padded(n: nat, k: nat): (r: string)
    ensures |r| == k && AllDigits(r)
  {
    if k == 0 then [] else Padded(n / 10, k - 1) + [DigitChar(n % 10)]
  }

  /** Padded text reads back as its number when the number has at most k digits. */
  lemma {:induction false} PaddedValue(n: nat, k: nat)
    requires n < Pow10(k)
    ensures DigitsValue(Padded(n, k)) == n
  {
    if k > 0 {
      var r := Padded(n, k);
      assert r[..k - 1] == Padded(n / 10, k - 1);
      PaddedValue(n / 10, k - 1);
    }
  }

  /** A codec meeting ValidCodec: the wall clock is printed as the 19-digit count of seconds
      since 0001-01-01T00:00:00, and whole non-negative floats as their decimal text. */
  function SampleCodec(): Codec
  {
    Codec(
      (t: int) => Padded(if t < MinWall then 0 else t - MinWall, 19),
      (s: string) => if |s| == 19 && AllDigits(s) then Some(DigitsValue(s) + MinWall) else None,
      (x: real) => Decimal(if x.Floor < 0 then 0 else x.Floor),
      (s: string) => if |s| >= 1 && AllDigits(s) then Some(DigitsValue(s) as real) else None)
  }

  /** SampleCodec prints digits only, so its wall-clock and float text hold no newline. */
  lemma SampleCodecOneLine(t: int, x: real)
    ensures '\n' !in SampleCodec().wallClock(t) && '\n' !in SampleCodec().formatFloat(x)
  {
    var c := SampleCodec();
    assert c.wallClock(t) == Padded(if t < MinWall then 0 else t - MinWall, 19);
    DigitsAreOneLine(c.wallClock(t));
    DigitsAreOneLine(c.formatFloat(x));
  }

  /** The hypotheses of the archive round trip can all be met: SampleCodec satisfies
      ValidCodec, and prints every whole non-negative value so that it reads back. */
  lemma SampleCodecValid()
    ensures ValidCodec(SampleCodec())
    ensures forall x: real | 0.0 <= x && x == x.Floor as real :: FloatPrints(SampleCodec(), x)
  {
    SampleClockReadsBack();
    SampleFloatsReadBack();
  }

  lemma SampleClockReadsBack()
    ensures ValidCodec(SampleCodec())
  {
    var c := SampleCodec();
    assert Pow10(12) == 1_000_000_000_000;
    assert Pow10(19) == 10_000_000_000_000_000_000;
    forall t | FourDigitYear(t)
      ensures |c.wallClock(t)| == 19 && ',' !in c.wallClock(t) && c.parseWall(c.wallClock(t)) == Some(t)
    {
      PaddedValue(t - MinWall, 19);
      DigitsHaveNoPunctuation(c.wallClock(t));
    }
  }

  lemma SampleFloatsReadBack()
    ensures forall x: real | 0.0 <= x && x == x.Floor as real :: FloatPrints(SampleCodec(), x)
  {
    var c := SampleCodec();
    forall x: real | 0.0 <= x && x == x.Floor as real
      ensures FloatPrints(c, x)
    {
      DecimalValue(x.Floor);
      DigitsHaveNoPunctuation(c.formatFloat(x));
    }
  }
}
