/** Reading an archive back (replay.go): every line is split into seven comma-separated
    columns, turned back into an envelope and handed to parseEnvelope, the same entry point
    the live stream uses, with a progress bar advanced before each accepted line.

    The timestamp column is read with the layout "2006-01-02T15:04:05-07:00", whose zone
    element accepts only a numeric ±hh:mm offset, while the archive writes RFC 3339, whose
    zone is the letter Z for UTC. DecodeLineAsWritten keeps that layout; DecodeLine also
    accepts Z, and the replay loop below uses DecodeLine. */
module Replay {
  import opened Text
  import opened Envelopes
  import opened Collector
  import opened Archiver
  import opened TermOutput

  /** Why a line was passed over; each reason is a `continue` in the read loop. */
  datatype SkipReason = BadFieldCount | Header | BadTimestamp | BadJobIndex | BadValue | BadUnit

  datatype LineResult = Skipped(reason: SkipReason) | Accepted(e: Envelope)

  /** A numeric zone offset "±hh:mm", in minutes east of UTC. */
  function NumericZone(z: string): (r: Option<int>)
    ensures r.Some? ==> |z| == 6 && (z[0] == '+' || z[0] == '-') && z[3] == ':'
  {
    if |z| == 6 && (z[0] == '+' || z[0] == '-') && z[3] == ':'
       && IsDigit(z[1]) && IsDigit(z[2]) && IsDigit(z[4]) && IsDigit(z[5])
    then
      var m := (DigitValue(z[1]) * 10 + DigitValue(z[2])) * 60 + DigitValue(z[4]) * 10 + DigitValue(z[5]);
      Some(if z[0] == '-' then -m else m)
    else None
  }

  /** The zone element of the layout: "-07:00" reads only ±hh:mm; "Z07:00" (acceptUtc)
      also reads the letter Z as UTC. */
  function Zone(z: string, acceptUtc: bool): (r: Option<int>)
    ensures !acceptUtc ==> r == NumericZone(z)
    ensures acceptUtc ==> r == if z == "Z" then Some(0) else NumericZone(z)
  {
    if acceptUtc && z == "Z" then Some(0) else NumericZone(z)
  }

  /** time.Parse of the timestamp column followed by Unix(): the wall-clock part, then the
      zone, then the wall clock moved back to UTC. */
  function ParseTimestamp(c: Codec, s: string, acceptUtc: bool): (r: Option<int>)
    ensures r.Some? ==> |s| >= 20
  {
    if |s| < 19 then None
    else match c.parseWall(s[..19])
      case None => None
      case Some(w) =>
        match Zone(s[19..], acceptUtc)
        case None => None
        case Some(z) => Some(w - 60 * z)
  }

  /** One pass of the read loop (replay.go:40-113) up to the envelope it builds. Any event
      type column other than "ValueMetric" is read as a counter. */
  function DecodeLineUsing(c: Codec, line: string, acceptUtc: bool): (r: LineResult)
    ensures r.Accepted? ==> !r.e.event.OtherEvent?
    ensures r.Accepted? ==> '/' !in r.e.job && '/' !in r.e.index
    ensures r.Accepted? ==> ',' !in r.e.origin && ',' !in r.e.job && ',' !in r.e.index
    ensures r.Accepted? && r.e.event.CounterEvent? ==>
      r.e.event.delta < Uint64Modulus && r.e.event.total < Uint64Modulus
    ensures r == Skipped(BadFieldCount) <==> |Split(line, ',')| != 7
  {
    var d := Split(line, ',');
    if |d| != 7 then Skipped(BadFieldCount)
    else if d[0] == "time" then Skipped(Header)
    else match ParseTimestamp(c, d[0], acceptUtc)
      case None => Skipped(BadTimestamp)
      case Some(tu) =>
        var ji := Split(d[2], '/');
        if |ji| != 2 then Skipped(BadJobIndex)
        else
          assert ',' !in ji[0] && ',' !in ji[1] by { JoinSplit(d[2], '/'); JoinNoComma(ji, d[2]); }
          if d[5] == "ValueMetric" then
            match c.parseFloat(d[4])
            case None => Skipped(BadValue)
            case Some(v) => Accepted(Envelope(tu, d[1], ji[0], ji[1], ValueMetric(d[3], v, d[6])))
          else
            match Atoi(d[4])
            case None => Skipped(BadValue)
            case Some(v) =>
              match Atoi(d[6])
              case None => Skipped(BadUnit)
              case Some(u) =>
                Accepted(Envelope(tu, d[1], ji[0], ji[1], CounterEvent(d[3], ToUint64(v), ToUint64(u))))
  }

  /** A piece of a split string holds no character its source did not. */
  lemma JoinNoComma(ji: seq<string>, s: string)
    requires |ji| == 2 && Join(ji, '/') == s && ',' !in s
    ensures ',' !in ji[0] && ',' !in ji[1]
  {
    assert Join(ji, '/') == ji[0] + ['/'] + ji[1];
    assert ji[0] <= s;
    assert forall k :: 0 <= k < |ji[1]| ==> ji[1][k] == s[|ji[0]| + 1 + k];
  }

  /** The loop as written: a UTC timestamp ("...Z") is rejected. */
  function DecodeLineAsWritten(c: Codec, line: string): LineResult
  {
    DecodeLineUsing(c, line, false)
  }

  /** The loop with the zone read as RFC 3339 writes it. */
  function DecodeLine(c: Codec, line: string): LineResult
  {
    DecodeLineUsing(c, line, true)
  }

  /** The header row has six columns, so it is skipped as bad data before the check for a
      "time" column is reached. */
  lemma HeaderSkipped(c: Codec, acceptUtc: bool)
    ensures DecodeLineUsing(c, HeaderLine(), acceptUtc) == Skipped(BadFieldCount)
  {
    SplitJoin(HeaderFields, ',');
  }

  /** DigitValue reads back the digit DigitChar printed. */
  lemma DigitRoundTrip(d: nat)
    requires d < 10
    ensures DigitValue(DigitChar(d)) == d
  {
  }

  /** The zone text the archive writes reads back as the same offset, except that UTC's
      "Z" is read only by the RFC 3339 zone element. */
  lemma ZoneRoundTrip(minutes: int, acceptUtc: bool)
    requires ZoneOffset(minutes)
    ensures Zone(ZoneSuffix(minutes), acceptUtc) == if minutes == 0 && !acceptUtc then None else Some(minutes)
  {
    if minutes != 0 {
      NumericZoneSuffix(minutes);
    }
  }

  /** A non-UTC offset reads back from its ±hh:mm text. */
  lemma NumericZoneSuffix(minutes: int)
    requires ZoneOffset(minutes) && minutes != 0
    ensures ZoneSuffix(minutes) != "Z" && NumericZone(ZoneSuffix(minutes)) == Some(minutes)
  {
    var a := if minutes < 0 then -minutes else minutes;
    var h, m := a / 60, a % 60;
    HoursAndMinutes(a);
    var hh, mm := TwoDigits(h), TwoDigits(m);
    var z := ZoneSuffix(minutes);
    assert z == [z[0]] + hh + ":" + mm;
    assert z[1] == hh[0] && z[2] == hh[1] && z[3] == ':' && z[4] == mm[0] && z[5] == mm[1];
    TwoDigitsRoundTrip(h);
    TwoDigitsRoundTrip(m);
  }

  lemma HoursAndMinutes(a: nat)
    requires a < 1440
    ensures a / 60 < 24 && a % 60 < 60 && (a / 60) * 60 + a % 60 == a
  {
  }

  lemma TwoDigitsRoundTrip(n: nat)
    requires n < 100
    ensures var t := TwoDigits(n); DigitValue(t[0]) * 10 + DigitValue(t[1]) == n
  {
    DigitRoundTrip(n / 10);
    DigitRoundTrip(n % 10);
  }


  /** A timestamp column is a 19-character wall clock followed by the zone text. */
  lemma ParseWallThenZone(c: Codec, w: string, zone: string, acceptUtc: bool)
    requires |w| == 19
    ensures ParseTimestamp(c, w + zone, acceptUtc) ==
      if c.parseWall(w).Some? && Zone(zone, acceptUtc).Some?
      then Some(c.parseWall(w).value - 60 * Zone(zone, acceptUtc).value)
      else None
  {
    assert (w + zone)[..19] == w;
    assert (w + zone)[19..] == zone;
  }

  /** Reading a formatted timestamp gives back its Unix seconds; as written, a UTC
      timestamp cannot be read. */
  lemma TimestampRoundTrip(c: Codec, secs: int, minutes: int, acceptUtc: bool)
    requires ValidCodec(c) && ZoneOffset(minutes) && FourDigitYear(secs + 60 * minutes)
    ensures ParseTimestamp(c, FormatRfc3339(c, secs, minutes), acceptUtc) ==
      if minutes == 0 && !acceptUtc then None else Some(secs)
  {
    var w := c.wallClock(secs + 60 * minutes);
    assert |w| == 19 && c.parseWall(w) == Some(secs + 60 * minutes);
    ZoneRoundTrip(minutes, acceptUtc);
    ParseWallThenZone(c, w, ZoneSuffix(minutes), acceptUtc);
  }

  /** A counter value fits int64 and therefore survives the Atoi of replay. */
  predicate CounterFitsInt64(e: Envelope)
  {
    e.event.CounterEvent? ==> e.event.delta <= Int64Max && e.event.total <= Int64Max
  }

  /** The numbers of an envelope survive the text of its row: counters fit int64 (for
      Atoi) and a value's `%v` text reads back (for ParseFloat). */
  predicate NumbersReadBack(c: Codec, e: Envelope)
  {
    && CounterFitsInt64(e)
    && (e.event.ValueMetric? ==> FloatPrints(c, e.event.value))
  }

  /** What replay rebuilds from an archived envelope: the same envelope, its nanosecond
      timestamp replaced by whole Unix seconds. */
  function Rebuilt(e: Envelope): Envelope
  {
    e.(timestamp := TruncDiv(e.timestamp, NanosPerSecond))
  }

  /** The timestamp column of an archived row parses back to its whole seconds, and the
      job/index column splits back into job and index. */
  lemma ArchivedKeyColumns(c: Codec, minutes: int, e: Envelope, acceptUtc: bool)
    requires ValidCodec(c) && ZoneOffset(minutes) && Plain(e) && NumbersReadBack(c, e)
    requires minutes != 0 || acceptUtc
    ensures var d := Split(ArchivedLine(c, minutes, e), ',');
      && |d| == 7 && d[0] != "time"
      && ParseTimestamp(c, d[0], acceptUtc) == Some(TruncDiv(e.timestamp, NanosPerSecond))
      && Split(d[2], '/') == [e.job, e.index]
  {
    ArchivedColumns(c, minutes, e);
    var d := Split(ArchivedLine(c, minutes, e), ',');
    SecondsInRange(e.timestamp, minutes);
    TimestampRoundTrip(c, TruncDiv(e.timestamp, NanosPerSecond), minutes, acceptUtc);
    assert d[0] != "time" by { assert |d[0]| >= 20; }
    SplitAtFirst(e.job, '/', e.index);
    SplitNoSep(e.index, '/');
  }

  /** The columns of an archived row read back as the envelope that was archived. */
  lemma DecodeArchivedColumns(c: Codec, minutes: int, e: Envelope, acceptUtc: bool)
    requires ValidCodec(c) && ZoneOffset(minutes) && Plain(e) && NumbersReadBack(c, e)
    requires minutes != 0 || acceptUtc
    ensures DecodeLineUsing(c, ArchivedLine(c, minutes, e), acceptUtc) == Accepted(Rebuilt(e))
  {
    ArchivedColumns(c, minutes, e);
    ArchivedKeyColumns(c, minutes, e, acceptUtc);
    if e.event.CounterEvent? {
      AtoiDecimal(e.event.delta);
      AtoiDecimal(e.event.total);
    }
  }

  /** Round trip through the archive: replay reads back every archived envelope whose
      fields hold no comma (nor slash in job and index) and whose counters fit int64,
      with its timestamp in whole seconds, in every zone including UTC. */
  lemma RoundTrip(c: Codec, minutes: int, e: Envelope)
    requires ValidCodec(c) && ZoneOffset(minutes) && Plain(e) && NumbersReadBack(c, e)
    ensures DecodeLine(c, ArchivedLine(c, minutes, e)) == Accepted(Rebuilt(e))
  {
    DecodeArchivedColumns(c, minutes, e, true);
  }

  /** As written, the round trip holds only away from UTC: an archive written in UTC has
      every row's timestamp rejected, so replaying it ingests nothing. */
  lemma UtcRejectedAsWritten(c: Codec, minutes: int, e: Envelope)
    requires ValidCodec(c) && ZoneOffset(minutes) && Plain(e) && NumbersReadBack(c, e)
    ensures minutes == 0 ==> DecodeLineAsWritten(c, ArchivedLine(c, minutes, e)) == Skipped(BadTimestamp)
    ensures minutes != 0 ==> DecodeLineAsWritten(c, ArchivedLine(c, minutes, e)) == Accepted(Rebuilt(e))
  {
    if minutes == 0 {
      ArchivedColumns(c, minutes, e);
      var d := Split(ArchivedLine(c, minutes, e), ',');
      SecondsInRange(e.timestamp, minutes);
      TimestampRoundTrip(c, TruncDiv(e.timestamp, NanosPerSecond), minutes, false);
      assert d[0] != "time" by { assert |d[0]| >= 20; }
    } else {
      DecodeArchivedColumns(c, minutes, e, false);
    }
  }

  /** Whatever the loop as written accepts, the corrected loop accepts identically. */
  lemma CorrectionOnlyAddsUtc(c: Codec, line: string)
    ensures DecodeLineAsWritten(c, line).Accepted? ==> DecodeLine(c, line) == DecodeLineAsWritten(c, line)
  {
    var d := Split(line, ',');
    if |d| == 7 && |d[0]| >= 19 && d[0][19..] == "Z" {
      assert NumericZone(d[0][19..]) == None;
    }
  }

  /** Replay feeds parseEnvelope an envelope whose timestamp is in seconds instead of
      nanoseconds; parseEnvelope never reads the timestamp, so the state is the same. */
  lemma TimestampIgnored(st: StreamState, e: Envelope, t: int)
    ensures ParseEnvelopeStep(st, e.(timestamp := t)) == ParseEnvelopeStep(st, e)
  {
  }

  /** Every line decoded, in file order. */
  function DecodeAll(c: Codec, lines: seq<string>): (r: seq<LineResult>)
    ensures |r| == |lines|
    ensures forall i :: 0 <= i < |lines| ==> r[i] == DecodeLine(c, lines[i])
  {
    if |lines| == 0 then [] else DecodeAll(c, lines[..|lines| - 1]) + [DecodeLine(c, lines[|lines| - 1])]
  }

  /** The envelopes among decoded lines, in order. */
  function AcceptedOf(rs: seq<LineResult>): seq<Envelope>
  {
    if |rs| == 0 then []
    else
      var prev := AcceptedOf(rs[..|rs| - 1]);
      match rs[|rs| - 1]
      case Accepted(e) => prev + [e]
      case Skipped(_) => prev
  }

  /** The envelopes replay hands to parseEnvelope, in file order. */
  function AcceptedEnvelopes(c: Codec, lines: seq<string>): seq<Envelope>
  {
    AcceptedOf(DecodeAll(c, lines))
  }

  function RebuiltAll(es: seq<Envelope>): (r: seq<Envelope>)
    ensures |r| == |es|
    ensures forall i :: 0 <= i < |es| ==> r[i] == Rebuilt(es[i])
  {
    if |es| == 0 then [] else RebuiltAll(es[..|es| - 1]) + [Rebuilt(es[|es| - 1])]
  }

  /** The rows archived for a sequence of envelopes, without their newlines. */
  function ArchivedLines(c: Codec, minutes: int, es: seq<Envelope>): (r: seq<string>)
    requires ValidCodec(c) && ZoneOffset(minutes)
    requires forall i :: 0 <= i < |es| ==> Plain(es[i])
    ensures |r| == |es|
  {
    if |es| == 0 then []
    else
      var last := es[|es| - 1];
      assert Plain(last);
      ArchivedLines(c, minutes, es[..|es| - 1]) + [ArchivedLine(c, minutes, last)]
  }

  /** An archive holding only its header row replays nothing. */
  lemma HeaderOnly(c: Codec)
    ensures AcceptedEnvelopes(c, [HeaderLine()]) == []
  {
    var rs := DecodeAll(c, [HeaderLine()]);
    HeaderSkipped(c, true);
    assert rs[0] == Skipped(BadFieldCount);
    assert rs[..0] == [];
    assert AcceptedOf(rs) == AcceptedOf(rs[..0]);
  }

  /** Decoding the archive's lines (header row first) yields exactly the archived envelopes
      in order, with timestamps in seconds. */
  lemma {:induction false} ReplayReadsLines(c: Codec, minutes: int, es: seq<Envelope>)
    requires ValidCodec(c) && ZoneOffset(minutes)
    requires forall i :: 0 <= i < |es| ==> Plain(es[i]) && NumbersReadBack(c, es[i])
    ensures AcceptedEnvelopes(c, [HeaderLine()] + ArchivedLines(c, minutes, es)) == RebuiltAll(es)
  {
    var lines := [HeaderLine()] + ArchivedLines(c, minutes, es);
    var rs := DecodeAll(c, lines);
    if |es| == 0 {
      HeaderOnly(c);
      assert lines == [HeaderLine()];
    } else {
      var es', last := es[..|es| - 1], es[|es| - 1];
      ReplayReadsLines(c, minutes, es');
      var lines' := [HeaderLine()] + ArchivedLines(c, minutes, es');
      var x := ArchivedLine(c, minutes, last);
      var h := [HeaderLine()];
      assert ArchivedLines(c, minutes, es) == ArchivedLines(c, minutes, es') + [x];
      Append3(h, ArchivedLines(c, minutes, es'), [x]);
      DecodeSnoc(c, lines', x);
      RoundTrip(c, minutes, last);
      AcceptedSnoc(DecodeAll(c, lines'), Rebuilt(last));
      assert RebuiltAll(es) == RebuiltAll(es') + [Rebuilt(last)];
    }
  }

  /** The archive file written for a sequence of envelopes. */
  function ArchiveFile(c: Codec, minutes: int, es: seq<Envelope>): string
    requires ValidCodec(c) && ZoneOffset(minutes)
    requires forall i :: 0 <= i < |es| ==> Plain(es[i])
  {
    FileText(ArchivedLines(c, minutes, es))
  }

  /** Every archived row is one line of the file. */
  lemma {:induction false} ArchivedLinesAreLines(c: Codec, minutes: int, es: seq<Envelope>)
    requires ValidCodec(c) && ZoneOffset(minutes)
    requires forall i :: 0 <= i < |es| ==> Plain(es[i]) && OneLineRow(c, minutes, es[i])
    ensures forall i :: 0 <= i < |ArchivedLines(c, minutes, es)| ==> OneLine(ArchivedLines(c, minutes, es)[i])
  {
    if |es| > 0 {
      var es', last := es[..|es| - 1], es[|es| - 1];
      ArchivedLinesAreLines(c, minutes, es');
      assert Plain(last) && OneLineRow(c, minutes, last);
      ArchivedLineIsOneLine(c, minutes, last);
      var ls', x := ArchivedLines(c, minutes, es'), ArchivedLine(c, minutes, last);
      assert ArchivedLines(c, minutes, es) == ls' + [x];
      OneLinesSnoc(ls', x);
    }
  }

  /** The header row is one line. */
  lemma HeaderIsOneLine()
    ensures OneLine(HeaderLine())
  {
    assert '\n' !in "time" && '\n' !in "job/index" && '\n' !in "metric";
    assert '\n' !in "value" && '\n' !in "type" && '\n' !in "unit";
    JoinIsOneLine(HeaderFields, ',');
  }

  /** bufio.Scanner reads an archive file of one-line rows back as its header line and then
      its rows, in order, each exactly as it was written. */
  lemma FileTextLines(rows: seq<string>)
    requires forall i :: 0 <= i < |rows| ==> OneLine(rows[i])
    ensures ScanLines(FileText(rows)) == [HeaderLine()] + rows
  {
    HeaderIsOneLine();
    ScanLinesAfterFirst(HeaderLine(), rows, FileText(rows));
  }

  /** The rows of `es` can be written and read back: the codec and zone are valid, and each
      envelope is plain, its numbers survive their text and its row is one line. */
  ghost predicate Archivable(c: Codec, minutes: int, es: seq<Envelope>)
  {
    && ValidCodec(c) && ZoneOffset(minutes)
    && forall i :: 0 <= i < |es| ==> Plain(es[i]) && NumbersReadBack(c, es[i]) && OneLineRow(c, minutes, es[i])
  }

  /** bufio.Scanner reads the archive file of an envelope sequence back as its header line
      and then one line per archived envelope, in order. */
  lemma ArchiveFileLines(c: Codec, minutes: int, es: seq<Envelope>)
    requires Archivable(c, minutes, es)
    ensures ScanLines(ArchiveFile(c, minutes, es)) == [HeaderLine()] + ArchivedLines(c, minutes, es)
  {
    var rows := ArchivedLines(c, minutes, es);
    ArchivedLinesAreLines(c, minutes, es);
    assert forall i :: 0 <= i < |rows| ==> OneLine(rows[i]);
    FileTextLines(rows);
    assert ArchiveFile(c, minutes, es) == FileText(rows);
  }

  /** Replaying an archive file yields exactly the archived envelopes in order, with
      timestamps in seconds. */
  lemma ReplayReadsArchive(c: Codec, minutes: int, es: seq<Envelope>)
    requires Archivable(c, minutes, es)
    ensures AcceptedEnvelopes(c, ScanLines(ArchiveFile(c, minutes, es))) == RebuiltAll(es)
  {
    ArchiveFileLines(c, minutes, es);
    ReplayReadsLines(c, minutes, es);
  }

  lemma Append3<T>(a: seq<T>, b: seq<T>, c: seq<T>)
    ensures a + (b + c) == (a + b) + c
  {
  }

  lemma DecodeSnoc(c: Codec, lines: seq<string>, x: string)
    ensures DecodeAll(c, lines + [x]) == DecodeAll(c, lines) + [DecodeLine(c, x)]
  {
    assert (lines + [x])[..|lines|] == lines;
  }

  lemma AcceptedSnoc(rs: seq<LineResult>, e: Envelope)
    ensures AcceptedOf(rs + [Accepted(e)]) == AcceptedOf(rs) + [e]
  {
    assert (rs + [Accepted(e)])[..|rs|] == rs;
  }

  /** Live ingestion never reads timestamps, so ingesting the rebuilt envelopes is
      ingesting the originals. */
  lemma {:induction false} RebuiltIngestsAlike(st: StreamState, es: seq<Envelope>)
    ensures IngestAll(st, RebuiltAll(es)) == IngestAll(st, es)
  {
    if |es| > 0 {
      var r := RebuiltAll(es);
      assert r[..|r| - 1] == RebuiltAll(es[..|es| - 1]);
      RebuiltIngestsAlike(st, es[..|es| - 1]);
      var p := IngestAll(st, es[..|es| - 1]);
      TimestampIgnored(p.state, es[|es| - 1], r[|r| - 1].timestamp);
    }
  }

  /** Replaying an archive reaches the state (and the crash, if any) that ingesting the
      archived envelopes reaches. */
  lemma ReplayMatchesLive(c: Codec, minutes: int, st: StreamState, es: seq<Envelope>)
    requires Archivable(c, minutes, es)
    ensures IngestAll(st, AcceptedEnvelopes(c, ScanLines(ArchiveFile(c, minutes, es)))) == IngestAll(st, es)
  {
    ReplayReadsArchive(c, minutes, es);
    RebuiltIngestsAlike(st, es);
  }

  /** A ground instance of the round trip: with SampleCodec, an archived row reads back
      for every envelope whose value, if any, is whole and non-negative. */
  lemma SampleRoundTrip(minutes: int, e: Envelope)
    requires ZoneOffset(minutes) && Plain(e) && CounterFitsInt64(e)
    requires e.event.ValueMetric? ==> 0.0 <= e.event.value && e.event.value == e.event.value.Floor as real
    ensures ValidCodec(SampleCodec())
      && DecodeLine(SampleCodec(), ArchivedLine(SampleCodec(), minutes, e)) == Accepted(Rebuilt(e))
  {
    SampleCodecValid();
    RoundTrip(SampleCodec(), minutes, e);
  }

  /** The envelopes a live run with archiving on writes rows for (collector.go:183-190):
      those parseEnvelope handled, in order, up to a panic. */
  function LiveArchive(st: StreamState, es: seq<Envelope>): (r: seq<Envelope>)
    ensures |r| <= |es|
  {
    if |es| == 0 then []
    else
      var init := es[..|es| - 1];
      var run := IngestAll(st, init);
      if !run.crashed && ParseEnvelopeStep(run.state, es[|es| - 1]).outcome == Handled
      then LiveArchive(st, init) + [es[|es| - 1]]
      else LiveArchive(st, init)
  }

  /** Replaying what a live run archived reaches the state of ingesting only the envelopes
      that run handled. */
  lemma ReplayOfLiveRun(c: Codec, minutes: int, st: StreamState, es: seq<Envelope>, archived: seq<Envelope>)
    requires archived == LiveArchive(st, es) && Archivable(c, minutes, archived)
    ensures IngestAll(st, AcceptedEnvelopes(c, ScanLines(ArchiveFile(c, minutes, archived)))) == IngestAll(st, archived)
  {
    ReplayMatchesLive(c, minutes, st, archived);
  }

  /** Replay does not always reach the live state: an unmatched value metric from a new
      doppler index creates an instance and a statistic live, but is not archived, so the
      replayed state has neither. */
  lemma UnhandledEntriesNotReplayed()
    ensures var e := Envelope(0, DopplerOrigin, DopplerJob, "0", ValueMetric("foo", 1.0, ""));
      && LiveArchive(EmptyState, [e]) == []
      && |IngestAll(EmptyState, [e]).state.instances| == 1
      && |IngestAll(EmptyState, [e]).state.envelopeStats| == 1
      && IngestAll(EmptyState, LiveArchive(EmptyState, [e])).state == EmptyState
  {
    var e := Envelope(0, DopplerOrigin, DopplerJob, "0", ValueMetric("foo", 1.0, ""));
    assert [e][..0] == [];
    assert ParseEnvelopeStep(EmptyState, e).outcome == Unmatched;
  }

  /** What the read loop has done after some lines: the ingestion run so far and the
      fractions passed to updateProgressBar, one per accepted line. */
  datatype Replayed = Replayed(run: Run, percents: seq<real>)

  /** The read loop over the decoded lines rs, `total` being the line count of the first
      pass. An accepted line numbered n (from 1) first sets the bar to n / total, then is
      ingested; after a panic nothing further happens. */
  function ReplayResults(st: StreamState, rs: seq<LineResult>, total: nat): Replayed
    requires |rs| <= total
  {
    if |rs| == 0 then Replayed(Run(st, false), [])
    else
      var prev := ReplayResults(st, rs[..|rs| - 1], total);
      if prev.run.crashed then prev
      else match rs[|rs| - 1]
        case Skipped(_) => prev
        case Accepted(e) =>
          var s := ParseEnvelopeStep(prev.run.state, e);
          Replayed(Run(s.state, s.outcome == Panic), prev.percents + [|rs| as real / total as real])
  }

  /** The read loop ingests exactly the accepted envelopes, in order. */
  lemma {:induction false} ReplayIngestsAccepted(st: StreamState, rs: seq<LineResult>, total: nat)
    requires |rs| <= total
    ensures ReplayResults(st, rs, total).run == IngestAll(st, AcceptedOf(rs))
  {
    if |rs| > 0 {
      var init := rs[..|rs| - 1];
      ReplayIngestsAccepted(st, init, total);
      var es := AcceptedOf(init);
      match rs[|rs| - 1]
      case Skipped(_) =>
      case Accepted(e) =>
        assert (es + [e])[..|es + [e]| - 1] == es;
    }
  }

  /** One more decoded line adds at most one fraction, |rs| / total, and only when the
      line was accepted before any panic. */
  lemma PercentsSnoc(st: StreamState, rs: seq<LineResult>, total: nat)
    requires 0 < |rs| <= total
    ensures var prev := ReplayResults(st, rs[..|rs| - 1], total);
      ReplayResults(st, rs, total).percents ==
        prev.percents + if !prev.run.crashed && rs[|rs| - 1].Accepted? then [|rs| as real / total as real] else []
  {
  }

  /** The progress fractions lie in (0, 1] and strictly increase. */
  lemma {:induction false} ProgressIncreases(st: StreamState, rs: seq<LineResult>, total: nat)
    requires |rs| <= total
    ensures var p := ReplayResults(st, rs, total).percents;
      && (forall i :: 0 <= i < |p| ==> 0.0 < p[i] <= |rs| as real / total as real)
      && (forall i, j :: 0 <= i < j < |p| ==> p[i] < p[j])
  {
    if |rs| > 0 {
      var init := rs[..|rs| - 1];
      ProgressIncreases(st, init, total);
      PercentsSnoc(st, rs, total);
      var prev := ReplayResults(st, init, total);
      var q := |rs| as real / total as real;
      FractionStep(|rs|, total);
      AppendIncreasing(prev.percents, if !prev.run.crashed && rs[|rs| - 1].Accepted? then [q] else [],
        (|rs| - 1) as real / total as real, q);
    }
  }

  lemma FractionStep(n: nat, d: nat)
    requires 0 < n <= d
    ensures 0.0 < n as real / d as real
    ensures (n - 1) as real / d as real < n as real / d as real
  {
    var r := d as real;
    assert n as real / r - (n - 1) as real / r == 1.0 / r;
  }

  /** Appending at most one fraction above every earlier one keeps them increasing. */
  lemma AppendIncreasing(p: seq<real>, ext: seq<real>, b: real, q: real)
    requires forall i :: 0 <= i < |p| ==> 0.0 < p[i] <= b
    requires forall i, j :: 0 <= i < j < |p| ==> p[i] < p[j]
    requires b < q && 0.0 < q && (ext == [] || ext == [q])
    ensures forall i :: 0 <= i < |p + ext| ==> 0.0 < (p + ext)[i] <= q
    ensures forall i, j :: 0 <= i < j < |p + ext| ==> (p + ext)[i] < (p + ext)[j]
  {
  }

  /** Without a panic there is one progress fraction per accepted line. */
  lemma {:induction false} ProgressPerAccepted(st: StreamState, rs: seq<LineResult>, total: nat)
    requires |rs| <= total
    ensures !ReplayResults(st, rs, total).run.crashed ==>
      |ReplayResults(st, rs, total).percents| == |AcceptedOf(rs)|
  {
    if |rs| > 0 {
      ProgressPerAccepted(st, rs[..|rs| - 1], total);
      PercentsSnoc(st, rs, total);
    }
  }

  /** Once the loop has panicked, the lines after that are never looked at. */
  lemma {:induction false} ReplayCrashStays(st: StreamState, rs: seq<LineResult>, i: nat, total: nat)
    requires i <= |rs| <= total
    requires ReplayResults(st, rs[..i], total).run.crashed
    ensures ReplayResults(st, rs, total) == ReplayResults(st, rs[..i], total)
  {
    if i < |rs| {
      assert rs[..|rs| - 1][..i] == rs[..i];
      ReplayCrashStays(st, rs[..|rs| - 1], i, total);
    } else {
      assert rs[..i] == rs;
    }
  }

  lemma Fraction(n: nat, d: nat)
    requires 0 < n <= d
    ensures 0.0 < n as real / d as real <= 1.0
  {
  }

  /** The read loop's next pass, in terms of the passes before it. */
  lemma ReplayStep(st: StreamState, rs: seq<LineResult>, i: nat, total: nat)
    requires i < |rs| <= total
    ensures var prev := ReplayResults(st, rs[..i], total);
      ReplayResults(st, rs[..i + 1], total) ==
        if prev.run.crashed then prev
        else match rs[i]
          case Skipped(_) => prev
          case Accepted(e) =>
            var s := ParseEnvelopeStep(prev.run.state, e);
            Replayed(Run(s.state, s.outcome == Panic), prev.percents + [(i + 1) as real / total as real])
  {
    assert rs[..i + 1][..i] == rs[..i];
  }

  /** runReplay (replay.go:13-123) over the lines of the archive file: the first pass
      counts them, the second decodes each, advances the bar and ingests what it accepted;
      a panic inside parseEnvelope ends the process, otherwise the bar finally shows 100%. */
  method RunReplay(mc: StreamMetrics, c: Codec, lines: seq<string>) returns (percents: seq<real>, progressBar: string, crashed: bool)
    modifies mc
    ensures var r := ReplayResults(old(mc.State()), DecodeAll(c, lines), |lines|);
      && mc.State() == r.run.state
      && crashed == r.run.crashed
      && percents == r.percents + (if crashed then [] else [1.0])
    ensures !crashed ==> progressBar == ProgressBar(1.0)
  {
    var total := |lines|;
    ghost var st0 := mc.State();
    ghost var rs := DecodeAll(c, lines);
    percents := [];
    progressBar := "";
    crashed := false;
    var i := 0;
    while i < |lines| && !crashed
      invariant 0 <= i <= |lines|
      invariant var r := ReplayResults(st0, rs[..i], total);
        mc.State() == r.run.state && crashed == r.run.crashed && percents == r.percents
      invariant crashed ==> ReplayResults(st0, rs, total) == ReplayResults(st0, rs[..i], total)
    {
      ReplayStep(st0, rs, i, total);
      var res := DecodeLine(c, lines[i]);
      assert res == rs[i];
      match res {
        case Skipped(_) =>
        case Accepted(e) =>
          var percent := (i + 1) as real / total as real;
          Fraction(i + 1, total);
          progressBar := ProgressBar(percent);
          percents := percents + [percent];
          var out, _ := mc.ParseEnvelope(e, false);
          crashed := out == Panic;
      }
      i := i + 1;
      if crashed {
        ReplayCrashStays(st0, rs, i, total);
      }
    }
    if i == |lines| {
      assert rs[..i] == rs;
    }
    if !crashed {
      progressBar := ProgressBar(1.0);
      percents := percents + [1.0];
    }
  }
}
