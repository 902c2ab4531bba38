/** The PromQL query texts the log-cache client sends (cache-collector.go:310, 320-324,
    334-337), and a reader for the instant-vector selectors they start with, so that each
    text is shown to carry exactly the metric name and label values it was built from. */
module PromQL {
  import opened Text

  /** One `name="value"` matcher of a selector. */
  datatype Label = Label(name: string, value: string)

  /** The text before and after the first occurrence of c, if c occurs. */
  function Cut(s: string, c: char): (r: Option<(string, string)>)
    ensures r.None? <==> c !in s
    ensures r.Some? ==> c !in r.value.0 && s == r.value.0 + [c] + r.value.1
  {
    if |s| == 0 then None
    else if s[0] == c then Some(([], s[1..]))
    else match Cut(s[1..], c)
      case None => None
      case Some(p) => Some(([s[0]] + p.0, p.1))
  }

  lemma {:induction false} CutAt(a: string, c: char, b: string)
    requires c !in a
    ensures Cut(a + [c] + b, c) == Some((a, b))
  {
    if |a| == 0 {
      assert a + [c] + b == [c] + b;
    } else {
      assert (a + [c] + b)[1..] == a[1..] + [c] + b;
      CutAt(a[1..], c, b);
      assert [a[0]] + a[1..] == a;
    }
  }

  /** The matchers and the closing brace: `n1="v1",n2="v2"}`. */
  function LabelsText(ls: seq<Label>): string
    requires |ls| >= 1
  {
    if |ls| == 1 then LabelText(ls[0]) + "}" else LabelText(ls[0]) + "," + LabelsText(ls[1..])
  }

  /** `metric{n1="v1",...}` */
  function Selector(metric: string, ls: seq<Label>): string
    requires |ls| >= 1
  {
    metric + "{" + LabelsText(ls)
  }

  /** A matcher list whose text reads back unambiguously: names without '=', values
      without '"'. */
  predicate Readable(ls: seq<Label>)
  {
    forall i :: 0 <= i < |ls| ==> '=' !in ls[i].name && '"' !in ls[i].value
  }

  /** Reads matchers up to and including the closing brace; returns them and the rest. */
  function ParseLabels(s: string): (r: Option<(seq<Label>, string)>)
    ensures r.Some? ==> |r.value.0| >= 1 && |r.value.1| < |s|
    decreases |s|, 1
  {
    match Cut(s, '=')
    case None => None
    case Some(p) =>
      var t := p.1;
      if |t| == 0 || t[0] != '"' then None
      else match Cut(t[1..], '"')
        case None => None
        case Some(q) => AfterLabel(Label(p.0, q.0), q.1)
  }

  /** After a matcher: a closing brace ends the list, a comma starts the next matcher. */
  function AfterLabel(l: Label, u: string): (r: Option<(seq<Label>, string)>)
    ensures r.Some? ==> |r.value.0| >= 1 && |r.value.1| < |u|
    decreases |u|, 0
  {
    if |u| == 0 then None
    else if u[0] == '}' then Some(([l], u[1..]))
    else if u[0] == ',' then
      match ParseLabels(u[1..])
      case None => None
      case Some(more) => Some(([l] + more.0, more.1))
    else None
  }

  /** The text of one matcher, without what follows it. */
  function LabelText(l: Label): string
  {
    l.name + "=\"" + l.value + "\""
  }

  lemma ParseOneLabel(l: Label, tail: string)
    requires '=' !in l.name && '"' !in l.value
    ensures ParseLabels(LabelText(l) + tail) == AfterLabel(l, tail)
  {
    var t := ['"'] + (l.value + (['"'] + tail));
    var s := l.name + ['='] + t;
    assert LabelText(l) + tail == s by {
      var n, v := l.name, l.value;
      calc {
        LabelText(l) + tail;
        n + ['=', '"'] + v + ['"'] + tail;
        { Assoc4(n, ['=', '"'], v, ['"'] + tail); }
        n + (['=', '"'] + (v + (['"'] + tail)));
        { assert ['=', '"'] == ['='] + ['"']; }
        n + ((['='] + ['"']) + (v + (['"'] + tail)));
        { Assoc3(n, ['='], ['"'] + (v + (['"'] + tail))); }
        n + ['='] + t;
      }
    }
    assert Cut(s, '=') == Some((l.name, t)) by { CutAt(l.name, '=', t); }
    assert Cut(t[1..], '"') == Some((l.value, tail)) by {
      assert t[1..] == l.value + ['"'] + tail;
      CutAt(l.value, '"', tail);
    }
  }

  lemma Assoc3(a: string, b: string, c: string)
    ensures a + b + c == a + (b + c)
  {
  }

  lemma Assoc4(a: string, b: string, c: string, d: string)
    ensures a + b + c + d == a + (b + (c + d))
  {
  }


  datatype Parsed = Parsed(metric: string, labels: seq<Label>, rest: string)

  /** Reads `metric{matchers}` at the start of a query; the rest is what follows. */
  function ParseSelector(q: string): (r: Option<Parsed>)
    ensures r.Some? ==> '{' !in r.value.metric && |r.value.labels| >= 1
  {
    match Cut(q, '{')
    case None => None
    case Some(p) =>
      match ParseLabels(p.1)
      case None => None
      case Some(l) => Some(Parsed(p.0, l.0, l.1))
  }

  lemma ParseLastLabel(l: Label, rest: string)
    requires '=' !in l.name && '"' !in l.value
    ensures ParseLabels(LabelsText([l]) + rest) == Some(([l], rest))
  {
    var tail := "}" + rest;
    Assoc3(LabelText(l), "}", rest);
    ParseOneLabel(l, tail);
    assert tail[0] == '}' && tail[1..] == rest;
  }

  lemma ParseNextLabel(l: Label, more: seq<Label>, rest: string)
    requires '=' !in l.name && '"' !in l.value && |more| >= 1
    requires ParseLabels(LabelsText(more) + rest) == Some((more, rest))
    ensures ParseLabels(LabelsText([l] + more) + rest) == Some(([l] + more, rest))
  {
    var x := LabelsText(more) + rest;
    var tail := "," + x;
    assert LabelsText([l] + more) == LabelText(l) + "," + LabelsText(more) by {
      assert ([l] + more)[1..] == more;
    }
    Assoc4(LabelText(l), ",", LabelsText(more), rest);
    ParseOneLabel(l, tail);
    assert tail[0] == ',' && tail[1..] == x;
  }

  lemma {:induction false} ParseLabelsText(ls: seq<Label>, rest: string)
    requires |ls| >= 1 && Readable(ls)
    ensures ParseLabels(LabelsText(ls) + rest) == Some((ls, rest))
  {
    if |ls| == 1 {
      ParseLastLabel(ls[0], rest);
      assert ls == [ls[0]];
    } else {
      assert Readable(ls[1..]) by {
        assert forall i :: 0 <= i < |ls[1..]| ==> ls[1..][i] == ls[i + 1];
      }
      ParseLabelsText(ls[1..], rest);
      ParseNextLabel(ls[0], ls[1..], rest);
      assert [ls[0]] + ls[1..] == ls;
    }
  }

  /** A selector reads back as the metric and matchers it was built from. */
  lemma SelectorRoundTrip(metric: string, ls: seq<Label>, rest: string)
    requires |ls| >= 1 && Readable(ls) && '{' !in metric
    ensures ParseSelector(Selector(metric, ls) + rest) == Some(Parsed(metric, ls, rest))
  {
    assert Selector(metric, ls) + rest == metric + ['{'] + (LabelsText(ls) + rest);
    CutAt(metric, '{', LabelsText(ls) + rest);
    ParseLabelsText(ls, rest);
  }

  /** `%d` of a Go int. */
  function IntText(d: int): (r: string)
    ensures |r| >= 1
  {
    if d < 0 then "-" + Decimal(-d) else Decimal(d)
  }

  /** GetMetric's query (cache-collector.go:310). */
  function MetricQuery(metric: string, sourceId: string): string
  {
    metric + "{source_id=\"" + sourceId + "\"}"
  }

  /** The selector GetRateMetric and GetAVGMetric both start with: the metric filtered by
      source_id and job. */
  function JobSelector(metric: string, sourceId: string, job: string): string
  {
    metric + "{source_id=\"" + sourceId + "\",job=\"" + job + "\"}"
  }

  /** GetRateMetric's query (cache-collector.go:320-324): a range selector with an offset. */
  function RateQuery(metric: string, sourceId: string, job: string, offset: string, duration: int): string
  {
    JobSelector(metric, sourceId, job) + "[" + IntText(duration) + "] offset " + offset
  }

  /** GetAVGMetric's query (cache-collector.go:334-337): an instant selector with an offset. */
  function AvgQuery(metric: string, sourceId: string, job: string, offset: string): string
  {
    JobSelector(metric, sourceId, job) + " offset " + offset
  }

  /** GetMetric's query selects exactly the metric, filtered by source_id alone. */
  lemma MetricQueryReads(metric: string, sourceId: string)
    requires '{' !in metric && '"' !in sourceId
    ensures ParseSelector(MetricQuery(metric, sourceId)) ==
      Some(Parsed(metric, [Label("source_id", sourceId)], ""))
  {
    var ls := [Label("source_id", sourceId)];
    assert MetricQuery(metric, sourceId) == Selector(metric, ls) + "";
    SelectorRoundTrip(metric, ls, "");
  }

  /** The job selector reads back as the metric and its two matchers, whatever follows it. */
  lemma JobSelectorReads(metric: string, sourceId: string, job: string, rest: string)
    requires '{' !in metric && '"' !in sourceId && '"' !in job
    ensures ParseSelector(JobSelector(metric, sourceId, job) + rest) ==
      Some(Parsed(metric, [Label("source_id", sourceId), Label("job", job)], rest))
  {
    var ls := [Label("source_id", sourceId), Label("job", job)];
    var second := "job=\"" + job + "\"}";
    assert LabelsText(ls) == "source_id=\"" + sourceId + "\"" + "," + second by {
      assert ls[1..] == [Label("job", job)];
    }
    assert JobSelector(metric, sourceId, job) == Selector(metric, ls);
    SelectorRoundTrip(metric, ls, rest);
  }

  /** GetRateMetric's query selects the metric by source_id and job, then reads the range
      and the offset. */
  lemma RateQueryReads(metric: string, sourceId: string, job: string, offset: string, duration: int)
    requires '{' !in metric && '"' !in sourceId && '"' !in job
    ensures ParseSelector(RateQuery(metric, sourceId, job, offset, duration)) ==
      Some(Parsed(metric, [Label("source_id", sourceId), Label("job", job)], "[" + IntText(duration) + "] offset " + offset))
  {
    var rest := "[" + IntText(duration) + "] offset " + offset;
    assert RateQuery(metric, sourceId, job, offset, duration) == JobSelector(metric, sourceId, job) + rest;
    JobSelectorReads(metric, sourceId, job, rest);
  }

  /** GetAVGMetric's query selects the metric by source_id and job, then the offset. */
  lemma AvgQueryReads(metric: string, sourceId: string, job: string, offset: string)
    requires '{' !in metric && '"' !in sourceId && '"' !in job
    ensures ParseSelector(AvgQuery(metric, sourceId, job, offset)) ==
      Some(Parsed(metric, [Label("source_id", sourceId), Label("job", job)], " offset " + offset))
  {
    var rest := " offset " + offset;
    assert AvgQuery(metric, sourceId, job, offset) == JobSelector(metric, sourceId, job) + rest;
    JobSelectorReads(metric, sourceId, job, rest);
  }
}
