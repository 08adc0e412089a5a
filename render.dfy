/**
 * The document the generator writes, as a string: the fixed opening, one
 * block per metric in list order, and the fixed footer.
 */
module Render {
  import opened Metrics

  const GenFileComment: string :=
    "<!--\n\tThis is an auto-generated file.\n\tPLEASE DO NOT EDIT THIS FILE.\n\tSee \"Developing new metrics\" below how to generate this file\n-->"
  const DocTitle: string := "# KubeVirt metrics\n"
  const Background: string :=
    "This document aims to help users that are not familiar with all metrics exposed by different KubeVirt components.\n"
    + "All metrics documented here are auto-generated by the utility tool `tools/doc-generator` and reflects exactly what is being exposed.\n\n"
  const KVSpecificMetrics: string :=
    "## KubeVirt Metrics List\n" + "### kubevirt_info\n" + "Version information.\n\n"
  const Opening: string := GenFileComment + "\n\n" + DocTitle + Background + KVSpecificMetrics

  const FooterHeading: string := "## Developing new metrics\n"
  const FooterContent: string :=
    "After developing new metrics or changing old ones, please run `make generate` to regenerate this document.\n\n"
    + "If you feel that the new metric doesn't follow these rules, please change `doc-generator` with your needs.\n"
  const Footer: string := FooterHeading + FooterContent

  /** `metric.writeToFile`: three `Println` calls, whose operands are
    * separated by single spaces: the heading, the description with its
    * type, and an empty line. */
  function RenderMetric(m: Metric): (r: string)
    ensures |r| >= 3 && r[|r| - 3..] == ".\n\n"
  {
    "### " + m.name + "\n" + m.description + " Type: " + m.mType + ".\n" + "\n"
  }

  /** Pieces of text written one after the other. */
  function Concat(parts: seq<string>): string
  {
    if parts == [] then [] else parts[0] + Concat(parts[1..])
  }

  /** Writing two runs of pieces writes each run in turn. */
  lemma {:induction false} ConcatAppend(a: seq<string>, b: seq<string>)
    ensures Concat(a + b) == Concat(a) + Concat(b)
  {
    if a == [] {
      assert a + b == b;
    } else {
      assert (a + b)[0] == a[0] && (a + b)[1..] == a[1..] + b;
      ConcatAppend(a[1..], b);
      assert Concat(a + b) == a[0] + (Concat(a[1..]) + Concat(b));
    }
  }

  /** The block of every entry, in list order. */
  function Blocks(ms: seq<Metric>): (r: seq<string>)
    ensures |r| == |ms|
    ensures forall i :: 0 <= i < |ms| ==> r[i] == RenderMetric(ms[i])
  {
    if ms == [] then [] else [RenderMetric(ms[0])] + Blocks(ms[1..])
  }

  /** The blocks of two lists one after the other are the blocks of each. */
  lemma {:induction false} BlocksAppend(a: seq<Metric>, b: seq<Metric>)
    ensures Blocks(a + b) == Blocks(a) + Blocks(b)
  {
    if a == [] {
      assert a + b == b;
    } else {
      assert (a + b)[0] == a[0] && (a + b)[1..] == a[1..] + b;
      BlocksAppend(a[1..], b);
    }
  }

  /** `metricList.writeToFile`: the blocks of the entries, in list order. */
  function RenderList(ms: seq<Metric>): (r: string)
    ensures ms == [] ==> r == ""
    ensures ms != [] ==> |r| >= |RenderMetric(ms[0])| && r[..|RenderMetric(ms[0])|] == RenderMetric(ms[0])
  {
    Concat(Blocks(ms))
  }

  /** Text written between a fixed head and a fixed tail starts with the
    * head and ends with the tail. */
  lemma Framed(head: string, body: string, tail: string)
    ensures |head + body + tail| >= |head| + |tail|
    ensures (head + body + tail)[..|head|] == head
    ensures (head + body + tail)[|head + body + tail| - |tail|..] == tail
  {
  }

  /** `writeToFile`: the opening, the blocks, the footer. */
  function Document(ms: seq<Metric>): (r: string)
    ensures |r| >= |Opening| + |Footer|
    ensures r[..|Opening|] == Opening && r[|r| - |Footer|..] == Footer
  {
    Framed(Opening, RenderList(ms), Footer);
    Opening + RenderList(ms) + Footer
  }

  /** Rendering a list in two parts renders each part in turn. */
  lemma RenderListAppend(a: seq<Metric>, b: seq<Metric>)
    ensures RenderList(a + b) == RenderList(a) + RenderList(b)
  {
    BlocksAppend(a, b);
    ConcatAppend(Blocks(a), Blocks(b));
  }

  /** Entry `k` is rendered after the entries before it and before the
    * entries after it: rendering never reorders. */
  lemma RenderListAt(ms: seq<Metric>, k: nat)
    requires k < |ms|
    ensures RenderList(ms) == RenderList(ms[..k]) + RenderMetric(ms[k]) + RenderList(ms[k + 1..])
  {
    var after := [ms[k]] + ms[k + 1..];
    assert ms == ms[..k] + after;
    RenderListAppend(ms[..k], after);
    RenderListAppend([ms[k]], ms[k + 1..]);
    assert Blocks([ms[k]]) == [RenderMetric(ms[k])];
    assert Concat([RenderMetric(ms[k])]) == RenderMetric(ms[k]);
  }

  /** Every entry of the list has its block in the document, in the rendered list. */
  lemma EntryInDocument(ms: seq<Metric>, m: Metric)
    requires m in ms
    ensures exists k :: (0 <= k < |ms| && ms[k] == m &&
      RenderList(ms) == RenderList(ms[..k]) + RenderMetric(m) + RenderList(ms[k + 1..]))
  {
    var k :| 0 <= k < |ms| && ms[k] == m;
    RenderListAt(ms, k);
  }

  /** The text before the first line break. */
  function FirstLine(s: string): string
  {
    if s == [] || s[0] == '\n' then [] else [s[0]] + FirstLine(s[1..])
  }

  lemma {:induction false} FirstLineOf(a: string, b: string)
    requires '\n' !in a
    ensures FirstLine(a + "\n" + b) == a
  {
    if a != [] {
      assert (a + "\n" + b)[1..] == a[1..] + "\n" + b;
      FirstLineOf(a[1..], b);
    }
  }

  /** A block's first line is the heading `### <name>`, so the name can be
    * read back from the block when it holds no line break. */
  lemma BlockHeading(m: Metric)
    requires '\n' !in m.name
    ensures FirstLine(RenderMetric(m)) == "### " + m.name
  {
    assert RenderMetric(m) == ("### " + m.name) + "\n" + (m.description + " Type: " + m.mType + ".\n" + "\n");
    FirstLineOf("### " + m.name, m.description + " Type: " + m.mType + ".\n" + "\n");
  }
}
