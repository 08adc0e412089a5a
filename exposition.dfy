/**
 * The exposition parser of the documentation generator: it reads the
 * `# HELP` and `# TYPE` comment lines of a scraped metrics body through one
 * shared line scanner and appends one metric per qualifying `# HELP` line.
 */
module Exposition {
  import opened Wrappers
  import opened GoStrings
  import opened Metrics

  const HelpMarker: string := "# HELP "
  const TypeMarker: string := "# TYPE "
  /** Lines must contain this to be parsed (anywhere in the line). */
  const Filter: string := "kubevirt_"

  /** Why parsing stops: indexing a field past the end of a split line
    * (a Go panic), or a read error reported by the scanner. */
  datatype Failure = IndexOutOfRange | ScanFailed

  /** The scraped body as the scanner sees it: the lines it delivers, and
    * whether the stream ended in a read error rather than end of input. */
  datatype Body = Body(lines: seq<string>, failed: bool)

  /** A line that starts with `# <word> ` splits into `#`, the word, and the
    * pieces of the rest; so field 2 always exists on such a line. */
  lemma MarkerFields(line: string, word: string)
    requires Space !in word && HasPrefix(line, "# " + word + " ")
    ensures Split(line) == ["#", word] + Split(line[|word| + 3..])
    ensures |Split(line)| >= 3
  {
    var rest := line[|word| + 3..];
    assert line == "#" + [Space] + (word + [Space] + rest);
    SplitAfterWord("#", word + [Space] + rest);
    SplitAfterWord(word, rest);
  }

  /** A `# HELP` line the outer loop turns into a metric. */
  predicate IsHelpCandidate(line: string)
  {
    HasPrefix(line, HelpMarker) && Contains(line, Filter)
  }

  /** A `# TYPE` line whose field 2 is `name`. */
  predicate IsTypeLineFor(line: string, name: string)
  {
    HasPrefix(line, TypeMarker) && (MarkerFields(line, "TYPE"); Split(line)[2] == name)
  }

  /** `parseMetricDesc`: field 2 is the name; fields 3 onwards, field 3
    * title-cased, joined by single spaces, are the description, so splitting
    * the description gives those fields back. Go indexes `split[3]`
    * unchecked, so the line must have at least four fields. */
  function ParseMetricDesc(line: string): (r: (string, string))
    requires |Split(line)| >= 4
    ensures Space !in r.0 && r.0 == Split(line)[2]
    ensures Split(r.1) == [Title(Split(line)[3])] + Split(line)[4..]
  {
    var split := Split(line);
    var pieces := split[3..][0 := Title(split[3])];
    assert pieces == [Title(split[3])] + split[4..];
    SplitJoin(pieces);
    (split[2], Join(pieces))
  }

  /** Where a type search ends: the type found, and the index of the first
    * line it did not consume. */
  datatype TypeFound = TypeFound(mType: string, next: nat)

  /** What `parseMetricType` computes when the scanner stands at line
    * `from`: the title-cased field 3 of the first `# TYPE` line for `name`,
    * consuming up to and including it; or `""` with every line consumed. */
  function FindType(lines: seq<string>, from: nat, name: string): (r: Result<TypeFound, Failure>)
    requires from <= |lines|
    ensures r.Ok? ==> from <= r.value.next <= |lines|
    decreases |lines| - from
  {
    if from == |lines| then Ok(TypeFound("", |lines|))
    else if IsTypeLineFor(lines[from], name) then
      var split := Split(lines[from]);
      if |split| < 4 then Err(IndexOutOfRange) else Ok(TypeFound(Title(split[3]), from + 1))
    else FindType(lines, from + 1, name)
  }

  /** What the loop of `parseVirtMetrics` appends when the scanner stands at
    * line `from`: lines that are not qualifying `# HELP` lines add nothing;
    * a qualifying one adds one metric, and the loop resumes after the lines
    * its type search consumed. */
  function ParseFrom(lines: seq<string>, from: nat): (r: Result<seq<Metric>, Failure>)
    requires from <= |lines|
    ensures r.Ok? ==> |r.value| <= |lines| - from
    ensures r.Ok? ==> forall i :: 0 <= i < |r.value| ==> Space !in r.value[i].name
    decreases |lines| - from
  {
    if from == |lines| then Ok([])
    else if !IsHelpCandidate(lines[from]) then ParseFrom(lines, from + 1)
    else
      MarkerFields(lines[from], "HELP");
      if |Split(lines[from])| < 4 then Err(IndexOutOfRange)
      else
        var (name, desc) := ParseMetricDesc(lines[from]);
        match FindType(lines, from + 1, name)
        case Err(e) => Err(e)
        case Ok(found) =>
          match ParseFrom(lines, found.next)
          case Err(e) => Err(e)
          case Ok(rest) => Ok([Metric(name, desc, found.mType)] + rest)
  }

  /** One step of ParseFrom on a line that is not a qualifying `# HELP` line. */
  lemma ParseFromOther(lines: seq<string>, at: nat)
    requires at < |lines| && !IsHelpCandidate(lines[at])
    ensures ParseFrom(lines, at) == ParseFrom(lines, at + 1)
  {
  }

  /** One step of ParseFrom on a qualifying `# HELP` line with too few fields. */
  lemma ParseFromShort(lines: seq<string>, at: nat)
    requires at < |lines| && IsHelpCandidate(lines[at]) && |Split(lines[at])| < 4
    ensures ParseFrom(lines, at) == Err(IndexOutOfRange)
  {
  }

  /** One step of ParseFrom on a qualifying `# HELP` line whose type search
    * ends with `found`. */
  lemma ParseFromHelp(lines: seq<string>, at: nat, found: Result<TypeFound, Failure>)
    requires at < |lines| && IsHelpCandidate(lines[at]) && |Split(lines[at])| >= 4
    requires found == FindType(lines, at + 1, ParseMetricDesc(lines[at]).0)
    ensures found.Err? ==> ParseFrom(lines, at) == Err(found.error)
    ensures found.Ok? ==>
      ParseFrom(lines, at) ==
      Prepend([Metric(ParseMetricDesc(lines[at]).0, ParseMetricDesc(lines[at]).1, found.value.mType)],
              ParseFrom(lines, found.value.next))
  {
  }

  /** `acc` followed by what `r` parses, or the failure of `r`. */
  function Prepend(acc: seq<Metric>, r: Result<seq<Metric>, Failure>): Result<seq<Metric>, Failure>
  {
    match r
    case Ok(rest) => Ok(acc + rest)
    case Err(e) => Err(e)
  }

  lemma PrependNothing(r: Result<seq<Metric>, Failure>)
    ensures Prepend([], r) == r
  {
    if r.Ok? {
      assert [] + r.value == r.value;
    }
  }

  lemma PrependTwice(acc: seq<Metric>, more: seq<Metric>, r: Result<seq<Metric>, Failure>)
    ensures Prepend(acc, Prepend(more, r)) == Prepend(acc + more, r)
  {
    if r.Ok? {
      assert acc + (more + r.value) == (acc + more) + r.value;
    }
  }

  /** `bufio.Scanner` over the body's lines: a cursor into the line
    * sequence, shared by every loop that scans. */
  class Scanner {
    const lines: seq<string>
    const failed: bool
    var pos: nat
    var token: string

    ghost predicate Valid()
      reads this
    {
      pos <= |lines|
    }

    constructor (body: Body)
      ensures Valid() && lines == body.lines && failed == body.failed && pos == 0
    {
      lines, failed, pos, token := body.lines, body.failed, 0, [];
    }

    /** `Scan`: moves to the next line, if there is one. */
    method Scan() returns (ok: bool)
      requires Valid()
      modifies this
      ensures Valid()
      ensures ok == (old(pos) < |lines|)
      ensures ok ==> pos == old(pos) + 1 && token == lines[old(pos)]
      ensures !ok ==> pos == old(pos)
    {
      ok := pos < |lines|;
      if ok {
        token := lines[pos];
        pos := pos + 1;
      }
    }

    /** `Err`: whether scanning stopped on a read error. */
    predicate Err()
      reads this
    {
      failed && pos == |lines|
    }
  }

  /** `parseMetricType`: advances the shared scanner to the `# TYPE` line for
    * `name` and returns its title-cased type, or `""` at end of input; an
    * index past the fields of the matching line is a failure. */
  method ParseMetricType(scan: Scanner, name: string) returns (r: Result<string, Failure>)
    requires scan.Valid()
    modifies scan
    ensures scan.Valid()
    ensures FindType(scan.lines, old(scan.pos), name) ==
      if r.Ok? then Ok(TypeFound(r.value, scan.pos)) else Err(r.error)
  {
    var more := scan.Scan();
    while more
      invariant scan.Valid()
      invariant more ==> 0 < scan.pos && scan.token == scan.lines[scan.pos - 1]
      invariant !more ==> scan.pos == |scan.lines|
      invariant old(scan.pos) <= (if more then scan.pos - 1 else scan.pos)
      invariant FindType(scan.lines, old(scan.pos), name) ==
        FindType(scan.lines, if more then scan.pos - 1 else scan.pos, name)
      decreases |scan.lines| - scan.pos + (if more then 1 else 0)
    {
      var typeLine := scan.token;
      if HasPrefix(typeLine, TypeMarker) {
        MarkerFields(typeLine, "TYPE");
        var split := Split(typeLine);
        if split[2] == name {
          if |split| < 4 {
            return Err(IndexOutOfRange);
          }
          return Ok(Title(split[3]));
        }
      }
      more := scan.Scan();
    }
    return Ok("");
  }

  /** The body of the `for scan.Scan()` loop of `parseVirtMetrics` on a
    * qualifying `# HELP` line, the scanner standing just after it: parses
    * the name and description, searches the type, and appends the metric.
    * `acc` holds what the loop appended before. */
  method ScanEntry(scan: Scanner, metrics: MetricList, helpLine: string, ghost base: seq<Metric>, ghost acc: seq<Metric>)
    returns (err: Option<Failure>, ghost acc': seq<Metric>)
    requires scan.Valid() && 0 < scan.pos && helpLine == scan.lines[scan.pos - 1]
    requires IsHelpCandidate(helpLine)
    requires ParseFrom(scan.lines, 0) == Prepend(acc, ParseFrom(scan.lines, scan.pos - 1))
    requires metrics.Items() == base + acc
    modifies scan, metrics
    ensures scan.Valid()
    ensures err.None? ==> old(scan.pos) <= scan.pos
    ensures err.Some? ==> ParseFrom(scan.lines, 0) == Err(err.value)
    ensures err.None? ==> ParseFrom(scan.lines, 0) == Prepend(acc', ParseFrom(scan.lines, scan.pos))
    ensures err.None? ==> metrics.Items() == base + acc'
    ensures metrics.elems == old(metrics.elems) || fresh(metrics.elems)
  {
    ghost var at := scan.pos - 1;
    MarkerFields(helpLine, "HELP");
    if |Split(helpLine)| < 4 {
      ParseFromShort(scan.lines, at);
      return Some(IndexOutOfRange), acc;
    }
    var (metName, metDesc) := ParseMetricDesc(helpLine);
    ghost var found := FindType(scan.lines, at + 1, metName);
    ParseFromHelp(scan.lines, at, found);
    var metType := ParseMetricType(scan, metName);
    if metType.Err? {
      return Some(metType.error), acc;
    }
    var m := Metric(metName, metDesc, metType.value);
    PrependTwice(acc, [m], ParseFrom(scan.lines, scan.pos));
    ghost var lines := scan.lines;
    ghost var p := scan.pos;
    metrics.Append(m);
    assert scan.lines == lines && scan.pos == p;
    return None, acc + [m];
  }

  /** The `for scan.Scan()` loop of `parseVirtMetrics`: appends one metric
    * per qualifying `# HELP` line it reaches, sharing the scanner with the
    * type searches. */
  method ScanMetrics(scan: Scanner, metrics: MetricList) returns (err: Option<Failure>)
    requires scan.Valid() && scan.pos == 0
    modifies scan, metrics
    ensures scan.Valid()
    ensures ParseFrom(scan.lines, 0).Err? ==> err == Some(ParseFrom(scan.lines, 0).error)
    ensures ParseFrom(scan.lines, 0).Ok? ==>
      && err == None
      && scan.pos == |scan.lines|
      && metrics.Items() == old(metrics.Items()) + ParseFrom(scan.lines, 0).value
    ensures metrics.elems == old(metrics.elems) || fresh(metrics.elems)
  {
    ghost var base := metrics.Items();
    ghost var acc: seq<Metric> := [];
    PrependNothing(ParseFrom(scan.lines, 0));
    var more := scan.Scan();
    while more
      invariant scan.Valid()
      invariant more ==> 0 < scan.pos && scan.token == scan.lines[scan.pos - 1]
      invariant !more ==> scan.pos == |scan.lines|
      invariant ParseFrom(scan.lines, 0) ==
        Prepend(acc, ParseFrom(scan.lines, if more then scan.pos - 1 else scan.pos))
      invariant metrics.Items() == base + acc
      invariant metrics.elems == old(metrics.elems) || fresh(metrics.elems)
      decreases |scan.lines| - scan.pos + (if more then 1 else 0)
    {
      var helpLine := scan.token;
      if HasPrefix(helpLine, HelpMarker) && Contains(helpLine, Filter) {
        err, acc := ScanEntry(scan, metrics, helpLine, base, acc);
        if err.Some? {
          return;
        }
      } else {
        ParseFromOther(scan.lines, scan.pos - 1);
      }
      more := scan.Scan();
    }
    return None;
  }

  /** `parseVirtMetrics`: appends the metrics parsed from `body` to the list,
    * which already holds the static entries. On a failure of the parse the
    * failure is returned (on a read error the list holds the appended
    * entries, unsorted); otherwise the list ends sorted by name, as a
    * permutation of the entries before followed by the parsed ones. */
  method ParseVirtMetrics(body: Body, metrics: MetricList) returns (err: Option<Failure>)
    modifies metrics, metrics.elems
    ensures ParseFrom(body.lines, 0).Err? ==> err == Some(ParseFrom(body.lines, 0).error)
    ensures ParseFrom(body.lines, 0).Ok? && body.failed ==>
      err == Some(ScanFailed) && metrics.Items() == old(metrics.Items()) + ParseFrom(body.lines, 0).value
    ensures ParseFrom(body.lines, 0).Ok? && !body.failed ==>
      && err == None
      && SortedByName(metrics.Items())
      && multiset(metrics.Items()) == multiset(old(metrics.Items()) + ParseFrom(body.lines, 0).value)
  {
    var scan := new Scanner(body);
    err := ScanMetrics(scan, metrics);
    if err.Some? {
      return;
    }
    if scan.Err() {
      return Some(ScanFailed);
    }
    metrics.Sort();
  }
}
