/**
 * The generator's `main`: the static entries, the parse of the scraped
 * body when the scrape answered 200, and the rendered document.
 */
module DocGenerator {
  import opened Wrappers
  import opened Metrics
  import opened Exposition
  import opened StaticCatalog
  import opened Render

  /** `http.StatusOK`. */
  const StatusOK: int := 200

  /** What the in-process scrape of `/metrics` returned. */
  datatype Scrape = Scrape(status: int, body: Body)

  /** Why no document is produced: the scrape answered another status, or
    * the parse failed. */
  datatype GenerateError = HttpStatus(code: int) | ParseError(failure: Failure)

  /** `main` from the scrape on, followed by `writeToFile`, for a list
    * that starts as `statics`: the document renders, between the opening
    * and the footer, a name-sorted permutation of `statics` followed by the
    * parsed entries. */
  method Publish(scrape: Scrape, statics: seq<Metric>) returns (r: Result<string, GenerateError>)
    ensures scrape.status != StatusOK ==> r == Err(HttpStatus(scrape.status))
    ensures scrape.status == StatusOK && ParseFrom(scrape.body.lines, 0).Err? ==>
      r == Err(ParseError(ParseFrom(scrape.body.lines, 0).error))
    ensures scrape.status == StatusOK && ParseFrom(scrape.body.lines, 0).Ok? && scrape.body.failed ==>
      r == Err(ParseError(ScanFailed))
    ensures scrape.status == StatusOK && ParseFrom(scrape.body.lines, 0).Ok? && !scrape.body.failed ==>
      && r.Ok?
      && exists ms :: (SortedByName(ms) && r.value == Document(ms) &&
           multiset(ms) == multiset(statics + ParseFrom(scrape.body.lines, 0).value))
  {
    var metrics := new MetricList(statics);
    if scrape.status != StatusOK {
      return Err(HttpStatus(scrape.status));
    }
    var err := ParseVirtMetrics(scrape.body, metrics);
    if err.Some? {
      return Err(ParseError(err.value));
    }
    var ms := metrics.Items();
    return Ok(Document(ms));
  }

  /** `main` followed by `writeToFile`, returning the document instead of
    * writing it. On success the document renders, between the opening and
    * the footer, a name-sorted permutation of the static entries followed by
    * the parsed ones. */
  method Generate(scrape: Scrape, names: MigrationMetricNames, rules: seq<RecordingRule>)
    returns (r: Result<string, GenerateError>)
    ensures scrape.status != StatusOK ==> r == Err(HttpStatus(scrape.status))
    ensures scrape.status == StatusOK && ParseFrom(scrape.body.lines, 0).Err? ==>
      r == Err(ParseError(ParseFrom(scrape.body.lines, 0).error))
    ensures scrape.status == StatusOK && ParseFrom(scrape.body.lines, 0).Ok? && scrape.body.failed ==>
      r == Err(ParseError(ScanFailed))
    ensures scrape.status == StatusOK && ParseFrom(scrape.body.lines, 0).Ok? && !scrape.body.failed ==>
      && r.Ok?
      && exists ms :: (SortedByName(ms) && r.value == Document(ms) &&
           multiset(ms) == multiset(LiteralMetrics(names) + RuleMetrics(rules) + ParseFrom(scrape.body.lines, 0).value))
  {
    var statics := GetMetricsNotIncludeInEndpointByDefault(names, rules);
    r := Publish(scrape, statics);
  }
}
