/**
 * What the exposition parser promises: how a type search ends, which lines
 * produce entries, what a missing `# TYPE` line does to the lines after it,
 * and the entries for concrete scraped bodies.
 */
module ExpositionProperties {
  import opened Wrappers
  import opened GoStrings
  import opened Metrics
  import opened Exposition

  /** With no `# TYPE` line for `name` from `from` on, the type is `""` and
    * every line is consumed. */
  lemma {:induction false} FindTypeAbsent(lines: seq<string>, from: nat, name: string)
    requires from <= |lines|
    requires forall j :: from <= j < |lines| ==> !IsTypeLineFor(lines[j], name)
    ensures FindType(lines, from, name) == Ok(TypeFound("", |lines|))
    decreases |lines| - from
  {
    if from < |lines| {
      FindTypeAbsent(lines, from + 1, name);
    }
  }

  /** The type search stops at the FIRST `# TYPE` line for `name`: it
    * returns that line's field 3, title-cased, and resumes after it; with
    * fewer than four fields on that line it fails. */
  lemma {:induction false} FindTypeFirstMatch(lines: seq<string>, from: nat, j: nat, name: string)
    requires from <= j < |lines| && IsTypeLineFor(lines[j], name)
    requires forall k :: from <= k < j ==> !IsTypeLineFor(lines[k], name)
    ensures |Split(lines[j])| >= 4 ==>
      FindType(lines, from, name) == Ok(TypeFound(Title(Split(lines[j])[3]), j + 1))
    ensures |Split(lines[j])| < 4 ==> FindType(lines, from, name) == Err(IndexOutOfRange)
    decreases j - from
  {
    if from < j {
      FindTypeFirstMatch(lines, from + 1, j, name);
    }
  }

  /** Lines that are not `# HELP` lines containing `kubevirt_` produce
    * nothing. */
  lemma {:induction false} SkipNonCandidates(lines: seq<string>, a: nat, b: nat)
    requires a <= b <= |lines|
    requires forall j :: a <= j < b ==> !IsHelpCandidate(lines[j])
    ensures ParseFrom(lines, a) == ParseFrom(lines, b)
    decreases b - a
  {
    if a < b {
      SkipNonCandidates(lines, a + 1, b);
    }
  }

  /** A body without qualifying `# HELP` lines yields no entries. */
  lemma NoCandidatesNoEntries(lines: seq<string>)
    requires forall j :: 0 <= j < |lines| ==> !IsHelpCandidate(lines[j])
    ensures ParseFrom(lines, 0) == Ok([])
  {
    SkipNonCandidates(lines, 0, |lines|);
  }

  /** A qualifying `# HELP` line whose `# TYPE` line never comes yields one
    * entry with an empty type, and every later line is swallowed by its
    * type search. */
  lemma MissingTypeSwallowsRest(lines: seq<string>, i: nat)
    requires i < |lines| && IsHelpCandidate(lines[i]) && |Split(lines[i])| >= 4
    requires forall j :: i < j < |lines| ==> !IsTypeLineFor(lines[j], ParseMetricDesc(lines[i]).0)
    ensures ParseFrom(lines, i) ==
      Ok([Metric(ParseMetricDesc(lines[i]).0, ParseMetricDesc(lines[i]).1, "")])
  {
    var name := ParseMetricDesc(lines[i]).0;
    FindTypeAbsent(lines, i + 1, name);
    ParseFromHelp(lines, i, FindType(lines, i + 1, name));
    assert [Metric(name, ParseMetricDesc(lines[i]).1, "")] + [] == [Metric(name, ParseMetricDesc(lines[i]).1, "")];
  }

  /** The indices of the qualifying `# HELP` lines from `from` on, in order. */
  function Candidates(lines: seq<string>, from: nat): (r: seq<nat>)
    requires from <= |lines|
    ensures forall k :: 0 <= k < |r| ==> from <= r[k] < |lines| && IsHelpCandidate(lines[r[k]])
    decreases |lines| - from
  {
    if from == |lines| then []
    else if IsHelpCandidate(lines[from]) then [from] + Candidates(lines, from + 1)
    else Candidates(lines, from + 1)
  }

  /** Every qualifying `# HELP` line from `from` on is among the candidates. */
  lemma {:induction false} CandidatesComplete(lines: seq<string>, from: nat, j: nat)
    requires from <= j < |lines| && IsHelpCandidate(lines[j])
    ensures j in Candidates(lines, from)
    decreases |lines| - from
  {
    if from < j {
      CandidatesComplete(lines, from + 1, j);
    }
  }

  /** Fewer lines hold no more qualifying `# HELP` lines. */
  lemma {:induction false} CandidatesShrink(lines: seq<string>, a: nat, b: nat)
    requires a <= b <= |lines|
    ensures |Candidates(lines, b)| <= |Candidates(lines, a)|
    decreases b - a
  {
    if a < b {
      CandidatesShrink(lines, a + 1, b);
    }
  }

  /** The parser never produces more entries than there are qualifying
    * `# HELP` lines from `from` on. */
  lemma {:induction false} AtMostOneEntryPerHelpLine(lines: seq<string>, from: nat)
    requires from <= |lines| && ParseFrom(lines, from).Ok?
    ensures |ParseFrom(lines, from).value| <= |Candidates(lines, from)|
    decreases |lines| - from
  {
    if from < |lines| {
      if !IsHelpCandidate(lines[from]) {
        AtMostOneEntryPerHelpLine(lines, from + 1);
      } else {
        MarkerFields(lines[from], "HELP");
        var found := FindType(lines, from + 1, ParseMetricDesc(lines[from]).0);
        ParseFromHelp(lines, from, found);
        AtMostOneEntryPerHelpLine(lines, found.value.next);
        CandidatesShrink(lines, from + 1, found.value.next);
      }
    }
  }

  /** The entry a qualifying `# HELP` line at `i` stands for: its name and
    * description, and the type its search finds. */
  function EntryAt(lines: seq<string>, i: nat): Metric
    requires i < |lines| && |Split(lines[i])| >= 4
  {
    var (name, desc) := ParseMetricDesc(lines[i]);
    Metric(name, desc, match FindType(lines, i + 1, name) case Ok(f) => f.mType case Err(_) => "")
  }

  /** The qualifying `# HELP` line at `i` has four fields, and its `# TYPE`
    * line comes before the next qualifying `# HELP` line. */
  predicate TypeBeforeNextHelp(lines: seq<string>, i: nat)
    requires i < |lines|
  {
    IsHelpCandidate(lines[i]) ==>
      && |Split(lines[i])| >= 4
      && var found := FindType(lines, i + 1, ParseMetricDesc(lines[i]).0);
      && found.Ok?
      && forall k :: i < k < found.value.next ==> !IsHelpCandidate(lines[k])
  }

  /** A well-formed body: every qualifying `# HELP` line is paired. */
  predicate WellPaired(lines: seq<string>, from: nat)
    requires from <= |lines|
  {
    forall i :: from <= i < |lines| ==> TypeBeforeNextHelp(lines, i)
  }

  /** In a well-formed body the parser yields exactly one entry per
    * qualifying `# HELP` line, in line order. */
  lemma {:induction false} OneEntryPerHelpLine(lines: seq<string>, from: nat)
    requires from <= |lines| && WellPaired(lines, from)
    ensures ParseFrom(lines, from).Ok?
    ensures |ParseFrom(lines, from).value| == |Candidates(lines, from)|
    ensures forall k :: 0 <= k < |Candidates(lines, from)| ==>
      && |Split(lines[Candidates(lines, from)[k]])| >= 4
      && ParseFrom(lines, from).value[k] == EntryAt(lines, Candidates(lines, from)[k])
    decreases |lines| - from
  {
    if from < |lines| {
      assert TypeBeforeNextHelp(lines, from);
      if !IsHelpCandidate(lines[from]) {
        OneEntryPerHelpLine(lines, from + 1);
        ParseFromOther(lines, from);
        assert Candidates(lines, from) == Candidates(lines, from + 1);
      } else {
        var found := FindType(lines, from + 1, ParseMetricDesc(lines[from]).0);
        var next := found.value.next;
        ParseFromHelp(lines, from, found);
        OneEntryPerHelpLine(lines, next);
        CandidatesSkip(lines, from + 1, next);
        var rest := ParseFrom(lines, next).value;
        var entries := ParseFrom(lines, from).value;
        var cands := Candidates(lines, from);
        assert entries == [EntryAt(lines, from)] + rest;
        assert cands == [from] + Candidates(lines, next);
        forall k | 0 <= k < |cands|
          ensures |Split(lines[cands[k]])| >= 4 && entries[k] == EntryAt(lines, cands[k])
        {
          if k > 0 {
            assert cands[k] == Candidates(lines, next)[k - 1] && entries[k] == rest[k - 1];
          }
        }
      }
    }
  }

  /** Skipping lines that are not qualifying leaves the candidates as they are. */
  lemma {:induction false} CandidatesSkip(lines: seq<string>, a: nat, b: nat)
    requires a <= b <= |lines|
    requires forall j :: a <= j < b ==> !IsHelpCandidate(lines[j])
    ensures Candidates(lines, a) == Candidates(lines, b)
    decreases b - a
  {
    if a < b {
      CandidatesSkip(lines, a + 1, b);
    }
  }

  /** The fields of `# HELP <name> <word> <rest>`: `#`, `HELP`, the name,
    * the word, and the fields of the rest. */
  lemma HelpLineFields(name: string, word: string, rest: string)
    requires Space !in name && Space !in word
    ensures Split(HelpMarker + name + " " + word + " " + rest) == ["#", "HELP", name, word] + Split(rest)
  {
    var tail := word + [Space] + rest;
    assert HelpMarker + name + " " + word + " " + rest == "#" + [Space] + ("HELP" + [Space] + (name + [Space] + tail));
    SplitAfterWord(word, rest);
    SplitAfterWord(name, tail);
    SplitAfterWord("HELP", name + [Space] + tail);
    SplitAfterWord("#", "HELP" + [Space] + (name + [Space] + tail));
  }

  /** A `# HELP` line `# HELP <name> <word> <rest>`: the name is the third
    * field and the description is the rest of the line from the fourth
    * field on, its first word title-cased. */
  lemma HelpLineParts(name: string, word: string, rest: string)
    requires Space !in name && Space !in word
    ensures |Split(HelpMarker + name + " " + word + " " + rest)| >= 4
    ensures ParseMetricDesc(HelpMarker + name + " " + word + " " + rest) == (name, Title(word) + " " + rest)
  {
    HelpLineFields(name, word, rest);
    var split := Split(HelpMarker + name + " " + word + " " + rest);
    var pieces := Split(rest);
    assert split[3..][0 := Title(word)] == [Title(word)] + pieces;
    JoinSplit(rest);
    assert Join([Title(word)] + pieces) == Title(word) + [Space] + Join(pieces);
  }

  /** A `# HELP` line whose description is one word. */
  lemma HelpLineOneWord(name: string, word: string)
    requires Space !in name && Space !in word
    ensures |Split(HelpMarker + name + " " + word)| >= 4
    ensures ParseMetricDesc(HelpMarker + name + " " + word) == (name, Title(word))
  {
    var tail := name + [Space] + word;
    assert HelpMarker + name + " " + word == "#" + [Space] + ("HELP" + [Space] + tail);
    SplitWord(word);
    SplitAfterWord(name, word);
    SplitAfterWord("HELP", tail);
    SplitAfterWord("#", "HELP" + [Space] + tail);
    var split := Split(HelpMarker + name + " " + word);
    assert split == ["#", "HELP", name, word];
    assert split[3..][0 := Title(word)] == [Title(word)];
  }

  /** A `# TYPE <name> <type>` line is the type line for `name`, and its
    * fields are `#`, `TYPE`, the name and the type. */
  lemma TypeLineParts(name: string, mType: string)
    requires Space !in name && Space !in mType
    ensures IsTypeLineFor(TypeMarker + name + " " + mType, name)
    ensures Split(TypeMarker + name + " " + mType) == ["#", "TYPE", name, mType]
  {
    var line := TypeMarker + name + " " + mType;
    MarkerFields(line, "TYPE");
    assert line[7..] == name + [Space] + mType;
    SplitAfterWord(name, mType);
    SplitWord(mType);
  }

  /** `# HELP <name> <word> <rest>` followed by `# TYPE <name> <type>`,
    * with `kubevirt_` anywhere in the help line, yields one entry: the
    * name, the description with its first word title-cased, and the type
    * title-cased. (`# HELP kubevirt_vmi_count some vm count.` then
    * `# TYPE kubevirt_vmi_count gauge` is one such pair.) */
  lemma HelpThenType(name: string, word: string, rest: string, mType: string)
    requires Space !in name && Space !in word && Space !in mType
    requires Contains(HelpMarker + name + " " + word + " " + rest, Filter)
    ensures ParseFrom([HelpMarker + name + " " + word + " " + rest, TypeMarker + name + " " + mType], 0)
         == Ok([Metric(name, Title(word) + " " + rest, Title(mType))])
  {
    var help := HelpMarker + name + " " + word + " " + rest;
    var lines := [help, TypeMarker + name + " " + mType];
    HelpLineParts(name, word, rest);
    TypeLineParts(name, mType);
    assert IsHelpCandidate(lines[0]);
    FindTypeFirstMatch(lines, 1, 1, name);
    assert FindType(lines, 1, name) == Ok(TypeFound(Title(mType), 2));
    ParseFromHelp(lines, 0, FindType(lines, 1, name));
    var m := Metric(name, Title(word) + " " + rest, Title(mType));
    assert ParseFrom(lines, 2) == Ok([]);
    assert [m] + [] == [m];
  }

  /** The `kubevirt_` filter looks at the whole line, not only at the name:
    * a `# HELP` line for any name whose description mentions `kubevirt_`
    * is parsed, and gets the type of the `# TYPE` line that follows it. */
  lemma FilterMatchesWholeLine(name: string, word: string, rest: string, mType: string)
    requires Space !in name && Space !in word && Space !in mType
    requires Contains(rest, Filter)
    ensures ParseFrom([HelpMarker + name + " " + word + " " + rest, TypeMarker + name + " " + mType], 0)
         == Ok([Metric(name, Title(word) + " " + rest, Title(mType))])
  {
    var line := HelpMarker + name + " " + word + " " + rest;
    assert line == (HelpMarker + name + " " + word + " ") + rest + [];
    ContainsWithin(HelpMarker + name + " " + word + " ", rest, [], Filter);
    HelpThenType(name, word, rest, mType);
  }
}
