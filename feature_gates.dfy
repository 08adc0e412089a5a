/**
 * The table of deprecated feature gates: its entries, the start-up pass
 * that gives every entry a message, the lookup by name, and the rule that
 * decides whether a feature gate is enabled.
 */
module FeatureGates {
  import opened Wrappers

  /** A gate's lifecycle state. In the source these are strings, and GA is
    * spelt "Genraly Available". */
  datatype State = GA | Deprecated | Discontinued

  /** One entry of the table. */
  datatype DeprecatedFeatureGate = DeprecatedFeatureGate(name: string, state: State, message: string)

  /** The gate names the table lists; they are constants defined elsewhere. */
  datatype GateNames = GateNames(
    liveMigration: string,
    sriovLiveMigration: string,
    nonRoot: string,
    psa: string,
    cpuNodeDiscovery: string,
    passt: string)

  const PasstMessage: string :=
    "Passt network binding will be deprecated next release. Please refer to Kubevirt user guide for alternatives."

  /** The table as declared: five GA gates without a message, and the
    * deprecated Passt gate with its own message. */
  function DeclaredGates(names: GateNames): (r: seq<DeprecatedFeatureGate>)
    ensures |r| == 6 && r[5].state == Deprecated && r[5].message == PasstMessage
    ensures forall i :: 0 <= i < 5 ==> r[i].state == GA && r[i].message == ""
  {
    [ DeprecatedFeatureGate(names.liveMigration, GA, ""),
      DeprecatedFeatureGate(names.sriovLiveMigration, GA, ""),
      DeprecatedFeatureGate(names.nonRoot, GA, ""),
      DeprecatedFeatureGate(names.psa, GA, ""),
      DeprecatedFeatureGate(names.cpuNodeDiscovery, GA, ""),
      DeprecatedFeatureGate(names.passt, Deprecated, PasstMessage) ]
  }

  /** A `fmt` format with a single `%s` verb: the text before and after it. */
  datatype Format = Format(before: string, after: string)

  /** `fmt.Sprintf(format, arg)` for a format with a single `%s`. */
  function Sprintf(format: Format, arg: string): string
  {
    format.before + arg + format.after
  }

  /** `warningPattern` of `init`. */
  const WarningPattern: Format := Format(
    "feature gate ",
    " is deprecated, therefore it can be safely removed and is redundant. "
    + "For more info, please look at: https://github.com/kubevirt/kubevirt/blob/main/docs/deprecation.md")

  /** The argument can be read back right after the text before the verb,
    * so different arguments give different messages. */
  lemma SprintfNamesArgument(format: Format, arg: string, other: string)
    ensures |format.before| + |arg| <= |Sprintf(format, arg)|
    ensures Sprintf(format, arg)[..|format.before|] == format.before
    ensures Sprintf(format, arg)[|format.before|..|format.before| + |arg|] == arg
    ensures arg != other ==> Sprintf(format, arg) != Sprintf(format, other)
  {
    var s := Sprintf(format, arg);
    assert s[|format.before|..|format.before| + |arg|] == (arg + format.after)[..|arg|];
    var t := Sprintf(format, other);
    assert t[|format.before|..|format.before| + |other|] == (other + format.after)[..|other|];
  }

  /** The warning is never empty. */
  lemma WarningNotEmpty(name: string)
    ensures Sprintf(WarningPattern, name) != []
  {
    assert |WarningPattern.before| > 0;
  }

  /** What `init` does to one entry: an empty message becomes the format
    * applied to the entry's name; everything else stays. */
  function WithDefaultMessage(g: DeprecatedFeatureGate, warning: Format): (r: DeprecatedFeatureGate)
    ensures r.name == g.name && r.state == g.state
    ensures g.message != [] ==> r == g
    ensures g.message == [] ==> r.message == Sprintf(warning, g.name)
  {
    if g.message == [] then g.(message := Sprintf(warning, g.name)) else g
  }

  /** What `init` does to the whole table, entry by entry. */
  function WithDefaultMessages(gates: seq<DeprecatedFeatureGate>, warning: Format): (r: seq<DeprecatedFeatureGate>)
    ensures |r| == |gates|
    ensures forall i :: 0 <= i < |gates| ==> r[i] == WithDefaultMessage(gates[i], warning)
  {
    if gates == [] then [] else [WithDefaultMessage(gates[0], warning)] + WithDefaultMessages(gates[1..], warning)
  }

  /** After `init` names and states are as before, a preset message is
    * kept, an empty one is the warning for the entry's name, and so, when
    * the format has text before its verb, every entry has a message. */
  lemma DefaultMessagesFilled(gates: seq<DeprecatedFeatureGate>, warning: Format, i: nat)
    requires i < |gates|
    ensures WithDefaultMessages(gates, warning)[i].name == gates[i].name
    ensures WithDefaultMessages(gates, warning)[i].state == gates[i].state
    ensures gates[i].message != [] ==> WithDefaultMessages(gates, warning)[i].message == gates[i].message
    ensures gates[i].message == [] ==> WithDefaultMessages(gates, warning)[i].message == Sprintf(warning, gates[i].name)
    ensures warning.before != [] ==> WithDefaultMessages(gates, warning)[i].message != []
  {
    assert WithDefaultMessages(gates, warning)[i] == WithDefaultMessage(gates[i], warning);
    if gates[i].message == [] && warning.before != [] {
      assert Sprintf(warning, gates[i].name)[0] == warning.before[0];
    }
  }

  /** `init`: fills in, in place, the message of every entry whose message
    * is empty with `warningPattern` applied to the entry's name. */
  method Init(featureGates: array<DeprecatedFeatureGate>)
    modifies featureGates
    ensures featureGates[..] == WithDefaultMessages(old(featureGates[..]), WarningPattern)
  {
    for i := 0 to featureGates.Length
      invariant forall k :: 0 <= k < i ==> featureGates[k] == WithDefaultMessage(old(featureGates[k]), WarningPattern)
      invariant forall k :: i <= k < featureGates.Length ==> featureGates[k] == old(featureGates[k])
    {
      var fg := featureGates[i];
      if fg.message == [] {
        featureGates[i] := fg.(message := Sprintf(WarningPattern, fg.name));
      }
    }
  }

  /** `DeprecatedFeatureGateInfo`: the first entry named `featureGate`, as a
    * value (a copy), or nothing when no entry has that name. */
  function DeprecatedFeatureGateInfo(featureGates: seq<DeprecatedFeatureGate>, featureGate: string)
    : (r: Option<DeprecatedFeatureGate>)
    ensures r.None? <==> forall i :: 0 <= i < |featureGates| ==> featureGates[i].name != featureGate
    ensures r.Some? ==> r.value in featureGates && r.value.name == featureGate
  {
    if featureGates == [] then None
    else if featureGates[0].name == featureGate then Some(featureGates[0])
    else DeprecatedFeatureGateInfo(featureGates[1..], featureGate)
  }

  /** The lookup returns the FIRST entry with the name. */
  lemma {:induction false} InfoIsFirstMatch(featureGates: seq<DeprecatedFeatureGate>, featureGate: string, i: nat)
    requires i < |featureGates| && featureGates[i].name == featureGate
    requires forall j :: 0 <= j < i ==> featureGates[j].name != featureGate
    ensures DeprecatedFeatureGateInfo(featureGates, featureGate) == Some(featureGates[i])
  {
    if i > 0 {
      InfoIsFirstMatch(featureGates[1..], featureGate, i - 1);
    }
  }

  /** The `for ... range` loop over the configured gates: whether
    * `featureGate` is one of them. */
  function Listed(configured: seq<string>, featureGate: string): (r: bool)
    ensures r <==> featureGate in configured
  {
    if configured == [] then false
    else if configured[0] == featureGate then true
    else Listed(configured[1..], featureGate)
  }

  /** `isFeatureGateEnabled`: a GA gate is on, a discontinued gate is off,
    * and any other gate is on exactly when it is configured. */
  function IsFeatureGateEnabled(featureGates: seq<DeprecatedFeatureGate>, configured: seq<string>, featureGate: string): (r: bool)
    ensures r ==> (featureGate in configured
                   || exists g :: g in featureGates && g.name == featureGate && g.state == GA)
    ensures (forall i :: 0 <= i < |featureGates| ==> featureGates[i].name != featureGate)
            ==> (r <==> featureGate in configured)
  {
    match DeprecatedFeatureGateInfo(featureGates, featureGate)
    case Some(g) =>
      if g.state == GA then true
      else if g.state == Discontinued then false
      else Listed(configured, featureGate)
    case None => Listed(configured, featureGate)
  }

  /** A gate the table marks GA is enabled whatever is configured. */
  lemma GAGateEnabled(featureGates: seq<DeprecatedFeatureGate>, configured: seq<string>, featureGate: string)
    requires DeprecatedFeatureGateInfo(featureGates, featureGate).Some?
    requires DeprecatedFeatureGateInfo(featureGates, featureGate).value.state == GA
    ensures IsFeatureGateEnabled(featureGates, configured, featureGate)
  {
  }

  /** A gate the table marks discontinued is disabled whatever is
    * configured. */
  lemma DiscontinuedGateDisabled(featureGates: seq<DeprecatedFeatureGate>, configured: seq<string>, featureGate: string)
    requires DeprecatedFeatureGateInfo(featureGates, featureGate).Some?
    requires DeprecatedFeatureGateInfo(featureGates, featureGate).value.state == Discontinued
    ensures !IsFeatureGateEnabled(featureGates, configured, featureGate)
  {
  }

  /** A gate that is deprecated, or not in the table, is enabled exactly
    * when it is configured. */
  lemma OtherGateFollowsConfig(featureGates: seq<DeprecatedFeatureGate>, configured: seq<string>, featureGate: string)
    requires DeprecatedFeatureGateInfo(featureGates, featureGate).None?
          || DeprecatedFeatureGateInfo(featureGates, featureGate).value.state == Deprecated
    ensures IsFeatureGateEnabled(featureGates, configured, featureGate) <==> featureGate in configured
  {
  }

  /** `init` changes no lookup but the message of what it returns. */
  lemma {:induction false} InfoAfterInit(featureGates: seq<DeprecatedFeatureGate>, warning: Format, featureGate: string)
    ensures DeprecatedFeatureGateInfo(WithDefaultMessages(featureGates, warning), featureGate) ==
      match DeprecatedFeatureGateInfo(featureGates, featureGate)
      case None => None
      case Some(g) => Some(WithDefaultMessage(g, warning))
  {
    if featureGates != [] {
      InfoAfterInit(featureGates[1..], warning, featureGate);
      assert WithDefaultMessages(featureGates, warning)[1..] == WithDefaultMessages(featureGates[1..], warning);
    }
  }

  /** `init` changes no gate's enabled state. */
  lemma InitKeepsDecisions(featureGates: seq<DeprecatedFeatureGate>, warning: Format, configured: seq<string>, featureGate: string)
    ensures IsFeatureGateEnabled(WithDefaultMessages(featureGates, warning), configured, featureGate)
         == IsFeatureGateEnabled(featureGates, configured, featureGate)
  {
    InfoAfterInit(featureGates, warning, featureGate);
  }

  /** The six gate names are pairwise different. */
  predicate DistinctNames(names: GateNames)
  {
    var ns := [names.liveMigration, names.sriovLiveMigration, names.nonRoot, names.psa,
               names.cpuNodeDiscovery, names.passt];
    forall i, j :: 0 <= i < j < |ns| ==> ns[i] != ns[j]
  }

  /** Distinct names make the declared entries' names pairwise different. */
  lemma DeclaredNamesDistinct(names: GateNames, j: nat, k: nat)
    requires DistinctNames(names) && j < k < 6
    ensures DeclaredGates(names)[j].name != DeclaredGates(names)[k].name
  {
    var ns := [names.liveMigration, names.sriovLiveMigration, names.nonRoot, names.psa,
               names.cpuNodeDiscovery, names.passt];
    assert ns[j] != ns[k];
  }

  /** With distinct gate names, each gate's lookup finds its own entry. */
  lemma DeclaredLookup(names: GateNames, i: nat)
    requires DistinctNames(names) && i < 6
    ensures DeprecatedFeatureGateInfo(DeclaredGates(names), DeclaredGates(names)[i].name) == Some(DeclaredGates(names)[i])
  {
    forall j | 0 <= j < i
      ensures DeclaredGates(names)[j].name != DeclaredGates(names)[i].name
    {
      DeclaredNamesDistinct(names, j, i);
    }
    InfoIsFirstMatch(DeclaredGates(names), DeclaredGates(names)[i].name, i);
  }

  /** With distinct gate names, the five GA gates of the declared table are
    * enabled whatever is configured, before `init` and after it. */
  lemma DeclaredGAGatesEnabled(names: GateNames, configured: seq<string>, i: nat)
    requires DistinctNames(names) && i < 5
    ensures IsFeatureGateEnabled(DeclaredGates(names), configured, DeclaredGates(names)[i].name)
    ensures IsFeatureGateEnabled(WithDefaultMessages(DeclaredGates(names), WarningPattern), configured,
                                 DeclaredGates(names)[i].name)
  {
    var declared := DeclaredGates(names);
    var g := declared[i];
    assert g.state == GA;
    DeclaredLookup(names, i);
    GAGateEnabled(declared, configured, g.name);
    InitKeepsDecisions(declared, WarningPattern, configured, g.name);
  }

  /** With distinct gate names, Passt is enabled exactly when configured,
    * before `init` and after it. */
  lemma DeclaredPasstFollowsConfig(names: GateNames, configured: seq<string>)
    requires DistinctNames(names)
    ensures IsFeatureGateEnabled(DeclaredGates(names), configured, names.passt) <==> names.passt in configured
    ensures IsFeatureGateEnabled(WithDefaultMessages(DeclaredGates(names), WarningPattern), configured, names.passt)
        <==> names.passt in configured
  {
    DeclaredLookup(names, 5);
    InitKeepsDecisions(DeclaredGates(names), WarningPattern, configured, names.passt);
  }

  /** After `init`, the GA gates carry the warning for their names and
    * Passt keeps its own message. */
  lemma DeclaredMessagesAfterInit(names: GateNames, i: nat)
    requires i < 6
    ensures i < 5 ==> WithDefaultMessages(DeclaredGates(names), WarningPattern)[i].message
                      == Sprintf(WarningPattern, DeclaredGates(names)[i].name)
    ensures i == 5 ==> WithDefaultMessages(DeclaredGates(names), WarningPattern)[i].message == PasstMessage
  {
    DefaultMessagesFilled(DeclaredGates(names), WarningPattern, i);
  }
}
