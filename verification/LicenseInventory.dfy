/** The dependency license inventory: its builder, its independently written validator, and when they agree. */
module LicenseInventory {
  import opened Bytes
  import opened Ordering

  const MAXIMUM_EXPRESSION := 512
  const MAXIMUM_FIELD := 100
  const LINE_FEED := 10
  const CARRIAGE_RETURN := 13

  datatype Kind = PythonDistInfoMetadata | NpmInstalledPackageJson | CargoRegistryManifest | OtherKind(text: Text)
  datatype Source = Source(kind: Kind, identity: Text, sha256: Text, field: Text)
  datatype Observation = Observation(expression: Text, source: Source)
  datatype Component = Component(bomRef: Text, coordinate: Text, ecosystem: Text, name: Text, version: Text, project: bool)

  datatype Scope = ProjectComponent | ThirdParty
  datatype Status = ProjectPolicySeparate | DeclaredLocalMetadata | NoassertionNoLocalMetadata
                  | NoassertionConflictingLocalMetadata
  datatype Package = Package(bomRef: Text, coordinate: Text, ecosystem: Text, name: Text, version: Text, scope: Scope,
                             expression: Option<Text>, status: Status, sources: seq<Source>, conflicting: seq<Text>)
  datatype Summary = Summary(packages: nat, project: nat, thirdParty: nat, declared: nat, noassertion: nat,
                             conflicting: nat, matchedSources: nat)
  datatype Inventory = Inventory(packages: seq<Package>, summary: Summary)

  /** The part of a source that counts as one matched local file. */
  type Matched = (Kind, Text, Text)

  function MatchOf(s: Source): Matched { (s.kind, s.identity, s.sha256) }

  // ---- what both loops ought to compute ----------------------------------------------------

  function CountStatus(packages: seq<Package>, status: Status): nat {
    if packages == [] then 0
    else CountStatus(packages[..|packages| - 1], status) + if packages[|packages| - 1].status == status then 1 else 0
  }

  function CountProject(components: seq<Component>): nat {
    if components == [] then 0
    else CountProject(components[..|components| - 1]) + if components[|components| - 1].project then 1 else 0
  }

  function MatchedIn(sources: seq<Source>): set<Matched> {
    set i | 0 <= i < |sources| :: MatchOf(sources[i])
  }

  function AllMatched(packages: seq<Package>): set<Matched> {
    if packages == [] then {} else AllMatched(packages[..|packages| - 1]) + MatchedIn(packages[|packages| - 1].sources)
  }

  function SummaryOf(components: seq<Component>, packages: seq<Package>): Summary
    requires CountProject(components) <= |components|
  {
    var conflicting := CountStatus(packages, NoassertionConflictingLocalMetadata);
    Summary(|components|, CountProject(components), |components| - CountProject(components),
            CountStatus(packages, DeclaredLocalMetadata),
            CountStatus(packages, NoassertionNoLocalMetadata) + conflicting, conflicting, |AllMatched(packages)|)
  }

  // ---- the builder -------------------------------------------------------------------------

  function Expressions(observations: seq<Observation>): seq<Text> {
    seq(|observations|, i requires 0 <= i < |observations| => observations[i].expression)
  }

  function Sources(observations: seq<Observation>): seq<Source> {
    seq(|observations|, i requires 0 <= i < |observations| => observations[i].source)
  }

  /** One inventory entry: a single declaration is kept, a conflict or an absence is left unasserted. */
  function PackageOf(c: Component, observations: seq<Observation>): Package {
    var expressions := SortedSet(Expressions(observations));
    var blank := Package(c.bomRef, c.coordinate, c.ecosystem, c.name, c.version, ThirdParty, None,
                         NoassertionNoLocalMetadata, Sources(observations), []);
    if c.project then blank.(scope := ProjectComponent, status := ProjectPolicySeparate, sources := [])
    else if |expressions| == 1 then blank.(expression := Some(expressions[0]), status := DeclaredLocalMetadata)
    else if |expressions| > 1 then
      blank.(status := NoassertionConflictingLocalMetadata, conflicting := expressions)
    else blank
  }

  type Lookup = map<(Text, Text, Text), seq<Observation>>

  const PYPI: Text := [80, 121, 80, 73]

  /** The observations of a component under its normalised coordinate. */
  function Observed(c: Component, local: Lookup, normalize: Text -> Text): seq<Observation> {
    var key := (c.ecosystem, if c.ecosystem == PYPI then normalize(c.name) else c.name, c.version);
    if key in local then local[key] else []
  }

  function PackagesOf(components: seq<Component>, local: Lookup, normalize: Text -> Text): (packages: seq<Package>)
    ensures |packages| == |components|
  {
    seq(|components|, i requires 0 <= i < |components| =>
          PackageOf(components[i], Observed(components[i], local, normalize)))
  }

  /** build_dependency_license_inventory, the lock file components and local observations being given. */
  method BuildInventory(components: seq<Component>, local: Lookup, normalize: Text -> Text) returns (inventory: Inventory)
    ensures inventory.packages == PackagesOf(components, local, normalize)
    ensures CountProject(components) <= |components|
    ensures inventory.summary == SummaryOf(components, inventory.packages)
  {
    hide CountStatus, AllMatched, MatchedIn, SortedSet, Expressions, Sources, Observed, CountProject;
    var entries: seq<Package> := [];
    var declared, noassertion, conflicting: nat := 0, 0, 0;
    var matched: set<Matched> := {};
    var thirdParty := CountThirdParty(components);
    ghost var all := PackagesOf(components, local, normalize);
    NothingCounted();
    for k := 0 to |components|
      invariant entries == all[..k]
      invariant declared == CountStatus(all[..k], DeclaredLocalMetadata)
      invariant conflicting == CountStatus(all[..k], NoassertionConflictingLocalMetadata)
      invariant noassertion == CountStatus(all[..k], NoassertionNoLocalMetadata) + conflicting
      invariant matched == AllMatched(all[..k])
    {
      var c := components[k];
      var observations := Observed(c, local, normalize);
      var expressions := SortedSet(Expressions(observations));
      var entry := Package(c.bomRef, c.coordinate, c.ecosystem, c.name, c.version, ThirdParty, None,
                           NoassertionNoLocalMetadata, Sources(observations), []);
      CountedNext(all, k);
      if !c.project {
        matched := matched + MatchedIn(Sources(observations));
      }
      if c.project {
        entry := entry.(scope := ProjectComponent, status := ProjectPolicySeparate, sources := []);
        assert MatchedIn([]) == {} by { NothingCounted(); }
      } else if |expressions| == 1 {
        entry := entry.(expression := Some(expressions[0]), status := DeclaredLocalMetadata);
        declared := declared + 1;
      } else if |expressions| > 1 {
        entry := entry.(status := NoassertionConflictingLocalMetadata, conflicting := expressions);
        noassertion, conflicting := noassertion + 1, conflicting + 1;
      } else {
        noassertion := noassertion + 1;
      }
      assert entry == all[k];
      entries := entries + [entry];
    }
    assert all[..|components|] == all;
    inventory := Inventory(entries, Summary(|components|, |components| - thirdParty, thirdParty, declared, noassertion,
                                            conflicting, |matched|));
  }

  method CountThirdParty(components: seq<Component>) returns (thirdParty: nat)
    ensures CountProject(components) <= |components| && thirdParty == |components| - CountProject(components)
  {
    thirdParty := 0;
    for k := 0 to |components|
      invariant CountProject(components[..k]) <= k && thirdParty == k - CountProject(components[..k])
    {
      assert components[..k + 1][..k] == components[..k];
      if !components[k].project { thirdParty := thirdParty + 1; }
    }
    assert components[..|components|] == components;
  }

  lemma NothingCounted()
    ensures forall status :: CountStatus([], status) == 0
    ensures AllMatched([]) == {} && MatchedIn([]) == {}
  {
  }

  lemma ProjectsNext(components: seq<Component>, k: nat)
    requires k < |components|
    ensures CountProject(components[..k + 1]) == CountProject(components[..k]) + if components[k].project then 1 else 0
  {
    assert components[..k + 1][..k] == components[..k];
  }

  lemma CountedNext(packages: seq<Package>, k: nat)
    requires k < |packages|
    ensures forall status :: CountStatus(packages[..k + 1], status)
                          == CountStatus(packages[..k], status) + if packages[k].status == status then 1 else 0
    ensures AllMatched(packages[..k + 1]) == AllMatched(packages[..k]) + MatchedIn(packages[k].sources)
  {
    assert packages[..k + 1][..k] == packages[..k];
  }

  // ---- the validator -----------------------------------------------------------------------

  predicate OneLine(t: Text) { LINE_FEED !in t && CARRIAGE_RETURN !in t }

  /** A ".." between slashes or ends. */
  predicate ClimbsUp(t: Text) {
    exists i :: 0 <= i < |t| - 1 && t[i] == 46 && t[i + 1] == 46 && (i == 0 || t[i - 1] == 47)
                && (i + 2 == |t| || t[i + 2] == 47)
  }

  predicate LowerHex(t: Text) {
    |t| == 64 && forall i :: 0 <= i < 64 ==> 48 <= t[i] <= 57 || 97 <= t[i] <= 102
  }

  predicate SourceAllowed(s: Source) {
    !s.kind.OtherKind? && s.identity != [] && OneLine(s.identity) && s.identity[0] != 47 && !ClimbsUp(s.identity)
    && LowerHex(s.sha256) && 0 < |s.field| <= MAXIMUM_FIELD
  }

  predicate SourcesDistinct(sources: seq<Source>) {
    forall i, j :: 0 <= i < j < |sources| ==> sources[i] != sources[j]
  }

  predicate IdentityMatches(c: Component, p: Package) {
    p.bomRef == c.bomRef && p.coordinate == c.coordinate && p.ecosystem == c.ecosystem && p.name == c.name
    && p.version == c.version
  }

  predicate EvidenceFits(c: Component, p: Package) {
    if c.project then
      p.scope == ProjectComponent && p.status == ProjectPolicySeparate && p.expression == None
      && p.sources == [] && p.conflicting == []
    else
      p.scope == ThirdParty
      && match p.status
         case DeclaredLocalMetadata =>
           p.expression.Some? && 0 < |p.expression.value| <= MAXIMUM_EXPRESSION && OneLine(p.expression.value)
           && p.sources != [] && p.conflicting == []
         case NoassertionNoLocalMetadata => p.expression == None && p.sources == [] && p.conflicting == []
         case NoassertionConflictingLocalMetadata =>
           p.expression == None && |p.sources| >= 2 && |p.conflicting| >= 2 && p.conflicting == SortedSet(p.conflicting)
           && forall i :: 0 <= i < |p.conflicting| ==> 0 < |p.conflicting[i]| <= MAXIMUM_EXPRESSION
         case ProjectPolicySeparate => false
  }

  predicate PackageValid(c: Component, p: Package) {
    IdentityMatches(c, p) && (forall i :: 0 <= i < |p.sources| ==> SourceAllowed(p.sources[i]))
    && SourcesDistinct(p.sources) && EvidenceFits(c, p)
  }

  /** What the validator demands of an inventory for these components. */
  predicate Valid(components: seq<Component>, inventory: Inventory) {
    |inventory.packages| == |components| && CountProject(components) <= |components|
    && (forall i :: 0 <= i < |components| ==> PackageValid(components[i], inventory.packages[i]))
    && inventory.summary == SummaryOf(components, inventory.packages)
  }

  /** What the source loop has gathered from the first i sources. */
  ghost predicate Gathered(sources: seq<Source>, i: nat, keys: set<Source>, matched: set<Matched>) {
    i <= |sources| && (forall j :: 0 <= j < i ==> SourceAllowed(sources[j]))
    && keys == (set j | 0 <= j < i :: sources[j]) && |keys| <= i
    && matched == (set j | 0 <= j < i :: MatchOf(sources[j]))
    && (|keys| == i <==> SourcesDistinct(sources[..i]))
  }

  lemma GatheredNext(sources: seq<Source>, i: nat, keys: set<Source>, matched: set<Matched>)
    requires Gathered(sources, i, keys, matched) && i < |sources| && SourceAllowed(sources[i])
    ensures Gathered(sources, i + 1, keys + {sources[i]}, matched + {MatchOf(sources[i])})
  {
    hide SourceAllowed, MatchOf;
    DistinctNext(sources, i);
  }

  /** The source loop: every source is checked, gathered as a key and as a matched file. */
  method CheckSources(sources: seq<Source>) returns (ok: bool, matched: set<Matched>)
    ensures ok <==> (forall i :: 0 <= i < |sources| ==> SourceAllowed(sources[i])) && SourcesDistinct(sources)
    ensures ok ==> matched == MatchedIn(sources)
  {
    hide SourceAllowed, MatchOf;
    var keys: set<Source> := {};
    matched := {};
    for i := 0 to |sources|
      invariant Gathered(sources, i, keys, matched)
    {
      if !SourceAllowed(sources[i]) { return false, {}; }
      GatheredNext(sources, i, keys, matched);
      keys := keys + {sources[i]};
      matched := matched + {MatchOf(sources[i])};
    }
    assert sources[..|sources|] == sources;
    ok := |keys| == |sources|;
  }

  lemma DistinctNext(sources: seq<Source>, i: nat)
    requires i < |sources|
    ensures SourcesDistinct(sources[..i + 1])
       <==> SourcesDistinct(sources[..i]) && sources[i] !in (set j | 0 <= j < i :: sources[j])
  {
    var longer := sources[..i + 1];
    if SourcesDistinct(longer) {
      assert forall j :: 0 <= j < i ==> longer[j] == sources[j] && longer[i] == sources[i];
    }
  }

  /** One package against its component. */
  method CheckPackage(c: Component, p: Package) returns (ok: bool, found: set<Matched>)
    ensures ok <==> PackageValid(c, p)
    ensures ok ==> found == MatchedIn(p.sources)
  {
    hide IdentityMatches, EvidenceFits, SourceAllowed, SourcesDistinct, MatchedIn;
    if !IdentityMatches(c, p) { return false, {}; }
    var sourcesOk, matched := CheckSources(p.sources);
    if !sourcesOk || !EvidenceFits(c, p) { return false, {}; }
    ok, found := true, matched;
  }

  /** What the validator's loop has counted over the first k packages. */
  ghost predicate Tallied(components: seq<Component>, packages: seq<Package>, k: nat, projects: nat, declared: nat,
                          noassertion: nat, conflicting: nat, matched: set<Matched>)
  {
    k <= |packages| == |components|
    && projects == CountProject(components[..k]) <= k
    && declared == CountStatus(packages[..k], DeclaredLocalMetadata)
    && conflicting == CountStatus(packages[..k], NoassertionConflictingLocalMetadata)
    && noassertion == CountStatus(packages[..k], NoassertionNoLocalMetadata) + conflicting
    && matched == AllMatched(packages[..k])
  }

  lemma NothingTallied(components: seq<Component>, packages: seq<Package>)
    requires |components| == |packages|
    ensures Tallied(components, packages, 0, 0, 0, 0, 0, {})
  {
  }

  function One(b: bool): nat { if b then 1 else 0 }

  lemma TalliedNext(components: seq<Component>, packages: seq<Package>, k: nat, projects: nat, declared: nat,
                    noassertion: nat, conflicting: nat, matched: set<Matched>)
    requires Tallied(components, packages, k, projects, declared, noassertion, conflicting, matched) && k < |packages|
    ensures var status := packages[k].status;
            Tallied(components, packages, k + 1, projects + One(components[k].project),
                    declared + One(status == DeclaredLocalMetadata),
                    noassertion + One(status == NoassertionNoLocalMetadata
                                      || status == NoassertionConflictingLocalMetadata),
                    conflicting + One(status == NoassertionConflictingLocalMetadata),
                    matched + MatchedIn(packages[k].sources))
  {
    hide CountStatus, AllMatched, MatchedIn, CountProject;
    CountedNext(packages, k);
    ProjectsNext(components, k);
  }

  lemma AllTallied(components: seq<Component>, packages: seq<Package>, projects: nat, declared: nat,
                   noassertion: nat, conflicting: nat, matched: set<Matched>)
    requires |components| == |packages|
    requires Tallied(components, packages, |components|, projects, declared, noassertion, conflicting, matched)
    ensures projects == CountProject(components) <= |components|
    ensures SummaryOf(components, packages)
         == Summary(|components|, projects, |components| - projects, declared, noassertion, conflicting, |matched|)
  {
    assert packages[..|components|] == packages && components[..|components|] == components;
    hide CountStatus, AllMatched, CountProject;
  }

  /** _validate_dependency_license_inventory, after the schema and input checks. */
  method ValidateInventory(components: seq<Component>, inventory: Inventory) returns (ok: bool)
    ensures ok <==> Valid(components, inventory)
  {
    var packages := inventory.packages;
    if |packages| != |components| { return false; }
    NothingTallied(components, packages);
    hide Tallied, PackageValid, SummaryOf, CountProject, MatchedIn;
    var projects, declared, noassertion, conflicting: nat := 0, 0, 0, 0;
    var matched: set<Matched> := {};
    for k := 0 to |components|
      invariant forall i :: 0 <= i < k ==> PackageValid(components[i], packages[i])
      invariant Tallied(components, packages, k, projects, declared, noassertion, conflicting, matched)
    {
      var fits, found := CheckPackage(components[k], packages[k]);
      if !fits { return false; }
      TalliedNext(components, packages, k, projects, declared, noassertion, conflicting, matched);
      matched := matched + found;
      if components[k].project { projects := projects + 1; }
      match packages[k].status {
        case DeclaredLocalMetadata => declared := declared + 1;
        case NoassertionNoLocalMetadata => noassertion := noassertion + 1;
        case NoassertionConflictingLocalMetadata => noassertion, conflicting := noassertion + 1, conflicting + 1;
        case ProjectPolicySeparate =>
      }
    }
    AllTallied(components, packages, projects, declared, noassertion, conflicting, matched);
    ok := inventory.summary == Summary(|components|, projects, |components| - projects, declared, noassertion,
                                       conflicting, |matched|);
  }

  // ---- when the validator accepts the builder ----------------------------------------------

  /** What every collector has already ensured of an observation before it is appended: its expression is normalised. */
  predicate Normalised(o: Observation) {
    0 < |o.expression| <= MAXIMUM_EXPRESSION && OneLine(o.expression)
  }

  predicate AllNormalised(local: Lookup) {
    forall key :: key in local ==> forall i :: 0 <= i < |local[key]| ==> Normalised(local[key][i])
  }

  predicate AllAllowed(sources: seq<Source>) {
    forall i :: 0 <= i < |sources| ==> SourceAllowed(sources[i])
  }

  predicate Acceptable(sources: seq<Source>) { AllAllowed(sources) && SourcesDistinct(sources) }

  /** No third-party package has a source that is not allowed, or the same source twice. */
  predicate SourcesAcceptablePerPackage(components: seq<Component>, local: Lookup, normalize: Text -> Text) {
    forall i :: 0 <= i < |components| && !components[i].project ==>
      Acceptable(Sources(Observed(components[i], local, normalize)))
  }

  lemma SortedSetSettles(s: seq<Text>)
    ensures SortedSet(SortedSet(s)) == SortedSet(s)
  {
    IncreasingIsUnique(SortedSet(SortedSet(s)), SortedSet(s));
  }

  lemma ConflictNeedsTwo(observations: seq<Observation>)
    requires |SortedSet(Expressions(observations))| >= 2
    ensures |observations| >= 2
  {
    var texts := SortedSet(Expressions(observations));
    LessTotal(texts[0], texts[0]);
    assert texts[0] != texts[1];
    assert texts[0] in Expressions(observations) && texts[1] in Expressions(observations);
  }

  lemma NoExpressionNoObservation(observations: seq<Observation>)
    ensures SortedSet(Expressions(observations)) == [] <==> observations == []
  {
    if observations != [] {
      assert Expressions(observations)[0] in SortedSet(Expressions(observations));
    }
  }

  lemma BuiltPackageValid(c: Component, observations: seq<Observation>)
    requires forall i :: 0 <= i < |observations| ==> Normalised(observations[i])
    ensures PackageValid(c, PackageOf(c, observations)) <==> c.project || Acceptable(Sources(observations))
  {
    hide SortedSet, SourceAllowed;
    var expressions := SortedSet(Expressions(observations));
    NoExpressionNoObservation(observations);
    SortedSetSettles(Expressions(observations));
    forall i | 0 <= i < |expressions| ensures 0 < |expressions[i]| <= MAXIMUM_EXPRESSION && OneLine(expressions[i]) {
      assert expressions[i] in Expressions(observations);
    }
    if |expressions| >= 2 { ConflictNeedsTwo(observations); }
  }

  /**
   * Whatever the lock files and the local metadata, the validator accepts what the builder makes
   * exactly when every third-party package lists only allowed sources, and none of them twice.
   */
  lemma BuilderAcceptedIffSourcesAcceptable(components: seq<Component>, local: Lookup, normalize: Text -> Text,
                                            inventory: Inventory)
    requires AllNormalised(local)
    requires inventory.packages == PackagesOf(components, local, normalize)
    requires CountProject(components) <= |components| && inventory.summary == SummaryOf(components, inventory.packages)
    ensures Valid(components, inventory) <==> SourcesAcceptablePerPackage(components, local, normalize)
  {
    hide PackageValid, Acceptable, SummaryOf, PackageOf, Normalised;
    forall i | 0 <= i < |components|
      ensures PackageValid(components[i], inventory.packages[i])
         <==> components[i].project || Acceptable(Sources(Observed(components[i], local, normalize)))
    {
      BuiltPackageValid(components[i], Observed(components[i], local, normalize));
    }
  }

  /** The same observations of every package, in any order. */
  ghost predicate Reordered(collected: Lookup, local: Lookup) {
    local.Keys == collected.Keys && forall key :: key in local ==> multiset(local[key]) == multiset(collected[key])
  }

  predicate OneOfEach(observations: seq<Observation>) {
    && (forall o :: o in observations ==> multiset(observations)[o] == 1)
    && (forall o, p :: o in observations && p in observations && o != p ==> o.source != p.source)
  }

  lemma {:induction false} DistinctByMultiset(a: seq<Observation>)
    ensures SourcesDistinct(Sources(a)) <==> OneOfEach(a)
  {
    if a != [] {
      var k := |a| - 1;
      var init, last := a[..k], a[k];
      assert a == init + [last];
      DistinctByMultiset(init);
      LastSourceIsNew(init, last);
      LastIsNew(init, last);
      hide Sources, SourcesDistinct, OneOfEach;
    }
  }

  lemma LastSourceIsNew(init: seq<Observation>, last: Observation)
    ensures SourcesDistinct(Sources(init + [last]))
       <==> SourcesDistinct(Sources(init)) && last.source !in Sources(init)
  {
    var s, t := Sources(init), Sources(init + [last]);
    assert t == s + [last.source];
    assert forall i :: 0 <= i < |s| ==> t[i] == s[i];
    if last.source in s {
      var i :| 0 <= i < |s| && s[i] == last.source;
      assert t[i] == t[|s|];
    }
  }

  lemma LastIsNew(init: seq<Observation>, last: Observation)
    ensures OneOfEach(init + [last]) <==> OneOfEach(init) && last.source !in Sources(init)
  {
    var a := init + [last];
    assert forall o :: multiset(a)[o] == multiset(init)[o] + if o == last then 1 else 0;
    assert forall o :: o in init ==> o in a && multiset(init)[o] >= 1;
    if last.source in Sources(init) {
      var i :| 0 <= i < |init| && Sources(init)[i] == last.source;
      assert init[i] in a && last in a;
    } else {
      forall o | o in init ensures o.source != last.source {
        var i :| 0 <= i < |init| && init[i] == o;
        assert Sources(init)[i] == o.source;
      }
    }
  }

  lemma {:induction false} AcceptableInAnyOrder(a: seq<Observation>, b: seq<Observation>)
    requires multiset(a) == multiset(b)
    ensures Acceptable(Sources(a)) <==> Acceptable(Sources(b))
  {
    hide SourceAllowed;
    DistinctByMultiset(a);
    DistinctByMultiset(b);
    SameMembers(a, b);
    SameMembers(b, a);
    AllowedByMembers(a);
    AllowedByMembers(b);
    hide Sources, SourcesDistinct, AllAllowed;
  }

  lemma SameMembers(a: seq<Observation>, b: seq<Observation>)
    requires multiset(a) == multiset(b)
    ensures forall o :: o in a ==> o in b
  {
    forall o | o in a ensures o in b {
      assert o in multiset(a);
    }
  }

  lemma AllowedByMembers(a: seq<Observation>)
    ensures AllAllowed(Sources(a)) <==> forall o :: o in a ==> SourceAllowed(o.source)
  {
    hide SourceAllowed;
    if AllAllowed(Sources(a)) {
      forall o | o in a ensures SourceAllowed(o.source) {
        var i :| 0 <= i < |a| && a[i] == o;
        assert Sources(a)[i] == o.source;
      }
    }
  }

  /** Acceptance does not depend on the order in which a package's observations are listed. */
  lemma {:induction false} AcceptedInAnyOrder(components: seq<Component>, collected: Lookup, local: Lookup, normalize: Text -> Text,
                           inventory: Inventory, inventory': Inventory)
    requires AllNormalised(collected) && AllNormalised(local) && Reordered(collected, local)
    requires CountProject(components) <= |components|
    requires inventory.packages == PackagesOf(components, collected, normalize)
    requires inventory.summary == SummaryOf(components, inventory.packages)
    requires inventory'.packages == PackagesOf(components, local, normalize)
    requires inventory'.summary == SummaryOf(components, inventory'.packages)
    ensures Valid(components, inventory) <==> Valid(components, inventory')
  {
    BuilderAcceptedIffSourcesAcceptable(components, collected, normalize, inventory);
    BuilderAcceptedIffSourcesAcceptable(components, local, normalize, inventory');
    hide Valid, Acceptable, SummaryOf, AllNormalised;
    forall i | 0 <= i < |components|
      ensures Acceptable(Sources(Observed(components[i], collected, normalize)))
         <==> Acceptable(Sources(Observed(components[i], local, normalize)))
    {
      AcceptableInAnyOrder(Observed(components[i], collected, normalize), Observed(components[i], local, normalize));
    }
  }

  /** The reported totals add up in every inventory that the builder makes. */
  lemma {:induction false} TotalsAddUp(components: seq<Component>, local: Lookup, normalize: Text -> Text,
                                       packages: seq<Package>)
    requires packages == PackagesOf(components, local, normalize)
    ensures CountProject(components) <= |components|
    ensures var s := SummaryOf(components, packages);
      s.project + s.thirdParty == s.packages && s.declared + s.noassertion == s.thirdParty
      && s.conflicting <= s.noassertion
  {
    hide PackageOf, Observed, AllMatched;
    if components != [] {
      var k := |components| - 1;
      assert packages[..k] == PackagesOf(components[..k], local, normalize);
      TotalsAddUp(components[..k], local, normalize, packages[..k]);
      StatusOf(components[k], Observed(components[k], local, normalize));
    }
  }

  /** A project component has the project's status, a third-party one any other. */
  lemma StatusOf(c: Component, observations: seq<Observation>)
    ensures PackageOf(c, observations).status == ProjectPolicySeparate <==> c.project
  {
    hide SortedSet, Expressions, Sources;
  }
}
