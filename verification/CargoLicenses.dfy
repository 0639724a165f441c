/** The Cargo collector of license observations, and what its way of naming a manifest means for the inventory. */
module CargoLicenses {
  import opened Bytes
  import opened Ordering
  import opened LicenseInventory

  const CRATES_IO: Text := [99, 114, 97, 116, 101, 115, 46, 105, 111]
  const IDENTITY_PREFIX: Text := [99, 97, 114, 103, 111, 45, 114, 101, 103, 105, 115, 116, 114, 121, 58]       // cargo-registry:
  const IDENTITY_SUFFIX: Text := [47, 67, 97, 114, 103, 111, 46, 116, 111, 109, 108, 46, 111, 114, 105, 103]   // /Cargo.toml.orig
  const LICENSE_FIELD: Text := [112, 97, 99, 107, 97, 103, 101, 46, 108, 105, 99, 101, 110, 115, 101]          // package.license

  /** What a usable manifest declares. */
  datatype Crate = Crate(name: Text, version: Text, license: Text)

  /** One registry/src/<registry>/<directory>/Cargo.toml.orig; nothing declared if it could not be used. */
  datatype Manifest = Manifest(registry: Text, directory: Text, sha256: Text, declared: Option<Crate>)

  /** What a path component, a digest and a normalised license are. */
  predicate Found(m: Manifest) {
    m.directory != [] && 47 !in m.directory && LowerHex(m.sha256)
    && (m.declared.Some? ==>
          0 < |m.declared.value.license| <= MAXIMUM_EXPRESSION && OneLine(m.declared.value.license))
  }

  /** A listing has every path once. */
  predicate PathsDistinct(manifests: seq<Manifest>) {
    forall i, j :: 0 <= i < j < |manifests| ==>
      manifests[i].registry != manifests[j].registry || manifests[i].directory != manifests[j].directory
  }

  /** The identity that is kept names the directory of the crate and not the registry it lies in. */
  function SourceOf(m: Manifest): Source {
    Source(CargoRegistryManifest, IDENTITY_PREFIX + m.directory + IDENTITY_SUFFIX, m.sha256, LICENSE_FIELD)
  }

  function ObservationOf(m: Manifest): Observation
    requires m.declared.Some?
  {
    Observation(m.declared.value.license, SourceOf(m))
  }

  function KeyOf(c: Crate): (Text, Text, Text) { (CRATES_IO, c.name, c.version) }

  /** The manifests that declare one crate, in the order of the listing. */
  function Declaring(manifests: seq<Manifest>, key: (Text, Text, Text)): (found: seq<Manifest>)
    ensures forall m :: m in found ==> m in manifests && m.declared.Some? && KeyOf(m.declared.value) == key
  {
    if manifests == [] then []
    else
      var last := manifests[|manifests| - 1];
      Declaring(manifests[..|manifests| - 1], key)
      + if last.declared.Some? && KeyOf(last.declared.value) == key then [last] else []
  }

  function ObservationsOf(manifests: seq<Manifest>): seq<Observation>
    requires forall m :: m in manifests ==> m.declared.Some?
  {
    seq(|manifests|, i requires 0 <= i < |manifests| => ObservationOf(manifests[i]))
  }

  /** A collection holds, for every crate that is declared at all, its observations in order. */
  ghost predicate Collects(local: Lookup, manifests: seq<Manifest>) {
    forall key ::
      var found := Declaring(manifests, key);
      (key in local <==> found != []) && (key in local ==> local[key] == ObservationsOf(found))
  }

  /** _collect_cargo_license_observations, the manifests being read. */
  method CollectCargo(manifests: seq<Manifest>) returns (local: Lookup)
    ensures Collects(local, manifests)
  {
    local := map[];
    for k := 0 to |manifests|
      invariant Collects(local, manifests[..k])
    {
      var m := manifests[k];
      ghost var before := local;
      if m.declared.Some? {
        var key := KeyOf(m.declared.value);
        var earlier := if key in local then local[key] else [];
        local := local[key := earlier + [ObservationOf(m)]];
      }
      OneMore(before, local, manifests, k);
    }
    assert manifests[..|manifests|] == manifests;
  }

  lemma OneMore(before: Lookup, after: Lookup, manifests: seq<Manifest>, k: nat)
    requires k < |manifests| && Collects(before, manifests[..k])
    requires var m := manifests[k];
      after == if m.declared.None? then before
               else
                 var key := KeyOf(m.declared.value);
                 before[key := (if key in before then before[key] else []) + [ObservationOf(m)]]
    ensures Collects(after, manifests[..k + 1])
  {
    hide KeyOf, SourceOf;
    assert manifests[..k + 1][..k] == manifests[..k];
    forall key
      ensures var found := Declaring(manifests[..k + 1], key);
        (key in after <==> found != []) && (key in after ==> after[key] == ObservationsOf(found))
    {
      var earlier := Declaring(manifests[..k], key);
      var m := manifests[k];
      if m.declared.Some? && KeyOf(m.declared.value) == key {
        assert ObservationsOf(earlier + [m]) == ObservationsOf(earlier) + [ObservationOf(m)];
        assert earlier == [] ==> ObservationsOf(earlier) == [];
      } else {
        assert earlier + [] == earlier;
      }
    }
  }

  /** Two manifests are one source exactly if directory name and digest agree, wherever they lie. */
  lemma SameSourceIff(a: Manifest, b: Manifest)
    ensures SourceOf(a) == SourceOf(b) <==> a.directory == b.directory && a.sha256 == b.sha256
  {
    var x, y := SourceOf(a).identity, SourceOf(b).identity;
    if x == y {
      assert |a.directory| == |b.directory|;
      assert x[|IDENTITY_PREFIX|..|IDENTITY_PREFIX| + |a.directory|] == a.directory;
      assert y[|IDENTITY_PREFIX|..|IDENTITY_PREFIX| + |b.directory|] == b.directory;
    }
  }

  lemma StaysBelow(m: Manifest)
    requires Found(m)
    ensures !ClimbsUp(SourceOf(m).identity) && SourceOf(m).identity[0] != 47
  {
    var identity := SourceOf(m).identity;
    var n, d := |IDENTITY_PREFIX|, |m.directory|;
    assert forall i :: 0 <= i < d ==> identity[n + i] == m.directory[i];
    assert forall i :: 0 <= i < n ==> identity[i] == IDENTITY_PREFIX[i];
    assert forall i :: n + d <= i < |identity| ==> identity[i] == IDENTITY_SUFFIX[i - n - d];
    assert forall i :: 0 <= i < n + d ==> identity[i] != 47;
  }

  lemma BrokenIff(m: Manifest)
    ensures OneLine(SourceOf(m).identity) <==> OneLine(m.directory)
  {
    assert OneLine(IDENTITY_PREFIX) && OneLine(IDENTITY_SUFFIX);
    OneLineAppend(IDENTITY_PREFIX, m.directory);
    OneLineAppend(IDENTITY_PREFIX + m.directory, IDENTITY_SUFFIX);
    hide OneLine;
  }

  lemma OneLineAppend(a: Text, b: Text)
    ensures OneLine(a + b) <==> OneLine(a) && OneLine(b)
  {
  }

  /** Such a source is allowed exactly if the directory name has no line break. */
  lemma AllowedIff(m: Manifest)
    requires Found(m)
    ensures SourceAllowed(SourceOf(m)) <==> OneLine(m.directory)
  {
    StaysBelow(m);
    BrokenIff(m);
    hide ClimbsUp, OneLine, LowerHex;
    assert |SourceOf(m).identity| > 0 && |LICENSE_FIELD| == 15;
  }

  /** Every manifest of this crate lies in a directory with a one-line name, and no two agree in name and content. */
  predicate Unambiguous(manifests: seq<Manifest>, key: (Text, Text, Text)) {
    var found := Declaring(manifests, key);
    && (forall m :: m in found ==> OneLine(m.directory))
    && (forall i, j :: 0 <= i < j < |found| ==>
          found[i].directory != found[j].directory || found[i].sha256 != found[j].sha256)
  }

  lemma AcceptableIffUnambiguous(manifests: seq<Manifest>, key: (Text, Text, Text))
    requires forall m :: m in manifests ==> Found(m)
    ensures Acceptable(Sources(ObservationsOf(Declaring(manifests, key)))) <==> Unambiguous(manifests, key)
  {
    hide Found, SourceAllowed, SourceOf, KeyOf, OneLine;
    var found := Declaring(manifests, key);
    var sources := Sources(ObservationsOf(found));
    assert |sources| == |found| && forall i :: 0 <= i < |found| ==> sources[i] == SourceOf(found[i]);
    forall a, b
      ensures SourceOf(a) == SourceOf(b) <==> a.directory == b.directory && a.sha256 == b.sha256
    {
      SameSourceIff(a, b);
    }
    forall m | m in found
      ensures SourceAllowed(SourceOf(m)) <==> OneLine(m.directory)
    {
      AllowedIff(m);
    }
  }

  /** The collection from distinct manifest files alone, each crate's observations in whatever order, makes an inventory
    * that the validator accepts exactly if no third-party crate has two manifests with one directory name and one
    * content - which then lie in two registries - or a directory name with a line break. */
  lemma {:induction false} CargoInventoryAcceptedIff(components: seq<Component>, manifests: seq<Manifest>, collected: Lookup, local: Lookup,
                                  normalize: Text -> Text, inventory: Inventory)
    requires (forall m :: m in manifests ==> Found(m)) && Collects(collected, manifests) && Reordered(collected, local)
    requires inventory.packages == PackagesOf(components, local, normalize)
    requires CountProject(components) <= |components| && inventory.summary == SummaryOf(components, inventory.packages)
    ensures Valid(components, inventory)
       <==> forall i :: 0 <= i < |components| && !components[i].project && components[i].ecosystem == CRATES_IO ==>
              Unambiguous(manifests, (CRATES_IO, components[i].name, components[i].version))
  {
    AllFoundNormalised(manifests, collected, local);
    BuilderAcceptedIffSourcesAcceptable(components, local, normalize, inventory);
    hide Valid, Acceptable, Unambiguous, SummaryOf, AllNormalised, Found, Collects;
    forall i | 0 <= i < |components| && !components[i].project
      ensures Acceptable(Sources(Observed(components[i], local, normalize)))
         <==> (components[i].ecosystem == CRATES_IO ==>
                 Unambiguous(manifests, (CRATES_IO, components[i].name, components[i].version)))
    {
      ObservedFromCargo(components[i], manifests, collected, normalize);
      AcceptableInAnyOrder(Observed(components[i], collected, normalize), Observed(components[i], local, normalize));
    }
  }

  lemma AllFoundNormalised(manifests: seq<Manifest>, collected: Lookup, local: Lookup)
    requires (forall m :: m in manifests ==> Found(m)) && Collects(collected, manifests) && Reordered(collected, local)
    ensures AllNormalised(local)
  {
    forall key | key in local
      ensures forall i :: 0 <= i < |local[key]| ==> Normalised(local[key][i])
    {
      assert collected[key] == ObservationsOf(Declaring(manifests, key));
      SameMembers(local[key], collected[key]);
      assert forall i :: 0 <= i < |local[key]| ==> local[key][i] in local[key];
    }
  }

  lemma DeclaredOnCratesIo(manifests: seq<Manifest>, key: (Text, Text, Text))
    ensures Declaring(manifests, key) != [] ==> key.0 == CRATES_IO
  {
    var found := Declaring(manifests, key);
    if found != [] {
      assert found[0] in found;
    }
  }

  lemma ObservedFromCargo(c: Component, manifests: seq<Manifest>, local: Lookup, normalize: Text -> Text)
    requires (forall m :: m in manifests ==> Found(m)) && Collects(local, manifests)
    ensures Acceptable(Sources(Observed(c, local, normalize)))
       <==> (c.ecosystem == CRATES_IO ==> Unambiguous(manifests, (CRATES_IO, c.name, c.version)))
  {
    var key := (c.ecosystem, if c.ecosystem == PYPI then normalize(c.name) else c.name, c.version);
    var found := Declaring(manifests, key);
    assert |CRATES_IO| != |PYPI|;
    assert Observed(c, local, normalize) == ObservationsOf(found) by {
      assert found == [] ==> ObservationsOf(found) == [];
    }
    if c.ecosystem == CRATES_IO {
      AcceptableIffUnambiguous(manifests, key);
    } else {
      DeclaredOnCratesIo(manifests, key);
    }
  }

  /** Two distinct files of one source lie in different registry directories. */
  lemma OneSourceTwoRegistries(manifests: seq<Manifest>, i: nat, j: nat)
    requires PathsDistinct(manifests) && i < j < |manifests| && SourceOf(manifests[i]) == SourceOf(manifests[j])
    ensures manifests[i].registry != manifests[j].registry
  {
    SameSourceIff(manifests[i], manifests[j]);
  }

  lemma TwoDeclared(manifests: seq<Manifest>, key: (Text, Text, Text))
    requires |manifests| == 2
    requires forall i :: 0 <= i < 2 ==> manifests[i].declared.Some? && KeyOf(manifests[i].declared.value) == key
    requires manifests[0].directory == manifests[1].directory && manifests[0].sha256 == manifests[1].sha256
    ensures Declaring(manifests, key) == manifests && !Unambiguous(manifests, key)
  {
    hide KeyOf;
    var first := manifests[..1];
    assert first[..0] == [];
    assert Declaring(first[..0], key) == [];
    assert Declaring(first, key) == [manifests[0]];
    assert Declaring(manifests, key) == [manifests[0]] + [manifests[1]];
  }

  /** One crate, unpacked unchanged in two registry directories: two files, one source, and the inventory is refused. */
  lemma {:induction false} SameCrateInTwoRegistries(m: Manifest, other: Text, c: Component, collected: Lookup,
                                                    local: Lookup, normalize: Text -> Text, inventory: Inventory)
    requires Found(m) && other != m.registry && m.declared.Some?
    requires !c.project && (c.ecosystem, c.name, c.version) == KeyOf(m.declared.value)
    requires Collects(collected, [m, m.(registry := other)]) && Reordered(collected, local)
    requires inventory.packages == PackagesOf([c], local, normalize)
    requires CountProject([c]) <= 1 && inventory.summary == SummaryOf([c], inventory.packages)
    ensures PathsDistinct([m, m.(registry := other)]) && !Valid([c], inventory)
  {
    TwoFilesAmbiguous(m, other);
    hide Valid, Collects, Reordered, Found, Unambiguous, PackagesOf, SummaryOf, CountProject, PathsDistinct;
    CargoInventoryAcceptedIff([c], [m, m.(registry := other)], collected, local, normalize, inventory);
    assert [c][0] == c;
  }

  lemma TwoFilesAmbiguous(m: Manifest, other: Text)
    requires other != m.registry && m.declared.Some?
    ensures PathsDistinct([m, m.(registry := other)])
    ensures !Unambiguous([m, m.(registry := other)], KeyOf(m.declared.value))
  {
    TwoDeclared([m, m.(registry := other)], KeyOf(m.declared.value));
    hide Unambiguous, KeyOf;
  }
}
