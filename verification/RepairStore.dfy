/** Replacing three live files, all or nothing, when an exception may strike anywhere. */
module RepairStore {
  import opened Bytes

  type Name = seq<byte>
  datatype FileState = FileState(data: seq<byte>, mode: nat)

  /**
   * The statements of replace_atomically in order: create the temporary file, bind its path,
   * fchmod, write, flush, fsync, rename, open the directory, fsync it, close it, unlink, return.
   * A strike at `n` is an exception raised when `n` statements have completed; from UNSTRUCK on
   * there is none.
   */
  const RENAME := 6
  const UNLINK := 10
  const UNSTRUCK := 12

  class Store {
    var files: map<Name, FileState>
    var temporary: Option<seq<byte>>

    constructor (files: map<Name, FileState>)
      ensures this.files == files && temporary == None
    {
      this.files, temporary := files, None;
    }

    /** replace_atomically: the target holds its old or its new content, decided by the rename alone. */
    method ReplaceAtomically(name: Name, data: seq<byte>, mode: nat, strike: nat) returns (raised: bool)
      modifies this
      ensures raised <==> strike < UNSTRUCK
      ensures files == if strike > RENAME then old(files)[name := FileState(data, mode)] else old(files)
      ensures strike == 0 ==> temporary == old(temporary)
      ensures 2 <= strike && strike != UNLINK ==> temporary == None
    {
      if strike == 0 { return true; }
      temporary := Some([]);
      if strike == 1 { return true; }
      var statement := 2;
      while statement < UNLINK
        invariant 2 <= statement <= UNLINK && strike >= statement
        invariant files == if statement > RENAME then old(files)[name := FileState(data, mode)] else old(files)
        invariant statement > 3 && statement <= RENAME ==> temporary == Some(data)
        invariant statement > RENAME ==> temporary == None
      {
        if strike == statement { break; }
        if statement == 3 { temporary := Some(data); }
        if statement == RENAME {
          files := files[name := FileState(temporary.value, mode)];
          temporary := None;
        }
        statement := statement + 1;
      }
      // The finally clause runs on every path; only a strike inside it can leave the file behind.
      if strike == UNLINK { return true; }
      temporary := None;
      return strike < UNSTRUCK;
    }
  }

  datatype Outcome = Refused | Applied | RolledBack | RollbackBroken

  /** Which exceptions strike: one schedule for the replacements, one for the rollback, and the final check. */
  datatype Strikes = Strikes(replacing: nat -> nat, restoring: nat -> nat, verified: bool)

  predicate Distinct(names: seq<Name>) {
    forall i, j :: 0 <= i < j < |names| ==> names[i] != names[j]
  }

  function Modes(files: map<Name, FileState>): map<Name, nat> { map name | name in files :: files[name].mode }

  predicate NoStrike(strikes: nat -> nat, count: nat) {
    forall i :: 0 <= i < count ==> strikes(i) >= UNSTRUCK
  }

  /** Only the first `k` named files may differ from before, and each holds its old or its corrected content. */
  ghost predicate Mixed(before: map<Name, FileState>, now: map<Name, FileState>, names: seq<Name>,
                        corrected: map<Name, seq<byte>>, k: nat)
  {
    k <= |names| && now.Keys == before.Keys
    && (forall name :: name in before && name !in names[..k] ==> now[name] == before[name])
    && (forall name :: name in before && name in names[..k] ==>
          now[name].mode == before[name].mode
          && (now[name].data == before[name].data || (name in corrected && now[name].data == corrected[name])))
  }

  /** One file more, left alone or given its corrected content. */
  lemma MixedNext(before: map<Name, FileState>, now: map<Name, FileState>, next: map<Name, FileState>, names: seq<Name>,
                  corrected: map<Name, seq<byte>>, k: nat)
    requires Mixed(before, now, names, corrected, k) && k < |names| && Distinct(names)
    requires names[k] in before && names[k] in corrected
    requires next == now || next == now[names[k] := FileState(corrected[names[k]], before[names[k]].mode)]
    ensures Mixed(before, next, names, corrected, k + 1)
  {
    assert names[..k + 1] == names[..k] + [names[k]];
  }

  /** The try block up to the final check: `changed` grows before each replacement. */
  method ReplaceAll(store: Store, names: seq<Name>, corrected: map<Name, seq<byte>>, modes: map<Name, nat>, strikes: nat -> nat)
    returns (raised: bool, changed: seq<Name>)
    requires Distinct(names) && modes == Modes(store.files)
    requires forall i :: 0 <= i < |names| ==> names[i] in store.files && names[i] in corrected
    modifies store
    ensures |changed| <= |names| && changed == names[..|changed|]
    ensures raised <==> !NoStrike(strikes, |names|)
    ensures Mixed(old(store.files), store.files, names, corrected, |changed|)
    ensures !raised ==> changed == names && forall i :: 0 <= i < |names| ==> store.files[names[i]].data == corrected[names[i]]
  {
    changed := [];
    raised := false;
    hide Mixed, NoStrike, Distinct;
    MixedNothing(store.files, names, corrected, strikes);
    while |changed| < |names| && !raised
      invariant |changed| <= |names| && changed == names[..|changed|]
      invariant Mixed(old(store.files), store.files, names, corrected, |changed|)
      invariant !raised ==> NoStrike(strikes, |changed|) && Corrected(store.files, names, corrected, |changed|)
      invariant raised ==> !NoStrike(strikes, |names|)
      decreases |names| - |changed|, !raised
    {
      var k := |changed|;
      var name := names[k];
      changed := changed + [name];
      assert changed == names[..k + 1];
      ghost var now := store.files;
      raised := store.ReplaceAtomically(name, corrected[name], modes[name], strikes(k));
      MixedNext(old(store.files), now, store.files, names, corrected, k);
      CorrectedNext(old(store.files), now, store.files, names, corrected, k, strikes, raised);
    }
  }

  /** The first k named files hold their corrected content. */
  ghost predicate Corrected(files: map<Name, FileState>, names: seq<Name>, corrected: map<Name, seq<byte>>, k: nat) {
    k <= |names| && forall i :: 0 <= i < k ==>
      names[i] in files && names[i] in corrected && files[names[i]].data == corrected[names[i]]
  }

  lemma MixedNothing(files: map<Name, FileState>, names: seq<Name>, corrected: map<Name, seq<byte>>, strikes: nat -> nat)
    ensures Mixed(files, files, names, corrected, 0) && NoStrike(strikes, 0)
  {
  }

  lemma CorrectedNext(before: map<Name, FileState>, now: map<Name, FileState>, next: map<Name, FileState>,
                      names: seq<Name>, corrected: map<Name, seq<byte>>, k: nat, strikes: nat -> nat, raised: bool)
    requires k < |names| && Distinct(names) && names[k] in corrected && (raised <==> strikes(k) < UNSTRUCK)
    requires NoStrike(strikes, k) && Corrected(now, names, corrected, k)
    requires !raised ==> exists mode :: next == now[names[k] := FileState(corrected[names[k]], mode)]
    ensures raised ==> !NoStrike(strikes, |names|)
    ensures !raised ==> NoStrike(strikes, k + 1) && Corrected(next, names, corrected, k + 1)
  {
  }

  /** The except block: every touched file gets its original back, last one first. */
  method RollBack(store: Store, changed: seq<Name>, original: map<Name, seq<byte>>, modes: map<Name, nat>, strikes: nat -> nat)
    returns (broken: bool)
    requires Distinct(changed)
    requires forall i :: 0 <= i < |changed| ==> changed[i] in store.files && changed[i] in original && changed[i] in modes
    modifies store
    ensures broken <==> !NoStrike(strikes, |changed|)
    ensures store.files.Keys == old(store.files).Keys
    ensures forall name :: name in store.files && name !in changed ==> store.files[name] == old(store.files)[name]
    ensures forall i :: 0 <= i < |changed| ==>
              store.files[changed[i]] == FileState(original[changed[i]], modes[changed[i]])
              || (broken && store.files[changed[i]] == old(store.files)[changed[i]])
  {
    var left := |changed|;
    while left > 0
      invariant 0 <= left <= |changed|
      invariant store.files.Keys == old(store.files).Keys
      invariant forall i :: 0 <= i < left ==> store.files[changed[i]] == old(store.files)[changed[i]]
      invariant forall i :: left <= i < |changed| ==>
                  store.files[changed[i]] == FileState(original[changed[i]], modes[changed[i]])
      invariant forall name :: name in store.files && name !in changed ==> store.files[name] == old(store.files)[name]
      invariant forall i :: left <= i < |changed| ==> strikes(i) >= UNSTRUCK
    {
      left := left - 1;
      var name := changed[left];
      broken := store.ReplaceAtomically(name, original[name], modes[name], strikes(left));
      if broken { return; }
    }
    broken := false;
  }

  predicate Unchanged(files: map<Name, FileState>, names: seq<Name>, original: map<Name, seq<byte>>) {
    forall i :: 0 <= i < |names| ==>
      names[i] in files && names[i] in original && files[names[i]].data == original[names[i]]
  }

  /**
   * The apply part of main. Whatever strikes and wherever it does: without a strike every file is
   * corrected; after a completed rollback the store is exactly as it was; and even a rollback that
   * is itself struck leaves every file whole, old or corrected, with its mode.
   */
  method ApplyRepair(store: Store, names: seq<Name>, original: map<Name, seq<byte>>, corrected: map<Name, seq<byte>>,
                     strikes: Strikes)
    returns (outcome: Outcome, ghost changed: seq<Name>)
    requires Distinct(names)
    requires forall i :: 0 <= i < |names| ==> names[i] in store.files && names[i] in original && names[i] in corrected
    modifies store
    ensures outcome.Refused? <==> !Unchanged(old(store.files), names, original)
    ensures outcome.Applied? <==> !outcome.Refused? && strikes.verified && NoStrike(strikes.replacing, |names|)
    ensures |changed| <= |names| && changed == names[..|changed|]
    ensures outcome.RollbackBroken? ==> !NoStrike(strikes.restoring, |changed|)
    ensures outcome.RolledBack? ==> NoStrike(strikes.restoring, |changed|)
    ensures outcome.Refused? || outcome.RolledBack? ==> store.files == old(store.files)
    ensures Mixed(old(store.files), store.files, names, corrected, |names|)
    ensures outcome.Applied? ==> forall i :: 0 <= i < |names| ==> store.files[names[i]].data == corrected[names[i]]
  {
    changed := [];
    for i := 0 to |names|
      invariant forall j :: 0 <= j < i ==> store.files[names[j]].data == original[names[j]]
    {
      if store.files[names[i]].data != original[names[i]] { return Refused, []; }
    }
    var modes := Modes(store.files);
    ghost var before := store.files;
    var raised, touched := ReplaceAll(store, names, corrected, modes, strikes.replacing);
    changed := touched;
    assert names[..|names|] == names;
    if !raised && strikes.verified { return Applied, changed; }
    var broken := RollBack(store, touched, original, modes, strikes.restoring);
    StillMixed(before, store.files, names, corrected, original, |touched|, broken);
    outcome := if broken then RollbackBroken else RolledBack;
  }

  lemma StillMixed(before: map<Name, FileState>, now: map<Name, FileState>, names: seq<Name>,
                   corrected: map<Name, seq<byte>>, original: map<Name, seq<byte>>, k: nat, broken: bool)
    requires k <= |names| && now.Keys == before.Keys && Unchanged(before, names, original)
    requires forall i :: 0 <= i < |names| ==> names[i] in corrected
    requires forall name :: name in before && name !in names[..k] ==> now[name] == before[name]
    requires forall i :: 0 <= i < k ==>
               now[names[i]] == before[names[i]]
               || (broken && now[names[i]] == FileState(corrected[names[i]], before[names[i]].mode))
    ensures Mixed(before, now, names, corrected, |names|)
    ensures !broken ==> now == before
  {
    assert names[..|names|] == names;
    forall name | name in before
      ensures now[name] == before[name]
              || (broken && name in corrected && name in names && now[name] == FileState(corrected[name], before[name].mode))
    {
      if name in names[..k] { var i :| 0 <= i < k && names[..k][i] == name; assert names[i] == name; }
    }
  }
}
