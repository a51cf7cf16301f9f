// The migration runner: each file is applied and recorded in one transaction,
// and a run may be cut short anywhere and started again.
module Migrations {
  import opened Common
  import opened Text

  // ---------- versions ----------

  /** The part of a file name before its first underscore. */
  function Prefix(name: string): string {
    if name == "" || name[0] == '_' then "" else [name[0]] + Prefix(name[1..])
  }

  /** A decimal integer with an optional sign, in the range of a 64-bit integer. */
  function ParseInt(s: string): Option<int> {
    var signed := s != "" && (s[0] == '-' || s[0] == '+');
    var digits := if signed then s[1..] else s;
    if digits == "" then None
    else
      match ParseDigits(digits)
      case None => None
      case Some(n) =>
        var magnitude: int := n;
        var value := if signed && s[0] == '-' then -magnitude else magnitude;
        if -0x8000_0000_0000_0000 <= value < 0x8000_0000_0000_0000 then Some(value) else None
  }

  function VersionOf(name: string): Option<int> {
    ParseInt(Prefix(name))
  }

  lemma {:induction false} PrefixEnds(prefix: string, rest: string)
    requires '_' !in prefix
    ensures Prefix(prefix + "_" + rest) == prefix
  {
    if prefix == "" {
      assert (prefix + "_" + rest)[0] == '_';
    } else {
      PrefixEnds(prefix[1..], rest);
      assert (prefix + "_" + rest)[1..] == prefix[1..] + "_" + rest;
      assert prefix == [prefix[0]] + prefix[1..];
    }
  }

  /** The version of a file is the number its name starts with, in decimal, before an underscore. */
  lemma VersionIsTheNumber(n: int, width: nat, rest: string)
    requires 0 < width && 0 <= n < Pow10(width) && n < 0x8000_0000_0000_0000
    ensures VersionOf(Digits(n, width) + "_" + rest) == Some(n)
    ensures VersionOf("-" + Digits(n, width) + "_" + rest) == Some(-n)
  {
    DigitsRead(n, width);
    DigitsAreDigits(n, width);
    PrefixEnds(Digits(n, width), rest);
    PrefixEnds("-" + Digits(n, width), rest);
    assert ("-" + Digits(n, width))[1..] == Digits(n, width);
  }

  lemma {:induction false} LettersAreNoNumber(s: string, k: nat)
    requires k < |s| && !('0' <= s[k] <= '9')
    ensures ParseDigits(s).None?
  {
    if k < |s| - 1 {
      LettersAreNoNumber(s[..|s| - 1], k);
    }
  }

  /** A name whose start is empty, or has another character than digits after a sign, has no version. */
  lemma NoVersion(prefix: string, rest: string)
    requires '_' !in prefix
    requires prefix == "" ||
      exists k :: 0 <= k < |prefix| && !('0' <= prefix[k] <= '9') && (prefix[k] in "+-" ==> k > 0)
    ensures VersionOf(prefix + "_" + rest).None?
  {
    PrefixEnds(prefix, rest);
    if prefix != "" {
      var k :| 0 <= k < |prefix| && !('0' <= prefix[k] <= '9') && (prefix[k] in "+-" ==> k > 0);
      if prefix[0] == '-' || prefix[0] == '+' {
        assert prefix[1..][k - 1] == prefix[k];
        LettersAreNoNumber(prefix[1..], k - 1);
      } else {
        LettersAreNoNumber(prefix, k);
      }
    }
  }

  /** The program's own files, 001_initial.sql to 006_instance_sync_enabled.sql. */
  const TITLES: seq<string> := [
    "initial", "master_sync_config", "unique_instance_address", "remove_clients_sync_config",
    "notification_channels", "instance_sync_enabled"]

  function FileName(number: nat, title: string): string
    requires number < Pow10(3)
  {
    Digits(number, 3) + "_" + title + ".sql"
  }

  ghost function Files(): seq<string> {
    assert Pow10(1) == 10 && Pow10(2) == 100 && Pow10(3) == 1000;
    seq(|TITLES|, k requires 0 <= k < |TITLES| => FileName(k + 1, TITLES[k]))
  }

  /** They are numbered one to six, so each of them takes effect. */
  lemma FilesAreNumbered(k: nat)
    requires k <= |Files()|
    ensures forall i :: 0 <= i < |Files()| ==> VersionOf(Files()[i]) == Some(i + 1)
    ensures Effective(VersionOf, Files(), k) == Files()[..k]
  {
    assert Pow10(1) == 10 && Pow10(2) == 100 && Pow10(3) == 1000;
    forall i | 0 <= i < |TITLES|
      ensures VersionOf(Files()[i]) == Some(i + 1)
    {
      VersionIsTheNumber(i + 1, 3, TITLES[i] + ".sql");
      assert Digits(i + 1, 3) + "_" + TITLES[i] + ".sql" == Digits(i + 1, 3) + "_" + (TITLES[i] + ".sql");
    }
    DistinctVersionsAllEffective(VersionOf, Files(), k);
  }

  // ---------- one uninterrupted run ----------

  /** What the scripts do; a script may fail, which rolls its transaction back. */
  type Directory<!T> = map<string, T -> Option<T>>

  /** The version a file name stands for; VersionOf in the program. */
  type Versioning = string -> Option<int>

  datatype State<T> = State(data: T, recorded: set<int>)

  ghost predicate Names<T>(dir: Directory<T>, names: seq<string>) {
    forall n :: n in names ==> n in dir
  }

  ghost function Step<T>(dir: Directory<T>, version: Versioning, name: string, s: State<T>): Option<State<T>>
    requires name in dir
  {
    match version(name)
    case None => None
    case Some(v) =>
      if v in s.recorded then Some(s)
      else
        match dir[name](s.data)
        case None => None
        case Some(data) => Some(State(data, s.recorded + {v}))
  }

  /** The state after the first k files of an uninterrupted run on a fresh database; None if one fails. */
  ghost function After<T>(dir: Directory<T>, version: Versioning, names: seq<string>, initial: T, k: nat)
    : Option<State<T>>
    requires k <= |names| && Names(dir, names)
  {
    if k == 0 then Some(State(initial, {}))
    else
      match After(dir, version, names, initial, k - 1)
      case None => None
      case Some(s) => Step(dir, version, names[k - 1], s)
  }

  /** The first k files that take effect: each version only at its first file. */
  ghost function Effective(version: Versioning, names: seq<string>, k: nat): seq<string>
    requires k <= |names|
  {
    if k == 0 then []
    else
      Effective(version, names, k - 1) +
        if Repeats(version, names, k - 1) then [] else [names[k - 1]]
  }

  ghost predicate Repeats(version: Versioning, names: seq<string>, k: nat)
    requires k < |names|
  {
    exists i :: 0 <= i < k && version(names[i]) == version(names[k])
  }

  ghost function ApplyAll<T>(dir: Directory<T>, initial: T, names: seq<string>): Option<T> {
    if names == [] then Some(initial)
    else
      var last := names[|names| - 1];
      match ApplyAll(dir, initial, names[..|names| - 1])
      case None => None
      case Some(data) => if last in dir then dir[last](data) else None
  }

  lemma {:induction false} RecordedPrefix<T>(dir: Directory<T>, version: Versioning, names: seq<string>,
                                    initial: T, k: nat)
    requires k <= |names| && Names(dir, names) && After(dir, version, names, initial, k).Some?
    ensures forall i :: 0 <= i < k ==>
      version(names[i]).Some? && version(names[i]).value in After(dir, version, names, initial, k).value.recorded
    ensures forall v :: v in After(dir, version, names, initial, k).value.recorded ==>
      exists i :: 0 <= i < k && version(names[i]) == Some(v)
  {
    if k > 0 {
      RecordedPrefix(dir, version, names, initial, k - 1);
      var before := After(dir, version, names, initial, k - 1).value.recorded;
      var after := After(dir, version, names, initial, k).value.recorded;
      forall v | v in after
        ensures exists i :: 0 <= i < k && version(names[i]) == Some(v)
      {
        if v in before {
          var i :| 0 <= i < k - 1 && version(names[i]) == Some(v);
        } else {
          assert version(names[k - 1]) == Some(v);
        }
      }
    }
  }

  lemma ApplyOneMore<T>(dir: Directory<T>, initial: T, names: seq<string>, last: string)
    requires last in dir && ApplyAll(dir, initial, names).Some?
    ensures ApplyAll(dir, initial, names + [last]) == dir[last](ApplyAll(dir, initial, names).value)
  {
    assert (names + [last])[..|names|] == names;
  }

  /** The data is that of the effective files, applied once each in listing order. */
  lemma {:induction false} EachAppliedOnce<T>(dir: Directory<T>, version: Versioning, names: seq<string>,
                                    initial: T, k: nat)
    requires k <= |names| && Names(dir, names) && After(dir, version, names, initial, k).Some?
    ensures ApplyAll(dir, initial, Effective(version, names, k)) ==
      Some(After(dir, version, names, initial, k).value.data)
  {
    if k > 0 {
      var last := names[k - 1];
      EachAppliedOnce(dir, version, names, initial, k - 1);
      RecordedPrefix(dir, version, names, initial, k - 1);
      assert last in names;
      var recorded := After(dir, version, names, initial, k - 1).value.recorded;
      assert Repeats(version, names, k - 1) <==> version(last).value in recorded;
      assert Repeats(version, names, k - 1) ==> Effective(version, names, k) == Effective(version, names, k - 1);
      ApplyOneMore(dir, initial, Effective(version, names, k - 1), last);
    }
  }

  /** When all versions differ, every file takes effect. */
  lemma {:induction false} DistinctVersionsAllEffective(version: Versioning, names: seq<string>, k: nat)
    requires k <= |names|
    requires forall i, j :: 0 <= i < j < |names| ==> version(names[i]) != version(names[j])
    ensures Effective(version, names, k) == names[..k]
  {
    if k > 0 {
      DistinctVersionsAllEffective(version, names, k - 1);
    }
  }

  lemma {:induction false} EarlierSome<T>(dir: Directory<T>, version: Versioning, names: seq<string>,
                                          initial: T, j: nat, k: nat)
    requires j <= k <= |names| && Names(dir, names) && After(dir, version, names, initial, k).Some?
    ensures After(dir, version, names, initial, j).Some?
  {
    if j < k {
      EarlierSome(dir, version, names, initial, j, k - 1);
    }
  }

  // ---------- the runner ----------

  class Store<T> {
    const reliable: bool
    const initial: T
    var data: T
    var recorded: set<int>

    /** The database is where an uninterrupted run is after k files. */
    ghost predicate At(dir: Directory<T>, names: seq<string>, k: nat)
      reads this
    {
      k <= |names| && Names(dir, names) && After(dir, VersionOf, names, initial, k) == Some(State(data, recorded))
    }

    ghost predicate Reached(dir: Directory<T>, names: seq<string>)
      reads this
    {
      exists k :: At(dir, names, k)
    }

    constructor (reliable: bool, initial: T)
      ensures this.reliable == reliable && this.initial == initial && data == initial && recorded == {}
    {
      this.reliable, this.initial, this.data, this.recorded := reliable, initial, initial, {};
    }

    /** A crash or an I/O error may cut a run short before any transaction. */
    method Interrupted() returns (cut: bool)
      ensures reliable ==> !cut
    {
      if reliable {
        cut := false;
      } else {
        cut := *;
      }
    }

    /** One file: skipped when its version is recorded, otherwise applied and recorded together. */
    method MigrateFile(dir: Directory<T>, names: seq<string>, k: nat, ghost at: nat) returns (ok: bool)
      requires k < |names| && k <= at && At(dir, names, at)
      modifies this
      ensures if ok then At(dir, names, if at == k then k + 1 else at) else At(dir, names, at)
      ensures old(recorded) <= recorded && (at > k || !ok ==> data == old(data) && recorded == old(recorded))
      ensures reliable ==> (ok <==> After(dir, VersionOf, names, initial, k + 1).Some?)
    {
      assert names[k] in names;
      if at > k {
        EarlierSome(dir, VersionOf, names, initial, k + 1, at);
        RecordedPrefix(dir, VersionOf, names, initial, at);
      }
      var version := VersionOf(names[k]);
      if version.None? {
        return false;
      }
      var cut := Interrupted();
      if cut {
        return false;
      }
      if version.value in recorded {
        return true;
      }
      var result := dir[names[k]](data);
      if result.None? {
        return false;
      }
      data, recorded := result.value, recorded + {version.value};
      return true;
    }

    /** From wherever earlier runs stopped, the run resumes: it never leaves the path of the uninterrupted run
        nor goes back on it, when it completes it has reached that run's end, and a completed database is left
        alone. */
    method Migrate(dir: Directory<T>, ghost listing: seq<string>) returns (ok: bool)
      requires Listing(listing, dir.Keys) && Reached(dir, listing)
      modifies this
      ensures Reached(dir, listing) && old(recorded) <= recorded
      ensures ok ==> At(dir, listing, |listing|)
      ensures old(At(dir, listing, |listing|)) ==> data == old(data) && recorded == old(recorded)
      ensures reliable ==> (ok <==> After(dir, VersionOf, listing, initial, |listing|).Some?)
    {
      var names := OrderBy(dir.Keys, (n: string) => n);
      ListingIsUnique(names, listing, dir.Keys);
      ghost var complete := At(dir, names, |names|);
      ghost var at: nat;
      if complete {
        at := |names|;
      } else {
        assert Reached(dir, names);
        at :| At(dir, names, at);
      }
      for k := 0 to |names|
        invariant k <= at && At(dir, names, at) && old(recorded) <= recorded
        invariant complete ==> at == |names| && data == old(data) && recorded == old(recorded)
      {
        ok := MigrateFile(dir, names, k, at);
        if !ok {
          if After(dir, VersionOf, names, initial, |names|).Some? {
            EarlierSome(dir, VersionOf, names, initial, k + 1, |names|);
          }
          return;
        }
        at := if at == k then k + 1 else at;
      }
      return true;
    }
  }

  /** A fresh database is at the start of every listing. */
  lemma FreshIsReached<T>(store: Store<T>, dir: Directory<T>, listing: seq<string>)
    requires Listing(listing, dir.Keys) && store.data == store.initial && store.recorded == {}
    ensures store.Reached(dir, listing)
  {
    assert forall n :: n in listing ==> n in ToSet(listing);
    assert store.At(dir, listing, 0);
  }
}
