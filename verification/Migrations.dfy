/**
 The migration runner.  Each script and the record of its version are committed together, and a
 run may stop anywhere: on an error, on a lost reply, or because the process dies.
 A schema is represented by the list of scripts that made it, so equal lists mean equal schemas.
 */
module Migrations {
  import opened MigrationNames
  import opened Wrappers

  /** The version table's column holds 32 bits. */
  const COLUMN_MAX := 0x7FFF_FFFF

  /** An embedded file. */
  datatype File = File(name: string, sql: string)

  datatype Migration = Migration(version: int, name: string, sql: string)

  /** `recorded` is the version table in the order of insertion, None before it is created. */
  datatype Db = Db(recorded: Option<seq<int>>, schema: seq<string>)

  const EMPTY := Db(None, [])

  /** A statement or commit works, fails without effect, takes effect unheard, or the process dies before it. */
  datatype Fate = Works | Fails | ReplyLost | Dies

  datatype Outcome = Outcome(db: Db, ok: bool)

  function Head(fates: seq<Fate>): Fate { if fates == [] then Works else fates[0] }

  function Tail(fates: seq<Fate>): seq<Fate> { if fates == [] then [] else fates[1..] }

  function Recorded(db: Db): seq<int> { if db.recorded.Some? then db.recorded.value else [] }

  function Max(versions: seq<int>): int {
    if versions == [] then 0
    else
      var rest := Max(versions[..|versions| - 1]);
      if |versions| == 1 || versions[|versions| - 1] > rest then versions[|versions| - 1] else rest
  }

  function WithTable(db: Db): Db { if db.recorded.Some? then db else db.(recorded := Some([])) }

  /** Script and record in one transaction; a version that is recorded already breaks the table's key, and
      one beyond the column cannot be recorded. */
  function Apply(db: Db, m: Migration, fate: Fate): Outcome {
    if m.version in Recorded(db) || m.version > COLUMN_MAX || fate == Fails || fate == Dies then Outcome(db, false)
    else Outcome(Db(Some(Recorded(db) + [m.version]), db.schema + [m.sql]), fate == Works)
  }

  function ApplyFrom(db: Db, current: int, ms: seq<Migration>, fates: seq<Fate>): Outcome
    decreases |ms|
  {
    if ms == [] then Outcome(db, true)
    else if ms[0].version <= current then ApplyFrom(db, current, ms[1..], fates)
    else
      var step := Apply(db, ms[0], Head(fates));
      if step.ok then ApplyFrom(step.db, current, ms[1..], Tail(fates)) else step
  }

  /** One run: make sure of the table, read the current version, apply what is above it. */
  function Run(db: Db, ms: seq<Migration>, fates: seq<Fate>): Outcome {
    match Head(fates)
    case Works =>
      (match Head(Tail(fates))
       case Works => ApplyFrom(WithTable(db), Max(Recorded(db)), ms, Tail(Tail(fates)))
       case _ => Outcome(WithTable(db), false))
    case ReplyLost => Outcome(WithTable(db), false)
    case _ => Outcome(db, false)
  }

  function Runs(db: Db, ms: seq<Migration>, plan: seq<seq<Fate>>): Db {
    if plan == [] then db else Run(Runs(db, ms, plan[..|plan| - 1]), ms, plan[|plan| - 1]).db
  }

  // ---------- What the files are taken to be ----------

  predicate Sorted(ms: seq<Migration>) { forall i, j | 0 <= i < j < |ms| :: ms[i].version <= ms[j].version }

  predicate DistinctAndStorable(ms: seq<Migration>) {
    && (forall i | 0 <= i < |ms| :: 0 < ms[i].version <= COLUMN_MAX)
    && (forall i, j | 0 <= i < j < |ms| :: ms[i].version != ms[j].version)
  }

  function Versions(ms: seq<Migration>): (r: seq<int>)
    ensures |r| == |ms| && forall i | 0 <= i < |ms| :: r[i] == ms[i].version
  {
    seq(|ms|, i requires 0 <= i < |ms| => ms[i].version)
  }

  function Scripts(ms: seq<Migration>): (r: seq<string>)
    ensures |r| == |ms| && forall i | 0 <= i < |ms| :: r[i] == ms[i].sql
  {
    seq(|ms|, i requires 0 <= i < |ms| => ms[i].sql)
  }

  /** Exactly the first k migrations have taken effect, each once and in order. */
  predicate AtPrefix(db: Db, ms: seq<Migration>, k: nat) {
    k <= |ms| && Recorded(db) == Versions(ms)[..k] && db.schema == Scripts(ms)[..k]
  }

  lemma {:induction false} MaxOfPrefix(ms: seq<Migration>, k: nat)
    requires Sorted(ms) && DistinctAndStorable(ms) && k <= |ms|
    ensures Max(Versions(ms)[..k]) == if k == 0 then 0 else ms[k - 1].version
  {
    if k > 0 {
      MaxOfPrefix(ms, k - 1);
      assert Versions(ms)[..k][..k - 1] == Versions(ms)[..k - 1];
    }
  }

  /** From a prefix the loop skips what is applied, and goes on with the rest in order. */
  lemma {:induction false} LoopKeepsPrefix(db: Db, ms: seq<Migration>, i: nat, k: nat, current: int, fates: seq<Fate>)
    requires DistinctAndStorable(ms) && AtPrefix(db, ms, k) && i <= k
    requires forall j | i <= j < |ms| :: ms[j].version <= current <==> j < k
    ensures var r := ApplyFrom(db, current, ms[i..], fates);
      && AtPrefix(r.db, ms, |Recorded(r.db)|) && |Recorded(r.db)| >= k
      && (r.ok ==> |Recorded(r.db)| == |ms|) && (fates == [] ==> r.ok)
    decreases |ms| - i
  {
    if i < |ms| {
      assert ms[i..][0] == ms[i] && ms[i..][1..] == ms[i + 1..];
      if i < k {
        LoopKeepsPrefix(db, ms, i + 1, k, current, fates);
      } else {
        ApplyExtends(db, ms, k, Head(fates));
        var step := Apply(db, ms[k], Head(fates));
        if step.ok { LoopKeepsPrefix(step.db, ms, k + 1, k + 1, current, Tail(fates)); }
      }
    }
  }

  lemma ApplyExtends(db: Db, ms: seq<Migration>, k: nat, fate: Fate)
    requires DistinctAndStorable(ms) && AtPrefix(db, ms, k) && k < |ms|
    ensures var step := Apply(db, ms[k], fate);
            (if step.ok then AtPrefix(step.db, ms, k + 1) else AtPrefix(step.db, ms, k) || AtPrefix(step.db, ms, k + 1))
            && (fate == Works ==> step.ok)
  {
    assert ms[k].version !in Versions(ms)[..k];
    assert Versions(ms)[..k + 1] == Versions(ms)[..k] + [ms[k].version];
    assert Scripts(ms)[..k + 1] == Scripts(ms)[..k] + [ms[k].sql];
  }

  lemma RunKeepsPrefix(db: Db, ms: seq<Migration>, k: nat, fates: seq<Fate>)
    requires Sorted(ms) && DistinctAndStorable(ms) && AtPrefix(db, ms, k)
    ensures var r := Run(db, ms, fates);
      && AtPrefix(r.db, ms, |Recorded(r.db)|) && |Recorded(r.db)| >= k
      && (r.ok ==> |Recorded(r.db)| == |ms|) && (fates == [] ==> r.ok)
  {
    MaxOfPrefix(ms, k);
    assert ms[0..] == ms;
    forall j | 0 <= j < |ms| ensures ms[j].version <= Max(Recorded(db)) <==> j < k {}
    LoopKeepsPrefix(WithTable(db), ms, 0, k, Max(Recorded(db)), Tail(Tail(fates)));
  }

  /**
   Crash resumption.  After any sequence of runs, each stopped at any point for any reason, the
   recorded versions are a prefix of the sorted list and the schema is made by exactly the scripts
   of that prefix, each once and in order.
   */
  lemma {:induction false} RunsLeavePrefix(ms: seq<Migration>, plan: seq<seq<Fate>>)
    requires Sorted(ms) && DistinctAndStorable(ms)
    ensures var db := Runs(EMPTY, ms, plan); AtPrefix(db, ms, |Recorded(db)|)
  {
    if plan != [] {
      RunsLeavePrefix(ms, plan[..|plan| - 1]);
      var before := Runs(EMPTY, ms, plan[..|plan| - 1]);
      RunKeepsPrefix(before, ms, |Recorded(before)|, plan[|plan| - 1]);
    }
  }

  /** One more run without failures ends where a single uninterrupted run would have. */
  lemma FinalRunCompletes(ms: seq<Migration>, plan: seq<seq<Fate>>)
    requires Sorted(ms) && DistinctAndStorable(ms)
    ensures Run(Runs(EMPTY, ms, plan), ms, []) == Run(EMPTY, ms, [])
    ensures Run(EMPTY, ms, []) == Outcome(Db(Some(Versions(ms)), Scripts(ms)), true)
  {
    RunsLeavePrefix(ms, plan);
    var before := Runs(EMPTY, ms, plan);
    RunKeepsPrefix(before, ms, |Recorded(before)|, []);
    RunKeepsPrefix(EMPTY, ms, 0, []);
    TableIsThere(before, ms);
    TableIsThere(EMPTY, ms);
    assert Versions(ms)[..|ms|] == Versions(ms) && Scripts(ms)[..|ms|] == Scripts(ms);
  }

  lemma TableIsThere(db: Db, ms: seq<Migration>)
    ensures Run(db, ms, []).db.recorded.Some?
  {
    LoopKeepsTable(WithTable(db), Max(Recorded(db)), ms, []);
  }

  lemma {:induction false} LoopKeepsTable(db: Db, current: int, ms: seq<Migration>, fates: seq<Fate>)
    requires db.recorded.Some?
    ensures ApplyFrom(db, current, ms, fates).db.recorded.Some?
    decreases |ms|
  {
    if ms != [] {
      if ms[0].version <= current {
        LoopKeepsTable(db, current, ms[1..], fates);
      } else if Apply(db, ms[0], Head(fates)).ok {
        LoopKeepsTable(Apply(db, ms[0], Head(fates)).db, current, ms[1..], Tail(fates));
      }
    }
  }

  // ---------- Where the files are not as expected ----------

  /** What holds whatever the versions: one script a record, no record twice, none below one. */
  predicate Kept(db: Db, ms: seq<Migration>) {
    && |db.schema| == |Recorded(db)|
    && (forall i | 0 <= i < |Recorded(db)| :: 0 < Recorded(db)[i] <= COLUMN_MAX && Recorded(db)[i] in Versions(ms))
    && (forall i, j | 0 <= i < j < |Recorded(db)| :: Recorded(db)[i] != Recorded(db)[j])
  }

  lemma {:induction false} MaxIsNotNegative(versions: seq<int>)
    requires forall i | 0 <= i < |versions| :: versions[i] > 0
    ensures Max(versions) >= 0
  {
    if versions != [] { MaxIsNotNegative(versions[..|versions| - 1]); }
  }

  lemma {:induction false} LoopKeeps(db: Db, current: int, all: seq<Migration>, i: nat, fates: seq<Fate>)
    requires Kept(db, all) && current >= 0 && i <= |all|
    ensures Kept(ApplyFrom(db, current, all[i..], fates).db, all)
    decreases |all| - i
  {
    if i < |all| {
      assert all[i..][0] == all[i] && all[i..][1..] == all[i + 1..];
      assert Versions(all)[i] == all[i].version;
      if all[i].version <= current {
        LoopKeeps(db, current, all, i + 1, fates);
      } else {
        var step := Apply(db, all[i], Head(fates));
        assert Kept(step.db, all);
        if step.ok { LoopKeeps(step.db, current, all, i + 1, Tail(fates)); }
      }
    }
  }

  lemma {:induction false} RunsKeep(ms: seq<Migration>, plan: seq<seq<Fate>>)
    ensures Kept(Runs(EMPTY, ms, plan), ms)
  {
    if plan != [] {
      RunsKeep(ms, plan[..|plan| - 1]);
      var db := Runs(EMPTY, ms, plan[..|plan| - 1]);
      MaxIsNotNegative(Recorded(db));
      assert ms[0..] == ms;
      LoopKeeps(WithTable(db), Max(Recorded(db)), ms, 0, Tail(Tail(plan[|plan| - 1])));
    }
  }

  function Elements(s: seq<int>): set<int> { set x | x in s }

  lemma {:induction false} FewElements(s: seq<int>)
    ensures |Elements(s)| <= |s|
    ensures |Elements(s)| == |s| <==> forall i, j | 0 <= i < j < |s| :: s[i] != s[j]
  {
    if s != [] {
      var n := |s| - 1;
      FewElements(s[..n]);
      assert s == s[..n] + [s[n]];
      assert Elements(s) == Elements(s[..n]) + {s[n]};
      if s[n] in s[..n] {
        var i :| 0 <= i < n && s[..n][i] == s[n];
        assert Elements(s) == Elements(s[..n]);
      }
    }
  }

  /** Two files under one version: the first run fails at the second file, the next succeeds without it. */
  lemma SharedVersionIsSkipped(a: Migration, b: Migration)
    requires 0 < a.version == b.version <= COLUMN_MAX
    ensures var first := Run(EMPTY, [a, b], []);
      && first == Outcome(Db(Some([a.version]), [a.sql]), false)
      && Run(first.db, [a, b], []) == Outcome(first.db, true)
  {
    var ms := [a, b];
    assert ms[1..] == [b] && [b][1..] == [];
    var db := Db(Some([a.version]), [a.sql]);
    assert Recorded(WithTable(EMPTY)) + [a.version] == [a.version] && EMPTY.schema + [a.sql] == [a.sql];
    assert Apply(WithTable(EMPTY), a, Works) == Outcome(db, true);
    assert ApplyFrom(db, 0, [b], []) == Outcome(db, false);
    assert ApplyFrom(WithTable(EMPTY), 0, ms, []) == ApplyFrom(db, 0, [b], []);
    assert Max([a.version]) == a.version;
    assert ApplyFrom(db, a.version, ms, []) == ApplyFrom(db, a.version, [b], []) == ApplyFrom(db, a.version, [], []);
  }

  lemma OneRunIsEnough(ms: seq<Migration>)
    requires Sorted(ms) && DistinctAndStorable(ms)
    ensures |Runs(EMPTY, ms, [[]]).schema| == |ms|
  {
    FinalRunCompletes(ms, []);
    var one: seq<seq<Fate>> := [[]];
    assert one[..0] == [];
    assert Runs(EMPTY, ms, one) == Run(EMPTY, ms, []).db;
  }

  lemma AllScriptsNeedThat(ms: seq<Migration>, plan: seq<seq<Fate>>)
    requires |Runs(EMPTY, ms, plan).schema| == |ms|
    ensures DistinctAndStorable(ms)
  {
    RunsKeep(ms, plan);
    var recorded := Recorded(Runs(EMPTY, ms, plan));
    FewElements(recorded);
    FewElements(Versions(ms));
    SubsetOfSameSize(Elements(recorded), Elements(Versions(ms)));
    forall i | 0 <= i < |ms| ensures 0 < ms[i].version <= COLUMN_MAX {
      assert Versions(ms)[i] in Elements(recorded);
      var j :| 0 <= j < |recorded| && recorded[j] == ms[i].version;
    }
    forall i, j | 0 <= i < j < |ms| ensures ms[i].version != ms[j].version {
      assert Versions(ms)[i] != Versions(ms)[j];
    }
  }

  /** Some sequence of runs gets every script in, exactly if the versions are distinct, positive and fit the column. */
  lemma AllScriptsOnlyIfDistinct(ms: seq<Migration>)
    requires Sorted(ms)
    ensures (exists plan :: |Runs(EMPTY, ms, plan).schema| == |ms|) <==> DistinctAndStorable(ms)
  {
    if DistinctAndStorable(ms) { OneRunIsEnough(ms); }
    if plan :| |Runs(EMPTY, ms, plan).schema| == |ms| { AllScriptsNeedThat(ms, plan); }
  }

  lemma SubsetOfSameSize(a: set<int>, b: set<int>)
    requires a <= b && |b| <= |a|
    ensures a == b
  {
    assert |b - a| == |b| - |a|;
  }

  // ---------- The runner ----------

  predicate SamePool(ms: seq<Migration>, files: seq<File>) {
    |ms| == |files| && multiset(ms) == multiset(AsMigrations(files))
  }

  function AsMigrations(files: seq<File>): seq<Migration> {
    if files == [] then []
    else
      var f := files[|files| - 1];
      var version := if Version(f.name).Some? then Version(f.name).value else 0;
      AsMigrations(files[..|files| - 1]) + [Migration(version, f.name, f.sql)]
  }

  lemma InsertedInOrder(sorted: seq<Migration>, k: nat, m: Migration)
    requires k <= |sorted| && Sorted(sorted)
    requires forall j | k <= j < |sorted| :: sorted[j].version > m.version
    requires k > 0 ==> sorted[k - 1].version <= m.version
    ensures Sorted(sorted[..k] + [m] + sorted[k..])
  {
    var longer := sorted[..k] + [m] + sorted[k..];
    forall i | 0 <= i < |longer|
      ensures longer[i] == if i < k then sorted[i] else if i == k then m else sorted[i - 1]
    {}
    forall i, j | 0 <= i < j < |longer| ensures longer[i].version <= longer[j].version {
      if i < k { assert sorted[i].version <= sorted[k - 1].version; }
    }
  }

  lemma InsertedOnce(sorted: seq<Migration>, k: nat, m: Migration)
    requires k <= |sorted|
    ensures multiset(sorted[..k] + [m] + sorted[k..]) == multiset(sorted) + multiset{m}
  {
    assert sorted == sorted[..k] + sorted[k..];
  }

  method InsertByVersion(sorted: seq<Migration>, m: Migration) returns (longer: seq<Migration>)
    requires Sorted(sorted)
    ensures Sorted(longer) && multiset(longer) == multiset(sorted) + multiset{m} && |longer| == |sorted| + 1
  {
    var k := |sorted|;
    while k > 0 && sorted[k - 1].version > m.version
      invariant 0 <= k <= |sorted|
      invariant forall j | k <= j < |sorted| :: sorted[j].version > m.version
    {
      k := k - 1;
    }
    InsertedInOrder(sorted, k, m);
    InsertedOnce(sorted, k, m);
    longer := sorted[..k] + [m] + sorted[k..];
  }

  /** The files in order of version; equal versions may come in either order. */
  method SortByVersion(ms: seq<Migration>) returns (sorted: seq<Migration>)
    ensures Sorted(sorted) && multiset(sorted) == multiset(ms) && |sorted| == |ms|
  {
    sorted := [];
    for i := 0 to |ms|
      invariant Sorted(sorted) && |sorted| == i && multiset(sorted) == multiset(ms[..i])
    {
      assert ms[..i + 1] == ms[..i] + [ms[i]];
      sorted := InsertByVersion(sorted, ms[i]);
    }
    assert ms[..|ms|] == ms;
  }

  /** Every file's name holds a version. */
  predicate Versioned(files: seq<File>) {
    files == [] || (Versioned(files[..|files| - 1]) && Version(files[|files| - 1].name).Some?)
  }

  lemma OneMoreFile(files: seq<File>, i: nat)
    requires i < |files|
    ensures Versioned(files[..i + 1]) <==> Versioned(files[..i]) && Version(files[i].name).Some?
    ensures Version(files[i].name).Some? ==>
              (var m := Migration(Version(files[i].name).value, files[i].name, files[i].sql);
               AsMigrations(files[..i + 1]) == AsMigrations(files[..i]) + [m])
  {
    assert files[..i + 1][..i] == files[..i];
  }

  lemma {:induction false} PrefixVersioned(files: seq<File>, i: nat)
    requires Versioned(files) && i <= |files|
    ensures Versioned(files[..i])
    decreases |files|
  {
    if i == |files| {
      assert files[..i] == files;
    } else {
      PrefixVersioned(files[..|files| - 1], i);
      assert files[..|files| - 1][..i] == files[..i];
    }
  }

  method ReadVersions(files: seq<File>) returns (r: Result<seq<Migration>, string>)
    ensures r.Ok? <==> Versioned(files)
    ensures r.Ok? ==> r.value == AsMigrations(files) && |r.value| == |files|
  {
    var ms: seq<Migration> := [];
    for i := 0 to |files|
      invariant ms == AsMigrations(files[..i]) && |ms| == i && Versioned(files[..i])
    {
      var version := Version(files[i].name);
      OneMoreFile(files, i);
      if version.None? {
        if Versioned(files) { PrefixVersioned(files, i + 1); }
        return Err(files[i].name);
      }
      ms := ms + [Migration(version.value, files[i].name, files[i].sql)];
    }
    assert files[..|files|] == files;
    return Ok(ms);
  }

  method LoadMigrations(files: seq<File>) returns (r: Result<seq<Migration>, string>)
    ensures r.Ok? <==> Versioned(files)
    ensures r.Ok? ==> Sorted(r.value) && SamePool(r.value, files)
  {
    r := ReadVersions(files);
    if r.Ok? {
      var sorted := SortByVersion(r.value);
      return Ok(sorted);
    }
  }

  class Migrator {
    var db: Db
    /** The fates of the statements and commits to come; past the end all work. */
    var fates: seq<Fate>

    constructor (db: Db, fates: seq<Fate>)
      ensures this.db == db && this.fates == fates
    {
      this.db, this.fates := db, fates;
    }

    method Draw() returns (fate: Fate)
      modifies this`fates
      ensures fate == Head(old(fates)) && fates == Tail(old(fates))
    {
      if fates == [] { return Works; }
      fate, fates := fates[0], fates[1..];
    }

    method ApplyMigration(m: Migration) returns (ok: bool)
      modifies this
      ensures Outcome(db, ok) == Apply(old(db), m, Head(old(fates))) && fates == Tail(old(fates))
    {
      var tx := db;
      var fate := Draw();
      if fate == Fails || fate == Dies { return false; }
      tx := tx.(schema := tx.schema + [m.sql]);
      if m.version in Recorded(tx) || m.version > COLUMN_MAX { return false; }
      tx := tx.(recorded := Some(Recorded(tx) + [m.version]));
      db := tx;
      return fate == Works;
    }

    /** Where every file name holds a version, a call is one run over the sorted files. */
    method Migrate(files: seq<File>) returns (ok: bool, ghost ms: seq<Migration>)
      modifies this
      ensures Versioned(files) ==> (
                Sorted(ms) && SamePool(ms, files) && Outcome(db, ok) == Run(old(db), ms, old(fates)))
      ensures !Versioned(files) ==> !ok && (db == old(db) || db == WithTable(old(db)))
    {
      // The files do not depend on the database, so reading them first is the same.
      var loaded := LoadMigrations(files);
      ms := if loaded.Ok? then loaded.value else [];
      var fate := Draw();
      if fate == Works || fate == ReplyLost { db := WithTable(db); }
      if fate != Works { return false, ms; }
      fate := Draw();
      if fate != Works { return false, ms; }
      var current := Max(Recorded(db));
      if loaded.Err? { return false, ms; }
      var migrations := loaded.value;
      ghost var begun, plan := db, fates;
      for i := 0 to |migrations|
        invariant ApplyFrom(begun, current, migrations, plan) == ApplyFrom(db, current, migrations[i..], fates)
      {
        assert migrations[i..][0] == migrations[i] && migrations[i..][1..] == migrations[i + 1..];
        if migrations[i].version > current {
          var applied := ApplyMigration(migrations[i]);
          if !applied { return false, ms; }
        }
      }
      return true, ms;
    }
  }
}
