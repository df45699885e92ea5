/**
 The schema migration runner: one database, launched against by binaries whose embedded lists extend one
 another, with a failure or a crash possible at every step of every migration.
 */
module Migrations {
  import opened TextLines

  datatype Migration = Migration(version: nat, name: string, checksum: string)

  datatype Applied = Applied(name: string, checksum: string)

  /** What Discover guarantees of an embedded list: versions 1, 2, ..., n without a gap, at least one. */
  predicate Contiguous(ms: seq<Migration>) {
    ms != [] && forall i :: 0 <= i < |ms| ==> ms[i].version == i + 1
  }

  // ----- state validation -----

  datatype Drift = Drift(version: nat, expected: string, actual: string)

  datatype StateError = StateError(missing: seq<nat>, future: set<nat>, checksumDrifts: seq<Drift>,
                                   nameDrifts: seq<Drift>)

  predicate Clean(e: StateError) {
    e.missing == [] && e.future == {} && e.checksumDrifts == [] && e.nameDrifts == []
  }

  function MissingOf(m: Migration, applied: map<nat, Applied>): seq<nat> {
    if m.version in applied then [] else [m.version]
  }

  function ChecksumDriftOf(m: Migration, applied: map<nat, Applied>): seq<Drift> {
    if m.version in applied && applied[m.version].checksum != m.checksum
    then [Drift(m.version, m.checksum, applied[m.version].checksum)] else []
  }

  function NameDriftOf(m: Migration, applied: map<nat, Applied>): seq<Drift> {
    if m.version in applied && applied[m.version].name != m.name
    then [Drift(m.version, m.name, applied[m.version].name)] else []
  }

  function Missing(ms: seq<Migration>, applied: map<nat, Applied>): seq<nat> {
    if ms == [] then [] else MissingOf(ms[0], applied) + Missing(ms[1..], applied)
  }

  function ChecksumDrifts(ms: seq<Migration>, applied: map<nat, Applied>): seq<Drift> {
    if ms == [] then [] else ChecksumDriftOf(ms[0], applied) + ChecksumDrifts(ms[1..], applied)
  }

  function NameDrifts(ms: seq<Migration>, applied: map<nat, Applied>): seq<Drift> {
    if ms == [] then [] else NameDriftOf(ms[0], applied) + NameDrifts(ms[1..], applied)
  }

  function Versions(ms: seq<Migration>): set<nat> {
    set m | m in ms :: m.version
  }

  function Future(ms: seq<Migration>, applied: map<nat, Applied>): set<nat> {
    set v | v in applied && v !in Versions(ms)
  }

  function StateOf(ms: seq<Migration>, applied: map<nat, Applied>, requireAll: bool): StateError {
    StateError(if requireAll then Missing(ms, applied) else [], Future(ms, applied),
               ChecksumDrifts(ms, applied), NameDrifts(ms, applied))
  }

  lemma StateStep(ms: seq<Migration>, applied: map<nat, Applied>, i: nat, missing: seq<nat>, checksums: seq<Drift>,
                  names: seq<Drift>)
    requires i < |ms|
    ensures missing + Missing(ms[i..], applied) == missing + MissingOf(ms[i], applied) + Missing(ms[i + 1..], applied)
    ensures checksums + ChecksumDrifts(ms[i..], applied)
            == checksums + ChecksumDriftOf(ms[i], applied) + ChecksumDrifts(ms[i + 1..], applied)
    ensures names + NameDrifts(ms[i..], applied) ==
              names + NameDriftOf(ms[i], applied) + NameDrifts(ms[i + 1..], applied)
  {
    assert ms[i..][0] == ms[i] && ms[i..][1..] == ms[i + 1..];
    Assoc(missing, MissingOf(ms[i], applied), Missing(ms[i + 1..], applied));
    Assoc(checksums, ChecksumDriftOf(ms[i], applied), ChecksumDrifts(ms[i + 1..], applied));
    Assoc(names, NameDriftOf(ms[i], applied), NameDrifts(ms[i + 1..], applied));
  }

  lemma VersionsMore(ms: seq<Migration>, i: nat)
    requires i < |ms|
    ensures Versions(ms[..i + 1]) == Versions(ms[..i]) + {ms[i].version}
  {
    assert ms[..i + 1] == ms[..i] + [ms[i]];
  }

  /** What is noted of the first i migrations, with what is still to be noted of the others, is the whole. */
  ghost predicate Noted(ms: seq<Migration>, applied: map<nat, Applied>, requireAll: bool, i: nat, e: StateError)
    requires i <= |ms|
  {
    && e.future == {}
    && (if requireAll then e.missing + Missing(ms[i..], applied) == Missing(ms, applied) else e.missing == [])
    && e.checksumDrifts + ChecksumDrifts(ms[i..], applied) == ChecksumDrifts(ms, applied)
    && e.nameDrifts + NameDrifts(ms[i..], applied) == NameDrifts(ms, applied)
  }

  function NotedOne(item: Migration, applied: map<nat, Applied>, requireAll: bool, e: StateError): StateError {
    StateError(e.missing + (if requireAll then MissingOf(item, applied) else []), e.future,
               e.checksumDrifts + ChecksumDriftOf(item, applied), e.nameDrifts + NameDriftOf(item, applied))
  }

  lemma NotedMore(ms: seq<Migration>, applied: map<nat, Applied>, requireAll: bool, i: nat, e: StateError)
    requires i < |ms| && Noted(ms, applied, requireAll, i, e)
    ensures Noted(ms, applied, requireAll, i + 1, NotedOne(ms[i], applied, requireAll, e))
  {
    StateStep(ms, applied, i, e.missing, e.checksumDrifts, e.nameDrifts);
  }

  lemma NotedAll(ms: seq<Migration>, applied: map<nat, Applied>, requireAll: bool, e: StateError)
    requires Noted(ms, applied, requireAll, |ms|, e)
    ensures e == StateError(if requireAll then Missing(ms, applied) else [], {},
                            ChecksumDrifts(ms, applied), NameDrifts(ms, applied))
  {
    assert ms[|ms|..] == [];
  }

  /** One turn of the loop over the embedded list. */
  method NoteItem(item: Migration, applied: map<nat, Applied>, requireAll: bool, e: StateError) returns (e': StateError)
    ensures e' == NotedOne(item, applied, requireAll, e)
  {
    e' := e;
    if item.version !in applied {
      if requireAll {
        e' := e'.(missing := e.missing + [item.version]);
      }
      return;
    }
    var recorded := applied[item.version];
    if recorded.checksum != item.checksum {
      e' := e'.(checksumDrifts := e.checksumDrifts + [Drift(item.version, item.checksum, recorded.checksum)]);
    }
    if recorded.name != item.name {
      e' := e'.(nameDrifts := e.nameDrifts + [Drift(item.version, item.name, recorded.name)]);
    }
  }

  method ValidateState(ms: seq<Migration>, applied: map<nat, Applied>, requireAll: bool) returns (e: StateError)
    ensures e == StateOf(ms, applied, requireAll)
  {
    e := StateError([], {}, [], []);
    var known: set<nat> := {};
    assert ms[0..] == ms;
    for i := 0 to |ms|
      invariant known == Versions(ms[..i])
      invariant Noted(ms, applied, requireAll, i, e)
    {
      NotedMore(ms, applied, requireAll, i, e);
      VersionsMore(ms, i);
      known := known + {ms[i].version};
      e := NoteItem(ms[i], applied, requireAll, e);
    }
    assert ms[..|ms|] == ms;
    NotedAll(ms, applied, requireAll, e);
    e := e.(future := set v | v in applied && v !in known);
  }

  function RecordOf(ms: seq<Migration>, v: nat): Applied
    requires 1 <= v <= |ms|
  {
    Applied(ms[v - 1].name, ms[v - 1].checksum)
  }

  /** The records of the first n migrations of a list. */
  function RecordsOf(ms: seq<Migration>, n: nat): map<nat, Applied>
    requires n <= |ms|
  {
    map v: nat | 1 <= v <= n :: RecordOf(ms, v)
  }

  predicate Matches(m: Migration, applied: map<nat, Applied>) {
    m.version in applied ==> applied[m.version] == Applied(m.name, m.checksum)
  }

  lemma {:induction false} NoDriftIff(ms: seq<Migration>, applied: map<nat, Applied>)
    ensures ChecksumDrifts(ms, applied) == [] && NameDrifts(ms, applied) == [] <==>
              forall i :: 0 <= i < |ms| ==> Matches(ms[i], applied)
  {
    if ms != [] {
      NoDriftIff(ms[1..], applied);
      assert forall i :: 0 < i < |ms| ==> ms[i] == ms[1..][i - 1];
      assert forall i :: 0 <= i < |ms| - 1 ==> ms[1..][i] == ms[i + 1];
    }
  }

  lemma {:induction false} NoneMissingIff(ms: seq<Migration>, applied: map<nat, Applied>)
    ensures Missing(ms, applied) == [] <==> forall i :: 0 <= i < |ms| ==> ms[i].version in applied
  {
    if ms != [] {
      NoneMissingIff(ms[1..], applied);
      assert forall i :: 0 < i < |ms| ==> ms[i] == ms[1..][i - 1];
      assert forall i :: 0 <= i < |ms| - 1 ==> ms[1..][i] == ms[i + 1];
    }
  }

  lemma VersionsAre(ms: seq<Migration>)
    requires Contiguous(ms)
    ensures forall v: nat :: v in Versions(ms) <==> 1 <= v <= |ms|
  {
    forall v: nat | 1 <= v <= |ms| ensures v in Versions(ms) {
      assert ms[v - 1] in ms;
    }
  }

  lemma CheckPassed(ms: seq<Migration>, applied: map<nat, Applied>, v: nat)
    requires Contiguous(ms) && Clean(StateOf(ms, applied, true))
    ensures v in applied <==> 1 <= v <= |ms|
    ensures v in applied ==> applied[v] == RecordOf(ms, v)
  {
    VersionsAre(ms);
    NoDriftIff(ms, applied);
    NoneMissingIff(ms, applied);
    assert v !in Future(ms, applied);
    if 1 <= v <= |ms| {
      assert ms[v - 1].version in applied && Matches(ms[v - 1], applied);
    }
  }

  /** Check passes exactly when the database records this list, nothing more, nothing less, nothing altered. */
  lemma CheckPassesIff(ms: seq<Migration>, applied: map<nat, Applied>)
    requires Contiguous(ms)
    ensures Clean(StateOf(ms, applied, true)) <==> applied == RecordsOf(ms, |ms|)
  {
    if Clean(StateOf(ms, applied, true)) {
      forall v: nat
        ensures v in applied <==> v in RecordsOf(ms, |ms|)
        ensures v in applied ==> applied[v] == RecordsOf(ms, |ms|)[v]
      {
        CheckPassed(ms, applied, v);
      }
    } else {
      VersionsAre(ms);
      NoDriftIff(ms, applied);
      NoneMissingIff(ms, applied);
    }
  }

  /** Run goes ahead exactly when what is recorded is recorded as this list has it. */
  lemma RunStartsIff(ms: seq<Migration>, applied: map<nat, Applied>)
    requires Contiguous(ms)
    ensures Clean(StateOf(ms, applied, false)) <==>
              forall v :: v in applied ==> v in RecordsOf(ms, |ms|) && applied[v] == RecordsOf(ms, |ms|)[v]
  {
    VersionsAre(ms);
    NoDriftIff(ms, applied);
    if Clean(StateOf(ms, applied, false)) {
      forall v | v in applied ensures v in RecordsOf(ms, |ms|) && applied[v] == RecordsOf(ms, |ms|)[v] {
        assert v !in Future(ms, applied);
        assert Matches(ms[v - 1], applied);
      }
    }
  }

  // ----- one migration -----

  /** One row of schema_migration_runs. */
  datatype RunRow = RunRow(migration: Migration, success: bool)

  /** The database, with a log of the scripts that were started and the set of those that ran to their end. */
  datatype Db = Db(metadata: bool, applied: map<nat, Applied>, runs: seq<RunRow>, begun: seq<nat>, completed: set<nat>)

  /** What happens to one migration: the process may also die between any two steps. */
  datatype Outcome =
    | DiesBefore
    | ScriptFails(logged: bool)
    | DiesAfterScript
    | RecordFails(committed: bool)
    | Succeeds

  datatype Ran = Ran(db: Db, ok: bool)

  function Begin(db: Db, m: Migration): Db {
    db.(begun := db.begun + [m.version])
  }

  function Complete(db: Db, m: Migration): Db {
    Begin(db, m).(completed := db.completed + {m.version})
  }

  /** recordSuccess: both rows in one transaction. */
  function Record(db: Db, m: Migration): Db {
    db.(applied := db.applied[m.version := Applied(m.name, m.checksum)], runs := db.runs + [RunRow(m, true)])
  }

  function One(db: Db, m: Migration, o: Outcome): Ran {
    match o
    case DiesBefore => Ran(db, false)
    case ScriptFails(logged) =>
      Ran(if logged then Begin(db, m).(runs := db.runs + [RunRow(m, false)]) else Begin(db, m), false)
    case DiesAfterScript => Ran(Complete(db, m), false)
    case RecordFails(committed) => Ran(if committed then Record(Complete(db, m), m) else Complete(db, m), false)
    case Succeeds => Ran(Record(Complete(db, m), m), true)
  }

  // ----- one run -----

  function RunFrom(db: Db, ms: seq<Migration>, known: set<nat>, i: nat, outcome: nat -> Outcome): Ran
    requires i <= |ms|
    decreases |ms| - i
  {
    if i == |ms| then Ran(db, true)
    else if ms[i].version in known then RunFrom(db, ms, known, i + 1, outcome)
    else
      var r := One(db, ms[i], outcome(ms[i].version));
      if r.ok then RunFrom(r.db, ms, known, i + 1, outcome) else r
  }

  /** CREATE TABLE IF NOT EXISTS, twice: the records, then the log of runs. */
  datatype Metadata = NoTable | RecordsOnly | BothTables

  datatype Launch = Launch(size: nat, locked: bool, tables: Metadata, outcome: nat -> Outcome, unlocked: bool)

  /**
   Run: lock, metadata tables, validation against the recorded versions, then the versions not recorded yet.
   Failing to release the lock makes an error of a complete run.
   */
  function RunAll(db: Db, ms: seq<Migration>, l: Launch): Ran {
    if !l.locked || l.tables.NoTable? then Ran(db, false)
    else
      var ready := db.(metadata := true);
      if l.tables.RecordsOnly? || !Clean(StateOf(ms, ready.applied, false)) then Ran(ready, false)
      else
        var r := RunFrom(ready, ms, ready.applied.Keys, 0, l.outcome);
        Ran(r.db, r.ok && l.unlocked)
  }

  class Runner {
    var metadata: bool
    var applied: map<nat, Applied>
    var runs: seq<RunRow>
    ghost var begun: seq<nat>
    ghost var completed: set<nat>

    constructor ()
      ensures Contents() == NEW_DATABASE
    {
      metadata, applied, runs, begun, completed := false, map[], [], [], {};
    }

    ghost function Contents(): Db
      reads this
    {
      Db(metadata, applied, runs, begun, completed)
    }

    method RunOne(m: Migration, o: Outcome) returns (ok: bool)
      modifies this
      ensures Ran(Contents(), ok) == One(old(Contents()), m, o)
    {
      if o == DiesBefore {
        return false;
      }
      begun := begun + [m.version];
      if o.ScriptFails? {
        if o.logged {
          runs := runs + [RunRow(m, false)];
        }
        return false;
      }
      completed := completed + {m.version};
      if o == DiesAfterScript || o == RecordFails(false) {
        return false;
      }
      applied := applied[m.version := Applied(m.name, m.checksum)];
      runs := runs + [RunRow(m, true)];
      ok := o == Succeeds;
    }

    method Run(ms: seq<Migration>, l: Launch) returns (ok: bool)
      modifies this
      ensures Ran(Contents(), ok) == RunAll(old(Contents()), ms, l)
    {
      if !l.locked || l.tables.NoTable? {
        return false;
      }
      metadata := true;
      if l.tables.RecordsOnly? {
        return false;
      }
      var state := ValidateState(ms, applied, false);
      if !Clean(state) {
        return false;
      }
      var known := applied.Keys;
      ghost var start := Contents();
      for i := 0 to |ms|
        invariant RunFrom(start, ms, known, 0, l.outcome) == RunFrom(Contents(), ms, known, i, l.outcome)
      {
        if ms[i].version !in known {
          ok := RunOne(ms[i], l.outcome(ms[i].version));
          if !ok {
            return;
          }
        }
      }
      ok := l.unlocked;
    }

    /** Check reads only; without the metadata table it fails. */
    method Check(ms: seq<Migration>) returns (ok: bool)
      ensures ok <==> metadata && Clean(StateOf(ms, applied, true))
    {
      if !metadata {
        return false;
      }
      var state := ValidateState(ms, applied, true);
      ok := Clean(state);
    }
  }

  // ----- all runs -----

  const NEW_DATABASE := Db(false, map[], [], [], {})

  /** Every binary embeds a beginning of one growing list; published files never change. */
  predicate Embedded(all: seq<Migration>, launches: seq<Launch>) {
    Contiguous(all) && forall i :: 0 <= i < |launches| ==> 1 <= launches[i].size <= |all|
  }

  function RunLaunches(all: seq<Migration>, db: Db, launches: seq<Launch>): Db
    requires Embedded(all, launches)
    decreases |launches|
  {
    if launches == [] then db
    else RunLaunches(all, RunAll(db, all[..launches[0].size], launches[0]).db, launches[1..])
  }

  /** The recorded versions are 1..k, as published, each with its one success row; scripts ran in order. */
  predicate Inv(all: seq<Migration>, db: Db, k: nat) {
    && k <= |all| && db.applied == RecordsOf(all, k)
    && (k > 0 ==> db.metadata)
    && (forall v: nat :: 1 <= v <= k ==> v in db.completed)
    && Successes(db.runs) == all[..k]
    && (forall i, j :: 0 <= i < j < |db.begun| ==> db.begun[i] <= db.begun[j])
    && (forall i :: 0 <= i < |db.begun| ==> 1 <= db.begun[i] <= k + 1)
  }

  function Successes(runs: seq<RunRow>): seq<Migration> {
    if runs == [] then []
    else
      var last := runs[|runs| - 1];
      Successes(runs[..|runs| - 1]) + (if last.success then [last.migration] else [])
  }

  lemma SuccessesGrow(runs: seq<RunRow>, row: RunRow)
    ensures Successes(runs + [row]) == Successes(runs) + (if row.success then [row.migration] else [])
  {
    assert (runs + [row])[..|runs|] == runs;
  }

  lemma BeginKeepsInv(all: seq<Migration>, db: Db, k: nat)
    requires Contiguous(all) && Inv(all, db, k) && k < |all|
    ensures Inv(all, Begin(db, all[k]), k) && Inv(all, Complete(db, all[k]), k)
  {
  }

  lemma FailureKeepsInv(all: seq<Migration>, db: Db, k: nat, m: Migration)
    requires Inv(all, db, k)
    ensures Inv(all, db.(runs := db.runs + [RunRow(m, false)]), k)
  {
    SuccessesGrow(db.runs, RunRow(m, false));
  }

  lemma RecordKeepsInv(all: seq<Migration>, db: Db, k: nat)
    requires Contiguous(all) && Inv(all, db, k) && k < |all| && db.metadata && k + 1 in db.completed
    ensures Inv(all, Record(db, all[k]), k + 1)
  {
    SuccessesGrow(db.runs, RunRow(all[k], true));
    assert all[..k + 1] == all[..k] + [all[k]];
    assert RecordsOf(all, k + 1) == RecordsOf(all, k)[k + 1 := RecordOf(all, k + 1)];
  }

  lemma OneKeepsInv(all: seq<Migration>, db: Db, k: nat, o: Outcome)
    requires Contiguous(all) && Inv(all, db, k) && db.metadata && k < |all|
    ensures var r := One(db, all[k], o);
            r.db.metadata && (Inv(all, r.db, k) || Inv(all, r.db, k + 1)) && (r.ok ==> Inv(all, r.db, k + 1))
  {
    BeginKeepsInv(all, db, k);
    FailureKeepsInv(all, Begin(db, all[k]), k, all[k]);
    RecordKeepsInv(all, Complete(db, all[k]), k);
  }

  lemma {:induction false} RunFromKeepsInv(all: seq<Migration>, db: Db, n: nat, known: set<nat>, i: nat, k: nat,
                                           outcome: nat -> Outcome)
    returns (k': nat)
    requires Contiguous(all) && n <= |all| && i <= n && Inv(all, db, k) && db.metadata
    requires forall v: nat :: v in known ==> v <= k
    requires if i < k then forall v: nat :: i < v <= k ==> v in known else i == k
    requires k <= n
    ensures var r := RunFrom(db, all[..n], known, i, outcome);
            k <= k' <= n && Inv(all, r.db, k') && (r.ok ==> k' == n)
    decreases n - i
  {
    if i == n {
      k' := k;
    } else if i < k {
      k' := RunFromKeepsInv(all, db, n, known, i + 1, k, outcome);
    } else {
      var o := outcome(all[k].version);
      var r := One(db, all[k], o);
      OneKeepsInv(all, db, k, o);
      if r.ok {
        k' := RunFromKeepsInv(all, r.db, n, known, i + 1, k + 1, outcome);
      } else {
        k' := if Inv(all, r.db, k) then k else k + 1;
      }
    }
  }

  /**
   A binary at least as new as the database carries it forward, success meaning all the way; an older one
   changes nothing.
   */
  lemma LaunchKeepsInv(all: seq<Migration>, db: Db, k: nat, l: Launch) returns (k': nat)
    requires Contiguous(all) && Inv(all, db, k) && 1 <= l.size <= |all|
    ensures var r := RunAll(db, all[..l.size], l);
            && k <= k' && Inv(all, r.db, k')
            && (r.ok ==> k' == l.size)
            && (k > l.size ==> !r.ok && r.db.applied == db.applied && r.db.begun == db.begun)
  {
    if l.locked && l.tables.BothTables? && Clean(StateOf(all[..l.size], db.applied, false)) {
      CleanMeansBehind(all, db, k, l.size);
      k' := RunFromKeepsInv(all, db.(metadata := true), l.size, db.applied.Keys, 0, k, l.outcome);
    } else {
      k' := k;
    }
  }

  /** The run goes ahead only for a binary that knows everything recorded. */
  lemma CleanMeansBehind(all: seq<Migration>, db: Db, k: nat, n: nat)
    requires Contiguous(all) && Inv(all, db, k) && 1 <= n <= |all| && Clean(StateOf(all[..n], db.applied, false))
    ensures k <= n
  {
    RunStartsIff(all[..n], db.applied);
    assert k > 0 ==> k in db.applied;
  }

  /** Whatever sequence of binaries ran, and wherever each of them failed or died, the records are 1..k. */
  lemma {:induction false} PrefixRun(all: seq<Migration>, db: Db, k: nat, launches: seq<Launch>) returns (k': nat)
    requires Embedded(all, launches) && Inv(all, db, k)
    ensures k <= k' && Inv(all, RunLaunches(all, db, launches), k')
    decreases |launches|
  {
    if launches == [] {
      k' := k;
    } else {
      var k1 := LaunchKeepsInv(all, db, k, launches[0]);
      k' := PrefixRun(all, RunAll(db, all[..launches[0].size], launches[0]).db, k1, launches[1..]);
    }
  }

  /** From an empty database, the records are 1..k after any launches. */
  lemma PrefixFromNewDatabase(all: seq<Migration>, launches: seq<Launch>) returns (k: nat)
    requires Embedded(all, launches)
    ensures k <= |all| && RunLaunches(all, NEW_DATABASE, launches).applied == RecordsOf(all, k)
    ensures Inv(all, RunLaunches(all, NEW_DATABASE, launches), k)
  {
    k := PrefixRun(all, NEW_DATABASE, 0, launches);
  }

  /** A run that reports success leaves a database on which this binary's Check passes. */
  lemma SuccessPassesCheck(all: seq<Migration>, db: Db, k: nat, l: Launch)
    requires Contiguous(all) && Inv(all, db, k) && 1 <= l.size <= |all|
    requires RunAll(db, all[..l.size], l).ok
    ensures var db' := RunAll(db, all[..l.size], l).db;
            db'.metadata && Clean(StateOf(all[..l.size], db'.applied, true))
  {
    var k' := LaunchKeepsInv(all, db, k, l);
    CheckPassesIff(all[..l.size], RunAll(db, all[..l.size], l).db.applied);
  }

  /** What Check finds is the order of two numbers: the database's version and the binary's latest. */
  lemma CheckComparesVersions(all: seq<Migration>, db: Db, k: nat, n: nat)
    requires Contiguous(all) && Inv(all, db, k) && 1 <= n <= |all|
    ensures var e := StateOf(all[..n], db.applied, true);
            && (e.future != {} <==> k > n)
            && (e.missing != [] <==> k < n)
            && e.checksumDrifts == [] && e.nameDrifts == []
            && (Clean(e) <==> k == n)
  {
    var ms := all[..n];
    VersionsAre(ms);
    NoDriftIff(ms, db.applied);
    NoneMissingIff(ms, db.applied);
    forall i | 0 <= i < n ensures Matches(ms[i], db.applied) {}
    if k > n {
      assert k in Future(ms, db.applied);
    }
    if k < n {
      assert ms[k].version !in db.applied;
    }
  }

  /** COALESCE(MAX(version), 0): the k of the invariant is what the release tool reads. */
  predicate IsCurrentVersion(applied: map<nat, Applied>, v: nat) {
    (applied == map[] ==> v == 0) && (applied != map[] ==> v in applied) && forall w :: w in applied ==> w <= v
  }

  predicate RollbackAllowed(databaseVersion: nat, targetVersion: nat, allow: bool) {
    databaseVersion <= targetVersion || allow
  }

  /**
   The release tool refuses a target, unless forced, exactly when that target's own Check would see future
   versions.
   */
  lemma RollbackAgreesWithCheck(all: seq<Migration>, db: Db, k: nat, n: nat, v: nat)
    requires Contiguous(all) && Inv(all, db, k) && 1 <= n <= |all| && IsCurrentVersion(db.applied, v)
    ensures v == k
    ensures RollbackAllowed(v, n, false) <==> StateOf(all[..n], db.applied, true).future == {}
    ensures RollbackAllowed(v, n, true)
  {
    CheckComparesVersions(all, db, k, n);
    if k > 0 {
      assert k in db.applied;
    }
  }

  /** A rewritten or renamed published migration stops the run before any script is started. */
  lemma DriftStopsTheRun(db: Db, ms: seq<Migration>, l: Launch, i: nat)
    requires Contiguous(ms) && i < |ms| && !Matches(ms[i], db.applied)
    ensures var r := RunAll(db, ms, l); !r.ok && r.db.(metadata := db.metadata) == db
  {
    NoDriftIff(ms, db.applied);
  }

  // ----- what each way of ending leaves -----

  /** What one migration leaves: only a script that ended is ever recorded, and a failure is at most logged. */
  lemma OutcomeLeaves(db: Db, m: Migration, o: Outcome)
    ensures var r := One(db, m, o);
            && (r.ok <==> o.Succeeds?)
            && (o.DiesBefore? ==> r.db == db)
            && (!o.DiesBefore? ==> r.db.begun == db.begun + [m.version])
            && (m.version in r.db.completed || o.DiesBefore? || o.ScriptFails?)
            && r.db.metadata == db.metadata && r.db.completed <= db.completed + {m.version}
            && (o.ScriptFails? ==> r.db.applied == db.applied && r.db.completed == db.completed
                                   && r.db.runs == db.runs + (if o.logged then [RunRow(m, false)] else []))
            && (o.DiesAfterScript? || o == RecordFails(false) ==> r.db.applied == db.applied && r.db.runs == db.runs)
            && (o.Succeeds? || o == RecordFails(true) ==>
                  r.db.applied == db.applied[m.version := Applied(m.name, m.checksum)]
                  && r.db.runs == db.runs + [RunRow(m, true)])
  {
  }

  /** A launch reports success only with the lock held and given back, both tables there and nothing altered. */
  lemma SuccessMeans(db: Db, ms: seq<Migration>, l: Launch)
    requires RunAll(db, ms, l).ok
    ensures l.locked && l.unlocked && l.tables.BothTables? && Clean(StateOf(ms, db.applied, false))
  {
  }

  /** Otherwise it has done nothing, unless a script or the release of the lock stopped it. */
  lemma RefusalDoesNothing(db: Db, ms: seq<Migration>, l: Launch)
    requires !l.locked || !l.tables.BothTables? || !Clean(StateOf(ms, db.applied, false))
    ensures !RunAll(db, ms, l).ok && RunAll(db, ms, l).db == db.(metadata := RunAll(db, ms, l).db.metadata)
    ensures RunAll(db, ms, l).db.metadata <==> db.metadata || (l.locked && !l.tables.NoTable?)
  {
  }

  // ----- nothing in the way -----

  /** The versions of the migrations from the i-th on that are not known. */
  function Pending(ms: seq<Migration>, known: set<nat>, i: nat): seq<nat>
    requires i <= |ms|
    decreases |ms| - i
  {
    if i == |ms| then []
    else (if ms[i].version in known then [] else [ms[i].version]) + Pending(ms, known, i + 1)
  }

  lemma {:induction false} RunFromSucceeds(db: Db, ms: seq<Migration>, known: set<nat>, i: nat, outcome: nat -> Outcome)
    requires i <= |ms| && forall v :: outcome(v) == Succeeds
    ensures var r := RunFrom(db, ms, known, i, outcome); r.ok && r.db.begun == db.begun + Pending(ms, known, i)
    decreases |ms| - i
  {
    if i < |ms| {
      if ms[i].version in known {
        RunFromSucceeds(db, ms, known, i + 1, outcome);
        assert [] + Pending(ms, known, i + 1) == Pending(ms, known, i + 1);
      } else {
        OneSucceeds(db, ms, known, i, outcome);
        RunFromSucceeds(One(db, ms[i], Succeeds).db, ms, known, i + 1, outcome);
        BegunMore(db.begun, ms[i].version, Pending(ms, known, i + 1));
      }
    }
  }

  lemma OneSucceeds(db: Db, ms: seq<Migration>, known: set<nat>, i: nat, outcome: nat -> Outcome)
    requires i < |ms| && ms[i].version !in known && outcome(ms[i].version) == Succeeds
    ensures RunFrom(db, ms, known, i, outcome) == RunFrom(One(db, ms[i], Succeeds).db, ms, known, i + 1, outcome)
    ensures One(db, ms[i], Succeeds).db.begun == db.begun + [ms[i].version]
  {
  }

  lemma BegunMore(begun: seq<nat>, v: nat, more: seq<nat>)
    ensures begun + [v] + more == begun + ([v] + more)
  {
  }

  /**
   A launch that gets the lock, finds both tables and nothing altered, and whose scripts all succeed, is a
   success.
   */
  lemma NothingInTheWay(all: seq<Migration>, db: Db, k: nat, l: Launch)
    requires Contiguous(all) && Inv(all, db, k) && k <= l.size <= |all| && 1 <= l.size
    requires l.locked && l.tables.BothTables? && l.unlocked && forall v :: l.outcome(v) == Succeeds
    ensures var r := RunAll(db, all[..l.size], l);
            && r.ok && r.db.applied == RecordsOf(all, l.size) && Inv(all, r.db, l.size)
            && r.db.begun == db.begun + Pending(all[..l.size], db.applied.Keys, 0)
            && forall v: nat :: 1 <= v <= l.size ==> v in r.db.completed
  {
    ReadyToRun(all, db, k, l.size);
    RunFromSucceeds(db.(metadata := true), all[..l.size], db.applied.Keys, 0, l.outcome);
    var k' := LaunchKeepsInv(all, db, k, l);
  }

  lemma ReadyToRun(all: seq<Migration>, db: Db, k: nat, n: nat)
    requires Contiguous(all) && Inv(all, db, k) && k <= n <= |all| && 1 <= n
    ensures Clean(StateOf(all[..n], db.applied, false))
  {
    RunStartsIff(all[..n], db.applied);
  }
}
