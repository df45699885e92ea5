/** Discovering the embedded migration files: which sets of files are accepted, and as what list. */
module MigrationFiles {
  import opened Basics
  import opened Decimals
  import opened TextLines
  import opened Migrations

  /** A directory entry; contents is None when the file cannot be read. */
  datatype Entry = Entry(isDir: bool, name: string, contents: Option<string>)

  datatype FileError = BadName | ZeroVersion | Duplicate | Unreadable | EmptyFile | NoFiles | Gap

  datatype Discovery = Found(list: seq<Migration>) | Rejected(error: FileError)

  // ----- file names: NNNNNN_name.sql -----

  predicate IsDigit(c: char) {
    '0' <= c <= '9'
  }

  predicate IsAlnum(c: char) {
    IsDigit(c) || 'a' <= c <= 'z' || 'A' <= c <= 'Z'
  }

  predicate EndsSql(name: string) {
    |name| >= 4 && name[|name| - 4..] == ".sql"
  }

  predicate WellNamed(name: string) {
    && |name| >= 12 && EndsSql(name)
    && AllDigits(name[..6])
    && name[6] == '_' && IsAlnum(name[7])
    && (forall i :: 8 <= i < |name| - 4 ==> IsAlnum(name[i]) || name[i] == '_' || name[i] == '-')
  }

  predicate AllDigits(s: string) {
    forall i :: 0 <= i < |s| ==> IsDigit(s[i])
  }

  function Number(digits: string): nat
    requires AllDigits(digits)
  {
    if digits == "" then 0
    else
      var last := digits[|digits| - 1];
      assert IsDigit(last);
      Number(digits[..|digits| - 1]) * 10 + (last as int - '0' as int)
  }

  predicate Valid(e: Entry) {
    WellNamed(e.name) && Number(e.name[..6]) > 0 && e.contents.Some? && Trim(e.contents.value) != ""
  }

  function MigrationOf(e: Entry, hash: string -> string): Migration
    requires Valid(e)
  {
    Migration(Number(e.name[..6]), e.name, hash(e.contents.value))
  }

  // ----- sorting -----

  function Insert(ms: seq<Migration>, m: Migration): (r: seq<Migration>)
    ensures multiset(r) == multiset(ms) + multiset{m}
  {
    if ms == [] || ms[|ms| - 1].version <= m.version then ms + [m]
    else
      assert ms == ms[..|ms| - 1] + [ms[|ms| - 1]];
      Insert(ms[..|ms| - 1], m) + [ms[|ms| - 1]]
  }

  function Sorted(ms: seq<Migration>): (r: seq<Migration>)
    ensures multiset(r) == multiset(ms) && |r| == |ms|
  {
    if ms == [] then []
    else
      assert ms == ms[..|ms| - 1] + [ms[|ms| - 1]];
      var r := Insert(Sorted(ms[..|ms| - 1]), ms[|ms| - 1]);
      assert |multiset(r)| == |multiset(ms)|;
      r
  }

  predicate Increasing(ms: seq<Migration>) {
    forall i, j :: 0 <= i < j < |ms| ==> ms[i].version < ms[j].version
  }

  predicate Distinct(ms: seq<Migration>) {
    forall i, j :: 0 <= i < j < |ms| ==> ms[i].version != ms[j].version
  }

  lemma {:induction false} InsertIncreases(ms: seq<Migration>, m: Migration)
    requires Increasing(ms) && forall i :: 0 <= i < |ms| ==> ms[i].version != m.version
    ensures Increasing(Insert(ms, m))
  {
    if ms != [] && ms[|ms| - 1].version > m.version {
      var front := ms[..|ms| - 1];
      InsertIncreases(front, m);
      var r := Insert(front, m);
      forall i | 0 <= i < |r| ensures r[i].version < ms[|ms| - 1].version {
        assert r[i] in multiset(r);
        assert r[i] in multiset(front) + multiset{m};
      }
    }
  }

  lemma {:induction false} SortedIncreases(ms: seq<Migration>)
    requires Distinct(ms)
    ensures Increasing(Sorted(ms))
  {
    if ms != [] {
      var front, last := ms[..|ms| - 1], ms[|ms| - 1];
      SortedIncreases(front);
      forall i | 0 <= i < |Sorted(front)| ensures Sorted(front)[i].version != last.version {
        assert Sorted(front)[i] in multiset(Sorted(front));
        assert Sorted(front)[i] in multiset(front);
      }
      InsertIncreases(Sorted(front), last);
    }
  }

  /** n distinct versions between 1 and n are 1, 2, ..., n. */
  lemma {:induction false} IncreasingFrom(ms: seq<Migration>, i: nat)
    requires Increasing(ms) && i < |ms| && forall k :: 0 <= k < |ms| ==> 1 <= ms[k].version <= |ms|
    ensures ms[i].version >= i + 1
  {
    if i > 0 {
      IncreasingFrom(ms, i - 1);
    }
  }

  lemma {:induction false} IncreasingTo(ms: seq<Migration>, i: nat)
    requires Increasing(ms) && i < |ms| && forall k :: 0 <= k < |ms| ==> 1 <= ms[k].version <= |ms|
    ensures ms[i].version <= i + 1
    decreases |ms| - i
  {
    if i + 1 < |ms| {
      IncreasingTo(ms, i + 1);
    }
  }

  // ----- Discover -----

  /** The .sql files among the entries. */
  function SqlFiles(entries: seq<Entry>): seq<Entry> {
    if entries == [] then []
    else SqlFiles(entries[..|entries| - 1])
         + (var e := entries[|entries| - 1]; if !e.isDir && EndsSql(e.name) then [e] else [])
  }

  predicate AllValid(files: seq<Entry>) {
    forall i :: 0 <= i < |files| ==> Valid(files[i])
  }

  function MigrationsOf(files: seq<Entry>, hash: string -> string): (ms: seq<Migration>)
    requires AllValid(files)
    ensures |ms| == |files| && forall i :: 0 <= i < |files| ==> ms[i] == MigrationOf(files[i], hash)
  {
    seq(|files|, i requires 0 <= i < |files| => MigrationOf(files[i], hash))
  }

  /** The files are the versions 1 to n, each once, all readable, named and filled. */
  predicate Acceptable(files: seq<Entry>, hash: string -> string) {
    && files != [] && AllValid(files) && Distinct(MigrationsOf(files, hash))
    && forall i :: 0 <= i < |files| ==> MigrationsOf(files, hash)[i].version <= |files|
  }

  lemma OnceEach(ms: seq<Migration>)
    requires Increasing(ms) && ms != [] && forall k :: 0 <= k < |ms| ==> 1 <= ms[k].version <= |ms|
    ensures Contiguous(ms)
  {
    forall i | 0 <= i < |ms| ensures ms[i].version == i + 1 {
      IncreasingFrom(ms, i);
      IncreasingTo(ms, i);
    }
  }

  lemma AcceptableIsContiguous(files: seq<Entry>, hash: string -> string)
    requires Acceptable(files, hash)
    ensures Contiguous(Sorted(MigrationsOf(files, hash)))
  {
    var ms := MigrationsOf(files, hash);
    SortedIncreases(ms);
    assert forall j :: 0 <= j < |ms| ==> Valid(files[j]) && 1 <= ms[j].version <= |ms|;
    MembersOfSorted(ms);
    OnceEach(Sorted(ms));
  }

  lemma MembersOfSorted(ms: seq<Migration>)
    ensures forall k :: 0 <= k < |ms| ==> Sorted(ms)[k] in ms
    ensures forall k :: 0 <= k < |ms| ==> ms[k] in Sorted(ms)
  {
    forall k | 0 <= k < |ms| ensures Sorted(ms)[k] in ms && ms[k] in Sorted(ms) {
      assert Sorted(ms)[k] in multiset(Sorted(ms)) && ms[k] in multiset(ms);
    }
  }

  lemma ContiguousIsAcceptable(files: seq<Entry>, hash: string -> string)
    requires files != [] && AllValid(files) && Distinct(MigrationsOf(files, hash))
    requires Contiguous(Sorted(MigrationsOf(files, hash)))
    ensures Acceptable(files, hash)
  {
    var ms := MigrationsOf(files, hash);
    MembersOfSorted(ms);
    forall i | 0 <= i < |ms| ensures ms[i].version <= |files| {
      assert ms[i] in Sorted(ms);
    }
  }

  lemma ContiguousIff(files: seq<Entry>, hash: string -> string)
    requires AllValid(files) && Distinct(MigrationsOf(files, hash))
    ensures Contiguous(Sorted(MigrationsOf(files, hash))) <==> Acceptable(files, hash)
  {
    if Acceptable(files, hash) {
      AcceptableIsContiguous(files, hash);
    } else if files != [] && Contiguous(Sorted(MigrationsOf(files, hash))) {
      ContiguousIsAcceptable(files, hash);
    }
  }

  /** The checks on one file, in the order the code makes them. */
  method ReadFile(e: Entry, seen: set<nat>, hash: string -> string) returns (m: Option<Migration>, error: FileError)
    ensures m.Some? <==> Valid(e) && MigrationOf(e, hash).version !in seen
    ensures m.Some? ==> m.value == MigrationOf(e, hash)
  {
    m, error := None, BadName;
    if !WellNamed(e.name) {
      return;
    }
    var version := Number(e.name[..6]);
    if version == 0 {
      error := ZeroVersion;
      return;
    }
    if version in seen {
      error := Duplicate;
      return;
    }
    if e.contents.None? {
      error := Unreadable;
      return;
    }
    if Trim(e.contents.value) == "" {
      error := EmptyFile;
      return;
    }
    m := Some(Migration(version, e.name, hash(e.contents.value)));
  }

  /** What the loop has established about the files read so far. */
  ghost predicate Collected(files: seq<Entry>, hash: string -> string, ms: seq<Migration>, seen: set<nat>) {
    AllValid(files) && ms == MigrationsOf(files, hash) && Distinct(ms) && seen == Versions(ms)
  }

  lemma CollectMore(files: seq<Entry>, hash: string -> string, ms: seq<Migration>, seen: set<nat>, e: Entry)
    requires Collected(files, hash, ms, seen) && Valid(e) && MigrationOf(e, hash).version !in seen
    ensures Collected(files + [e], hash, ms + [MigrationOf(e, hash)], seen + {MigrationOf(e, hash).version})
  {
    var m := MigrationOf(e, hash);
    assert AllValid(files + [e]) && MigrationsOf(files + [e], hash) == ms + [m];
    forall i | 0 <= i < |ms| ensures ms[i].version != m.version {
      assert ms[i] in ms;
    }
  }

  lemma SqlFilesStep(entries: seq<Entry>, k: nat)
    requires k < |entries|
    ensures SqlFiles(entries[..k + 1]) ==
              SqlFiles(entries[..k]) + (if !entries[k].isDir && EndsSql(entries[k].name) then [entries[k]] else [])
  {
    assert entries[..k + 1][..k] == entries[..k];
  }

  lemma {:induction false} SqlFilesPrefix(entries: seq<Entry>, k: nat)
    requires k <= |entries|
    ensures SqlFiles(entries[..k]) <= SqlFiles(entries)
    decreases |entries|
  {
    if k < |entries| {
      SqlFilesPrefix(entries[..|entries| - 1], k);
      assert entries[..|entries| - 1][..k] == entries[..k];
    } else {
      assert entries[..k] == entries;
    }
  }

  /** A file that is not valid, or repeats a version, makes the whole set unacceptable. */
  lemma BadFileSpoils(before: seq<Entry>, hash: string -> string, ms: seq<Migration>, seen: set<nat>, e: Entry,
                      files: seq<Entry>)
    requires Collected(before, hash, ms, seen) && before + [e] <= files
    requires Valid(e) ==> MigrationOf(e, hash).version in seen
    ensures !Acceptable(files, hash)
  {
    var n := |before|;
    assert files[n] == e;
    if AllValid(files) {
      assert Valid(files[n]);
      var i :| 0 <= i < n && ms[i].version == MigrationOf(e, hash).version;
      assert files[i] == before[i];
      var all := MigrationsOf(files, hash);
      assert all[i].version == all[n].version;
    }
  }

  /** The end of Discover: sort by version and insist on 1, 2, ..., n. */
  method CheckContiguous(ms: seq<Migration>) returns (r: Discovery)
    ensures r == if Contiguous(Sorted(ms)) then Found(Sorted(ms)) else Rejected(if ms == [] then NoFiles else Gap)
  {
    if |ms| == 0 {
      return Rejected(NoFiles);
    }
    var sorted := Sorted(ms);
    for index := 0 to |sorted|
      invariant forall i :: 0 <= i < index ==> sorted[i].version == i + 1
    {
      if sorted[index].version != index + 1 {
        assert !Contiguous(sorted);
        return Rejected(Gap);
      }
    }
    assert sorted != [] && Contiguous(sorted);
    r := Found(sorted);
  }

  /**
   The list is found exactly when the .sql files are acceptable; then it holds all of them, each once, in the
   order of their versions, which are 1, 2, ..., n.
   */
  method Discover(entries: seq<Entry>, hash: string -> string) returns (r: Discovery)
    ensures r.Found? <==> Acceptable(SqlFiles(entries), hash)
    ensures r.Found? ==> Contiguous(r.list) && multiset(r.list) == multiset(MigrationsOf(SqlFiles(entries), hash))
  {
    var ms: seq<Migration> := [];
    var seen: set<nat> := {};
    for k := 0 to |entries|
      invariant Collected(SqlFiles(entries[..k]), hash, ms, seen)
    {
      var entry := entries[k];
      SqlFilesStep(entries, k);
      if entry.isDir {
        continue;
      }
      if !EndsSql(entry.name) {
        continue;
      }
      var m, error := ReadFile(entry, seen, hash);
      if m.None? {
        SqlFilesPrefix(entries, k + 1);
        BadFileSpoils(SqlFiles(entries[..k]), hash, ms, seen, entry, SqlFiles(entries));
        return Rejected(error);
      }
      CollectMore(SqlFiles(entries[..k]), hash, ms, seen, entry);
      ms := ms + [m.value];
      seen := seen + {m.value.version};
    }
    assert entries[..|entries|] == entries;
    r := CheckContiguous(ms);
    ContiguousIff(SqlFiles(entries), hash);
  }

  // ----- what a file name says -----

  /** Letters and digits of ASCII, spelled out. */
  lemma AlnumIff(c: char)
    ensures IsAlnum(c) <==> c in "0123456789" || c in "abcdefghijklmnopqrstuvwxyz" || c in "ABCDEFGHIJKLMNOPQRSTUVWXYZ"
    ensures IsDigit(c) <==> c in "0123456789"
  {
  }

  predicate IsLabel(title: string) {
    title != "" && IsAlnum(title[0]) && forall i :: 0 <= i < |title| ==> IsAlnum(title[i]) || title[i] in "_-"
  }

  /** A name is accepted exactly if it is six digits, an underscore, a label and ".sql". */
  lemma NameIff(name: string)
    ensures WellNamed(name) <==>
              exists digits, title ::
                |digits| == 6 && AllDigits(digits) && IsLabel(title) && name == digits + "_" + title + ".sql"
  {
    if WellNamed(name) {
      var digits, title := name[..6], name[7..|name| - 4];
      assert IsLabel(title);
      assert name == digits + "_" + title + ".sql";
    }
    forall digits, title | |digits| == 6 && AllDigits(digits) && IsLabel(title) && name == digits + "_" + title + ".sql"
      ensures WellNamed(name)
    {
      PartsAreWellNamed(digits, title);
    }
  }

  lemma PartsAreWellNamed(digits: string, title: string)
    requires |digits| == 6 && AllDigits(digits) && IsLabel(title)
    ensures WellNamed(digits + "_" + title + ".sql") && (digits + "_" + title + ".sql")[..6] == digits
  {
    var name := digits + "_" + title + ".sql";
    assert name[..6] == digits && name[|name| - 4..] == ".sql";
    assert forall i :: 7 <= i < |name| - 4 ==> name[i] == title[i - 7];
  }

  lemma {:induction false} NumberOfDecimal(n: nat)
    ensures AllDigits(Decimal(n)) && Number(Decimal(n)) == n
  {
    DecimalIsDigits(n);
    LastDigit(n);
    var s := Decimal(n);
    assert s[..|s| - 1] == if n < 10 then [] else Decimal(n / 10);
    if n >= 10 {
      NumberOfDecimal(n / 10);
    }
  }

  lemma {:induction false} NumberOfPadded(zeros: string, digits: string)
    requires AllDigits(digits) && forall i :: 0 <= i < |zeros| ==> zeros[i] == '0'
    ensures AllDigits(zeros + digits) && Number(zeros + digits) == Number(digits)
    decreases |digits|, |zeros|
  {
    if digits == "" {
      assert zeros + digits == zeros;
      if zeros != "" {
        NumberOfPadded(zeros[..|zeros| - 1], "");
        assert zeros[..|zeros| - 1] + "" == zeros[..|zeros| - 1];
      }
    } else {
      NumberOfPadded(zeros, digits[..|digits| - 1]);
      var s := zeros + digits;
      assert s[..|s| - 1] == zeros + digits[..|digits| - 1] && s[|s| - 1] == digits[|digits| - 1];
    }
  }

  /** The version of a file is the number its name starts with, leading zeros not counting. */
  lemma VersionIsTheNumber(zeros: string, n: nat, title: string, contents: string, hash: string -> string)
    requires (forall i :: 0 <= i < |zeros| ==> zeros[i] == '0') && |zeros + Decimal(n)| == 6
    requires n > 0 && IsLabel(title) && Trim(contents) != ""
    ensures var name := zeros + Decimal(n) + "_" + title + ".sql";
            var e := Entry(false, name, Some(contents));
            Valid(e) && MigrationOf(e, hash) == Migration(n, name, hash(contents))
  {
    NumberOfDecimal(n);
    NumberOfPadded(zeros, Decimal(n));
    PartsAreWellNamed(zeros + Decimal(n), title);
  }

  /** A file of white space is as bad as one that cannot be read, and so is version zero. */
  lemma EmptyFileIsRefused(e: Entry)
    ensures e.contents.None? || IsBlank(e.contents.value) ==> !Valid(e)
    ensures WellNamed(e.name) && Number(e.name[..6]) == 0 ==> !Valid(e)
  {
    if e.contents.Some? {
      TrimBlankIff(e.contents.value);
    }
  }
}
