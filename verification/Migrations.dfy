/** The migration runner: any number of processes start it over one fixed list of files, and every
    database call may fail (internal/store/migrate.go, RunEmbeddedMigrations and alreadyApplied).

    A transaction's effects become visible at its commit. Two open transactions cannot both have inserted one
    version: the second INSERT waits, and fails if the first commits (the primary key of schema_migrations). */
module Migrations {
  import opened Common
  import opened MigrationFiles
  import opened Checksums

  datatype File = File(filename: string, data: seq<Byte>)

  function Version(f: File): int {
    ParseFilename(f.filename).version
  }

  function Versions(fs: seq<File>): set<int> {
    set i | 0 <= i < |fs| :: Version(fs[i])
  }

  /** The first file of each version, in order. */
  function Firsts(fs: seq<File>): seq<File> {
    if fs == [] then []
    else
      var before, f := fs[..|fs| - 1], fs[|fs| - 1];
      Firsts(before) + if Version(f) in Versions(before) then [] else [f]
  }

  /** What is committed: the scripts that took effect, in order, and the rows of schema_migrations. */
  datatype Database = Database(scripts: seq<seq<Byte>>, rows: map<int, string>)

  function Scripts(fs: seq<File>): (r: seq<seq<Byte>>)
    ensures |r| == |fs|
  {
    if fs == [] then [] else Scripts(fs[..|fs| - 1]) + [fs[|fs| - 1].data]
  }

  function Rows(fs: seq<File>): map<int, string> {
    if fs == [] then map[]
    else Rows(fs[..|fs| - 1])[Version(fs[|fs| - 1]) := ChecksumOf(fs[|fs| - 1].data)]
  }

  /** Exactly the first files of the first so many versions have taken effect, each together with its row. */
  ghost predicate IsPrefix(db: Database, files: seq<File>) {
    && |db.scripts| <= |Firsts(files)|
    && db.scripts == Scripts(Firsts(files)[..|db.scripts|])
    && db.rows == Rows(Firsts(files)[..|db.scripts|])
  }

  /** The committing transaction's effect. */
  function Commit(db: Database, f: File): Database {
    Database(db.scripts + [f.data], db.rows[Version(f) := ChecksumOf(f.data)])
  }

  // ----- Lists of first files -----

  ghost predicate Distinct(fs: seq<File>) {
    forall i, j :: 0 <= i < j < |fs| ==> Version(fs[i]) != Version(fs[j])
  }

  lemma VersionsOfAppend(fs: seq<File>, f: File)
    ensures Versions(fs + [f]) == Versions(fs) + {Version(f)}
  {
    var g := fs + [f];
    forall v | v in Versions(fs) ensures v in Versions(g) {
      var i :| 0 <= i < |fs| && Version(fs[i]) == v;
      assert g[i] == fs[i];
    }
    assert g[|fs|] == f;
  }

  lemma FirstsOfAppend(fs: seq<File>, f: File)
    ensures Firsts(fs + [f]) == Firsts(fs) + if Version(f) in Versions(fs) then [] else [f]
  {
    assert (fs + [f])[..|fs|] == fs;
  }

  lemma NoFirsts()
    ensures Firsts([]) == []
  {
  }

  lemma VersionListed(fs: seq<File>, k: nat, i: nat)
    requires i < k <= |fs|
    ensures Version(fs[i]) in Versions(fs[..k])
  {
    assert fs[..k][i] == fs[i];
  }

  lemma LaterVersionIsNew(fs: seq<File>, k: nat)
    requires k < |fs| && Distinct(fs)
    ensures Version(fs[k]) !in Versions(fs[..k])
  {
  }

  lemma {:induction false} FirstsKeepVersions(fs: seq<File>)
    ensures Versions(Firsts(fs)) == Versions(fs) && Distinct(Firsts(fs))
  {
    NoFirsts();
    hide Firsts, Version;
    if fs == [] {
    } else {
      hide Versions, Distinct;
      var before, f := fs[..|fs| - 1], fs[|fs| - 1];
      FirstsKeepVersions(before);
      assert fs == before + [f];
      FirstsOfAppend(before, f);
      VersionsOfAppend(before, f);
      VersionsOfAppend(Firsts(before), f);
      DistinctAppend(Firsts(before), f);
      assert Version(f) in Versions(before) ==> Firsts(fs) == Firsts(before);
    }
  }

  lemma DistinctAppend(fs: seq<File>, f: File)
    ensures Distinct(fs + [f]) <==> Distinct(fs) && Version(f) !in Versions(fs)
  {
    hide Version;
    var g := fs + [f];
    if Distinct(g) {
      forall i, j | 0 <= i < j < |fs| ensures Version(fs[i]) != Version(fs[j]) {
        assert g[i] == fs[i] && g[j] == fs[j];
      }
      forall i | 0 <= i < |fs| ensures Version(fs[i]) != Version(f) {
        assert g[i] == fs[i] && g[|fs|] == f;
      }
    }
  }

  lemma {:induction false} FirstsOfPrefix(fs: seq<File>, i: nat)
    requires i <= |fs|
    ensures Firsts(fs[..i]) <= Firsts(fs)
  {
    if i < |fs| {
      var before := fs[..|fs| - 1];
      FirstsOfPrefix(before, i);
      assert before[..i] == fs[..i];
    } else {
      assert fs[..i] == fs;
    }
  }

  lemma {:induction false} RowsHaveVersions(fs: seq<File>)
    ensures Rows(fs).Keys == Versions(fs)
  {
    if fs == [] {
    } else {
      RowsHaveVersions(fs[..|fs| - 1]);
      assert fs == fs[..|fs| - 1] + [fs[|fs| - 1]];
      VersionsOfAppend(fs[..|fs| - 1], fs[|fs| - 1]);
    }
  }

  /** If every earlier file's version is recorded and file i's is not, file i is the next first file. */
  lemma NextFirst(db: Database, files: seq<File>, i: nat)
    requires IsPrefix(db, files) && i < |files|
    requires Versions(files[..i]) <= db.rows.Keys && Version(files[i]) !in db.rows
    ensures |db.scripts| < |Firsts(files)| && Firsts(files)[|db.scripts|] == files[i]
  {
    hide ParseFilename, Version, Versions, Scripts, Rows, Distinct;
    var firsts, k := Firsts(files), |db.scripts|;
    var before, f := Firsts(files[..i]), files[i];
    var p := |before|;
    FirstsKeepVersions(files);
    FirstsKeepVersions(files[..i]);
    FirstsOfPrefix(files, i);
    FirstsOfPrefix(files, i + 1);
    assert files[..i + 1][..i] == files[..i];
    assert Firsts(files[..i + 1]) == before + [f];
    assert firsts[..p] == before && firsts[p] == f;
    RowsHaveVersions(firsts[..k]);
    if p < k {
      VersionListed(firsts, k, p);
    }
    if k < p {
      VersionListed(firsts, p, k);
      LaterVersionIsNew(firsts, k);
    }
  }

  lemma CommitExtendsPrefix(db: Database, files: seq<File>, i: nat)
    requires IsPrefix(db, files) && i < |files|
    requires Versions(files[..i]) <= db.rows.Keys && Version(files[i]) !in db.rows
    ensures IsPrefix(Commit(db, files[i]), files)
  {
    hide ParseFilename, Firsts, ChecksumOf;
    NextFirst(db, files, i);
    var k := |db.scripts|;
    assert Firsts(files)[..k + 1][..k] == Firsts(files)[..k];
  }

  // ----- What is applied, file by file -----

  /** No earlier file has this file's version. */
  ghost predicate IsFirstFile(files: seq<File>, i: nat)
    requires i < |files|
  {
    forall j :: 0 <= j < i ==> ParseFilename(files[j].filename).version != ParseFilename(files[i].filename).version
  }

  /** The scripts that took effect are those of exactly these files, in the order of the list, and the rows record each
      version with the checksum of its script. */
  ghost predicate AppliesExactly(files: seq<File>, order: seq<nat>, scripts: seq<seq<Byte>>, rows: map<int, string>) {
    && |order| == |scripts|
    && (forall k :: 0 <= k < |order| ==>
          && order[k] < |files| && scripts[k] == files[order[k]].data
          && ParseFilename(files[order[k]].filename).version in rows
          && rows[ParseFilename(files[order[k]].filename).version] == ChecksumOf(files[order[k]].data))
    && (forall k, m :: 0 <= k < m < |order| ==> order[k] < order[m])
    && (forall v :: v in rows ==> exists k :: 0 <= k < |order| && ParseFilename(files[order[k]].filename).version == v)
  }

  /** The places of the first files, in order. */
  ghost predicate IsOrder(files: seq<File>, order: seq<nat>) {
    && (forall k :: 0 <= k < |order| ==> order[k] < |files|)
    && (forall k, m :: 0 <= k < m < |order| ==> order[k] < order[m])
    && (forall i :: 0 <= i < |files| ==> (i in order <==> IsFirstFile(files, i)))
  }

  lemma FirstFileOfPrefix(files: seq<File>, n: nat, i: nat)
    requires i < n <= |files|
    ensures IsFirstFile(files[..n], i) <==> IsFirstFile(files, i)
  {
    hide ParseFilename;
    assert forall j :: 0 <= j < n ==> files[..n][j] == files[j];
  }

  lemma OrderGrows(files: seq<File>, order: seq<nat>)
    requires files != [] && IsOrder(files[..|files| - 1], order)
    ensures var n := |files| - 1; IsOrder(files, if IsFirstFile(files, n) then order + [n] else order)
  {
    var n := |files| - 1;
    hide IsFirstFile;
    forall i | 0 <= i < n ensures IsFirstFile(files[..n], i) <==> IsFirstFile(files, i) {
      FirstFileOfPrefix(files, n, i);
    }
    var grown := if IsFirstFile(files, n) then order + [n] else order;
    forall i | 0 <= i < |files| ensures i in grown <==> IsFirstFile(files, i) {
      assert n !in order;
    }
  }

  /** These places hold the first files of each version. */
  ghost predicate HoldsFirsts(files: seq<File>, order: seq<nat>, firsts: seq<File>) {
    |order| == |firsts| && forall k :: 0 <= k < |order| ==> order[k] < |files| && firsts[k] == files[order[k]]
  }

  lemma FirstsGrow(files: seq<File>, order: seq<nat>, firsts: seq<File>)
    requires files != [] && HoldsFirsts(files[..|files| - 1], order, firsts)
    ensures HoldsFirsts(files, order, firsts)
    ensures HoldsFirsts(files, order + [|files| - 1], firsts + [files[|files| - 1]])
  {
  }

  lemma NoOrder()
    ensures IsOrder([], []) && HoldsFirsts([], [], [])
  {
  }

  lemma {:induction false} FirstsAreFirstFiles(files: seq<File>) returns (order: seq<nat>)
    ensures IsOrder(files, order) && HoldsFirsts(files, order, Firsts(files))
  {
    hide *;
    NoFirsts();
    if files == [] {
      NoOrder();
      order := [];
    } else {
      var n := |files| - 1;
      var before, f := files[..n], files[n];
      order := FirstsAreFirstFiles(before);
      OrderGrows(files, order);
      NewVersion(files);
      assert files == before + [f];
      FirstsOfAppend(before, f);
      FirstsGrow(files, order, Firsts(before));
      assert Firsts(before) + [] == Firsts(before);
      order := if IsFirstFile(files, n) then order + [n] else order;
    }
  }

  lemma NewVersion(files: seq<File>)
    requires files != []
    ensures IsFirstFile(files, |files| - 1) <==> Version(files[|files| - 1]) !in Versions(files[..|files| - 1])
  {
    hide ParseFilename;
    var n := |files| - 1;
    if Version(files[n]) in Versions(files[..n]) {
      var i :| 0 <= i < n && Version(files[..n][i]) == Version(files[n]);
      assert files[..n][i] == files[i];
    }
    forall j | 0 <= j < n && Version(files[j]) == Version(files[n]) ensures Version(files[n]) in Versions(files[..n]) {
      assert files[..n][j] == files[j];
    }
  }

  lemma {:induction false} ScriptAndRow(fs: seq<File>, k: nat)
    requires k < |fs| && Distinct(fs)
    ensures Scripts(fs)[k] == fs[k].data
    ensures Version(fs[k]) in Rows(fs) && Rows(fs)[Version(fs[k])] == ChecksumOf(fs[k].data)
  {
    hide Version, ChecksumOf;
    if k < |fs| - 1 {
      ScriptAndRow(fs[..|fs| - 1], k);
    }
  }

  /** What success means. */
  lemma WholeListIsApplied(files: seq<File>) returns (order: seq<nat>)
    ensures AppliesExactly(files, order, Scripts(Firsts(files)), Rows(Firsts(files))) && IsOrder(files, order)
  {
    order := FirstsAreFirstFiles(files);
    FirstsKeepVersions(files);
    var firsts := Firsts(files);
    RowsHaveVersions(firsts);
    hide ParseFilename, ChecksumOf, Firsts, Scripts, Rows, IsFirstFile, Distinct;
    forall k | 0 <= k < |firsts|
      ensures Scripts(firsts)[k] == files[order[k]].data && Version(firsts[k]) in Rows(firsts) &&
              Rows(firsts)[Version(firsts[k])] == ChecksumOf(files[order[k]].data)
    {
      ScriptAndRow(firsts, k);
    }
    forall v | v in Rows(firsts)
      ensures exists k :: 0 <= k < |order| && ParseFilename(files[order[k]].filename).version == v
    {
      var k :| 0 <= k < |firsts| && Version(firsts[k]) == v;
      assert ParseFilename(files[order[k]].filename).version == v;
    }
  }

  // ----- Concurrent runners -----

  datatype Runner =
    | Starting
    | At(i: nat)
    | Unrecorded(i: nat)
    | InTransaction(i: nat)
    | Executed(i: nat)
    | Recorded(i: nat)
    | Succeeded
    | Failed

  datatype State = State(db: Database, runners: map<nat, Runner>)

  const INIT := State(Database([], map[]), map[])

  /** One call of one runner; when alreadyApplied gets no answer it says false. */
  datatype Event =
    | Launch(runner: nat)
    | EnsureTable(runner: nat, fault: Fault)
    | Check(runner: nat, answered: bool)
    | Begin(runner: nat, fault: Fault)
    | Execute(runner: nat, fault: Fault)
    | Record(runner: nat, fault: Fault)
    | CommitTx(runner: nat, fault: Fault)
    | Crash(runner: nat)

  /** Another open transaction has inserted this version. */
  ghost predicate Blocked(s: State, files: seq<File>, r: nat, v: int) {
    exists q :: q in s.runners && q != r && s.runners[q].Recorded? && s.runners[q].i < |files| &&
      Version(files[s.runners[q].i]) == v
  }

  function Step(s: State, r: nat, to: Runner): State {
    s.(runners := s.runners[r := to])
  }

  ghost function Next(s: State, files: seq<File>, e: Event): State {
    var r := e.runner;
    if e.Launch? then (if r in s.runners then s else Step(s, r, Starting))
    else if r !in s.runners then s
    else
      var here := s.runners[r];
      match e
      case Crash(_) => Step(s, r, Failed)
      case EnsureTable(_, fault) =>
        if !here.Starting? then s else Step(s, r, if fault.Answered? then At(0) else Failed)
      case Check(_, answered) =>
        if !here.At? then s
        else if here.i >= |files| then Step(s, r, Succeeded)
        else if Version(files[here.i]) <= 0 then Step(s, r, Failed)
        else if answered && Version(files[here.i]) in s.db.rows then Step(s, r, At(here.i + 1))
        else Step(s, r, Unrecorded(here.i))
      case Begin(_, fault) =>
        if !here.Unrecorded? then s else Step(s, r, if fault.Answered? then InTransaction(here.i) else Failed)
      case Execute(_, fault) =>
        if !here.InTransaction? then s else Step(s, r, if fault.Answered? then Executed(here.i) else Failed)
      case Record(_, fault) =>
        if !here.Executed? || here.i >= |files| || Blocked(s, files, r, Version(files[here.i])) then s
        else if !fault.Answered? || Version(files[here.i]) in s.db.rows then Step(s, r, Failed)
        else Step(s, r, Recorded(here.i))
      case CommitTx(_, fault) =>
        if !here.Recorded? || here.i >= |files| then s
        else Step(s.(db := Effect(fault, s.db, Commit(s.db, files[here.i]))), r,
                  if fault.Answered? then At(here.i + 1) else Failed)
  }

  ghost function Run(files: seq<File>, es: seq<Event>): State {
    if es == [] then INIT else Next(Run(files, es[..|es| - 1]), files, es[|es| - 1])
  }

  ghost predicate RunnerOk(db: Database, files: seq<File>, r: Runner) {
    && ((r.At? || r.Unrecorded? || r.InTransaction? || r.Executed? || r.Recorded?) ==>
          && r.i <= |files| && Versions(files[..r.i]) <= db.rows.Keys
          && (!r.At? ==> r.i < |files|))
    && (r.Recorded? ==> Version(files[r.i]) !in db.rows)
    && (r.Succeeded? ==> Versions(files) <= db.rows.Keys)
  }

  ghost predicate Inv(s: State, files: seq<File>) {
    && IsPrefix(s.db, files)
    && (forall r :: r in s.runners ==> RunnerOk(s.db, files, s.runners[r]))
    && (forall q, r :: q in s.runners && r in s.runners && q != r && s.runners[q].Recorded? && s.runners[r].Recorded? ==>
          Version(files[s.runners[q].i]) != Version(files[s.runners[r].i]))
  }

  lemma VersionsOfOneMore(files: seq<File>, i: nat)
    requires i < |files|
    ensures Versions(files[..i + 1]) == Versions(files[..i]) + {Version(files[i])}
  {
    assert files[..i + 1] == files[..i] + [files[i]];
    VersionsOfAppend(files[..i], files[i]);
  }

  lemma CommitKeepsInv(s: State, files: seq<File>, r: nat, fault: Fault)
    requires Inv(s, files) && r in s.runners && s.runners[r].Recorded?
    ensures Inv(Next(s, files, CommitTx(r, fault)), files)
  {
    hide IsPrefix, Version, Versions, ChecksumOf;
    var i := s.runners[r].i;
    VersionsOfOneMore(files, i);
    CommitExtendsPrefix(s.db, files, i);
  }

  lemma RecordKeepsInv(s: State, files: seq<File>, r: nat, fault: Fault)
    requires Inv(s, files)
    ensures Inv(Next(s, files, Record(r, fault)), files)
  {
    hide IsPrefix, Version, Versions, ChecksumOf;
  }

  lemma StepKeepsInv(s: State, files: seq<File>, e: Event)
    requires Inv(s, files)
    ensures Inv(Next(s, files, e), files)
  {
    hide IsPrefix, Version, Versions, ChecksumOf, Blocked;
    EmptyVersions(files);
    assert files[..|files|] == files;
    match e
    case Check(r, answered) =>
      if r in s.runners && s.runners[r].At? && s.runners[r].i < |files| {
        VersionsOfOneMore(files, s.runners[r].i);
      }
    case Record(r, fault) =>
      RecordKeepsInv(s, files, r, fault);
    case CommitTx(r, fault) =>
      if r in s.runners && s.runners[r].Recorded? {
        CommitKeepsInv(s, files, r, fault);
      }
    case _ =>
  }

  lemma EmptyVersions(files: seq<File>)
    ensures Versions(files[..0]) == {}
  {
  }

  lemma {:induction false} InvHolds(files: seq<File>, es: seq<Event>)
    ensures Inv(Run(files, es), files)
  {
    if es == [] {
      assert Firsts(files)[..0] == [];
    } else {
      InvHolds(files, es[..|es| - 1]);
      StepKeepsInv(Run(files, es[..|es| - 1]), files, es[|es| - 1]);
    }
  }

  /** Whatever the interleaving, the faults and the wrong answers of alreadyApplied, what is committed is a prefix
      of the first-file-per-version list, each script applied once and together with its row. */
  lemma {:induction false} CommittedIsPrefix(files: seq<File>, es: seq<Event>)
    ensures IsPrefix(Run(files, es).db, files)
  {
    InvHolds(files, es);
  }

  lemma {:induction false} FirstsAreAllFilesIfDistinct(files: seq<File>)
    ensures |Firsts(files)| <= |files|
    ensures |Firsts(files)| == |files| <==> Distinct(files)
  {
    NoFirsts();
    hide Firsts, Version;
    if files == [] {
    } else {
      hide Versions, Distinct;
      var before, f := files[..|files| - 1], files[|files| - 1];
      FirstsAreAllFilesIfDistinct(before);
      assert files == before + [f];
      FirstsOfAppend(before, f);
      DistinctAppend(before, f);
    }
  }

  /** Once some runner has succeeded, the first file of every version is applied; every file of the list has been
      applied if and only if no two of them share a version. */
  lemma SuccessAppliesEveryVersion(files: seq<File>, es: seq<Event>, r: nat)
    requires r in Run(files, es).runners && Run(files, es).runners[r].Succeeded?
    ensures Run(files, es).db.scripts == Scripts(Firsts(files)) && Run(files, es).db.rows == Rows(Firsts(files))
    ensures exists order ::
              AppliesExactly(files, order, Run(files, es).db.scripts, Run(files, es).db.rows) && IsOrder(files, order)
    ensures |Run(files, es).db.scripts| == |files| <==> Distinct(files)
  {
    InvHolds(files, es);
    WholePrefix(Run(files, es).db, files);
    FirstsAreAllFilesIfDistinct(files);
    var order := WholeListIsApplied(files);
    hide AppliesExactly, IsOrder, Run, Distinct, Firsts, Scripts, Rows, Inv;
  }

  lemma WholePrefix(db: Database, files: seq<File>)
    requires IsPrefix(db, files) && Versions(files) <= db.rows.Keys
    ensures db.scripts == Scripts(Firsts(files)) && db.rows == Rows(Firsts(files))
  {
    hide Version, Versions, Scripts, Rows, Firsts, Distinct;
    var firsts, k := Firsts(files), |db.scripts|;
    FirstsKeepVersions(files);
    RowsHaveVersions(firsts[..k]);
    if k < |firsts| {
      VersionListed(firsts, |firsts|, k);
      LaterVersionIsNew(firsts, k);
    }
    assert firsts[..|firsts|] == firsts;
  }

  lemma FirstsOfThree(a: File, b: File, c: File)
    requires Version(a) != Version(b) && Version(c) == Version(b)
    ensures Firsts([a, b, c]) == [a, b]
  {
    NoFirsts();
    hide Firsts, Version;
    assert [a] == [] + [a] && [a, b] == [a] + [b] && [a, b, c] == [a, b] + [c];
    FirstsOfAppend([], a);
    FirstsOfAppend([a], b);
    FirstsOfAppend([a, b], c);
    VersionsOfAppend([], a);
    VersionsOfAppend([a], b);
  }

  /** The repository ships two files with version 2: whatever their contents, the second one is never applied. */
  lemma {:induction false} SecondVersionTwoIsNeverApplied(a: File, b: File, c: File, es: seq<Event>)
    requires a.filename == PrintFilename(1, 3, "init")
    requires b.filename == PrintFilename(2, 3, "jobs")
    requires c.filename == PrintFilename(2, 3, "typed_statuses")
    ensures Run([a, b, c], es).db.scripts <= [a.data, b.data]
  {
    hide Run, Firsts, PrintFilename, ParseFilename;
    CommittedIsPrefix([a, b, c], es);
    ParseUndoesPrint(1, 3, "init");
    ParseUndoesPrint(2, 3, "jobs");
    ParseUndoesPrint(2, 3, "typed_statuses");
    FirstsOfThree(a, b, c);
    ScriptsOfPrefix([a, b], |Run([a, b, c], es).db.scripts|);
    ScriptsOfTwo(a, b);
  }

  lemma ScriptsOfTwo(a: File, b: File)
    ensures Scripts([a, b]) == [a.data, b.data]
  {
    assert [a, b][..1] == [a] && [a][..0] == [];
    assert Scripts([a]) == [a.data];
  }

  lemma {:induction false} ScriptsOfPrefix(fs: seq<File>, k: nat)
    requires k <= |fs|
    ensures Scripts(fs[..k]) <= Scripts(fs)
  {
    if k < |fs| {
      ScriptsOfPrefix(fs[..|fs| - 1], k);
      assert fs[..|fs| - 1][..k] == fs[..k];
    } else {
      assert fs[..k] == fs;
    }
  }

  // ----- Order -----

  /** Sorted file names with prefixes of one width are applied in strictly increasing order of version. */
  lemma AppliedInVersionOrder(files: seq<File>, width: nat, i: nat, j: nat)
    requires forall a, b :: 0 <= a <= b < |files| ==> StringLeq(files[a].filename, files[b].filename)
    requires forall a :: 0 <= a < |files| ==> HasWidth(files[a].filename, width)
    requires i < j < |Firsts(files)|
    ensures Version(Firsts(files)[i]) < Version(Firsts(files)[j])
  {
    FirstsKeepVersions(files);
    hide StringLeq, HasWidth, Version;
    var a, b := FirstsAreOrdered(files, i, j);
    SameWidthSortsByVersion(files[a].filename, files[b].filename, width);
    VersionIs(files[a]);
    VersionIs(files[b]);
  }

  lemma VersionsAre(files: seq<File>)
    ensures forall i :: 0 <= i < |files| ==> Version(files[i]) == ParseFilename(files[i].filename).version
  {
  }

  lemma VersionIs(f: File)
    ensures Version(f) == ParseFilename(f.filename).version
  {
  }

  lemma {:induction false} FirstsAreOrdered(files: seq<File>, i: nat, j: nat) returns (a: nat, b: nat)
    requires i < j < |Firsts(files)|
    ensures a < b < |files| && files[a] == Firsts(files)[i] && files[b] == Firsts(files)[j]
  {
    hide Firsts, Version, Versions;
    NoFirsts();
    var before := files[..|files| - 1];
    assert files == before + [files[|files| - 1]];
    FirstsOfAppend(before, files[|files| - 1]);
    if j < |Firsts(before)| {
      a, b := FirstsAreOrdered(before, i, j);
    } else {
      b := |files| - 1;
      a := FirstIsAFile(before, i);
    }
  }

  lemma {:induction false} FirstIsAFile(files: seq<File>, i: nat) returns (a: nat)
    requires i < |Firsts(files)|
    ensures a < |files| && files[a] == Firsts(files)[i]
  {
    hide Firsts, Version, Versions;
    NoFirsts();
    var before := files[..|files| - 1];
    assert files == before + [files[|files| - 1]];
    FirstsOfAppend(before, files[|files| - 1]);
    if i < |Firsts(before)| {
      a := FirstIsAFile(before, i);
    } else {
      a := |files| - 1;
    }
  }

  // ----- One runner, call by call -----

  /** One round of the loop, with the database after it and whether the runner goes on. */
  function Round(db: Database, f: File, check: Fault, begin: Fault, execute: Fault, record: Fault, commit: Fault):
      (Database, bool) {
    var v := ParseFilename(f.filename).version;
    if v <= 0 then (db, false)
    else if check.Answered? && v in db.rows then (db, true)
    else if !begin.Answered? || !execute.Answered? || !record.Answered? || v in db.rows then (db, false)
    else (Effect(commit, db, Database(db.scripts + [f.data], db.rows[v := ChecksumOf(f.data)])), commit.Answered?)
  }

  /** While no other runner is at work, a runner of the machine makes exactly such rounds. */
  lemma RoundIsRun(s: State, files: seq<File>, r: nat, check: Fault, begin: Fault, execute: Fault, record: Fault,
                   commit: Fault)
    requires r in s.runners && s.runners[r].At? && s.runners[r].i < |files|
    requires forall q :: q in s.runners && q != r ==> !s.runners[q].Recorded?
    ensures var i := s.runners[r].i;
            var (db, goesOn) := Round(s.db, files[i], check, begin, execute, record, commit);
            var s1 := Next(s, files, Check(r, check.Answered?));
            var s2 := Next(Next(s1, files, Begin(r, begin)), files, Execute(r, execute));
            var t := if s1.runners[r].Unrecorded? then Next(Next(s2, files, Record(r, record)), files, CommitTx(r, commit))
                     else s1;
            t.db == db && t.runners == s.runners[r := if goesOn then At(i + 1) else Failed]
  {
    hide ParseFilename, ChecksumOf;
    var v := Version(files[s.runners[r].i]);
    var s1 := Next(s, files, Check(r, check.Answered?));
    var s2 := Next(Next(s1, files, Begin(r, begin)), files, Execute(r, execute));
    assert !Blocked(s2, files, r, v);
  }

  lemma RoundKeepsPrefix(db: Database, files: seq<File>, i: nat, check: Fault, begin: Fault, execute: Fault, record: Fault,
                         commit: Fault)
    requires IsPrefix(db, files) && i < |files| && Versions(files[..i]) <= db.rows.Keys
    ensures var (db', ok) := Round(db, files[i], check, begin, execute, record, commit);
            && IsPrefix(db', files) && db.scripts <= db'.scripts
            && (ok ==> Version(files[i]) > 0 && Versions(files[..i + 1]) <= db'.rows.Keys)
            && ((check.Answered? && begin.Answered? && execute.Answered? && record.Answered? && commit.Answered? &&
                 Version(files[i]) > 0) ==> ok)
  {
    VersionIs(files[i]);
    VersionsOfOneMore(files, i);
    hide IsPrefix, Version, Versions, ParseFilename, ChecksumOf;
    if Version(files[i]) !in db.rows {
      CommitExtendsPrefix(db, files, i);
    }
  }

  /** The database as one runner sees it when no other runner is at work. */
  class Pool {
    var scripts: seq<seq<Byte>>
    var rows: map<int, string>

    function Contents(): Database
      reads this
    {
      Database(scripts, rows)
    }

    method AlreadyApplied(version: int, fault: Fault) returns (applied: bool)
      ensures applied == (fault.Answered? && version in rows)
    {
      var exists_ := version in rows;
      applied := fault.Answered? && exists_;
    }

    /** The INSERT, its primary key, and the commit of one transaction that has run the script. */
    method RecordAndCommit(f: File, record: Fault, commit: Fault) returns (ok: bool)
      modifies this
      ensures Contents() == if record.Answered? && Version(f) !in old(rows)
                            then Effect(commit, old(Contents()), Commit(old(Contents()), f)) else old(Contents())
      ensures ok == (record.Answered? && commit.Answered? && Version(f) !in old(rows))
    {
      if !record.Answered? || Version(f) in rows {
        return false;
      }
      if !commit.Refused? {
        var checksum := ComputeChecksum(f.data);
        scripts, rows := scripts + [f.data], rows[Version(f) := checksum];
      }
      ok := commit.Answered?;
    }

    /** One round of the loop. */
    method RunFile(f: File, check: Fault, begin: Fault, execute: Fault, record: Fault, commit: Fault) returns (ok: bool)
      modifies this
      ensures (Contents(), ok) == Round(old(Contents()), f, check, begin, execute, record, commit)
    {
      VersionIs(f);
      hide Version, ParseFilename, ChecksumOf;
      if Version(f) <= 0 {
        return false;
      }
      var applied := AlreadyApplied(Version(f), check);
      if applied {
        return true;
      }
      if !begin.Answered? || !execute.Answered? {
        return false;
      }
      ok := RecordAndCommit(f, record, commit);
    }

    /** One round of the loop against what earlier runs left; the calls it makes end as faults(n), faults(n + 1), ... */
    method ApplyFile(files: seq<File>, i: nat, faults: nat -> Fault, n: nat) returns (ok: bool)
      requires IsPrefix(Contents(), files) && i < |files| && Versions(files[..i]) <= rows.Keys
      modifies this
      ensures IsPrefix(Contents(), files) && old(scripts) <= scripts
      ensures ok ==> Version(files[i]) > 0 && Versions(files[..i + 1]) <= rows.Keys
      ensures (forall m :: faults(m).Answered?) && Version(files[i]) > 0 ==> ok
      ensures (Contents(), ok) ==
              Round(old(Contents()), files[i], faults(n), faults(n + 1), faults(n + 2), faults(n + 3), faults(n + 4))
    {
      RoundKeepsPrefix(Contents(), files, i, faults(n), faults(n + 1), faults(n + 2), faults(n + 3), faults(n + 4));
      hide IsPrefix, Version, Versions, Round;
      ok := RunFile(files[i], faults(n), faults(n + 1), faults(n + 2), faults(n + 3), faults(n + 4));
    }

    /** Runs the files against a table that earlier runs have left. `faults` says how its successive calls end.
        Nothing committed is undone; success means that the first file of every version is applied;
        and without a fault only an invalid file name stops it. */
    method RunEmbeddedMigrations(files: seq<File>, faults: nat -> Fault) returns (ok: bool)
      requires IsPrefix(Contents(), files)
      modifies this
      ensures IsPrefix(Contents(), files) && old(scripts) <= scripts
      ensures ok ==> exists order :: AppliesExactly(files, order, scripts, rows) && IsOrder(files, order)
      ensures ok ==> forall i :: 0 <= i < |files| ==> ParseFilename(files[i].filename).version > 0
      ensures ((forall n :: faults(n).Answered?) &&
               (forall i :: 0 <= i < |files| ==> ParseFilename(files[i].filename).version > 0)) ==> ok
    {
      VersionsAre(files);
      hide IsPrefix, Version, Versions, ChecksumOf, Firsts, Scripts, Rows, ParseFilename, AppliesExactly, IsFirstFile,
        IsOrder;
      if !faults(0).Answered? {
        return false;
      }
      EmptyVersions(files);
      for i := 0 to |files|
        invariant IsPrefix(Contents(), files) && old(scripts) <= scripts
        invariant Versions(files[..i]) <= rows.Keys
        invariant forall k :: 0 <= k < i ==> Version(files[k]) > 0
      {
        var applied := ApplyFile(files, i, faults, 1 + 5 * i);
        if !applied {
          return false;
        }
      }
      assert files[..|files|] == files;
      WholePrefix(Contents(), files);
      ghost var order := WholeListIsApplied(files);
      ok := true;
    }
  }
}
