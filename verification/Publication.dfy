/** All-or-nothing publication of a source-rooted run: database artifacts and output file, with a fault
    possible at every step up to the restoring ones. */
module Publication {
  import opened Json

  type FilePath = seq<string>

  type Bytes = seq<char>

  datatype Node = File(bytes: Bytes) | Symlink | Directory

  predicate Same(a: map<FilePath, Node>, b: map<FilePath, Node>, p: FilePath) {
    (p in a <==> p in b) && (p in a ==> a[p] == b[p])
  }

  predicate Below(root: FilePath, p: FilePath) {
    root <= p
  }

  /** The four SQLite artifacts of a database path. */
  function DatabasePaths(database: FilePath): seq<FilePath>
    requires database != []
  {
    var dir, name := database[..|database| - 1], database[|database| - 1];
    [database, dir + [name + "-journal"], dir + [name + "-wal"], dir + [name + "-shm"]]
  }

  ghost function Artifacts(database: Option<FilePath>): set<FilePath>
    requires database.Some? ==> database.value != []
  {
    if database.None? then {} else set k: nat | k < 4 :: DatabasePaths(database.value)[k]
  }

  /** `p` is the database file, or stands beside it under the file's name with this suffix. */
  ghost predicate IsArtifact(database: FilePath, p: FilePath, suffix: string)
    requires database != []
  {
    && |p| == |database| && (forall k :: 0 <= k < |p| - 1 ==> p[k] == database[k])
    && p[|p| - 1] == database[|p| - 1] + suffix
  }

  /** The artifacts are the file, its rollback journal, its write-ahead log and its shared-memory index. */
  lemma ArtifactsAre(database: FilePath, p: FilePath)
    requires database != []
    ensures p in Artifacts(Some(database)) <==>
      IsArtifact(database, p, "") || IsArtifact(database, p, "-journal") || IsArtifact(database, p, "-wal") || IsArtifact(database, p, "-shm")
  {
    var n := |database| - 1;
    var paths := DatabasePaths(database);
    ArtifactIs(database, p, "");
    ArtifactIs(database, p, "-journal");
    ArtifactIs(database, p, "-wal");
    ArtifactIs(database, p, "-shm");
    hide IsArtifact;
    assert database[n] + "" == database[n];
    assert database == database[..n] + [database[n]];
    assert p in Artifacts(Some(database)) <==> p == paths[0] || p == paths[1] || p == paths[2] || p == paths[3];
  }

  lemma ArtifactIs(database: FilePath, p: FilePath, suffix: string)
    requires database != []
    ensures var n := |database| - 1; IsArtifact(database, p, suffix) <==> p == database[..n] + [database[n] + suffix]
  {
    var n := |database| - 1;
    if IsArtifact(database, p, suffix) {
      assert p == p[..n] + [p[n]];
      assert p[..n] == database[..n];
    }
  }

  /** One closed store session: what it left in the artifacts, what it read back, whether its chain verified. */
  datatype Session = Session(files: map<FilePath, Node>, result: Bytes, chainValid: bool)

  class Disk {
    var files: map<FilePath, Node>
    ghost var session: Option<Session>
    /** How often a step faulted so far, restoring steps aside. */
    ghost var faults: nat

    constructor (files: map<FilePath, Node>)
      ensures this.files == files && session.None? && faults == 0
    {
      this.files, session, faults := files, None, 0;
    }

    predicate IsRegular(p: FilePath)
      reads this
    {
      p in files && files[p].File?
    }

    /** `tempfile.mkdtemp`: a directory below which nothing exists, clear of the paths in use. */
    method MakeTempDirectory(used: set<FilePath>) returns (r: Option<FilePath>)
      modifies this`files, this`faults
      ensures r.Some? <==> faults == old(faults)
      ensures faults >= old(faults)
      ensures r.None? ==> files == old(files)
      ensures r.Some? ==>
        && files == old(files)[r.value := Directory]
        && forall p :: p in old(files) || p in used ==> !Below(r.value, p)
    {
      var candidate: FilePath := *;
      var fault: bool := *;
      if fault || (exists p :: p in files && Below(candidate, p)) || (exists p :: p in used && Below(candidate, p)) {
        faults := faults + 1;
        return None;
      }
      files := files[candidate := Directory];
      return Some(candidate);
    }

    /** `shutil.copy2`; a fault may leave part of the copy behind. */
    method Copy(source: FilePath, target: FilePath) returns (ok: bool)
      requires IsRegular(source)
      modifies this`files, this`faults
      ensures ok <==> faults == old(faults)
      ensures faults >= old(faults)
      ensures forall p :: p != target ==> Same(files, old(files), p)
      ensures ok ==> target in files && files[target] == old(files)[source]
    {
      var fault: bool := *;
      var partial: Bytes := *;
      var started: bool := *;
      if fault {
        if started {
          files := files[target := File(partial)];
        }
        faults := faults + 1;
        return false;
      }
      files := files[target := files[source]];
      return true;
    }

    /** `_stage_json_output`: a temporary file beside the output; a fault while writing removes it again. */
    method StageJsonOutput(output: FilePath, payload: Bytes, used: set<FilePath>) returns (r: Option<FilePath>)
      requires output in used && output != []
      modifies this`files, this`faults
      ensures r.Some? <==> faults == old(faults)
      ensures faults >= old(faults)
      ensures r.None? ==> files == old(files)
      ensures r.Some? ==> r.value !in old(files) && r.value !in used && files == old(files)[r.value := File(payload)]
      ensures r.Some? ==> |r.value| == |output| && r.value[..|output| - 1] == output[..|output| - 1]
    {
      var name: string := *;
      var temporary := output[..|output| - 1] + [name];
      var fault: bool := *;
      if fault || temporary in files || temporary in used {
        faults := faults + 1;
        return None;
      }
      files := files[temporary := File([])];
      var partial: Bytes := *;
      files := files[temporary := File(partial)];
      fault := *;
      if fault {
        Unlink(temporary);
        assert files == old(files);
        faults := faults + 1;
        return None;
      }
      files := files[temporary := File(payload)];
      return Some(temporary);
    }

    /** `os.replace`; the fault may strike before or after the rename. */
    method Promote(staged: FilePath, output: FilePath) returns (ok: bool)
      requires IsRegular(staged) && staged != output
      modifies this`files, this`faults
      ensures ok <==> faults == old(faults)
      ensures faults >= old(faults)
      ensures files == old(files) || files == (old(files) - {staged})[output := old(files)[staged]]
      ensures ok ==> files == (old(files) - {staged})[output := old(files)[staged]]
    {
      var renamed: bool := *;
      var fault: bool := *;
      if renamed {
        files := (files - {staged})[output := files[staged]];
      }
      ok := renamed && !fault;
      if !ok {
        faults := faults + 1;
      }
    }

    /** The store: any change to its four artifacts, then a fault or a result. It makes no directories. */
    method SaveSourceRun(database: FilePath) returns (fault: bool, stored: Bytes, chainValid: bool)
      requires database != []
      modifies this
      ensures !fault <==> faults == old(faults)
      ensures faults >= old(faults)
      ensures forall p :: p !in Artifacts(Some(database)) ==> Same(files, old(files), p)
      ensures forall p :: p in Artifacts(Some(database)) && p in files ==> !files[p].Directory?
      ensures session == Some(Session(files, stored, chainValid))
    {
      var written: map<FilePath, Node> := *;
      var paths := DatabasePaths(database);
      assert forall p :: p in Artifacts(Some(database)) <==> p in paths;
      var kept := map p | p in files && p !in paths :: files[p];
      var put := map p | p in written && p in paths && !written[p].Directory? :: written[p];
      files := kept + put;
      fault, stored, chainValid := *, *, *;
      session := Some(Session(files, stored, chainValid));
      if fault {
        faults := faults + 1;
      }
    }

    /** The run summary goes to standard output. */
    method PrintSummary() returns (ok: bool)
      modifies this`faults
      ensures ok <==> faults == old(faults)
      ensures faults >= old(faults)
    {
      ok := *;
      if !ok {
        faults := faults + 1;
      }
    }

    /** A restoring copy, taken not to fault. */
    method CopyBack(source: FilePath, target: FilePath)
      requires IsRegular(source)
      modifies this`files
      ensures files == old(files)[target := old(files)[source]]
    {
      files := files[target := files[source]];
    }

    method Unlink(p: FilePath)
      modifies this`files
      ensures files == old(files) - {p}
    {
      files := files - {p};
    }

    /** `shutil.rmtree`. */
    method RemoveTree(root: FilePath)
      modifies this`files
      ensures files == map p | p in old(files) && !Below(root, p) :: old(files)[p]
    {
      files := map p | p in files && !Below(root, p) :: files[p];
    }
  }

  // ---------- The work of one command ----------

  datatype Job = Job(database: Option<FilePath>, output: Option<FilePath>, payload: Bytes)

  predicate Proper(job: Job) {
    && (job.database.Some? ==> job.database.value != []) && (job.output.Some? ==> job.output.value != [])
    && (job.database.Some? && job.output.Some? ==> job.output.value !in DatabasePaths(job.database.value))
  }

  /** The local variables the handlers look at. */
  datatype Progress = Progress(
    rollbackRoot: Option<FilePath>, staged: Option<FilePath>, outputExisted: bool, outputBackup: Option<FilePath>,
    databaseBackups: map<FilePath, FilePath>, databaseWriteStarted: bool, outputPromotionStarted: bool)

  function Start(): Progress {
    Progress(None, None, false, None, map[], false, false)
  }

  ghost function Watched(job: Job): set<FilePath>
    requires Proper(job)
  {
    Artifacts(job.database) + (if job.output.Some? then {job.output.value} else {})
  }

  function UsedPaths(job: Job): (used: set<FilePath>)
    requires Proper(job)
    ensures used == Watched(job)
  {
    (if job.database.Some? then set k: nat | k < 4 :: DatabasePaths(job.database.value)[k] else {})
      + (if job.output.Some? then {job.output.value} else {})
  }

  /** Every watched path that exists is a regular file. */
  ghost predicate Regular(job: Job, before: map<FilePath, Node>)
    requires Proper(job)
  {
    forall p :: p in Watched(job) && p in before ==> before[p].File?
  }

  /** The store read back the payload and its chain verified. */
  ghost predicate GoodSession(job: Job, session: Option<Session>) {
    session.Some? && session.value.result == job.payload && session.value.chainValid
  }

  predicate Temporary(s: Progress, p: FilePath) {
    (s.rollbackRoot.Some? && Below(s.rollbackRoot.value, p)) || (s.staged.Some? && p == s.staged.value)
  }

  /** A backup below the rollback directory holds the node that was at `p`. */
  predicate Saved(now: map<FilePath, Node>, before: map<FilePath, Node>, s: Progress, p: FilePath, backup: FilePath) {
    && s.rollbackRoot.Some? && Below(s.rollbackRoot.value, backup)
    && p in before && before[p].File? && backup in now && now[backup] == before[p]
  }

  /** What can be undone: temporaries are new, everything unwatched is untouched, and each watched path is
      untouched until its flag is raised, with a backup of what was there. */
  ghost predicate Undoable(job: Job, s: Progress, now: map<FilePath, Node>, before: map<FilePath, Node>)
    requires Proper(job)
  {
    && (forall p :: Temporary(s, p) ==> p !in before && p !in Watched(job))
    && (forall p :: p !in Watched(job) && !Temporary(s, p) ==> Same(now, before, p))
    && (!s.databaseWriteStarted ==> forall p :: p in Artifacts(job.database) ==> Same(now, before, p))
    && (s.databaseWriteStarted ==>
          && (forall p :: p in Artifacts(job.database) && p in now ==> !now[p].Directory?)
          && (forall p :: p in s.databaseBackups <==> p in Artifacts(job.database) && p in before)
          && (forall p :: p in s.databaseBackups ==> Saved(now, before, s, p, s.databaseBackups[p])))
    && (!s.outputPromotionStarted && job.output.Some? ==> Same(now, before, job.output.value))
    && (s.outputPromotionStarted ==>
          && job.output.Some?
          && (job.output.value in now ==> !now[job.output.value].Directory?)
          && (s.outputExisted <==> job.output.value in before)
          && (s.outputExisted ==> s.outputBackup.Some? && Saved(now, before, s, job.output.value, s.outputBackup.value)))
  }

  /** The staged file holds the payload and is not in the rollback directory. */
  predicate StagedReady(job: Job, s: Progress, now: map<FilePath, Node>) {
    s.staged.Some? && s.staged.value in now && now[s.staged.value] == File(job.payload)
  }

  /** Writing below the rollback directory changes nothing that counts. */
  lemma BackupKeeps(job: Job, s: Progress, r: Progress, backup: FilePath, earlier: map<FilePath, Node>, now: map<FilePath, Node>,
                    before: map<FilePath, Node>)
    requires Proper(job) && !s.databaseWriteStarted && !s.outputPromotionStarted && Undoable(job, s, earlier, before)
    requires s.rollbackRoot.Some? && Below(s.rollbackRoot.value, backup)
    requires r.(outputExisted := s.outputExisted, outputBackup := s.outputBackup) == s
    requires forall p :: p != backup ==> Same(now, earlier, p)
    ensures Undoable(job, r, now, before)
  {
    hide Watched, Artifacts, DatabasePaths;
    assert Temporary(s, backup);
    forall p ensures Temporary(r, p) == Temporary(s, p) {}
    forall p | p in Artifacts(job.database) ensures Same(now, before, p) {
      ArtifactWatched(job, p);
      assert Same(earlier, before, p);
      assert p != backup;
      assert Same(now, earlier, p);
    }
    if job.output.Some? {
      ArtifactWatched(job, job.output.value);
      assert Same(now, earlier, job.output.value);
    }
    forall p | p !in Watched(job) && !Temporary(r, p) ensures Same(now, before, p) {
      assert Same(earlier, before, p);
      assert Same(now, earlier, p);
    }
  }

  /** The output snapshot: refused for links and directories, otherwise a backup when there is something to save. */
  method SnapshotOutput(disk: Disk, job: Job, s: Progress, ghost before: map<FilePath, Node>) returns (ok: bool, r: Progress)
    requires Proper(job) && job.output.Some? && s.rollbackRoot.Some? && !s.databaseWriteStarted && !s.outputPromotionStarted
    requires s.staged.None? && Undoable(job, s, disk.files, before)
    modifies disk`files, disk`faults
    ensures ok ==> disk.faults == old(disk.faults)
    ensures !ok ==> disk.faults > old(disk.faults) || !Regular(job, before)
    ensures Undoable(job, r, disk.files, before) && r.(outputExisted := s.outputExisted, outputBackup := s.outputBackup) == s
    ensures ok ==> (job.output.value in before ==> before[job.output.value].File?)
    ensures ok ==> (r.outputExisted <==> job.output.value in before)
    ensures ok && r.outputExisted ==> r.outputBackup.Some? && Saved(disk.files, before, r, job.output.value, r.outputBackup.value)
    ensures ok && r.outputExisted ==> r.outputBackup.value == r.rollbackRoot.value + ["output.before"]
    ensures s.rollbackRoot.value in old(disk.files) ==> s.rollbackRoot.value in disk.files
  {
    hide Undoable, Artifacts, Watched;
    ArtifactWatched(job, job.output.value);
    r := s;
    var output := job.output.value;
    var backup := s.rollbackRoot.value + ["output.before"];
    OutputUntouched(job, s, disk.files, before, backup);
    if output !in disk.files {
      r := r.(outputExisted := false);
      BackupKeeps(job, s, r, backup, disk.files, disk.files, before);
      return true, r;
    }
    if !disk.files[output].File? {
      assert Same(disk.files, before, output);
      return false, r;
    }
    ok := disk.Copy(output, backup);
    r := r.(outputExisted := true, outputBackup := Some(backup));
    BackupKeeps(job, s, r, backup, old(disk.files), disk.files, before);
    assert backup != s.rollbackRoot.value;
    assert Same(disk.files, old(disk.files), s.rollbackRoot.value);
  }

  lemma OutputUntouched(job: Job, s: Progress, now: map<FilePath, Node>, before: map<FilePath, Node>, backup: FilePath)
    requires Proper(job) && job.output.Some? && s.rollbackRoot.Some? && !s.outputPromotionStarted && Undoable(job, s, now, before)
    requires Below(s.rollbackRoot.value, backup)
    ensures Same(now, before, job.output.value) && backup != job.output.value
  {
    ArtifactWatched(job, job.output.value);
    assert Temporary(s, backup);
  }

  function DatabaseBackup(root: FilePath, index: nat): FilePath {
    root + ["database." + Decimal(index) + ".before"]
  }

  predicate IsBackup(root: FilePath, p: FilePath) {
    exists i :: 0 <= i < 4 && p == DatabaseBackup(root, i)
  }

  /** The database snapshot, artifact by artifact. */
  method SnapshotDatabase(disk: Disk, job: Job, s: Progress, ghost before: map<FilePath, Node>)
    returns (ok: bool, backups: map<FilePath, FilePath>)
    requires Proper(job) && job.database.Some? && s.rollbackRoot.Some? && !s.databaseWriteStarted && !s.outputPromotionStarted
    requires Undoable(job, s, disk.files, before)
    requires s.staged.Some? ==> !Below(s.rollbackRoot.value, s.staged.value)
    modifies disk`files, disk`faults
    ensures ok ==> disk.faults == old(disk.faults) && forall p :: p in Artifacts(job.database) && p in before ==> before[p].File?
    ensures !ok ==> disk.faults > old(disk.faults) || !Regular(job, before)
    ensures Undoable(job, s, disk.files, before)
    ensures forall p :: !IsBackup(s.rollbackRoot.value, p) ==> Same(disk.files, old(disk.files), p)
    ensures ok ==> forall p :: p in backups <==> p in Artifacts(job.database) && p in before
    ensures ok ==> forall p :: p in backups ==> Saved(disk.files, before, s, p, backups[p])
  {
    hide Decimal, DatabasePaths, Undoable, Artifacts, Watched;
    var root := s.rollbackRoot.value;
    var paths := DatabasePaths(job.database.value);
    assert |paths| == 4 && forall p :: p in Artifacts(job.database) <==> p in paths by {
      FourPaths(job.database.value);
    }
    BackupsDiffer(root);
    backups := map[];
    var k := 0;
    while k < 4
      invariant 0 <= k <= 4 && disk.faults == old(disk.faults)
      invariant forall p :: p in paths[..k] && p in before ==> before[p].File?
      invariant Undoable(job, s, disk.files, before)
      invariant forall p :: !IsBackup(root, p) ==> Same(disk.files, old(disk.files), p)
      invariant forall p :: p in backups <==> p in before && p in paths[..k]
      invariant forall p :: p in backups ==> SavedBelow(disk.files, before, s, p, backups[p], k)
    {
      var path := paths[k];
      assert path in Artifacts(job.database);
      ArtifactUntouched(job, s, disk.files, before, path);
      ArtifactWatched(job, path);
      assert paths[..k + 1] == paths[..k] + [path];
      if path in disk.files {
        if !disk.files[path].File? {
          return false, backups;
        }
        var backup := DatabaseBackup(root, k);
        ghost var earlier := disk.files;
        ok := disk.Copy(path, backup);
        BackupKeeps(job, s, s, backup, earlier, disk.files, before);
        assert IsBackup(root, backup);
        forall p | !IsBackup(root, p) ensures Same(disk.files, old(disk.files), p) {
          assert Same(disk.files, earlier, p) && Same(earlier, old(disk.files), p);
        }
        if !ok {
          return false, backups;
        }
        StillSaved(earlier, disk.files, before, s, backups, k);
        backups := backups[path := backup];
      }
      k := k + 1;
    }
    assert paths[..4] == paths;
    return true, backups;
  }

  lemma ArtifactUntouched(job: Job, s: Progress, now: map<FilePath, Node>, before: map<FilePath, Node>, path: FilePath)
    requires Proper(job) && !s.databaseWriteStarted && Undoable(job, s, now, before) && path in Artifacts(job.database)
    ensures Same(now, before, path)
  {}

  lemma FourPaths(database: FilePath)
    requires database != []
    ensures |DatabasePaths(database)| == 4
    ensures forall p :: p in Artifacts(Some(database)) <==> p in DatabasePaths(database)
  {}

  lemma BackupsDiffer(root: FilePath)
    ensures forall i, j :: 0 <= i < j < 4 ==> DatabaseBackup(root, i) != DatabaseBackup(root, j)
  {
    forall i, j | 0 <= i < j < 4 ensures DatabaseBackup(root, i) != DatabaseBackup(root, j) {
      var a, b := "database." + Decimal(i) + ".before", "database." + Decimal(j) + ".before";
      assert Decimal(i) == [('0' as int + i) as char] && Decimal(j) == [('0' as int + j) as char];
      assert a[9] == ('0' as int + i) as char && b[9] == ('0' as int + j) as char;
      assert DatabaseBackup(root, i)[|root|] == a && DatabaseBackup(root, j)[|root|] == b;
    }
  }

  /** Saved in one of the first `k` backups. */
  ghost predicate SavedBelow(now: map<FilePath, Node>, before: map<FilePath, Node>, s: Progress, p: FilePath, backup: FilePath, k: nat) {
    Saved(now, before, s, p, backup) && exists i :: 0 <= i < k && backup == DatabaseBackup(s.rollbackRoot.value, i)
  }

  lemma StillSaved(earlier: map<FilePath, Node>, now: map<FilePath, Node>, before: map<FilePath, Node>, s: Progress,
                   backups: map<FilePath, FilePath>, k: nat)
    requires s.rollbackRoot.Some? && k < 4
    requires forall p :: p in backups ==> SavedBelow(earlier, before, s, p, backups[p], k)
    requires forall p :: p != DatabaseBackup(s.rollbackRoot.value, k) ==> Same(now, earlier, p)
    requires forall i, j :: 0 <= i < j < 4 ==> DatabaseBackup(s.rollbackRoot.value, i) != DatabaseBackup(s.rollbackRoot.value, j)
    ensures forall p :: p in backups ==> SavedBelow(now, before, s, p, backups[p], k + 1)
  {
    hide DatabaseBackup;
    forall p | p in backups ensures SavedBelow(now, before, s, p, backups[p], k + 1) {
      assert SavedBelow(earlier, before, s, p, backups[p], k);
      var i :| 0 <= i < k && backups[p] == DatabaseBackup(s.rollbackRoot.value, i);
      assert Same(now, earlier, backups[p]);
    }
  }

  // ---------- The try block ----------

  /** The artifacts are as a session left them that read back the payload over a valid chain. */
  ghost predicate Committed(job: Job, now: map<FilePath, Node>, session: Option<Session>)
    requires Proper(job)
  {
    && session.Some? && session.value.result == job.payload && session.value.chainValid
    && forall p :: p in Artifacts(job.database) ==> Same(now, session.value.files, p)
  }

  /** What a completed publication leaves: the payload, the store's last state, nothing else changed. */
  ghost predicate Published(job: Job, s: Progress, now: map<FilePath, Node>, before: map<FilePath, Node>, session: Option<Session>)
    requires Proper(job)
  {
    && s.staged.None?
    && (job.output.Some? ==> job.output.value in now && now[job.output.value] == File(job.payload))
    && (job.database.Some? ==> Committed(job, now, session))
    && (forall p :: p !in Watched(job) && !Temporary(s, p) ==> Same(now, before, p))
  }

  method PromoteOutput(disk: Disk, job: Job, s: Progress, ghost before: map<FilePath, Node>) returns (ok: bool, r: Progress)
    requires Proper(job) && job.output.Some? && StagedReady(job, s, disk.files) && !s.outputPromotionStarted
    requires s.rollbackRoot.Some? && !Below(s.rollbackRoot.value, s.staged.value)
    requires s.outputExisted <==> job.output.value in before
    requires s.outputExisted ==> s.outputBackup.Some? && Saved(disk.files, before, s, job.output.value, s.outputBackup.value)
    requires Undoable(job, s, disk.files, before)
    modifies disk`files, disk`faults
    ensures ok <==> disk.faults == old(disk.faults)
    ensures disk.faults >= old(disk.faults)
    ensures Undoable(job, r, disk.files, before)
    ensures r.rollbackRoot == s.rollbackRoot
    ensures ok ==> r == s.(outputPromotionStarted := true, staged := None)
    ensures ok ==> job.output.value in disk.files && disk.files[job.output.value] == File(job.payload)
    ensures ok ==> forall p :: p in Artifacts(job.database) ==> Same(disk.files, old(disk.files), p)
  {
    hide Undoable, Artifacts, Watched;
    r := s.(outputPromotionStarted := true);
    StagedApart(job, s, disk.files, before);
    ok := disk.Promote(s.staged.value, job.output.value);
    PromotionKeeps(job, s, old(disk.files), disk.files, before);
    if ok {
      PromotionDone(job, s, disk.files, before);
      r := r.(staged := None);
    }
  }

  lemma StagedApart(job: Job, s: Progress, now: map<FilePath, Node>, before: map<FilePath, Node>)
    requires Proper(job) && job.output.Some? && s.staged.Some? && Undoable(job, s, now, before)
    ensures s.staged.value != job.output.value
  {
    ArtifactWatched(job, job.output.value);
    assert Temporary(s, s.staged.value);
  }

  function Promoted(files: map<FilePath, Node>, staged: FilePath, output: FilePath): map<FilePath, Node>
    requires staged in files
  {
    (files - {staged})[output := files[staged]]
  }

  /** Before or after the rename, the output can be put back and the artifacts are as they were. */
  lemma PromotionKeeps(job: Job, s: Progress, earlier: map<FilePath, Node>, now: map<FilePath, Node>, before: map<FilePath, Node>)
    requires Proper(job) && job.output.Some? && StagedReady(job, s, earlier) && !s.outputPromotionStarted
    requires s.rollbackRoot.Some? && !Below(s.rollbackRoot.value, s.staged.value)
    requires s.outputExisted <==> job.output.value in before
    requires s.outputExisted ==> s.outputBackup.Some? && Saved(earlier, before, s, job.output.value, s.outputBackup.value)
    requires Undoable(job, s, earlier, before)
    requires now == earlier || now == Promoted(earlier, s.staged.value, job.output.value)
    ensures Undoable(job, s.(outputPromotionStarted := true), now, before)
    ensures forall p :: p in Artifacts(job.database) ==> Same(now, earlier, p)
  {
    ArtifactWatched(job, job.output.value);
    OutputNoArtifact(job);
    var r := s.(outputPromotionStarted := true);
    assert Temporary(s, s.staged.value);
    assert forall p :: Temporary(r, p) <==> Temporary(s, p);
    forall p | p in Artifacts(job.database) ensures p in Watched(job) && Same(now, earlier, p) {
      ArtifactWatched(job, p);
    }
    hide Artifacts, Watched, DatabasePaths;
    forall p | s.rollbackRoot.Some? && Below(s.rollbackRoot.value, p) ensures Same(now, earlier, p) {
      assert Temporary(s, p);
    }
    forall p | p !in Watched(job) && !Temporary(r, p) ensures Same(now, before, p) {
      assert Same(earlier, before, p);
    }
  }

  /** After the rename there is no staged file left to remove. */
  lemma PromotionDone(job: Job, s: Progress, now: map<FilePath, Node>, before: map<FilePath, Node>)
    requires Proper(job) && s.staged.Some? && s.staged.value !in now
    requires Undoable(job, s.(outputPromotionStarted := true), now, before)
    ensures Undoable(job, s.(outputPromotionStarted := true, staged := None), now, before)
  {
    hide Artifacts, Watched, DatabasePaths;
    var a, b := s.(outputPromotionStarted := true), s.(outputPromotionStarted := true, staged := None);
    assert Temporary(a, s.staged.value);
    forall p | Temporary(b, p) ensures Temporary(a, p) {}
    forall p | p !in Watched(job) && !Temporary(b, p) ensures Same(now, before, p) {
      assert p != s.staged.value ==> !Temporary(a, p);
    }
  }

  lemma NothingStarted(job: Job, before: map<FilePath, Node>)
    requires Proper(job)
    ensures Undoable(job, Start(), before, before)
  {}

  lemma RootIsNew(job: Job, root: FilePath, now: map<FilePath, Node>, before: map<FilePath, Node>)
    requires Proper(job) && now == before[root := Directory] && forall p :: p in before || p in Watched(job) ==> !Below(root, p)
    ensures Undoable(job, Start().(rollbackRoot := Some(root)), now, before)
  {
    hide DatabasePaths;
    forall p | p in Artifacts(job.database) || job.output == Some(p) ensures p in Watched(job) {
      ArtifactWatched(job, p);
    }
  }

  lemma WholeRegular(job: Job, before: map<FilePath, Node>)
    requires Proper(job)
    requires job.database.Some? ==> forall p :: p in Artifacts(job.database) && p in before ==> before[p].File?
    requires job.output.Some? && job.output.value in before ==> before[job.output.value].File?
    ensures Regular(job, before)
  {}

  lemma OutsideKept(job: Job, s: Progress, now: map<FilePath, Node>, before: map<FilePath, Node>)
    requires Proper(job) && Undoable(job, s, now, before)
    ensures forall p :: p !in Watched(job) && !Temporary(s, p) ==> Same(now, before, p)
  {}

  method TryPublish(disk: Disk, job: Job, ghost before: map<FilePath, Node>)
    returns (ok: bool, s: Progress)
    requires Proper(job) && disk.files == before && disk.session.None?
    modifies disk
    ensures ok ==> disk.faults == old(disk.faults) && Regular(job, before) && (disk.session.Some? ==> GoodSession(job, disk.session))
    ensures !ok ==> disk.faults > old(disk.faults) || !Regular(job, before) || (disk.session.Some? && !GoodSession(job, disk.session))
    ensures Undoable(job, s, disk.files, before)
    ensures ok ==> Published(job, s, disk.files, before, disk.session)
  {
    hide Undoable, Artifacts, DatabasePaths, Regular, Watched;
    s := Start();
    NothingStarted(job, before);
    var used := UsedPaths(job);
    if job.database.None? && job.output.None? {
      WholeRegular(job, before);
      return true, s;
    }
    var root := disk.MakeTempDirectory(used);
    if root.None? {
      return false, s;
    }
    s := s.(rollbackRoot := root);
    RootIsNew(job, root.value, disk.files, before);
    if job.output.Some? {
      ok, s := SnapshotOutput(disk, job, s, before);
      if !ok {
        return false, s;
      }
      ok, s := StageOutput(disk, job, s, before, used);
      if !ok {
        return false, s;
      }
    }
    if job.database.Some? {
      ok, s := SaveToDatabase(disk, job, s, before);
      if !ok {
        return false, s;
      }
    }
    if job.output.Some? {
      ok, s := PromoteOutput(disk, job, s, before);
      if !ok {
        return false, s;
      }
    }
    WholeRegular(job, before);
    OutsideKept(job, s, disk.files, before);
    ok := true;
    if job.database.Some? {
      ok := disk.PrintSummary();
    }
  }

  method StageOutput(disk: Disk, job: Job, s: Progress, ghost before: map<FilePath, Node>, used: set<FilePath>)
    returns (ok: bool, r: Progress)
    requires Proper(job) && job.output.Some? && used == Watched(job)
    requires s.staged.None? && s.rollbackRoot.Some? && s.rollbackRoot.value in disk.files && !Below(s.rollbackRoot.value, job.output.value)
    requires !s.databaseWriteStarted && !s.outputPromotionStarted
    requires Undoable(job, s, disk.files, before)
    requires s.outputExisted ==> s.outputBackup.Some? && Saved(disk.files, before, s, job.output.value, s.outputBackup.value)
    modifies disk`files, disk`faults
    ensures ok <==> disk.faults == old(disk.faults)
    ensures disk.faults >= old(disk.faults)
    ensures Undoable(job, r, disk.files, before)
    ensures ok ==> r == s.(staged := r.staged) && StagedReady(job, r, disk.files) && !Below(r.rollbackRoot.value, r.staged.value)
    ensures ok && r.outputExisted ==> Saved(disk.files, before, r, job.output.value, r.outputBackup.value)
  {
    r := s;
    var staged := disk.StageJsonOutput(job.output.value, job.payload, used);
    if staged.None? {
      return false, r;
    }
    BesideOutput(s.rollbackRoot.value, job.output.value, staged.value);
    r := r.(staged := staged);
    StagedIsNew(job, s, r, old(disk.files), disk.files, before);
    ok := true;
  }

  /** A new file beside the output is not below a directory the output is not below. */
  lemma BesideOutput(root: FilePath, output: FilePath, staged: FilePath)
    requires output != [] && |staged| == |output| && staged[..|output| - 1] == output[..|output| - 1]
    requires !Below(root, output) && root != staged
    ensures !Below(root, staged)
  {
    if |root| < |output| {
      var j :| 0 <= j < |root| && root[j] != output[j];
      assert staged[..|output| - 1][j] == output[..|output| - 1][j];
      assert staged[j] == output[j];
    }
  }

  lemma StagedIsNew(job: Job, s: Progress, r: Progress, earlier: map<FilePath, Node>, now: map<FilePath, Node>, before: map<FilePath, Node>)
    requires Proper(job) && s.staged.None? && s.rollbackRoot.Some? && !s.databaseWriteStarted && !s.outputPromotionStarted
    requires Undoable(job, s, earlier, before) && r.staged.Some? && r == s.(staged := r.staged)
    requires r.staged.value !in earlier && r.staged.value !in Watched(job) && !Below(s.rollbackRoot.value, r.staged.value)
    requires now == earlier[r.staged.value := File(job.payload)]
    ensures Undoable(job, r, now, before)
  {
    hide Watched, Artifacts, DatabasePaths;
    var p := r.staged.value;
    assert Same(earlier, before, p);
    forall q | q in Artifacts(job.database) ensures q in Watched(job) {
      ArtifactWatched(job, q);
    }
    if job.output.Some? {
      ArtifactWatched(job, job.output.value);
    }
  }

  lemma ArtifactWatched(job: Job, q: FilePath)
    requires Proper(job)
    ensures q in Artifacts(job.database) || job.output == Some(q) ==> q in Watched(job)
  {}

  lemma OutputBackupApart(root: FilePath, i: nat)
    requires i < 4
    ensures root + ["output.before"] != DatabaseBackup(root, i)
  {
    assert DatabaseBackup(root, i)[|root|] == "database." + Decimal(i) + ".before";
    assert (root + ["output.before"])[|root|] == "output.before";
    assert ("database." + Decimal(i) + ".before")[0] == 'd';
  }

  method SaveToDatabase(disk: Disk, job: Job, s: Progress, ghost before: map<FilePath, Node>)
    returns (ok: bool, r: Progress)
    requires Proper(job) && job.database.Some? && s.rollbackRoot.Some? && !s.databaseWriteStarted && !s.outputPromotionStarted
    requires Undoable(job, s, disk.files, before)
    requires s.staged.Some? ==> StagedReady(job, s, disk.files) && !Below(s.rollbackRoot.value, s.staged.value)
    requires s.outputExisted ==> OutputSaved(job, s, disk.files, before)
    requires disk.session.None?
    modifies disk
    ensures ok ==> disk.faults == old(disk.faults) && forall p :: p in Artifacts(job.database) && p in before ==> before[p].File?
    ensures !ok ==> disk.faults > old(disk.faults) || !Regular(job, before) || (disk.session.Some? && !GoodSession(job, disk.session))
    ensures Undoable(job, r, disk.files, before)
    ensures ok ==> r == s.(databaseBackups := r.databaseBackups, databaseWriteStarted := true)
    ensures ok ==> Committed(job, disk.files, disk.session)
    ensures ok && r.staged.Some? ==> StagedReady(job, r, disk.files)
    ensures ok && r.outputExisted ==> OutputSaved(job, r, disk.files, before)
  {
    r := s;
    ghost var opening := disk.files;
    var backups;
    ok, backups := SnapshotDatabase(disk, job, s, before);
    if !ok {
      return false, r;
    }
    ghost var snapshot := disk.files;
    SnapshotKeeps(job, s, opening, snapshot, before);
    r := s.(databaseBackups := backups, databaseWriteStarted := true);
    var fault, stored, chainValid := disk.SaveSourceRun(job.database.value);
    StoreKeeps(job, s, r, snapshot, disk.files, before);
    return !fault && stored == job.payload && chainValid, r;
  }

  predicate OutputSaved(job: Job, s: Progress, now: map<FilePath, Node>, before: map<FilePath, Node>) {
    && job.output.Some? && s.rollbackRoot.Some? && s.outputBackup == Some(s.rollbackRoot.value + ["output.before"])
    && Saved(now, before, s, job.output.value, s.outputBackup.value)
  }

  /** The database snapshot disturbs neither the staged file nor the output's backup. */
  lemma SnapshotKeeps(job: Job, s: Progress, opening: map<FilePath, Node>, snapshot: map<FilePath, Node>, before: map<FilePath, Node>)
    requires s.rollbackRoot.Some?
    requires forall p :: !IsBackup(s.rollbackRoot.value, p) ==> Same(snapshot, opening, p)
    requires s.staged.Some? ==> StagedReady(job, s, opening) && !Below(s.rollbackRoot.value, s.staged.value)
    requires s.outputExisted ==> OutputSaved(job, s, opening, before)
    ensures s.staged.Some? ==> StagedReady(job, s, snapshot)
    ensures s.outputExisted ==> OutputSaved(job, s, snapshot, before)
  {
    var root := s.rollbackRoot.value;
    forall i | 0 <= i < 4 ensures Below(root, DatabaseBackup(root, i)) && root + ["output.before"] != DatabaseBackup(root, i) {
      OutputBackupApart(root, i);
    }
    hide DatabaseBackup;
    assert s.staged.Some? ==> Same(snapshot, opening, s.staged.value);
    assert Same(snapshot, opening, root + ["output.before"]);
  }

  /** The store disturbs only its artifacts, so everything is still undoable. */
  lemma StoreKeeps(job: Job, s: Progress, r: Progress, snapshot: map<FilePath, Node>, now: map<FilePath, Node>, before: map<FilePath, Node>)
    requires Proper(job) && job.database.Some? && s.rollbackRoot.Some? && !s.databaseWriteStarted && !s.outputPromotionStarted
    requires Undoable(job, s, snapshot, before)
    requires r == s.(databaseBackups := r.databaseBackups, databaseWriteStarted := true)
    requires forall p :: p in r.databaseBackups <==> p in Artifacts(job.database) && p in before
    requires forall p :: p in r.databaseBackups ==> Saved(snapshot, before, s, p, r.databaseBackups[p])
    requires forall p :: p !in Artifacts(job.database) ==> Same(now, snapshot, p)
    requires forall p :: p in Artifacts(job.database) && p in now ==> !now[p].Directory?
    requires s.staged.Some? ==> StagedReady(job, s, snapshot)
    requires s.outputExisted ==> OutputSaved(job, s, snapshot, before)
    ensures Undoable(job, r, now, before)
    ensures s.staged.Some? ==> StagedReady(job, r, now)
    ensures s.outputExisted ==> OutputSaved(job, r, now, before)
  {
    forall p ensures p in Artifacts(job.database) ==> p in Watched(job) {
      ArtifactWatched(job, p);
    }
    if job.output.Some? {
      ArtifactWatched(job, job.output.value);
      OutputNoArtifact(job);
    }
    hide Watched, Artifacts, DatabasePaths;
    forall p | Temporary(s, p) ensures p !in Artifacts(job.database) && Same(now, snapshot, p) {}
    forall p | p in r.databaseBackups ensures Saved(now, before, r, p, r.databaseBackups[p]) {
      assert Temporary(s, r.databaseBackups[p]);
    }
    if s.outputExisted {
      assert Temporary(s, s.outputBackup.value);
    }
    if s.staged.Some? {
      assert Temporary(s, s.staged.value);
    }
  }

  lemma OutputNoArtifact(job: Job)
    requires Proper(job) && job.output.Some?
    ensures job.output.value !in Artifacts(job.database)
  {
    if job.database.Some? {
      FourPaths(job.database.value);
    }
  }

  // ---------- The handlers ----------

  /** What is on disk of the artifacts goes, whoever wrote it. */
  method UnlinkAll(disk: Disk, paths: seq<FilePath>)
    modifies disk`files
    ensures forall p :: p in paths ==> p !in disk.files
    ensures forall p :: p !in paths ==> Same(disk.files, old(disk.files), p)
  {
    var k := 0;
    while k < |paths|
      invariant 0 <= k <= |paths|
      invariant forall p :: p in paths[..k] ==> p !in disk.files
      invariant forall p :: p !in paths ==> Same(disk.files, old(disk.files), p)
    {
      disk.Unlink(paths[k]);
      assert paths[..k + 1] == paths[..k] + [paths[k]];
      k := k + 1;
    }
    assert paths[..k] == paths;
  }

  /** Every path with a backup gets its saved file back. */
  method CopyAllBack(disk: Disk, paths: seq<FilePath>, backups: map<FilePath, FilePath>, ghost before: map<FilePath, Node>)
    requires forall p :: p in paths ==> p !in disk.files
    requires forall p :: p in paths ==> (p in backups <==> p in before)
    requires forall p :: p in paths && p in backups ==>
      backups[p] !in paths && disk.IsRegular(backups[p]) && disk.files[backups[p]] == before[p]
    modifies disk`files
    ensures forall p :: p in paths ==> Same(disk.files, before, p)
    ensures forall p :: p !in paths ==> Same(disk.files, old(disk.files), p)
  {
    var k := 0;
    while k < |paths|
      invariant 0 <= k <= |paths|
      invariant forall p :: p in paths[..k] ==> Same(disk.files, before, p)
      invariant forall p :: p in paths && p !in paths[..k] ==> p !in disk.files
      invariant forall p :: p !in paths ==> Same(disk.files, old(disk.files), p)
    {
      var path := paths[k];
      assert paths[..k + 1] == paths[..k] + [path];
      if path in backups {
        assert Same(disk.files, old(disk.files), backups[path]);
        disk.CopyBack(backups[path], path);
      }
      k := k + 1;
    }
    assert paths[..k] == paths;
  }

  lemma BackupsAt(job: Job, s: Progress, now: map<FilePath, Node>, before: map<FilePath, Node>, p: FilePath)
    requires Proper(job) && s.databaseWriteStarted && Undoable(job, s, now, before) && p in Artifacts(job.database)
    ensures p in s.databaseBackups <==> p in before
    ensures p in s.databaseBackups ==>
      var backup := s.databaseBackups[p];
      backup !in Artifacts(job.database) && backup in now && now[backup].File? && now[backup] == before[p]
  {
    hide Proper, Artifacts;
    if p in s.databaseBackups {
      assert Saved(now, before, s, p, s.databaseBackups[p]);
      BackupIntact(job, s, now, before, p, s.databaseBackups[p]);
    }
  }

  /** `_restore_database_after_failure`. */
  method RestoreDatabase(disk: Disk, job: Job, s: Progress, ghost before: map<FilePath, Node>)
    requires Proper(job) && job.database.Some? && s.databaseWriteStarted && Undoable(job, s, disk.files, before)
    modifies disk`files
    ensures forall p :: p in Artifacts(job.database) ==> Same(disk.files, before, p)
    ensures forall p :: p !in Artifacts(job.database) ==> Same(disk.files, old(disk.files), p)
  {
    hide DatabasePaths, Artifacts, Undoable;
    var paths := DatabasePaths(job.database.value);
    FourPaths(job.database.value);
    forall p | p in paths
      ensures p in s.databaseBackups <==> p in before
      ensures p in s.databaseBackups ==>
        var backup := s.databaseBackups[p];
        backup !in paths && backup in disk.files && disk.files[backup].File? && disk.files[backup] == before[p]
    {
      BackupsAt(job, s, disk.files, before, p);
    }
    UnlinkAll(disk, paths);
    CopyAllBack(disk, paths, s.databaseBackups, before);
  }

  /** A backup is outside the watched paths. */
  lemma BackupIntact(job: Job, s: Progress, now: map<FilePath, Node>, before: map<FilePath, Node>, p: FilePath, backup: FilePath)
    requires Proper(job) && Undoable(job, s, now, before) && Saved(now, before, s, p, backup)
    ensures backup !in Artifacts(job.database) && job.output != Some(backup)
  {
    assert Temporary(s, backup);
    ArtifactWatched(job, backup);
  }

  /** `_restore_output_after_failure`. */
  method RestoreOutput(disk: Disk, job: Job, s: Progress, ghost before: map<FilePath, Node>)
    requires job.output.Some? && s.outputExisted == (job.output.value in before)
    requires s.outputExisted ==>
      && s.outputBackup.Some? && s.outputBackup.value != job.output.value && s.outputBackup.value in disk.files
      && before[job.output.value].File? && disk.files[s.outputBackup.value] == before[job.output.value]
    modifies disk`files
    ensures Same(disk.files, before, job.output.value)
    ensures forall p :: p != job.output.value ==> Same(disk.files, old(disk.files), p)
  {
    disk.Unlink(job.output.value);
    if s.outputExisted {
      disk.CopyBack(s.outputBackup.value, job.output.value);
    }
  }

  /** The `except` block: both restorations, neither of which faults. */
  method Undo(disk: Disk, job: Job, s: Progress, ghost before: map<FilePath, Node>)
    requires Proper(job) && Undoable(job, s, disk.files, before)
    modifies disk`files
    ensures forall p :: !Temporary(s, p) ==> Same(disk.files, before, p)
  {
    ghost var failed := disk.files;
    if job.database.Some? && s.databaseWriteStarted {
      RestoreDatabase(disk, job, s, before);
    }
    ghost var restored := disk.files;
    if job.output.Some? && s.outputPromotionStarted {
      OutputNoArtifact(job);
      if s.outputExisted {
        BackupIntact(job, s, failed, before, job.output.value, s.outputBackup.value);
        assert Same(restored, failed, s.outputBackup.value);
      }
      RestoreOutput(disk, job, s, before);
    }
    UndoneAll(job, s, failed, restored, disk.files, before);
  }

  lemma UndoneAll(job: Job, s: Progress, failed: map<FilePath, Node>, restored: map<FilePath, Node>, now: map<FilePath, Node>, before: map<FilePath, Node>)
    requires Proper(job) && Undoable(job, s, failed, before)
    requires forall p :: p !in Artifacts(job.database) ==> Same(restored, failed, p)
    requires forall p :: p in Artifacts(job.database) ==> Same(restored, if s.databaseWriteStarted then before else failed, p)
    requires forall p :: job.output != Some(p) ==> Same(now, restored, p)
    requires job.output.Some? ==> Same(now, if s.outputPromotionStarted then before else restored, job.output.value)
    ensures forall p :: !Temporary(s, p) ==> Same(now, before, p)
  {
    if job.output.Some? {
      OutputNoArtifact(job);
    }
    forall p | !Temporary(s, p) ensures Same(now, before, p) {
      OnlyWatched(job, p);
      if p in Artifacts(job.database) {
        assert Same(restored, if s.databaseWriteStarted then before else failed, p);
        assert Same(now, restored, p);
      } else {
        assert Same(restored, failed, p);
        assert job.output != Some(p) ==> Same(now, restored, p) && Same(failed, before, p);
      }
    }
  }

  lemma OnlyWatched(job: Job, p: FilePath)
    requires Proper(job)
    ensures p in Watched(job) <==> p in Artifacts(job.database) || job.output == Some(p)
  {}

  /** The `finally` block. */
  method CleanUp(disk: Disk, s: Progress)
    modifies disk`files
    ensures forall p :: Temporary(s, p) ==> p !in disk.files
    ensures forall p :: !Temporary(s, p) ==> Same(disk.files, old(disk.files), p)
  {
    if s.staged.Some? {
      disk.Unlink(s.staged.value);
    }
    if s.rollbackRoot.Some? {
      disk.RemoveTree(s.rollbackRoot.value);
    }
  }

  datatype Exit = Completed | NotWritten | Raised

  /** The publishing part of `_command_run_from_source` and of `command_replay`. `gatePassed` says whether the
      run earned publication. On any exit but completion every file is as it was and no temporary remains;
      completion publishes the output and the store's last state, changes nothing else and leaves no temporary. */
  method Publish(disk: Disk, job: Job, gatePassed: bool) returns (exit: Exit)
    requires (job.database.Some? ==> job.database.value != []) && (job.output.Some? ==> job.output.value != [])
    requires disk.session.None?
    modifies disk
    ensures exit.Completed? <==>
      && Proper(job) && gatePassed && disk.faults == old(disk.faults) && Regular(job, old(disk.files))
      && (disk.session.Some? ==> GoodSession(job, disk.session))
    ensures exit.NotWritten? <==> Proper(job) && !gatePassed
    ensures !exit.Completed? ==> disk.files == old(disk.files)
    ensures exit.Completed? ==>
      && Proper(job) && gatePassed
      && (job.output.Some? ==> job.output.value in disk.files && disk.files[job.output.value] == File(job.payload))
      && (job.database.Some? ==> Committed(job, disk.files, disk.session))
      && (forall p :: p !in Watched(job) ==> Same(disk.files, old(disk.files), p))
  {
    ghost var before := disk.files;
    if job.database.Some? && job.output.Some? && job.output.value in DatabasePaths(job.database.value) {
      return Raised;
    }
    if !gatePassed {
      return NotWritten;
    }
    var ok, s;
    ok, s := TryPublish(disk, job, before);
    if !ok {
      Undo(disk, job, s, before);
    }
    ghost var settled := disk.files;
    CleanUp(disk, s);
    if !ok {
      forall p ensures Same(disk.files, before, p) {
        assert !Temporary(s, p) ==> Same(settled, before, p);
      }
      SameEverywhere(disk.files, before);
      return Raised;
    }
    FinishedState(job, s, settled, disk.files, before, disk.session);
    return Completed;
  }

  lemma SameEverywhere(a: map<FilePath, Node>, b: map<FilePath, Node>)
    requires forall p :: Same(a, b, p)
    ensures a == b
  {
    forall p ensures p in a <==> p in b {
      assert Same(a, b, p);
    }
    forall p | p in a ensures a[p] == b[p] {
      assert Same(a, b, p);
    }
  }

  lemma FinishedState(job: Job, s: Progress, settled: map<FilePath, Node>, now: map<FilePath, Node>, before: map<FilePath, Node>,
                      session: Option<Session>)
    requires Proper(job) && Published(job, s, settled, before, session)
    requires forall p :: Temporary(s, p) ==> p !in before && p !in Watched(job) && p !in now
    requires forall p :: !Temporary(s, p) ==> Same(now, settled, p)
    ensures job.output.Some? ==> job.output.value in now && now[job.output.value] == File(job.payload)
    ensures job.database.Some? ==> Committed(job, now, session)
    ensures forall p :: p !in Watched(job) ==> Same(now, before, p)
  {
    if job.output.Some? {
      OnlyWatched(job, job.output.value);
      assert Same(now, settled, job.output.value);
    }
    forall p | p in Artifacts(job.database) ensures Same(now, settled, p) {
      OnlyWatched(job, p);
    }
    forall p | p !in Watched(job) ensures Same(now, before, p) {
      assert !Temporary(s, p) ==> Same(now, settled, p);
    }
  }
}
