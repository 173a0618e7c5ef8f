/** Recovery of a recording whose upload failed (upload_recover.go, and MoveToPendingDir and MoveLocalFile
    of pkg/storage/upload_manager.go): move the media aside, register it, confirm the registration, and
    put the media back if that fails. Every operation on files and database may fail. */
module UploadRecovery {

  datatype Content = Whole(id: nat) | Partial

  type Files = map<string, Content>

  datatype Status = Pending | Uploading | Success | Failed

  datatype Task = Task(localPath: string, objectKey: string, status: Status)

  /** A copy that works, one that fails before it touches the target, one that fails half way. */
  datatype Copy = Copied | NotOpened | Torn

  /** What a move may run into; `removes` is the deletion of the source after a copy, `cleans` that of
      the target after a failed one. */
  datatype MoveFaults = MoveFaults(renames: bool, copy: Copy, removes: bool, cleans: bool)

  /** What db.Create reports and what it does. */
  datatype Insert = Written | Lost | ErrWritten | ErrLost

  /** `targetUnread` and `statFails` say that the look at the pending name, and at the original path
      before the way back, fails for another reason than that nothing is there. */
  datatype Faults = Faults(
    pendingReady: bool, targetUnread: bool, out: MoveFaults, insert: Insert, countFails: bool, statFails: bool,
    back: MoveFaults)

  /** `path` holds the media `content`. */
  predicate Holds(files: Files, path: string, content: Content) {
    path in files && files[path] == content
  }

  /** No file of `before` other than `path` was lost or changed. */
  ghost predicate OthersKept(before: Files, after: Files, path: string) {
    forall other | other in before && other != path :: other in after && after[other] == before[other]
  }

  /** In every state of `trace` from number `from` on, the media is at one of the two paths and nothing
      at a third path was touched. */
  ghost predicate SafeFrom(
    trace: seq<Files>, from: nat, before: Files, original: string, other: string, content: Content)
  {
    forall i | from <= i < |trace| ::
      && (Holds(trace[i], original, content) || Holds(trace[i], other, content))
      && forall path | path in before && path != original && path != other ::
           path in trace[i] && trace[i][path] == before[path]
  }

  lemma SafeOn(t: seq<Files>, more: seq<Files>, from: nat, before: Files, middle: Files, original: string,
               other: string, content: Content)
    requires from <= |t| <= |more| && more[..|t|] == t
    requires SafeFrom(t, from, before, original, other, content)
    requires SafeFrom(more, |t|, middle, original, other, content)
    requires forall path | path in before && path != original && path != other ::
      path in middle && middle[path] == before[path]
    ensures SafeFrom(more, from, before, original, other, content)
  {
    assert forall i | 0 <= i < |t| :: more[i] == t[i];
  }

  predicate Works(f: MoveFaults) {
    f.renames || (f.copy.Copied? && f.removes)
  }

  predicate Moves(files: Files, from: string, to: string, f: MoveFaults) {
    from == to || (from in files && Works(f))
  }

  predicate CopyWorks(files: Files, from: string, f: MoveFaults) {
    from in files && f.copy.Copied?
  }

  /** The files after MoveLocalFile. */
  function AfterMove(files: Files, from: string, to: string, f: MoveFaults): Files {
    if from == to then files
    else if from in files && f.renames then (files - {from})[to := files[from]]
    else if CopyWorks(files, from, f) then
      if f.removes then files[to := files[from]] - {from} else files[to := files[from]]
    else
      var torn := if from in files && f.copy.Torn? then files[to := Partial] else files;
      if f.cleans then torn - {to} else torn
  }

  /** A move succeeds exactly if there is nothing to do, or the media is there and can be renamed, or copied
      and its source deleted; then it has changed its path and nothing else has happened. A failed move
      touches at most the target. */
  lemma MoveExactly(files: Files, from: string, to: string, f: MoveFaults)
    ensures Moves(files, from, to, f) <==>
      from == to || (from in files && (f.renames || (f.copy.Copied? && f.removes)))
    ensures from == to ==> AfterMove(files, from, to, f) == files
    ensures from != to && Moves(files, from, to, f) ==>
      AfterMove(files, from, to, f) == (files - {from})[to := files[from]]
    ensures !Moves(files, from, to, f) ==> AfterMove(files, from, to, f) - {to} == files - {to}
  {
    if from in files {
      assert files[to := files[from]] - {from} == (files - {from})[to := files[from]] || from == to;
    }
  }

  function PendingPath(
      files: Files, path: string, hasDir: bool, target: string, unique: string, f: Faults): string {
    if !hasDir then path else if target in files && !f.targetUnread then unique else target
  }

  /** The files after MoveToPendingDir. */
  function Put(files: Files, path: string, hasDir: bool, target: string, unique: string, f: Faults): Files {
    if hasDir && f.pendingReady
    then AfterMove(files, path, PendingPath(files, path, hasDir, target, unique, f), f.out)
    else files
  }

  /** The path under which the media is registered, and whether it was moved there. */
  function Place(
      files: Files, path: string, hasDir: bool, target: string, unique: string, f: Faults): (string, bool) {
    var pending := PendingPath(files, path, hasDir, target, unique, f);
    if !hasDir || (f.pendingReady && Moves(files, path, pending, f.out)) then (pending, true) else (path, false)
  }

  class Disk {
    var files: Files
    /** Every state the files have been in. */
    ghost var trace: seq<Files>

    ghost predicate Traced()
      reads this
    {
      |trace| > 0 && trace[|trace| - 1] == files
    }

    /** The states since the trace had length `from` are safe. */
    ghost predicate SafeSince(from: nat, before: Files, original: string, other: string, content: Content)
      reads this
    {
      SafeFrom(trace, from, before, original, other, content)
    }

    constructor (files: Files)
      ensures Traced() && this.files == files
    {
      this.files, trace := files, [files];
    }

    method Write(path: string, content: Content)
      requires Traced()
      modifies this
      ensures Traced() && files == old(files)[path := content] && trace == old(trace) + [files]
    {
      files := files[path := content];
      trace := trace + [files];
    }

    /** os.Remove; a missing file is an error that nobody looks at here. */
    method Remove(path: string, works: bool)
      requires Traced()
      modifies this
      ensures Traced() && files == (if works then old(files) - {path} else old(files)) && trace == old(trace) + [files]
    {
      if works {
        files := files - {path};
      }
      trace := trace + [files];
    }

    /** os.Rename: one step, which overwrites the target. */
    method Rename(from: string, to: string, works: bool) returns (ok: bool)
      requires Traced() && from != to
      modifies this
      ensures Traced() && ok == (works && from in old(files))
      ensures files == if ok then (old(files) - {from})[to := old(files)[from]] else old(files)
      ensures trace == if ok then old(trace) + [files] else old(trace)
    {
      ok := works && from in files;
      if ok {
        files := (files - {from})[to := files[from]];
        trace := trace + [files];
      }
    }

    /** The part of MoveLocalFile that follows a failed rename. */
    method CopyAndDelete(from: string, to: string, f: MoveFaults) returns (ok: bool)
      requires Traced() && from != to && !(f.renames && from in files)
      modifies this
      ensures Traced() && |trace| >= |old(trace)| && trace[..|old(trace)|] == old(trace)
      ensures ok == Moves(old(files), from, to, f)
      ensures files == AfterMove(old(files), from, to, f)
      ensures from in old(files) ==> SafeSince(|old(trace)|, old(files), from, to, old(files)[from])
    {
      if CopyWorks(files, from, f) {
        Write(to, Partial);
        Write(to, files[from]);
        Remove(from, f.removes);
        return f.removes;
      }
      if from in files && f.copy.Torn? {
        Write(to, Partial);
      }
      Remove(to, f.cleans);
      return false;
    }

    /** MoveLocalFile: rename, or else copy and delete; a failed copy tries to leave no target. */
    method MoveLocalFile(from: string, to: string, f: MoveFaults) returns (ok: bool)
      requires Traced()
      modifies this
      ensures Traced() && |trace| >= |old(trace)| && trace[..|old(trace)|] == old(trace)
      ensures ok == Moves(old(files), from, to, f)
      ensures files == AfterMove(old(files), from, to, f)
      ensures ok <==> from == to || (from in old(files) && (f.renames || (f.copy.Copied? && f.removes)))
      ensures ok && from != to ==> files == (old(files) - {from})[to := old(files)[from]]
      ensures !ok ==> files - {to} == old(files) - {to}
      ensures from != to && from in old(files) ==> SafeSince(|old(trace)|, old(files), from, to, old(files)[from])
      ensures from == to ==> trace == old(trace)
    {
      MoveExactly(files, from, to, f);
      if from == to {
        return true;
      }
      ok := Rename(from, to, f.renames);
      if !ok {
        ok := CopyAndDelete(from, to, f);
      }
    }

    /** MoveToPendingDir: `target` is the media's place in the pending directory, `unique` the name taken
        when that is seen to be in use. Where an existing pending file is overwritten, and nowhere else,
        is said by Overwrites. */
    method MoveToPendingDir(path: string, hasDir: bool, target: string, unique: string, f: Faults)
      returns (moved: string, ok: bool)
      requires Traced() && unique !in files
      modifies this
      ensures Traced() && |trace| >= |old(trace)| && trace[..|old(trace)|] == old(trace)
      ensures ok ==> moved == PendingPath(old(files), path, hasDir, target, unique, f)
      ensures ok == (Place(old(files), path, hasDir, target, unique, f).1)
      ensures files == Put(old(files), path, hasDir, target, unique, f)
      ensures path in old(files) ==> SafeSince(|old(trace)|, old(files), path,
        PendingPath(old(files), path, hasDir, target, unique, f), old(files)[path])
    {
      if !hasDir {
        return path, true;
      }
      if !f.pendingReady {
        return "", false;
      }
      // any failure of the look but "does not exist" reads as a free name
      var dst := if target in files && !f.targetUnread then unique else target;
      ok := MoveLocalFile(path, dst, f.out);
      moved := if ok then dst else "";
    }

    /** restoreMediaFromPending: it never overwrites what has taken the original path meanwhile. */
    method RestoreMedia(pending: string, original: string, f: Faults) returns (ok: bool)
      requires Traced()
      modifies this
      ensures Traced() && |trace| >= |old(trace)| && trace[..|old(trace)|] == old(trace)
      ensures pending == "" || pending == original ==> ok && files == old(files) && trace == old(trace)
      ensures pending != "" && pending != original && original in old(files) ==>
        !ok && files == old(files) && trace == old(trace)
      ensures pending != "" && pending != original && original !in old(files) && pending in old(files) ==>
        && SafeSince(|old(trace)|, old(files), original, pending, old(files)[pending])
        && files == (if f.statFails then old(files) else AfterMove(old(files), pending, original, f.back))
        && ok == (!f.statFails && (f.back.renames || (f.back.copy.Copied? && f.back.removes)))
        && (ok ==> files == (old(files) - {pending})[original := old(files)[pending]])
    {
      if pending == "" || pending == original {
        return true;
      }
      if original in files || f.statFails {
        return false;
      }
      ok := MoveLocalFile(pending, original, f.back);
    }
  }

  // ----- when another recording is overwritten -----

  /** The pending name is taken by another recording, the look at it fails, and the move gets as far as
      touching it. */
  predicate Overwrites(files: Files, path: string, hasDir: bool, target: string, f: Faults) {
    && hasDir && f.pendingReady && f.targetUnread && target in files && target != path
    && (f.out.renames || !f.out.copy.NotOpened? || f.out.cleans)
  }

  /** What is at `target`, if anything, is a recording of its own. */
  predicate OwnRecording(files: Files, path: string, target: string) {
    target in files && target != path && path in files ==> files[target].Whole? && files[target] != files[path]
  }

  /** Moving media aside leaves every other file alone if and only if it does not overwrite. */
  lemma OverwritesExactly(files: Files, path: string, hasDir: bool, target: string, unique: string, f: Faults)
    requires path in files && unique !in files && OwnRecording(files, path, target)
    ensures OthersKept(files, Put(files, path, hasDir, target, unique, f), path) <==>
      !Overwrites(files, path, hasDir, target, f)
  {
    var after := Put(files, path, hasDir, target, unique, f);
    if Overwrites(files, path, hasDir, target, f) {
      assert !Holds(after, target, files[target]);
    }
  }

  /** Where the media ends up: under its name in the pending directory, or under the other name if that is
      seen to be taken, when that directory is ready and the move works; otherwise it stays. */
  function Shelter(
      files: Files, path: string, hasDir: bool, target: string, unique: string, f: Faults): string {
    var name := if target in files && !f.targetUnread then unique else target;
    if hasDir && f.pendingReady &&
       (path == name || (path in files && (f.out.renames || (f.out.copy.Copied? && f.out.removes))))
    then name else path
  }

  lemma PlaceExactly(files: Files, path: string, hasDir: bool, target: string, unique: string, f: Faults)
    ensures Place(files, path, hasDir, target, unique, f).0 == Shelter(files, path, hasDir, target, unique, f)
  {
    MoveExactly(files, path, PendingPath(files, path, hasDir, target, unique, f), f.out);
  }

  /** Media that is registered elsewhere has left its place. */
  lemma PlaceMoves(files: Files, path: string, hasDir: bool, target: string, unique: string, f: Faults)
    ensures Place(files, path, hasDir, target, unique, f).0 != path ==>
      path !in Put(files, path, hasDir, target, unique, f)
  {
  }

  lemma PendingNamed(files: Files, path: string, hasDir: bool, target: string, unique: string, f: Faults)
    requires target != "" && unique != "" && path != ""
    ensures PendingPath(files, path, hasDir, target, unique, f) != ""
    ensures var place := Place(files, path, hasDir, target, unique, f);
      place.0 == if place.1 then PendingPath(files, path, hasDir, target, unique, f) else path
  {
  }

  /** What MoveToPendingDir has done to the media. */
  lemma PutMedia(files: Files, path: string, hasDir: bool, target: string, unique: string, f: Faults)
    requires path in files && unique !in files
    ensures var after := Put(files, path, hasDir, target, unique, f);
      var pending := PendingPath(files, path, hasDir, target, unique, f);
      && (forall other | other in files && other != path && other != pending :: Holds(after, other, files[other]))
      && if Place(files, path, hasDir, target, unique, f).1 then
           && Holds(after, pending, files[path]) && (path in after ==> path == pending)
           && (Overwrites(files, path, hasDir, target, f) ==> pending == target)
           && (!Overwrites(files, path, hasDir, target, f) ==> pending == path || pending !in files)
         else Holds(after, path, files[path])
  {
  }

  /** An input where another recording is destroyed: the pending name is taken, the look at it fails,
      and the rename works. */
  lemma PendingRecordingDestroyed(unique: string, f: Faults)
    requires f.pendingReady && f.targetUnread && f.out.renames
    ensures var before: Files := map["live/a.mp4" := Whole(1), "pending/a.mp4" := Whole(2)];
      var after := Put(before, "live/a.mp4", true, "pending/a.mp4", unique, f);
      after == map["pending/a.mp4" := Whole(1)] && forall path :: !Holds(after, path, Whole(2))
  {
    assert "live/a.mp4"[0] != "pending/a.mp4"[0];
  }

  // ----- registration -----

  /** The row that ConfirmPendingRegistration looks for; without a key the path decides alone. */
  predicate Matches(t: Task, localPath: string, objectKey: string) {
    t.localPath == localPath && (objectKey != "" ==> t.objectKey == objectKey)
  }

  function Inserted(tasks: seq<Task>, localPath: string, objectKey: string, insert: Insert): seq<Task> {
    if insert.Written? || insert.ErrWritten? then tasks + [Task(localPath, objectKey, Failed)] else tasks
  }

  /** When a registration counts as confirmed. An insert that was lost without an error passes if an
      older row of the same path and key is there. */
  predicate Confirmed(tasks: seq<Task>, localPath: string, objectKey: string, f: Faults) {
    localPath != "" && !f.countFails &&
    (f.insert.Written? || (f.insert.Lost? && exists t | t in tasks :: Matches(t, localPath, objectKey)))
  }

  /** The insert reports no error, the count works, and a row of the path and, if there is one, the key is in
      the table afterwards. */
  predicate Registered(tasks: seq<Task>, localPath: string, objectKey: string, f: Faults) {
    && (f.insert.Written? || f.insert.Lost?) && !f.countFails && localPath != ""
    && exists t | t in tasks :: t.localPath == localPath && (objectKey == "" || t.objectKey == objectKey)
  }

  /** A registration counts as confirmed exactly if that is so; a row that was written without an error is
      always confirmed by a count that works. */
  lemma ConfirmedExactly(tasks: seq<Task>, localPath: string, objectKey: string, f: Faults)
    ensures Confirmed(tasks, localPath, objectKey, f) <==>
      Registered(Inserted(tasks, localPath, objectKey, f.insert), localPath, objectKey, f)
    ensures f.insert.Written? ==>
      && Task(localPath, objectKey, Failed) in Inserted(tasks, localPath, objectKey, f.insert)
      && (localPath != "" && !f.countFails ==> Confirmed(tasks, localPath, objectKey, f))
  {
    var after := Inserted(tasks, localPath, objectKey, f.insert);
    if f.insert.Written? {
      assert after[|tasks|] == Task(localPath, objectKey, Failed) && after[|tasks|] in after;
    }
    if t :| t in tasks && Matches(t, localPath, objectKey) {
      assert t in after;
    }
  }

  class Database {
    var tasks: seq<Task>

    constructor (tasks: seq<Task>)
      ensures this.tasks == tasks
    {
      this.tasks := tasks;
    }

    method SaveFailedUpload(localPath: string, objectKey: string, insert: Insert) returns (ok: bool)
      modifies this
      ensures ok == (insert.Written? || insert.Lost?)
      ensures tasks == Inserted(old(tasks), localPath, objectKey, insert)
      ensures tasks ==
        old(tasks) + if insert.Written? || insert.ErrWritten? then [Task(localPath, objectKey, Failed)] else []
    {
      if insert.Written? || insert.ErrWritten? {
        tasks := tasks + [Task(localPath, objectKey, Failed)];
      }
      ok := insert.Written? || insert.Lost?;
    }

    /** registerFailedUpload with its ConfirmPendingRegistration. */
    method RegisterFailedUpload(localPath: string, objectKey: string, f: Faults) returns (ok: bool)
      modifies this
      ensures tasks == Inserted(old(tasks), localPath, objectKey, f.insert)
      ensures ok == Confirmed(old(tasks), localPath, objectKey, f)
      ensures ok <==> Registered(tasks, localPath, objectKey, f)
      ensures f.insert.Written? ==>
        Task(localPath, objectKey, Failed) in tasks && (localPath != "" && !f.countFails ==> ok)
    {
      ConfirmedExactly(tasks, localPath, objectKey, f);
      ok := SaveFailedUpload(localPath, objectKey, f.insert);
      if ok {
        if f.countFails || localPath == "" {
          return false;
        }
        if f.insert.Written? {
          assert tasks[|tasks| - 1] == Task(localPath, objectKey, Failed);
          assert Matches(tasks[|tasks| - 1], localPath, objectKey);
        } else {
          assert tasks == old(tasks);
        }
        ok := exists t | t in tasks :: Matches(t, localPath, objectKey);
      }
    }
  }

  predicate FailedRow(tasks: seq<Task>, localPath: string, objectKey: string) {
    exists t | t in tasks :: Matches(t, localPath, objectKey) && t.status == Failed
  }

  /** A confirmed registration has a matching row, but the confirmation does not look at the status: the
      row is one the queue will retry exactly if the insert took effect or an older match had failed. */
  lemma ConfirmedRow(tasks: seq<Task>, localPath: string, objectKey: string, f: Faults)
    requires Confirmed(tasks, localPath, objectKey, f)
    ensures var after := Inserted(tasks, localPath, objectKey, f.insert);
      && (exists t | t in after :: Matches(t, localPath, objectKey))
      && (FailedRow(after, localPath, objectKey) <==> f.insert.Written? || FailedRow(tasks, localPath, objectKey))
  {
    if f.insert.Written? {
      var after := Inserted(tasks, localPath, objectKey, f.insert);
      assert after[|tasks|] in after && Matches(after[|tasks|], localPath, objectKey);
    }
  }

  /** An insert that was lost without an error is confirmed by an older success of the same path and
      key, and the queue has nothing to retry. */
  lemma ConfirmedWithoutFailedRow(localPath: string, objectKey: string, f: Faults)
    requires localPath != "" && f.insert.Lost? && !f.countFails
    ensures var tasks := [Task(localPath, objectKey, Success)];
      && Confirmed(tasks, localPath, objectKey, f)
      && !FailedRow(Inserted(tasks, localPath, objectKey, f.insert), localPath, objectKey)
  {
    var tasks := [Task(localPath, objectKey, Success)];
    assert tasks[0] in tasks && Matches(tasks[0], localPath, objectKey);
  }

  /** The half of RecoverFailedUpload that follows a successful move to `pending`. */
  method RegisterOrRestore(disk: Disk, db: Database, pending: string, localPath: string, objectKey: string,
                           f: Faults)
    returns (ok: bool)
    requires disk.Traced() && pending != ""
    modifies disk, db
    ensures disk.Traced() && |disk.trace| >= |old(disk.trace)| && disk.trace[..|old(disk.trace)|] == old(disk.trace)
    ensures ok == Confirmed(old(db.tasks), pending, objectKey, f)
    ensures db.tasks == Inserted(old(db.tasks), pending, objectKey, f.insert)
    ensures ok <==> Registered(db.tasks, pending, objectKey, f)
    ensures f.insert.Written? && !f.countFails ==> ok
    ensures ok ==> disk.files == old(disk.files) && exists t | t in db.tasks :: Matches(t, pending, objectKey)
    ensures ok && f.insert.Written? ==> Task(pending, objectKey, Failed) in db.tasks
    ensures pending in old(disk.files) && (localPath in old(disk.files) ==> localPath == pending) ==>
      var content := old(disk.files)[pending];
      && disk.SafeSince(|old(disk.trace)|, old(disk.files), localPath, pending, content)
      && (!ok ==> Holds(disk.files, localPath, content) || Holds(disk.files, pending, content))
      && (!ok && !f.statFails && (f.back.renames || (f.back.copy.Copied? && f.back.removes)) ==>
            Holds(disk.files, localPath, content))
      && (pending in disk.files ==> disk.files[pending] == content)
      && forall path | path in old(disk.files) && path != pending && path != localPath ::
           Holds(disk.files, path, old(disk.files)[path])
  {
    hide Registered;
    ok := db.RegisterFailedUpload(pending, objectKey, f);
    if !ok {
      var _ := disk.RestoreMedia(pending, localPath, f);
    }
    assert |disk.trace| > |old(disk.trace)| ==> disk.files == disk.trace[|disk.trace| - 1];
  }

  /** RecoverFailedUpload: a path means the media is there and registered; an error means the media is
      still on disk; at every moment it is at its original or its pending path and no file at a third
      path is touched; and no other file is lost or changed, except a recording at the pending name,
      exactly when Overwrites says so. */
  method RecoverFailedUpload(disk: Disk, hasDB: bool, db: Database, localPath: string, objectKey: string,
                             isLocal: bool, hasDir: bool, target: string, unique: string, f: Faults)
    returns (path: string, ok: bool)
    requires disk.Traced() && unique !in disk.files && target != "" && unique != ""
    modifies disk, db
    ensures disk.Traced()
    ensures !hasDB || localPath == "" || isLocal ==>
      path == "" && ok && disk.files == old(disk.files) && db.tasks == old(db.tasks)
    // the answer: a recovery without a fault succeeds, and one that succeeds has moved the media
    ensures hasDB && localPath != "" && !isLocal ==>
      var shelter := Shelter(old(disk.files), localPath, hasDir, target, unique, f);
      && (ok <==> Registered(db.tasks, shelter, objectKey, f))
      && (f.insert.Written? && !f.countFails ==> ok)
      && (ok ==> path == shelter)
      && (ok && localPath in old(disk.files) ==> Holds(disk.files, shelter, old(disk.files)[localPath]))
      && (ok && path != localPath ==> localPath !in disk.files)
    ensures hasDB && localPath in old(disk.files) && localPath != "" && !isLocal ==>
      var place := Place(old(disk.files), localPath, hasDir, target, unique, f).0;
      var pending := PendingPath(old(disk.files), localPath, hasDir, target, unique, f);
      var content := old(disk.files)[localPath];
      && disk.SafeSince(|old(disk.trace)|, old(disk.files), localPath, pending, content)
      && (OwnRecording(old(disk.files), localPath, target) ==>
            (OthersKept(old(disk.files), disk.files, localPath) <==>
              !Overwrites(old(disk.files), localPath, hasDir, target, f)))
      && ok == Confirmed(old(db.tasks), place, objectKey, f)
      && db.tasks == Inserted(old(db.tasks), place, objectKey, f.insert)
      && (ok ==> path == place && Holds(disk.files, path, content))
      && (ok ==> exists t | t in db.tasks :: Matches(t, path, objectKey))
      && (ok && f.insert.Written? ==> Task(path, objectKey, Failed) in db.tasks)
      && (!ok ==> path == "" && (Holds(disk.files, localPath, content) || Holds(disk.files, pending, content)))
      && (!ok && !f.statFails && (f.back.renames || (f.back.copy.Copied? && f.back.removes)) ==>
            Holds(disk.files, localPath, content))
  {
    path, ok := "", true;
    if !hasDB || localPath == "" || isLocal {
      return;
    }
    ghost var files0 := disk.files;
    hide AfterMove, Put, Overwrites, Moves, Works, PendingPath, Place, Confirmed, Inserted, SafeFrom, Registered,
      Shelter, OwnRecording;
    PlaceExactly(files0, localPath, hasDir, target, unique, f);
    PlaceMoves(files0, localPath, hasDir, target, unique, f);
    if localPath in files0 {
      PutMedia(files0, localPath, hasDir, target, unique, f);
      if OwnRecording(files0, localPath, target) {
        OverwritesExactly(files0, localPath, hasDir, target, unique, f);
      }
    }
    PendingNamed(files0, localPath, hasDir, target, unique, f);
    var pending, moved := disk.MoveToPendingDir(localPath, hasDir, target, unique, f);
    if !moved {
      ok := db.RegisterFailedUpload(localPath, objectKey, f);
      path := if ok then localPath else "";
      return;
    }
    ghost var trace1, files1 := disk.trace, disk.files;
    ok := RegisterOrRestore(disk, db, pending, localPath, objectKey, f);
    path := if ok then pending else "";
    if localPath in files0 {
      SafeOn(trace1, disk.trace, |old(disk.trace)|, files0, files1, localPath, pending, files0[localPath]);
    }
  }
}
