/** The upgrade helper: a status file that survives a crash at any point of its rewriting, and a
    coordinator that never lets two upgrades run at once. */
module Updater {
  import opened Wrappers

  datatype Phase =
    | IdlePhase | Accepted | Pulling | Stopping | Starting | Verifying
    | Succeeded | RollingBack | RolledBack | FailedPhase | ManualRecoveryRequired
  {
    predicate Active() {
      Accepted? || Pulling? || Stopping? || Starting? || Verifying? || RollingBack?
    }
  }

  datatype Request = Request(id: string, targetVersion: string, targetImage: string)

  datatype Status = Status(phase: Phase, request: Option<Request>, rollbackPerformed: bool) {
    predicate Active() {
      phase.Active()
    }
  }

  // ----- the state file -------------------------------------------------------------------

  /** A file holds a whole status, or something that cannot be read as one. */
  datatype Content = Complete(status: Status) | Unreadable

  datatype Temporary = Temporary(content: Content, synced: bool)

  /** What readers see under the file's name, whether its data has reached the disk, what the
      directory on disk still says, and the temporary file. */
  datatype Disk = Disk(visible: Option<Content>, synced: bool, durable: Option<Content>, temporary: Option<Temporary>) {
    predicate Settled() {
      synced && durable == visible
    }

    /** The status a reader gets; None when there is no file or it cannot be read. */
    function Read(): Option<Status> {
      if visible.Some? && visible.value.Complete? then Some(visible.value.status) else None
    }
  }

  datatype Action = Truncate | Dump | Sync | Rename | SyncDirectory

  function Do(d: Disk, s: Status, action: Action): Disk {
    match action
    case Truncate => d.(temporary := Some(Temporary(Unreadable, false)))
    case Dump => d.(temporary := Some(Temporary(Complete(s), false)))
    case Sync => if d.temporary.None? then d else d.(temporary := Some(d.temporary.value.(synced := true)))
    case Rename =>
      if d.temporary.None? then d
      else d.(visible := Some(d.temporary.value.content), synced := d.temporary.value.synced, temporary := None)
    case SyncDirectory => if d.synced then d.(durable := d.visible) else d
  }

  function DoAll(d: Disk, s: Status, actions: seq<Action>): Disk {
    if actions == [] then d else Do(DoAll(d, s, actions[..|actions| - 1]), s, actions[|actions| - 1])
  }

  /** What may be found after the process or the machine died: the directory as it was synced or
      as it was seen, and in the latter case data that was never synced may be garbage. */
  predicate Survives(d: Disk, after: Disk) {
    && after.Settled()
    && (after.visible == d.durable || (after.visible == d.visible && d.synced)
         || (after.visible == Some(Unreadable) && !d.synced))
  }

  const WRITE := [Truncate, Dump, Sync, Rename, SyncDirectory]

  /** The disk after so many steps of a write. */
  function Stage(d: Disk, s: Status, n: nat): Disk {
    match n
    case 0 => d
    case 1 => d.(temporary := Some(Temporary(Unreadable, false)))
    case 2 => d.(temporary := Some(Temporary(Complete(s), false)))
    case 3 => d.(temporary := Some(Temporary(Complete(s), true)))
    case 4 => Disk(Some(Complete(s)), true, d.durable, None)
    case _ => Disk(Some(Complete(s)), true, Some(Complete(s)), None)
  }

  lemma StageStep(d: Disk, s: Status, n: nat)
    requires d.synced && n < |WRITE|
    ensures Do(Stage(d, s, n), s, WRITE[n]) == Stage(d, s, n + 1)
  {
  }

  lemma {:induction false} WriteSoFar(d: Disk, s: Status, n: nat)
    requires d.synced && n <= |WRITE|
    ensures DoAll(d, s, WRITE[..n]) == Stage(d, s, n)
  {
    hide Stage, Do;
    if n > 0 {
      WriteSoFar(d, s, n - 1);
      StageStep(d, s, n - 1);
      assert WRITE[..n][..n - 1] == WRITE[..n - 1];
    } else {
      NoStage(d, s);
    }
  }

  lemma NoStage(d: Disk, s: Status)
    ensures Stage(d, s, 0) == d
  {
  }

  /** Whenever a write is cut short, the file reads as the complete old or the complete new
      status, and after the last step only as the new one.  (When the directory could not be
      synced after an earlier write, the old status may be the one before that write.) */
  lemma WritesAreAtomic(d: Disk, s: Status, n: nat, after: Disk)
    requires d.synced && n <= |WRITE| && Survives(DoAll(d, s, WRITE[..n]), after)
    ensures after.visible == d.visible || after.visible == d.durable || after.visible == Some(Complete(s))
    ensures d.Settled() ==> after.visible == d.visible || after.visible == Some(Complete(s))
    ensures n == |WRITE| ==> after.visible == Some(Complete(s))
  {
    WriteSoFar(d, s, n);
  }

  /** Why the write syncs before it renames: without that step the promise would be void. */
  lemma UnsyncedRenameMayTear(d: Disk, s: Status)
    requires d.Settled()
    ensures exists after :: Survives(DoAll(d, s, [Truncate, Dump, Rename]), after) && after.visible == Some(Unreadable)
  {
    var unsynced := [Truncate, Dump, Rename];
    assert unsynced[..2] == [Truncate, Dump] && [Truncate, Dump][..1] == [Truncate] && [Truncate][..0] == [];
    assert DoAll(d, s, [Truncate]) == Do(d, s, Truncate);
    assert DoAll(d, s, [Truncate, Dump]) == Do(Do(d, s, Truncate), s, Dump);
    var after := Disk(Some(Unreadable), true, Some(Unreadable), None);
    assert Survives(DoAll(d, s, unsynced), after);
  }

  // ----- the helper -----------------------------------------------------------------------

  datatype Outcome = Ok | Failed | Died

  datatype Reply = Current(status: Status) | Conflict | Busy | Continue | Started(status: Status) | Error

  /** The status a helper starts from: an unreadable file or an upgrade that was under way is
      left to a human. */
  function StatusAtStart(visible: Option<Content>): Status {
    match visible
    case None => Status(IdlePhase, None, false)
    case Some(Unreadable) => Status(ManualRecoveryRequired, None, true)
    case Some(Complete(s)) =>
      if s.Active() then s.(phase := ManualRecoveryRequired, rollbackPerformed := true) else s
  }

  class Helper {
    var disk: Disk
    var up: bool
    /** The request that has passed the first look at the status, if any. */
    var admitted: Option<Request>
    /** The last worker thread that was started. */
    var handle: Option<nat>
    /** The worker threads that are alive, by what they were started with. */
    var live: map<nat, Request>
    /** Those that have written their final status. */
    var finished: set<nat>
    var nextThread: nat
    /** Whether writes may fail, and whether the process may die in them. */
    var mayFail: bool
    var mayDie: bool

    ghost predicate Valid()
      reads this
    {
      && disk.synced
      && (up ==> disk.Read().Some?)
      && (!up ==> live == map[] && admitted.None? && handle.None?)
      && (admitted.Some? ==> !disk.Read().value.Active())
      && (forall t :: t in live ==>
            && handle == Some(t) && t < nextThread
            && disk.Read().value.request == Some(live[t])
            && disk.durable.Some? && disk.durable.value.Complete? && disk.durable.value.status.request == Some(live[t])
            && (t !in finished ==> disk.Read().value.Active()))
      && (forall t :: t in finished ==> t < nextThread)
    }

    /** The helper before its first run, with whatever is in the file by then. */
    constructor (found: Disk, mayFail: bool, mayDie: bool)
      requires found.Settled()
      ensures Valid() && disk == found && !up && live == map[] && this.mayFail == mayFail && this.mayDie == mayDie
    {
      disk, up, admitted, handle, live, finished, nextThread := found, false, None, None, map[], {}, 0;
      this.mayFail, this.mayDie := mayFail, mayDie;
    }

    /** Rewrites the file.  Any of its steps may fail, and the process may die at any of them;
        a failure to sync the directory is reported although the new status is in place. */
    method Write(s: Status) returns (r: Outcome)
      requires disk.synced
      modifies `disk
      ensures disk.synced && (!r.Failed? ==> disk.Settled())
      ensures r.Ok? ==> disk.visible == Some(Complete(s))
      ensures r.Failed? ==>
        disk.durable == old(disk).durable && (disk.visible == old(disk).visible || disk.visible == Some(Complete(s)))
      ensures r.Died? ==> disk.visible in {old(disk).visible, old(disk).durable, Some(Complete(s))}
      ensures (r.Failed? ==> mayFail) && (r.Died? ==> mayDie)
    {
      ghost var before := disk;
      var n := 0;
      while n < |WRITE|
        invariant 0 <= n <= |WRITE| && disk == DoAll(before, s, WRITE[..n])
      {
        var fails, dies: bool := *, *;
        WriteSoFar(before, s, n);
        if mayDie && dies {
          var after: Disk := *;
          if Survives(disk, after) {
            WritesAreAtomic(before, s, n, after);
            disk := after;
            return Died;
          }
        }
        if mayFail && fails {
          disk := disk.(temporary := None);
          return Failed;
        }
        assert WRITE[..n + 1][..n] == WRITE[..n];
        disk := Do(disk, s, WRITE[n]);
        n := n + 1;
      }
      WriteSoFar(before, s, n);
      r := Ok;
    }

    method Die()
      modifies `up, `admitted, `handle, `live
      ensures !up && live == map[] && admitted.None? && handle.None?
    {
      up, admitted, handle, live := false, None, None, map[];
    }

    /** The process starts: whatever the file says, the helper comes up inactive. */
    method Boot()
      requires Valid() && !up
      modifies `disk, `up
      ensures Valid() && live == old(live)
      ensures up ==> disk.visible == Some(Complete(StatusAtStart(old(disk).visible)))
      ensures up ==> !disk.Read().value.Active()
      ensures !up ==>
        disk.visible in {old(disk).visible, old(disk).durable, Some(Complete(StatusAtStart(old(disk).visible)))}
      ensures up && old(disk).visible.None? ==> disk.visible == Some(Complete(Status(IdlePhase, None, false)))
      ensures up && old(disk).visible == Some(Unreadable) ==>
        disk.visible == Some(Complete(Status(ManualRecoveryRequired, None, true)))
      ensures up && old(disk).Read().Some? ==>
        var was := old(disk).Read().value;
        if was.phase in {Accepted, Pulling, Stopping, Starting, Verifying, RollingBack} then
          disk.visible == Some(Complete(Status(ManualRecoveryRequired, was.request, true)))
        else disk == old(disk)
      ensures !mayFail && !mayDie ==> up
    {
      var status := StatusAtStart(disk.visible);
      if disk.visible != Some(Complete(status)) {
        var r := Write(status);
        if !r.Ok? {
          return;
        }
      }
      up := true;
    }

    /** The first part of a start: repeats answer with the current status, and nothing else
        passes while an upgrade is active. */
    method Admit(request: Request) returns (reply: Reply)
      requires Valid() && up && admitted.None?
      modifies `admitted
      ensures Valid()
      ensures reply.Continue? <==> admitted == Some(request)
      ensures !reply.Continue? ==> admitted.None?
      ensures var current := disk.Read().value;
              reply == if current.request.Some? && current.request.value.id == request.id then
                         if current.request.value != request then Conflict else Current(current)
                       else if current.Active() then Busy
                       else Continue
    {
      var current := disk.Read().value;
      if current.request.Some? && current.request.value.id == request.id {
        if current.request.value.targetImage != request.targetImage
           || current.request.value.targetVersion != request.targetVersion {
          return Conflict;
        }
        return Current(current);
      }
      if current.Active() {
        return Busy;
      }
      admitted := Some(request);
      reply := Continue;
    }

    /** The second part, under the thread lock: refuse while the last worker is alive, else put
        the request on record and start its worker. */
    method Start() returns (reply: Reply)
      requires Valid() && up && admitted.Some?
      modifies `disk, `admitted, `handle, `live, `nextThread, `up
      ensures Valid() && admitted.None?
      ensures old(live) != map[] ==> reply == Busy && live == old(live) && disk == old(disk)
      ensures reply.Busy? ==> old(live) != map[]
      ensures reply.Started? ==>
        && reply.status == Status(Accepted, old(admitted), false) && disk.visible == Some(Complete(reply.status))
        && live == map[old(nextThread) := old(admitted).value]
      ensures !reply.Started? && !reply.Busy? ==> live == map[] && reply.Error?
      ensures !mayFail && !mayDie && old(live) == map[] ==> reply.Started? && up
    {
      if handle.Some? && handle.value in live {
        admitted := None;
        return Busy;
      }
      assert live == map[];
      var request := admitted.value;
      var accepted := Status(Accepted, Some(request), false);
      admitted := None;
      var r := Write(accepted);
      if r.Died? {
        Die();
        return Error;
      }
      if r.Failed? {
        return Error;
      }
      handle, live, nextThread := Some(nextThread), map[nextThread := request], nextThread + 1;
      reply := Started(accepted);
    }

    /** A worker reports a phase of its upgrade. */
    method Report(t: nat, phase: Phase) returns (r: Outcome)
      requires Valid() && up && t in live && t !in finished && phase.Active()
      modifies `disk, `up, `admitted, `handle, `live
      ensures Valid()
      ensures r.Ok? ==> disk.Read() == Some(old(disk).Read().value.(phase := phase)) && live == old(live)
      ensures disk.Read().Some? && disk.Read().value.request == Some(old(live)[t])
      ensures r.Died? <==> !up
      ensures !mayFail && !mayDie ==> r.Ok?
    {
      var current := disk.Read().value;
      r := Write(current.(phase := phase));
      if r.Died? {
        Die();
      }
    }

    /** A worker writes its result; if even that fails, the worker just ends. */
    method Finish(t: nat, phase: Phase, rollbackPerformed: bool) returns (r: Outcome)
      requires Valid() && up && t in live && t !in finished && !phase.Active()
      modifies `disk, `up, `admitted, `handle, `live, `finished
      ensures Valid()
      ensures r.Ok? ==>
        disk.Read() == Some(Status(phase, Some(old(live)[t]), rollbackPerformed)) && live == old(live) && t in finished
      ensures disk.Read().Some? && disk.Read().value.request == Some(old(live)[t])
      ensures r.Failed? ==> live == old(live) - {t}
      ensures r.Died? <==> !up
      ensures !mayFail && !mayDie ==> r.Ok?
    {
      var current := disk.Read().value;
      r := Write(current.(phase := phase, rollbackPerformed := rollbackPerformed));
      if r.Died? {
        Die();
      } else if r.Failed? {
        live := live - {t};
      } else {
        finished := finished + {t};
      }
    }

    /** The thread of a worker that has finished ends. */
    method Exit(t: nat)
      requires Valid() && t in live && t in finished
      modifies `live
      ensures Valid() && live == old(live) - {t}
    {
      live := live - {t};
    }

    /** The process is killed between any two of the above. */
    method Kill()
      requires Valid()
      modifies `up, `admitted, `handle, `live
      ensures Valid() && !up && live == map[]
    {
      Die();
    }

    lemma AtMostOneWorker()
      requires Valid()
      ensures |live| <= 1
    {
      if t :| t in live {
        assert live.Keys == {t};
      } else {
        assert live.Keys == {};
      }
    }
  }
}
