/** The qBittorrent services and the file services side by side: a target is unlinked by cleanup
    only after a removal of the same task and plan has seen that the client let go of it. */
module CleanupOrdering {
  import opened OperationJournal
  import opened Wrappers
  import Qb = QbittorrentSystem
  import Log = QbittorrentLog
  import Files = RepairIsolation

  /** A target that cleanup unlinked, under which cleanup journal, and how much of the client's
      history there was by then. */
  datatype Unlinked = Unlinked(link: Files.Link, task: string, cleanup: Files.Cleanup, at: nat)

  datatype State = State(client: Qb.State, files: Files.State, unlinked: seq<Unlinked>)

  datatype Label = OnClient(move: Qb.Label) | OnFiles(link: Files.Link, step: Files.Step)

  /** What authorises a cleanup: a removal journal of the same task and execution plan that says
      the torrent is gone. */
  predicate RemovalAuthorizes(client: Qb.State, task: string, plan: string, removal: Log.Key) {
    var cell := client.CellOf(removal);
    && removal.kind.Remove? && cell.journal.Some?
    && cell.journal.value.request.task == task && cell.journal.value.request.plan == plan
    && (cell.journal.value.status.Applied? || cell.journal.value.status.Noop?)
  }

  predicate Enabled(s: State, l: Files.Link, step: Files.Step) {
    step.BeginCleanup? ==>
      && s.files.CellOf(l).hardlink.Some?
      && RemovalAuthorizes(s.client, s.files.CellOf(l).hardlink.value.task, step.plan, step.removal)
  }

  ghost function Next(original: Files.Disk, s: State, turn: Label): State {
    match turn
    case OnClient(q) => s.(client := Qb.Step(s.client, q))
    case OnFiles(l, step) =>
      if !Enabled(s, l, step) then s
      else
        var files := Files.Next(original, s.files, l, step);
        var cell := s.files.CellOf(l);
        if step.Unlink? && files.disk != s.files.disk && cell.cleanup.Some? && cell.hardlink.Some? then
          State(s.client, files,
            s.unlinked + [Unlinked(l, cell.hardlink.value.task, cell.cleanup.value, |s.client.log|)])
        else s.(files := files)
  }

  ghost function Execute(original: Files.Disk, s: State, labels: seq<Label>): State {
    if labels == [] then s else Next(original, Execute(original, s, labels[..|labels| - 1]), labels[|labels| - 1])
  }

  ghost predicate Initial(original: Files.Disk, s: State) {
    Qb.Initial(s.client) && s.files == Files.State(original, map[]) && s.unlinked == []
  }

  /** Within the first `n` events: the removal's intent bore this task and plan, its torrent was
      looked for and not found, and the journal was then closed as APPLIED or NOOP. */
  ghost predicate ClientLetGo(log: Log.Log, n: nat, task: string, plan: string, removal: Log.Key) {
    exists j: nat, recorded: nat, seen: nat ::
      && j < n <= |log| && Log.RemovalConfirmedAt(log, j, removal) && Log.SawAbsent(log, j, removal, recorded, seen)
      && log[recorded].request.task == task && log[recorded].request.plan == plan
  }

  ghost predicate Invariant(s: State) {
    && Qb.Invariant(s.client)
    && (forall l :: s.files.CellOf(l).cleanup.Some? ==>
          && s.files.CellOf(l).hardlink.Some?
          && var c := s.files.CellOf(l);
             ClientLetGo(s.client.log, |s.client.log|, c.hardlink.value.task, c.cleanup.value.plan,
               c.cleanup.value.removal))
    && (forall i :: 0 <= i < |s.unlinked| ==>
          var u := s.unlinked[i];
          u.at <= |s.client.log| && ClientLetGo(s.client.log, u.at, u.task, u.cleanup.plan, u.cleanup.removal))
  }

  lemma LetGoKept(log: Log.Log, next: Log.Log, n: nat, m: nat, task: string, plan: string, removal: Log.Key)
    requires ClientLetGo(log, n, task, plan, removal) && log <= next && n <= m <= |next|
    ensures ClientLetGo(next, m, task, plan, removal)
  {
    var j: nat, recorded: nat, seen: nat :|
      && j < n <= |log| && Log.RemovalConfirmedAt(log, j, removal) && Log.SawAbsent(log, j, removal, recorded, seen)
      && log[recorded].request.task == task && log[recorded].request.plan == plan;
    assert next[..j] == log[..j];
    assert Log.SawAbsent(next, j, removal, recorded, seen);
  }

  lemma AuthorizedMeansLetGo(client: Qb.State, task: string, plan: string, removal: Log.Key)
    requires Qb.Invariant(client) && RemovalAuthorizes(client, task, plan, removal)
    ensures ClientLetGo(client.log, |client.log|, task, plan, removal)
  {
    hide Log.Honest, Log.RemovalsAuthorized, Qb.RunHolds, Qb.ReconciliationHolds, Log.Disciplined, Log.ViewOf;
    hide Log.LastObserved;
    var log := client.log;
    assert log[..|log|] == log;
    assert Qb.CellHolds(removal, client.CellOf(removal), Log.ViewOf(log, removal));
    var j := Log.RemovalWasConfirmed(log, removal, |log|);
    var recorded, seen := Log.RemovalMeansSeenAbsent(log, j, removal);
    var original := Log.JournalWasRecorded(log, removal);
    Log.RecordedOnce(log, original, recorded, removal);
  }

  /** A cleanup journal comes from the step that begins the cleanup and keeps what it binds. */
  lemma CleanupsAreKept(original: Files.Disk, s: Files.State, l: Files.Link, step: Files.Step, other: Files.Link)
    requires Files.Next(original, s, l, step).CellOf(other).cleanup.Some?
    ensures var was, now := s.CellOf(other), Files.Next(original, s, l, step).CellOf(other);
            if was.cleanup.Some? then
              && now.cleanup.value.plan == was.cleanup.value.plan
              && now.cleanup.value.removal == was.cleanup.value.removal
              && (was.hardlink.Some? ==> now.hardlink.Some? && now.hardlink.value.task == was.hardlink.value.task)
            else
              && l == other && step.BeginCleanup? && was.hardlink.Some? && now.hardlink == was.hardlink
              && now.cleanup.value.plan == step.plan && now.cleanup.value.removal == step.removal
  {
    hide Files.SourceIsOriginal, Files.Perform;
    if Files.SourceIsOriginal(original, step) && l == other {
      CleanupKept(s.disk, s.CellOf(l), l, step);
    }
  }

  lemma CleanupKept(d: Files.Disk, was: Files.Cell, l: Files.Link, step: Files.Step)
    requires Files.Perform(d, was, l, step).cell.cleanup.Some?
    ensures var now := Files.Perform(d, was, l, step).cell;
            if was.cleanup.Some? then
              && now.cleanup.value.plan == was.cleanup.value.plan
              && now.cleanup.value.removal == was.cleanup.value.removal
              && (was.hardlink.Some? ==> now.hardlink.Some? && now.hardlink.value.task == was.hardlink.value.task)
            else
              && step.BeginCleanup? && was.hardlink.Some? && now.hardlink == was.hardlink
              && now.cleanup.value.plan == step.plan && now.cleanup.value.removal == step.removal
  {
    hide Files.CanUnlink;
  }

  lemma ClientOnlyAppends(s: Qb.State, move: Qb.Label)
    ensures s.log <= Qb.Step(s, move).log
  {
    hide Qb.Perform, Qb.Enabled;
  }

  lemma NextKeeps(original: Files.Disk, s: State, turn: Label)
    requires Invariant(s)
    ensures Invariant(Next(original, s, turn))
  {
    hide Qb.Invariant, Qb.Step, ClientLetGo, Files.Next, RemovalAuthorizes;
    match turn
    case OnClient(move) =>
      Qb.StepKept(s.client, move);
      ClientOnlyAppends(s.client, move);
      var next := Next(original, s, turn);
      forall n: nat, m: nat, task, plan, removal |
        ClientLetGo(s.client.log, n, task, plan, removal) && n <= m <= |next.client.log|
        ensures ClientLetGo(next.client.log, m, task, plan, removal)
      {
        LetGoKept(s.client.log, next.client.log, n, m, task, plan, removal);
      }
    case OnFiles(l, step) =>
      if Enabled(s, l, step) {
        FilesKeep(original, s, l, step);
      }
  }

  lemma FilesKeep(original: Files.Disk, s: State, l: Files.Link, step: Files.Step)
    requires Invariant(s) && Enabled(s, l, step)
    ensures Invariant(Next(original, s, OnFiles(l, step)))
  {
    hide Qb.Invariant, ClientLetGo, Files.Next, RemovalAuthorizes;
    var next := Next(original, s, OnFiles(l, step));
    forall other | next.files.CellOf(other).cleanup.Some?
      ensures next.files.CellOf(other).hardlink.Some?
      ensures var c := next.files.CellOf(other);
              ClientLetGo(s.client.log, |s.client.log|, c.hardlink.value.task, c.cleanup.value.plan,
                c.cleanup.value.removal)
    {
      CleanupsAreKept(original, s.files, l, step, other);
      if s.files.CellOf(other).cleanup.None? {
        AuthorizedMeansLetGo(s.client, s.files.CellOf(l).hardlink.value.task, step.plan, step.removal);
      }
    }
  }

  lemma {:induction false} InvariantHolds(original: Files.Disk, s: State, labels: seq<Label>)
    requires Initial(original, s)
    ensures Invariant(Execute(original, s, labels))
  {
    hide Invariant, Next;
    if labels == [] {
      InitiallyHolds(original, s);
    } else {
      InvariantHolds(original, s, labels[..|labels| - 1]);
      NextKeeps(original, Execute(original, s, labels[..|labels| - 1]), labels[|labels| - 1]);
    }
  }

  lemma InitiallyHolds(original: Files.Disk, s: State)
    requires Initial(original, s)
    ensures Invariant(s)
  {
    hide Qb.Invariant, Qb.Initial;
    Qb.InitiallyHolds(s.client);
  }

  /** Over every run of both services: when a target was unlinked, the client had already been
      seen without the torrent, by a removal of the same task and plan that was then closed. */
  lemma UnlinkedOnlyAfterLettingGo(original: Files.Disk, s: State, labels: seq<Label>, i: nat)
    requires Initial(original, s) && i < |Execute(original, s, labels).unlinked|
    ensures var end := Execute(original, s, labels);
            var u := end.unlinked[i];
            u.at <= |end.client.log| && ClientLetGo(end.client.log, u.at, u.task, u.cleanup.plan, u.cleanup.removal)
  {
    InvariantHolds(original, s, labels);
  }

  lemma UnlinkIsRecorded(original: Files.Disk, s: State, l: Files.Link)
    requires Files.Next(original, s.files, l, Files.Unlink).disk != s.files.disk
    requires s.files.CellOf(l).hardlink.Some?
    ensures s.files.CellOf(l).cleanup.Some?
    ensures var next := Next(original, s, OnFiles(l, Files.Unlink));
            next.unlinked == s.unlinked
            + [Unlinked(l, s.files.CellOf(l).hardlink.value.task, s.files.CellOf(l).cleanup.value, |s.client.log|)]
  {
  }

  ghost predicate HoldsCopy(s: State, l: Files.Link) {
    Files.HoldsCopy(s.files.disk, l, s.files.CellOf(l))
  }

  lemma {:induction false} FilesInvariantHolds(original: Files.Disk, s: State, labels: seq<Label>)
    requires Initial(original, s) && Files.Proper(original)
    ensures Files.Invariant(original, Execute(original, s, labels).files)
  {
    hide Files.Invariant, Files.Next, Qb.Initial, Qb.Step, Enabled;
    if labels == [] {
      Files.InitiallyHolds(original);
    } else {
      var front, turn := labels[..|labels| - 1], labels[|labels| - 1];
      FilesInvariantHolds(original, s, front);
      if turn.OnFiles? {
        Files.NextKeeps(original, Execute(original, s, front).files, turn.link, turn.step);
      }
    }
  }

  /** The record is complete: the only turn after which a target is no longer the copy that
      isolation made of it is its own link's unlink, and that turn is put on the record. */
  lemma EveryUnlinkIsRecorded(original: Files.Disk, s: State, turn: Label, l: Files.Link)
    requires Files.Invariant(original, s.files) && HoldsCopy(s, l) && !HoldsCopy(Next(original, s, turn), l)
    ensures turn == OnFiles(l, Files.Unlink)
    ensures s.files.CellOf(l).hardlink.Some? && s.files.CellOf(l).cleanup.Some?
    ensures Next(original, s, turn).unlinked == s.unlinked
         + [Unlinked(l, s.files.CellOf(l).hardlink.value.task, s.files.CellOf(l).cleanup.value, |s.client.log|)]
  {
    hide Files.Invariant, Files.Next, Files.HoldsCopy, Qb.Step, Enabled;
    if turn.OnFiles? && turn != OnFiles(l, Files.Unlink) {
      Files.CopyStays(original, s.files, l, turn.link, turn.step);
    }
    assert turn == OnFiles(l, Files.Unlink);
    UnlinkedFrom(original, s.files, l);
    UnlinkIsRecorded(original, s, l);
  }

  lemma UnlinkedFrom(original: Files.Disk, files: Files.State, l: Files.Link)
    requires Files.Invariant(original, files) && Files.HoldsCopy(files.disk, l, files.CellOf(l))
    requires var next := Files.Next(original, files, l, Files.Unlink);
             !Files.HoldsCopy(next.disk, l, next.CellOf(l))
    ensures Files.Next(original, files, l, Files.Unlink).disk != files.disk && files.CellOf(l).hardlink.Some?
  {
    Files.SoundOf(original, files, l);
    Files.CopyIsNotTheLink(original, files.disk, l, files.CellOf(l));
    hide Files.Invariant, Files.Sound, Files.CanUnlink, Files.IsOriginal;
  }

  lemma RecordGrows(original: Files.Disk, s: State, turn: Label)
    ensures s.unlinked <= Next(original, s, turn).unlinked
  {
    hide Files.Next, Qb.Step, Enabled;
  }

  /** So over every run of both services, a target that was an isolated copy at some point and is
      not any more was unlinked in between, after the client had let go of it. */
  lemma GoneCopyWasLetGo(original: Files.Disk, s: State, labels: seq<Label>, more: seq<Label>, l: Files.Link)
    returns (i: nat)
    requires Initial(original, s) && Files.Proper(original)
    requires HoldsCopy(Execute(original, s, labels), l) && !HoldsCopy(Execute(original, s, labels + more), l)
    ensures var end := Execute(original, s, labels + more);
            && |Execute(original, s, labels).unlinked| <= i < |end.unlinked| && end.unlinked[i].link == l
            && var u := end.unlinked[i];
               u.at <= |end.client.log| && ClientLetGo(end.client.log, u.at, u.task, u.cleanup.plan, u.cleanup.removal)
  {
    i := GoneCopyIsRecorded(original, s, labels, more, l);
    UnlinkedOnlyAfterLettingGo(original, s, labels + more, i);
  }

  lemma {:induction false} GoneCopyIsRecorded(original: Files.Disk, s: State, labels: seq<Label>, more: seq<Label>,
                                              l: Files.Link)
      returns (i: nat)
    requires Initial(original, s) && Files.Proper(original)
    requires HoldsCopy(Execute(original, s, labels), l) && !HoldsCopy(Execute(original, s, labels + more), l)
    ensures var end := Execute(original, s, labels + more);
            |Execute(original, s, labels).unlinked| <= i < |end.unlinked| && end.unlinked[i].link == l
  {
    hide Initial, HoldsCopy, Next;
    assert more == [] ==> labels + more == labels;
    var front, turn := more[..|more| - 1], more[|more| - 1];
    assert (labels + more)[..|labels + more| - 1] == labels + front;
    var before := Execute(original, s, labels + front);
    assert Execute(original, s, labels + more) == Next(original, before, turn);
    RecordGrows(original, before, turn);
    if HoldsCopy(before, l) {
      FilesInvariantHolds(original, s, labels + front);
      EveryUnlinkIsRecorded(original, before, turn, l);
      RecordGrowsOver(original, s, labels, front);
      i := |before.unlinked|;
    } else {
      i := GoneCopyIsRecorded(original, s, labels, front, l);
    }
  }

  lemma {:induction false} RecordGrowsOver(original: Files.Disk, s: State, labels: seq<Label>, more: seq<Label>)
    ensures |Execute(original, s, labels).unlinked| <= |Execute(original, s, labels + more).unlinked|
  {
    hide Next;
    if more == [] {
      assert labels + more == labels;
    } else {
      var front := more[..|more| - 1];
      assert (labels + more)[..|labels + more| - 1] == labels + front;
      RecordGrowsOver(original, s, labels, front);
      RecordGrows(original, Execute(original, s, labels + front), more[|more| - 1]);
    }
  }

  /** A cleanup that is authorised, of a copy that has the recorded size, goes through and is put on
      the record; without the authorisation it does not begin. */
  lemma CleanupGetsThrough(original: Files.Disk, s: State, l: Files.Link, plan: string, removal: Log.Key)
    requires Files.Invariant(original, s.files) && HoldsCopy(s, l)
    requires var cell := s.files.CellOf(l);
             && cell.LinkIs(Applied) && cell.cleanup.None?
             && Files.HasRecordedSize(s.files.disk, l, cell)
    ensures var authorized := RemovalAuthorizes(s.client, s.files.CellOf(l).hardlink.value.task, plan, removal);
            var begun := Next(original, s, OnFiles(l, Files.BeginCleanup(plan, removal)));
            var unlinked := Next(original, begun, OnFiles(l, Files.Unlink));
            var confirmed := Next(original, unlinked, OnFiles(l, Files.ConfirmCleanup));
            if authorized then
              var recorded := Files.Cleanup(plan, removal, IntentRecorded);
              && confirmed.files.CellOf(l).cleanup == Some(Files.Cleanup(plan, removal, Applied))
              && confirmed.files.disk == s.files.disk.WithoutName(Files.Plain(l.target))
              && confirmed.unlinked
              == s.unlinked + [Unlinked(l, s.files.CellOf(l).hardlink.value.task, recorded, |s.client.log|)]
            else confirmed == s
  {
    hide Files.Invariant, Files.Sound, Files.IsOriginal, Files.Next, Files.HoldsCopy, Files.HasRecordedSize;
    hide RemovalAuthorizes;
    Files.SoundOf(original, s.files, l);
    Files.CopyIsNotTheLink(original, s.files.disk, l, s.files.CellOf(l));
    Files.CopyHasOneName(original, s.files.disk, l, s.files.CellOf(l));
    Files.CleanupRow(original, s.files, l, plan, removal);
    CopyIsApplied(s.files, l);
    BegunCleanup(original, s.files, l, plan, removal);
    WithoutCleanup(original, s.files, l);
  }

  lemma CopyIsApplied(files: Files.State, l: Files.Link)
    requires Files.HoldsCopy(files.disk, l, files.CellOf(l))
    ensures files.CellOf(l).IsolationIs(Applied) && Files.Plain(l.target) in files.disk.names && l in files.cells
  {
  }

  lemma BegunCleanup(original: Files.Disk, files: Files.State, l: Files.Link, plan: string, removal: Log.Key)
    requires var cell := files.CellOf(l);
             cell.LinkIs(Applied) && cell.cleanup.None? && cell.IsolationIs(Applied)
    ensures var begun := Files.Next(original, files, l, Files.BeginCleanup(plan, removal));
            begun.disk == files.disk
            && begun.CellOf(l) == files.CellOf(l).(cleanup := Some(Files.Cleanup(plan, removal, IntentRecorded)))
  {
  }

  /** Without a cleanup there is nothing to unlink or confirm. */
  lemma WithoutCleanup(original: Files.Disk, files: Files.State, l: Files.Link)
    requires l in files.cells && files.CellOf(l).cleanup.None?
    ensures Files.Next(original, files, l, Files.Unlink) == files
    ensures Files.Next(original, files, l, Files.ConfirmCleanup) == files
  {
    assert files.cells[l := files.CellOf(l)] == files.cells;
  }
}
