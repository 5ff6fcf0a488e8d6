/** Hard links, their isolation as private copies, rollback and cleanup, interleaved in any order
    with crashes and with a client that writes to isolated targets.  A step is what one service
    does between two points where it may die or be overtaken. */
module RepairIsolation {
  import opened OperationJournal
  import opened Wrappers
  import Removals = QbittorrentLog

  type Inode = nat

  /** The operation key of a hard link; isolation and cleanup derive theirs from it. */
  datatype Link = Link(candidate: string, target: string)

  /** Temporary names contain the digest of the operation key. */
  datatype Path = Plain(text: string) | LinkTemporary(link: Link) | RepairTemporary(link: Link)

  /** The owner is the marker that isolation writes beside the bytes. */
  datatype File = File(bytes: string, version: nat, owner: Option<Link>)

  /** What makes two stats the same file: the inode and an unchanged size and time. */
  datatype Identity = Identity(inode: Inode, version: nat)

  datatype Disk = Disk(names: map<Path, Inode>, files: map<Inode, File>) {
    predicate Has(p: Path) {
      p in names && names[p] in files
    }

    predicate Is(p: Path, identity: Identity) {
      Has(p) && Identity(names[p], files[names[p]].version) == identity
    }

    function WithName(p: Path, i: Inode): Disk {
      this.(names := names[p := i])
    }

    function WithoutName(p: Path): Disk {
      this.(names := names - {p})
    }

    function WithFile(i: Inode, f: File): Disk {
      this.(files := files[i := f])
    }

    /** No other name for the file. */
    ghost predicate OnlyName(p: Path)
      requires p in names
    {
      forall q :: q in names && names[q] == names[p] ==> q == p
    }
  }

  datatype Hardlink = Hardlink(task: string, source: Path, expected: Identity, status: Status, after: Option<Identity>)

  /** What an APPLIED isolation knows of its file. */
  datatype Record = Record(inode: Inode, size: nat)

  datatype Isolation = Isolation(status: Status, progress: Option<Inode>, after: Option<Record>)

  datatype Cleanup = Cleanup(plan: string, removal: Removals.Key, status: Status)

  /** The one execution that holds the lock of the link's isolation, by what it has done. */
  datatype Worker =
    | Idle
    | Ready
    | Created(inode: Inode)
    | Marked(inode: Inode)
    | Owning(inode: Inode)
    | Copied(inode: Inode)
    | Replaced(inode: Inode)

  datatype Cell = Cell(hardlink: Option<Hardlink>, isolation: Option<Isolation>, cleanup: Option<Cleanup>,
    worker: Worker) {
    predicate LinkIs(status: Status) {
      hardlink.Some? && hardlink.value.status == status
    }

    predicate IsolationIs(status: Status) {
      isolation.Some? && isolation.value.status == status
    }

    predicate CleanupIs(status: Status) {
      cleanup.Some? && cleanup.value.status == status
    }

    function WithLink(status: Status): Cell
      requires hardlink.Some?
    {
      this.(hardlink := Some(hardlink.value.(status := status)))
    }
  }

  const BLANK := Cell(None, None, None, Idle)

  datatype State = State(disk: Disk, cells: map<Link, Cell>) {
    function CellOf(l: Link): Cell {
      if l in cells then cells[l] else BLANK
    }
  }

  // ----- steps ----------------------------------------------------------------------------

  datatype Step =
    | RecordLink(task: string, source: Path, expected: Identity)
    | MakeTemporary
    | PlaceLink
    | ConfirmLink
    | DoubtLink
    | ReconcileLink
    | BeginRollback
    | Rollback
    | BeginIsolation
    | Prepare(unused: Inode)
    | Mark
    | RecordProgress
    | Copy(version: nat)
    | Replace
    | ConfirmIsolation
    | Abandon
    | Crash
    | ClientWrites(bytes: string, version: nat)
    | BeginCleanup(plan: string, removal: Removals.Key)
    | Unlink
    | ConfirmCleanup
    | AbandonCleanup

  datatype Effect = Effect(disk: Disk, cell: Cell)

  /** A hard link: intent, temporary link, final name, APPLIED.  Executions of a link are not
      locked against each other, so each step only relies on what it looks at itself. */
  function LinkStep(d: Disk, cell: Cell, l: Link, step: Step): Effect {
    var target, temporary := Plain(l.target), LinkTemporary(l);
    var nothing := Effect(d, cell);
    match step
    case RecordLink(task, source, expected) =>
      if cell.hardlink.Some? || !d.Is(source, expected) || target in d.names then nothing
      else Effect(d, cell.(hardlink := Some(Hardlink(task, source, expected, IntentRecorded, None))))
    case MakeTemporary =>
      if cell.hardlink.None? || !d.Is(cell.hardlink.value.source, cell.hardlink.value.expected)
         || target in d.names || temporary in d.names then nothing
      else Effect(d.WithName(temporary, cell.hardlink.value.expected.inode), cell)
    case PlaceLink =>
      if cell.hardlink.None? || !d.Is(temporary, cell.hardlink.value.expected) || target in d.names then nothing
      else Effect(d.WithoutName(temporary).WithName(target, cell.hardlink.value.expected.inode), cell)
    case ConfirmLink =>
      if !cell.LinkIs(IntentRecorded) || !d.Is(target, cell.hardlink.value.expected) then nothing
      else Effect(d, cell.(hardlink :=
        Some(cell.hardlink.value.(status := Applied, after := Some(cell.hardlink.value.expected)))))
    case DoubtLink =>
      if cell.LinkIs(IntentRecorded) || cell.LinkIs(Applied) then Effect(d, cell.WithLink(ReconcileRequired))
        else nothing
    case ReconcileLink =>
      if !cell.LinkIs(ReconcileRequired) || cell.hardlink.value.after.None?
         || !d.Is(target, cell.hardlink.value.after.value) then nothing
      else Effect(d, cell.WithLink(Applied))
    case BeginRollback =>
      if cell.LinkIs(Applied) then Effect(d, cell.WithLink(RollbackPending)) else nothing
    case Rollback =>
      if !cell.LinkIs(RollbackPending) || cell.hardlink.value.after.None? then nothing
      else if target !in d.names then Effect(d, cell.WithLink(RolledBack))
      else if d.Is(target, cell.hardlink.value.after.value) then
        Effect(d.WithoutName(target), cell.WithLink(RolledBack))
      else Effect(d, cell.WithLink(RollbackBlocked))
    case _ => nothing
  }

  /** Isolation: a temporary file of its own, marked, put on record, filled, and moved over the
      target if that is still the link that was recorded. */
  ghost function IsolationStep(d: Disk, cell: Cell, l: Link, step: Step): Effect {
    var target, temporary := Plain(l.target), RepairTemporary(l);
    var nothing := Effect(d, cell);
    match step
    case BeginIsolation =>
      if !cell.worker.Idle? || !cell.LinkIs(Applied) || cell.hardlink.value.after.None? then nothing
      else if cell.isolation.None? then
        if !d.Is(cell.hardlink.value.source, cell.hardlink.value.expected)
           || !d.Is(target, cell.hardlink.value.after.value)
           || temporary in d.names
        then nothing
        else Effect(d, cell.(isolation := Some(Isolation(IntentRecorded, None, None)), worker := Ready))
      else if cell.IsolationIs(IntentRecorded) then Effect(d, cell.(worker := Ready))
      else nothing
    case Prepare(unused) =>
      if !cell.worker.Ready? || !cell.IsolationIs(IntentRecorded) || cell.hardlink.None? || !d.Has(target)
         || !d.Is(cell.hardlink.value.source, cell.hardlink.value.expected)
      then nothing
      else if cell.isolation.value.progress == Some(d.names[target]) then
        if temporary in d.names || !d.OnlyName(target) || d.files[d.names[target]].owner != Some(l)
           || d.files[d.names[target]].bytes != d.files[cell.hardlink.value.expected.inode].bytes
        then nothing
        else Effect(d, cell.(worker := Replaced(d.names[target])))
      else if !d.Is(target, cell.hardlink.value.expected) then nothing
      else if d.Has(temporary) then
        if cell.isolation.value.progress != Some(d.names[temporary]) || !d.OnlyName(temporary)
           || d.files[d.names[temporary]].owner != Some(l)
        then nothing
        else Effect(d, cell.(worker := Owning(d.names[temporary])))
      else if unused in d.names.Values then nothing
      else Effect(d.WithName(temporary, unused).WithFile(unused, File("", 0, None)), cell.(worker := Created(unused)))
    case Mark =>
      if !cell.worker.Created? || cell.worker.inode !in d.files then nothing
      else
        var i := cell.worker.inode;
        Effect(d.WithFile(i, d.files[i].(owner := Some(l))), cell.(worker := Marked(i)))
    case RecordProgress =>
      if !cell.worker.Marked? || !cell.IsolationIs(IntentRecorded) then nothing
      else
        var i := cell.worker.inode;
        Effect(d, cell.(isolation := Some(cell.isolation.value.(progress := Some(i))), worker := Owning(i)))
    case Copy(version) =>
      if !cell.worker.Owning? || cell.worker.inode !in d.files || cell.hardlink.None?
         || cell.hardlink.value.expected.inode !in d.files
      then nothing
      else
        var i := cell.worker.inode;
        var copy := File(d.files[cell.hardlink.value.expected.inode].bytes, version, d.files[i].owner);
        Effect(d.WithFile(i, copy), cell.(worker := Copied(i)))
    case Replace =>
      if !cell.worker.Copied? || cell.hardlink.None? || !d.Is(target, cell.hardlink.value.expected)
         || !d.Is(cell.hardlink.value.source, cell.hardlink.value.expected)
         || temporary !in d.names || cell.worker.inode !in d.files || d.files[cell.worker.inode].owner != Some(l)
      then nothing
      else Effect(d.WithoutName(temporary).WithName(target, d.names[temporary]),
        cell.(worker := Replaced(cell.worker.inode)))
    case ConfirmIsolation =>
      if !cell.worker.Replaced? || !cell.IsolationIs(IntentRecorded) || !d.Has(target)
         || d.names[target] != cell.worker.inode
         || d.files[cell.worker.inode].owner != Some(l)
      then nothing
      else
        var record := Record(cell.worker.inode, |d.files[cell.worker.inode].bytes|);
        var j := cell.isolation.value.(status := Applied, after := Some(record));
        Effect(d, cell.(isolation := Some(j), worker := Idle))
    case Abandon =>
      if cell.worker.Idle? || !cell.IsolationIs(IntentRecorded) then nothing
      else Effect(d, cell.(isolation := Some(cell.isolation.value.(status := ReconcileRequired)), worker := Idle))
    case Crash => Effect(d, cell.(worker := Idle))
    case _ => nothing
  }

  /** The target is the client's to write from the moment its isolation is APPLIED until its
      cleanup begins. */
  predicate IsClients(cell: Cell) {
    cell.IsolationIs(Applied) && cell.cleanup.None?
  }

  ghost function LaterStep(d: Disk, cell: Cell, l: Link, step: Step): Effect {
    var target := Plain(l.target);
    var nothing := Effect(d, cell);
    match step
    case ClientWrites(bytes, version) =>
      if !IsClients(cell) || !d.Has(target) then nothing
      else Effect(d.WithFile(d.names[target], d.files[d.names[target]].(bytes := bytes, version := version)), cell)
    case BeginCleanup(plan, removal) =>
      if !cell.IsolationIs(Applied) || !cell.LinkIs(Applied) || cell.cleanup.Some? then nothing
      else Effect(d, cell.(cleanup := Some(Cleanup(plan, removal, IntentRecorded))))
    case Unlink =>
      if !CanUnlink(d, cell, l) then nothing else Effect(d.WithoutName(target), cell)
    case ConfirmCleanup =>
      if !cell.CleanupIs(IntentRecorded) || target in d.names then nothing
      else Effect(d, cell.(cleanup := Some(cell.cleanup.value.(status := Applied))))
    case AbandonCleanup =>
      if !cell.CleanupIs(IntentRecorded) then nothing
      else Effect(d, cell.(cleanup := Some(cell.cleanup.value.(status := ReconcileRequired))))
    case _ => nothing
  }

  /** Cleanup removes the target only while it is the copy that isolation recorded. */
  ghost predicate CanUnlink(d: Disk, cell: Cell, l: Link) {
    var target := Plain(l.target);
    && cell.CleanupIs(IntentRecorded) && cell.IsolationIs(Applied) && d.Has(target)
    && cell.isolation.value.after == Some(Record(d.names[target], |d.files[d.names[target]].bytes|))
    && d.OnlyName(target)
    && d.files[d.names[target]].owner == Some(l)
  }

  ghost function Perform(d: Disk, cell: Cell, l: Link, step: Step): Effect {
    match step
    case BeginIsolation => IsolationStep(d, cell, l, step)
    case Prepare(_) => IsolationStep(d, cell, l, step)
    case Mark => IsolationStep(d, cell, l, step)
    case RecordProgress => IsolationStep(d, cell, l, step)
    case Copy(_) => IsolationStep(d, cell, l, step)
    case Replace => IsolationStep(d, cell, l, step)
    case ConfirmIsolation => IsolationStep(d, cell, l, step)
    case Abandon => IsolationStep(d, cell, l, step)
    case Crash => IsolationStep(d, cell, l, step)
    case ClientWrites(_, _) => LaterStep(d, cell, l, step)
    case BeginCleanup(_, _) => LaterStep(d, cell, l, step)
    case Unlink => LaterStep(d, cell, l, step)
    case ConfirmCleanup => LaterStep(d, cell, l, step)
    case AbandonCleanup => LaterStep(d, cell, l, step)
    case _ => LinkStep(d, cell, l, step)
  }

  /** Sources are files of the original tree. */
  predicate SourceIsOriginal(original: Disk, step: Step) {
    step.RecordLink? ==> step.source in original.names
  }

  ghost function Next(original: Disk, s: State, l: Link, step: Step): State {
    if !SourceIsOriginal(original, step) then s
    else
      var e := Perform(s.disk, s.CellOf(l), l, step);
      State(e.disk, s.cells[l := e.cell])
  }

  ghost function Execute(original: Disk, steps: seq<(Link, Step)>): State {
    if steps == [] then State(original, map[])
    else
      var last := steps[|steps| - 1];
      Next(original, Execute(original, steps[..|steps| - 1]), last.0, last.1)
  }

  // ----- what holds -----------------------------------------------------------------------

  /** The tree that was there before: no temporary names, and every name has a file. */
  ghost predicate Proper(original: Disk) {
    forall p :: p in original.names ==> p.Plain? && original.names[p] in original.files
  }

  ghost predicate IsOriginal(original: Disk, i: Inode) {
    exists p :: p in original.names && original.names[p] == i
  }

  /** Every original name still stands for its inode, and every original file is unchanged. */
  ghost predicate Intact(original: Disk, d: Disk) {
    && (forall p :: p in original.names ==> p in d.names && d.names[p] == original.names[p])
    && (forall i :: IsOriginal(original, i) ==> i in d.files && i in original.files && d.files[i] == original.files[i])
  }

  /** The path an isolation has made its own, the inode it put there, and what it knows of it. */
  datatype Claim = Claim(path: Path, inode: Inode, marked: bool, copied: bool)

  function ClaimOf(l: Link, cell: Cell): Option<Claim> {
    var target, temporary := Plain(l.target), RepairTemporary(l);
    match cell.worker
    case Created(i) => Some(Claim(temporary, i, false, false))
    case Marked(i) => Some(Claim(temporary, i, true, false))
    case Owning(i) => Some(Claim(temporary, i, true, false))
    case Copied(i) => Some(Claim(temporary, i, true, true))
    case Replaced(i) => Some(Claim(target, i, true, true))
    case _ =>
      if IsClients(cell) && cell.isolation.value.after.Some?
      then Some(Claim(target, cell.isolation.value.after.value.inode, true, false))
      else None
  }

  ghost predicate ClaimHolds(original: Disk, d: Disk, l: Link, cell: Cell) {
    var claim := ClaimOf(l, cell);
    claim.Some? ==>
      && claim.value.path in d.names && d.names[claim.value.path] == claim.value.inode
      && claim.value.inode in d.files && !IsOriginal(original, claim.value.inode)
      && (claim.value.marked ==> d.files[claim.value.inode].owner == Some(l))
      && (claim.value.copied ==> IsCopy(original, d, cell, claim.value.inode))
  }

  /** The file has the bytes of the link's source. */
  predicate IsCopy(original: Disk, d: Disk, cell: Cell, i: Inode)
    requires i in d.files
  {
    && cell.hardlink.Some? && cell.hardlink.value.expected.inode in original.files
    && d.files[i].bytes == original.files[cell.hardlink.value.expected.inode].bytes
  }

  ghost predicate CellHolds(original: Disk, l: Link, cell: Cell) {
    && (cell.hardlink.Some? ==>
          var j := cell.hardlink.value;
          && original.Is(j.source, j.expected) && Plain(l.target) !in original.names
          && (j.after.Some? ==> j.after.value == j.expected)
          && (j.status.Applied? || j.status.RollbackPending? ==> j.after.Some?))
    && (cell.isolation.Some? ==>
          && cell.hardlink.Some? && cell.hardlink.value.after.Some?
          && (cell.isolation.value.progress.Some? ==> !IsOriginal(original, cell.isolation.value.progress.value))
          && (cell.isolation.value.after.Some? ==> !IsOriginal(original, cell.isolation.value.after.value.inode))
          && (cell.isolation.value.status.Applied? ==> cell.isolation.value.after.Some?))
    && (!cell.worker.Idle? ==> cell.IsolationIs(IntentRecorded))
    && (cell.cleanup.Some? ==> cell.IsolationIs(Applied))
  }

  ghost predicate DiskHolds(original: Disk, d: Disk) {
    && Intact(original, d)
    && (forall p :: p in d.names ==> d.names[p] in d.files)
    && (forall p, q ::
          p in d.names && q in d.names && d.names[p] == d.names[q] && !IsOriginal(original, d.names[p]) ==> p == q)
    && (forall l :: RepairTemporary(l) in d.names ==> !IsOriginal(original, d.names[RepairTemporary(l)]))
  }

  ghost predicate Invariant(original: Disk, s: State) {
    && Proper(original) && DiskHolds(original, s.disk)
    && forall l :: CellHolds(original, l, s.CellOf(l)) && ClaimHolds(original, s.disk, l, s.CellOf(l))
  }

  // ----- every step keeps it --------------------------------------------------------------

  /** The claim's name and file are untouched. */
  predicate Untouched(d: Disk, e: Disk, claim: Option<Claim>) {
    claim.Some? && claim.value.path in d.names && claim.value.inode in d.files ==>
      && claim.value.path in e.names && e.names[claim.value.path] == d.names[claim.value.path]
      && claim.value.inode in e.files && e.files[claim.value.inode] == d.files[claim.value.inode]
  }

  lemma UntouchedHolds(original: Disk, d: Disk, e: Disk, l: Link, cell: Cell)
    requires ClaimHolds(original, d, l, cell) && Untouched(d, e, ClaimOf(l, cell))
    ensures ClaimHolds(original, e, l, cell)
  {
    hide ClaimOf;
  }

  /** No two isolations claim the same inode. */
  lemma ClaimsAreDisjoint(original: Disk, d: Disk, l: Link, cell: Cell, other: Link, otherCell: Cell)
    requires DiskHolds(original, d) && l != other
    requires ClaimHolds(original, d, l, cell) && ClaimHolds(original, d, other, otherCell)
    requires ClaimOf(l, cell).Some? && ClaimOf(other, otherCell).Some?
    ensures ClaimOf(l, cell).value.inode != ClaimOf(other, otherCell).value.inode
  {
    hide Intact, IsOriginal;
    var a, b := ClaimOf(l, cell).value, ClaimOf(other, otherCell).value;
    assert a.inode == b.inode ==> a.path == b.path;
  }

  /** What a step on one link has to show. */
  ghost predicate Keeps(original: Disk, d: Disk, l: Link, e: Effect) {
    && DiskHolds(original, e.disk) && CellHolds(original, l, e.cell) && ClaimHolds(original, e.disk, l, e.cell)
    && forall other, cell :: other != l && ClaimHolds(original, d, other, cell) ==>
         ClaimHolds(original, e.disk, other, cell)
  }

  ghost predicate Sound(original: Disk, d: Disk, l: Link, cell: Cell) {
    Proper(original) && DiskHolds(original, d) && CellHolds(original, l, cell) && ClaimHolds(original, d, l, cell)
  }

  lemma OnlyCellKeeps(original: Disk, d: Disk, l: Link, cell: Cell, next: Cell)
    requires Sound(original, d, l, cell) && CellHolds(original, l, next)
    requires ClaimHolds(original, d, l, next)
    ensures Keeps(original, d, l, Effect(d, next))
  {
  }

  /** Names of original files come and go outside the original tree without touching a claim. */
  lemma NameOfOriginal(original: Disk, d: Disk, p: Path, i: Inode)
    requires Proper(original) && DiskHolds(original, d) && IsOriginal(original, i)
    requires p !in original.names && !p.RepairTemporary? && (p in d.names ==> IsOriginal(original, d.names[p]))
    ensures DiskHolds(original, d.WithName(p, i)) && DiskHolds(original, d.WithoutName(p))
    ensures forall l, cell :: ClaimHolds(original, d, l, cell) ==>
      ClaimHolds(original, d.WithName(p, i), l, cell) && ClaimHolds(original, d.WithoutName(p), l, cell)
  {
    hide IsOriginal;
    forall l, cell | ClaimHolds(original, d, l, cell)
      ensures ClaimHolds(original, d.WithName(p, i), l, cell) && ClaimHolds(original, d.WithoutName(p), l, cell)
    {
      UnclaimedName(original, d, p, l, cell);
      UntouchedHolds(original, d, d.WithName(p, i), l, cell);
      UntouchedHolds(original, d, d.WithoutName(p), l, cell);
    }
  }

  lemma UnclaimedName(original: Disk, d: Disk, p: Path, l: Link, cell: Cell)
    requires ClaimHolds(original, d, l, cell) && (p in d.names ==> IsOriginal(original, d.names[p]))
    ensures ClaimOf(l, cell).Some? ==> ClaimOf(l, cell).value.path != p
  {
    hide IsOriginal, ClaimOf;
  }

  lemma SourceInode(original: Disk, d: Disk, p: Path, identity: Identity)
    requires Proper(original) && DiskHolds(original, d) && p in original.names && d.Is(p, identity)
    ensures original.Is(p, identity) && IsOriginal(original, identity.inode)
  {
    assert IsOriginal(original, original.names[p]);
  }

  /** A change of the link's journal alone. */
  lemma JournalKeeps(original: Disk, d: Disk, l: Link, cell: Cell, j: Hardlink)
    requires Sound(original, d, l, cell)
    requires original.Is(j.source, j.expected) && Plain(l.target) !in original.names
    requires j.after.Some? ==> j.after.value == j.expected
    requires j.status.Applied? || j.status.RollbackPending? ==> j.after.Some?
    requires cell.hardlink.Some? ==>
      j.expected == cell.hardlink.value.expected && (cell.hardlink.value.after.Some? ==> j.after.Some?)
    ensures Keeps(original, d, l, Effect(d, cell.(hardlink := Some(j))))
  {
    hide DiskHolds, IsOriginal, Proper;
    var next := cell.(hardlink := Some(j));
    assert ClaimOf(l, next) == ClaimOf(l, cell);
  }

  lemma LinkKeeps(original: Disk, d: Disk, l: Link, cell: Cell, step: Step)
    requires Sound(original, d, l, cell) && SourceIsOriginal(original, step)
    ensures Keeps(original, d, l, LinkStep(d, cell, l, step))
  {
    hide DiskHolds, Proper, ClaimHolds, Keeps, IsOriginal;
    OnlyCellKeeps(original, d, l, cell, cell);
    match step
    case RecordLink(task, source, expected) =>
      if LinkStep(d, cell, l, step) != Effect(d, cell) {
        SourceInode(original, d, source, expected);
        TargetIsNew(original, d, Plain(l.target));
        JournalKeeps(original, d, l, cell, Hardlink(task, source, expected, IntentRecorded, None));
      }
    case MakeTemporary =>
      if LinkStep(d, cell, l, step) != Effect(d, cell) {
        NameKeeps(original, d, l, cell, LinkTemporary(l));
      }
    case PlaceLink =>
      if LinkStep(d, cell, l, step) != Effect(d, cell) {
        PlaceKeeps(original, d, l, cell);
      }
    case Rollback =>
      if LinkStep(d, cell, l, step) != Effect(d, cell) {
        RollbackKeeps(original, d, l, cell);
      }
    case ConfirmLink =>
      if cell.LinkIs(IntentRecorded) {
        JournalKeeps(original, d, l, cell,
          cell.hardlink.value.(status := Applied, after := Some(cell.hardlink.value.expected)));
      }
    case DoubtLink =>
      if cell.hardlink.Some? {
        JournalKeeps(original, d, l, cell, cell.hardlink.value.(status := ReconcileRequired));
      }
    case ReconcileLink =>
      if cell.hardlink.Some? && cell.hardlink.value.after.Some? {
        JournalKeeps(original, d, l, cell, cell.hardlink.value.(status := Applied));
      }
    case BeginRollback =>
      if cell.LinkIs(Applied) {
        JournalKeeps(original, d, l, cell, cell.hardlink.value.(status := RollbackPending));
      }
    case _ =>
  }

  lemma TargetIsNew(original: Disk, d: Disk, p: Path)
    requires DiskHolds(original, d) && p !in d.names
    ensures p !in original.names
  {
  }

  lemma ExpectedIsOriginal(original: Disk, l: Link, cell: Cell)
    requires CellHolds(original, l, cell) && cell.hardlink.Some?
    ensures IsOriginal(original, cell.hardlink.value.expected.inode)
    ensures Plain(l.target) !in original.names
  {
    assert original.names[cell.hardlink.value.source] == cell.hardlink.value.expected.inode;
  }

  lemma NameKeeps(original: Disk, d: Disk, l: Link, cell: Cell, p: Path)
    requires Sound(original, d, l, cell) && cell.hardlink.Some? && p !in d.names && !p.RepairTemporary?
    ensures Keeps(original, d, l, Effect(d.WithName(p, cell.hardlink.value.expected.inode), cell))
  {
    hide DiskHolds, Proper, ClaimHolds, IsOriginal, CellHolds;
    ExpectedIsOriginal(original, l, cell);
    TargetIsNew(original, d, p);
    NameOfOriginal(original, d, p, cell.hardlink.value.expected.inode);
  }

  lemma PlaceKeeps(original: Disk, d: Disk, l: Link, cell: Cell)
    requires Sound(original, d, l, cell) && cell.hardlink.Some?
    requires d.Is(LinkTemporary(l), cell.hardlink.value.expected) && Plain(l.target) !in d.names
    ensures Keeps(original, d, l,
                  Effect(d.WithoutName(LinkTemporary(l)).WithName(Plain(l.target),
                    cell.hardlink.value.expected.inode), cell))
  {
    hide DiskHolds, ClaimHolds, IsOriginal, CellHolds;
    ExpectedIsOriginal(original, l, cell);
    NameOfOriginal(original, d, LinkTemporary(l), cell.hardlink.value.expected.inode);
    var between := d.WithoutName(LinkTemporary(l));
    NameOfOriginal(original, between, Plain(l.target), cell.hardlink.value.expected.inode);
  }

  lemma RollbackKeeps(original: Disk, d: Disk, l: Link, cell: Cell)
    requires Sound(original, d, l, cell) && cell.LinkIs(RollbackPending) && cell.hardlink.value.after.Some?
    ensures Keeps(original, d, l, LinkStep(d, cell, l, Rollback))
  {
    hide DiskHolds, Proper, ClaimHolds, IsOriginal, Keeps;
    var target := Plain(l.target);
    JournalKeeps(original, d, l, cell, cell.hardlink.value.(status := RolledBack));
    JournalKeeps(original, d, l, cell, cell.hardlink.value.(status := RollbackBlocked));
    if target in d.names && d.Is(target, cell.hardlink.value.after.value) {
      ExpectedIsOriginal(original, l, cell);
      NameOfOriginal(original, d, target, cell.hardlink.value.expected.inode);
      KeptElsewhere(original, d, d.WithoutName(target), l, cell.WithLink(RolledBack));
    }
  }

  lemma KeptElsewhere(original: Disk, d: Disk, e: Disk, l: Link, cell: Cell)
    requires Keeps(original, d, l, Effect(d, cell)) && DiskHolds(original, e)
    requires forall other, c :: ClaimHolds(original, d, other, c) ==> ClaimHolds(original, e, other, c)
    ensures Keeps(original, d, l, Effect(e, cell))
  {
    hide DiskHolds, ClaimHolds, CellHolds;
  }

  /** Writing a file that the link's own isolation claims. */
  lemma FileKeeps(original: Disk, d: Disk, l: Link, cell: Cell, next: Cell, f: File)
    requires Sound(original, d, l, cell) && ClaimOf(l, cell).Some? && CellHolds(original, l, next)
    requires ClaimHolds(original, d.WithFile(ClaimOf(l, cell).value.inode, f), l, next)
    ensures Keeps(original, d, l, Effect(d.WithFile(ClaimOf(l, cell).value.inode, f), next))
  {
    hide CellHolds, Proper, ClaimOf;
    var i := ClaimOf(l, cell).value.inode;
    var e := d.WithFile(i, f);
    UnoriginalFile(original, d, i, f);
    forall other, c | other != l && ClaimHolds(original, d, other, c) ensures ClaimHolds(original, e, other, c) {
      if ClaimOf(other, c).Some? {
        ClaimsAreDisjoint(original, d, l, cell, other, c);
        UntouchedHolds(original, d, e, other, c);
      }
    }
  }

  lemma UnoriginalFile(original: Disk, d: Disk, i: Inode, f: File)
    requires DiskHolds(original, d) && !IsOriginal(original, i)
    ensures DiskHolds(original, d.WithFile(i, f))
  {
    hide IsOriginal;
  }

  lemma CreateKeeps(original: Disk, d: Disk, l: Link, cell: Cell, i: Inode)
    requires Sound(original, d, l, cell) && cell.worker.Ready? && i !in d.names.Values && RepairTemporary(l) !in d.names
    ensures Keeps(original, d, l,
                  Effect(d.WithName(RepairTemporary(l), i).WithFile(i, File("", 0, None)), cell.(worker := Created(i))))
  {
    hide IsOriginal, Proper;
    var temporary := RepairTemporary(l);
    var e := d.WithName(temporary, i).WithFile(i, File("", 0, None));
    UnusedIsNotOriginal(original, d, i);
    CreatedDisk(original, d, l, i);
    forall other, c | other != l && ClaimHolds(original, d, other, c) ensures ClaimHolds(original, e, other, c) {
      var claim := ClaimOf(other, c);
      if claim.Some? {
        assert d.names[claim.value.path] in d.names.Values;
        assert claim.value.path != temporary;
      }
      UntouchedHolds(original, d, e, other, c);
    }
  }

  lemma UnusedIsNotOriginal(original: Disk, d: Disk, i: Inode)
    requires Intact(original, d) && i !in d.names.Values
    ensures !IsOriginal(original, i)
  {
    forall p | p in original.names ensures original.names[p] != i {
      assert d.names[p] in d.names.Values;
    }
  }

  lemma CreatedDisk(original: Disk, d: Disk, l: Link, i: Inode)
    requires Proper(original) && DiskHolds(original, d) && i !in d.names.Values && !IsOriginal(original, i)
    requires RepairTemporary(l) !in d.names
    ensures DiskHolds(original, d.WithName(RepairTemporary(l), i).WithFile(i, File("", 0, None)))
  {
    hide IsOriginal;
    var e := d.WithName(RepairTemporary(l), i).WithFile(i, File("", 0, None));
    forall p | p in d.names ensures d.names[p] != i {
      assert d.names[p] in d.names.Values;
    }
  }

  ghost predicate CanReplace(original: Disk, d: Disk, l: Link, cell: Cell) {
    && Sound(original, d, l, cell) && cell.worker.Copied? && cell.hardlink.Some?
    && d.Is(Plain(l.target), cell.hardlink.value.expected)
  }

  function CopyInPlace(d: Disk, l: Link): Disk
    requires RepairTemporary(l) in d.names
  {
    d.WithoutName(RepairTemporary(l)).WithName(Plain(l.target), d.names[RepairTemporary(l)])
  }

  /** The copy takes the place of a link to an original file. */
  lemma ReplaceKeeps(original: Disk, d: Disk, l: Link, cell: Cell)
    requires CanReplace(original, d, l, cell)
    ensures RepairTemporary(l) in d.names
    ensures Keeps(original, d, l, Effect(CopyInPlace(d, l), cell.(worker := Replaced(cell.worker.inode))))
  {
    ExpectedIsOriginal(original, l, cell);
    hide IsOriginal, Intact;
    var e := CopyInPlace(d, l);
    ReplacedDisk(original, d, l, cell);
    assert CellHolds(original, l, cell.(worker := Replaced(cell.worker.inode)));
    assert ClaimHolds(original, e, l, cell.(worker := Replaced(cell.worker.inode)));
    forall other, c | other != l && ClaimHolds(original, d, other, c) ensures ClaimHolds(original, e, other, c) {
      ReplacedElsewhere(original, d, l, cell, other, c);
    }
    hide *;
    KeepsFrom(original, d, l, Effect(e, cell.(worker := Replaced(cell.worker.inode))));
  }

  lemma KeepsFrom(original: Disk, d: Disk, l: Link, e: Effect)
    requires DiskHolds(original, e.disk) && CellHolds(original, l, e.cell) && ClaimHolds(original, e.disk, l, e.cell)
    requires forall other, cell :: other != l && ClaimHolds(original, d, other, cell) ==>
      ClaimHolds(original, e.disk, other, cell)
    ensures Keeps(original, d, l, e)
  {
    hide DiskHolds, CellHolds, ClaimHolds;
  }

  lemma ReplacedDisk(original: Disk, d: Disk, l: Link, cell: Cell)
    requires CanReplace(original, d, l, cell) && IsOriginal(original, cell.hardlink.value.expected.inode)
    requires Plain(l.target) !in original.names && RepairTemporary(l) in d.names
    ensures DiskHolds(original, CopyInPlace(d, l))
  {
    hide IsOriginal, CellHolds, ClaimHolds, ClaimOf;
    var e := CopyInPlace(d, l);
    assert Intact(original, e);
  }

  lemma ReplacedElsewhere(original: Disk, d: Disk, l: Link, cell: Cell, other: Link, c: Cell)
    requires CanReplace(original, d, l, cell) && IsOriginal(original, cell.hardlink.value.expected.inode)
    requires RepairTemporary(l) in d.names && other != l && ClaimHolds(original, d, other, c)
    ensures ClaimHolds(original, CopyInPlace(d, l), other, c)
  {
    UnclaimedName(original, d, Plain(l.target), other, c);
    assert ClaimOf(other, c).Some? ==> ClaimOf(other, c).value.path != RepairTemporary(l);
    hide IsOriginal, CellHolds, ClaimHolds, ClaimOf, DiskHolds;
    UntouchedHolds(original, d, CopyInPlace(d, l), other, c);
  }

  lemma PrepareKeeps(original: Disk, d: Disk, l: Link, cell: Cell, unused: Inode)
    requires Sound(original, d, l, cell)
    ensures Keeps(original, d, l, IsolationStep(d, cell, l, Prepare(unused)))
  {
    hide Proper, Keeps, IsOriginal;
    OnlyCellKeeps(original, d, l, cell, cell);
    var e := IsolationStep(d, cell, l, Prepare(unused));
    if e != Effect(d, cell) {
      ExpectedIsOriginal(original, l, cell);
      if e.cell.worker.Created? {
        CreateKeeps(original, d, l, cell, unused);
      } else {
        OnlyCellKeeps(original, d, l, cell, e.cell);
      }
    }
  }

  lemma IsolationKeeps(original: Disk, d: Disk, l: Link, cell: Cell, step: Step)
    requires Sound(original, d, l, cell)
    ensures Keeps(original, d, l, IsolationStep(d, cell, l, step))
  {
    OnlyCellKeeps(original, d, l, cell, cell);
    hide Proper, DiskHolds, Keeps, IsOriginal, CellHolds;
    match step
    case Prepare(unused) => PrepareKeeps(original, d, l, cell, unused);
    case Mark =>
      if cell.worker.Created? && cell.worker.inode in d.files {
        MarkKeeps(original, d, l, cell);
      }
    case Copy(version) =>
      if IsolationStep(d, cell, l, step) != Effect(d, cell) {
        CopyKeeps(original, d, l, cell, version);
      }
    case Replace =>
      if IsolationStep(d, cell, l, step) != Effect(d, cell) {
        ReplaceKeeps(original, d, l, cell);
      }
    case _ => CellStepKeeps(original, d, l, cell, step);
  }

  /** Steps that only move the journal and the worker on. */
  lemma CellStepKeeps(original: Disk, d: Disk, l: Link, cell: Cell, step: Step)
    requires Sound(original, d, l, cell)
    requires !step.Prepare? && !step.Mark? && !step.Copy? && !step.Replace?
    ensures Keeps(original, d, l, IsolationStep(d, cell, l, step))
  {
    hide Proper, DiskHolds, Keeps, IsOriginal;
    OnlyCellKeeps(original, d, l, cell, IsolationStep(d, cell, l, step).cell);
  }

  lemma MarkKeeps(original: Disk, d: Disk, l: Link, cell: Cell)
    requires Sound(original, d, l, cell) && cell.worker.Created? && cell.worker.inode in d.files
    ensures Keeps(original, d, l, IsolationStep(d, cell, l, Mark))
  {
    hide Proper, DiskHolds, Keeps, IsOriginal;
    var i := cell.worker.inode;
    FileKeeps(original, d, l, cell, cell.(worker := Marked(i)), d.files[i].(owner := Some(l)));
  }

  lemma CopyKeeps(original: Disk, d: Disk, l: Link, cell: Cell, version: nat)
    requires Sound(original, d, l, cell) && cell.worker.Owning? && cell.worker.inode in d.files
    requires cell.hardlink.Some? && cell.hardlink.value.expected.inode in d.files
    ensures Keeps(original, d, l, IsolationStep(d, cell, l, Copy(version)))
  {
    hide Proper, Keeps, IsOriginal;
    ExpectedIsOriginal(original, l, cell);
    var i := cell.worker.inode;
    FileKeeps(original, d, l, cell, cell.(worker := Copied(i)),
              File(d.files[cell.hardlink.value.expected.inode].bytes, version, d.files[i].owner));
  }

  lemma LaterKeeps(original: Disk, d: Disk, l: Link, cell: Cell, step: Step)
    requires Sound(original, d, l, cell)
    ensures Keeps(original, d, l, LaterStep(d, cell, l, step))
  {
    OnlyCellKeeps(original, d, l, cell, cell);
    hide Proper, DiskHolds, Keeps, IsOriginal, CanUnlink, CellHolds, ClaimHolds;
    match step
    case ClientWrites(bytes, version) =>
      if IsClients(cell) && d.Has(Plain(l.target)) {
        WriteKeeps(original, d, l, cell, bytes, version);
      }
    case Unlink =>
      if CanUnlink(d, cell, l) {
        UnlinkKeeps(original, d, l, cell);
      }
    case _ => CleanupStepKeeps(original, d, l, cell, step);
  }

  lemma CleanupStepKeeps(original: Disk, d: Disk, l: Link, cell: Cell, step: Step)
    requires Sound(original, d, l, cell) && !step.ClientWrites? && !step.Unlink?
    ensures Keeps(original, d, l, LaterStep(d, cell, l, step))
  {
    hide Proper, DiskHolds, Keeps, IsOriginal;
    OnlyCellKeeps(original, d, l, cell, LaterStep(d, cell, l, step).cell);
  }

  lemma WriteKeeps(original: Disk, d: Disk, l: Link, cell: Cell, bytes: string, version: nat)
    requires Sound(original, d, l, cell) && IsClients(cell) && d.Has(Plain(l.target))
    ensures Keeps(original, d, l, LaterStep(d, cell, l, ClientWrites(bytes, version)))
  {
    hide Proper, DiskHolds, Keeps, IsOriginal;
    FileKeeps(original, d, l, cell, cell, d.files[d.names[Plain(l.target)]].(bytes := bytes, version := version));
  }

  lemma UnlinkKeeps(original: Disk, d: Disk, l: Link, cell: Cell)
    requires Sound(original, d, l, cell) && CanUnlink(d, cell, l)
    ensures Keeps(original, d, l, Effect(d.WithoutName(Plain(l.target)), cell))
  {
    hide IsOriginal, Proper;
    var target := Plain(l.target);
    var e := d.WithoutName(target);
    ExpectedIsOriginal(original, l, cell);
    assert DiskHolds(original, e);
    forall other, c | other != l && ClaimHolds(original, d, other, c) ensures ClaimHolds(original, e, other, c) {
      UntouchedHolds(original, d, e, other, c);
    }
  }

  lemma NextKeeps(original: Disk, s: State, l: Link, step: Step)
    requires Invariant(original, s)
    ensures Invariant(original, Next(original, s, l, step))
  {
    hide DiskHolds, CellHolds, ClaimHolds, LinkStep, IsolationStep, LaterStep;
    if SourceIsOriginal(original, step) {
      var cell := s.CellOf(l);
      LinkKeeps(original, s.disk, l, cell, step);
      IsolationKeeps(original, s.disk, l, cell, step);
      LaterKeeps(original, s.disk, l, cell, step);
      var next := Next(original, s, l, step);
      assert Keeps(original, s.disk, l, Effect(next.disk, next.CellOf(l)));
      forall other ensures CellHolds(original, other, next.CellOf(other))
        && ClaimHolds(original, next.disk, other, next.CellOf(other)) {
        if other != l {
          assert next.CellOf(other) == s.CellOf(other);
        }
      }
    }
  }

  lemma InitiallyHolds(original: Disk)
    requires Proper(original)
    ensures Invariant(original, State(original, map[]))
  {
  }

  lemma {:induction false} InvariantHolds(original: Disk, steps: seq<(Link, Step)>)
    requires Proper(original)
    ensures Invariant(original, Execute(original, steps))
  {
    hide Invariant, Next;
    if steps == [] {
      InitiallyHolds(original);
    } else {
      InvariantHolds(original, steps[..|steps| - 1]);
      NextKeeps(original, Execute(original, steps[..|steps| - 1]), steps[|steps| - 1].0, steps[|steps| - 1].1);
    }
  }

  // ----- what that means ------------------------------------------------------------------

  /** Whatever is done in whatever order, every file that was there before keeps its name, its
      inode and its bytes. */
  lemma SourcesNeverChange(original: Disk, steps: seq<(Link, Step)>, p: Path)
    requires Proper(original) && p in original.names
    ensures var d := Execute(original, steps).disk;
            p in d.names && d.names[p] == original.names[p]
            && d.names[p] in d.files && d.files[d.names[p]] == original.files[original.names[p]]
  {
    InvariantHolds(original, steps);
    assert IsOriginal(original, original.names[p]);
  }

  lemma Reached(original: Disk, steps: seq<(Link, Step)>, l: Link)
    requires Proper(original)
    ensures Sound(original, Execute(original, steps).disk, l, Execute(original, steps).CellOf(l))
  {
    hide *;
    InvariantHolds(original, steps);
    SoundOf(original, Execute(original, steps), l);
  }

  lemma SoundOf(original: Disk, s: State, l: Link)
    requires Invariant(original, s)
    ensures Sound(original, s.disk, l, s.CellOf(l))
  {
    hide Proper, DiskHolds, CellHolds, ClaimHolds;
  }

  /** A pending rollback that finds something under the target's name removes it exactly when it
      is still a link to the source; otherwise it ends ROLLBACK_BLOCKED and removes nothing. */
  lemma RollbackRemovesOnlyTheLink(original: Disk, steps: seq<(Link, Step)>, l: Link)
    requires Proper(original)
    requires Execute(original, steps).CellOf(l).LinkIs(RollbackPending)
    requires Plain(l.target) in Execute(original, steps).disk.names
    ensures var s := Execute(original, steps);
            var next := Next(original, s, l, Rollback);
            if s.disk.names[Plain(l.target)] == s.CellOf(l).hardlink.value.expected.inode
            then next.CellOf(l).LinkIs(RolledBack) && next.disk == s.disk.WithoutName(Plain(l.target))
            else next.CellOf(l).LinkIs(RollbackBlocked) && next.disk == s.disk
  {
    var s := Execute(original, steps);
    Reached(original, steps, l);
    hide Execute, Sound;
    RollbackOutcome(original, s.disk, l, s.CellOf(l));
  }

  lemma RollbackOutcome(original: Disk, d: Disk, l: Link, cell: Cell)
    requires Sound(original, d, l, cell) && cell.LinkIs(RollbackPending) && Plain(l.target) in d.names
    ensures var e := LinkStep(d, cell, l, Rollback);
            if d.names[Plain(l.target)] == cell.hardlink.value.expected.inode
            then e.cell.LinkIs(RolledBack) && e.disk == d.WithoutName(Plain(l.target))
            else e.cell.LinkIs(RollbackBlocked) && e.disk == d
  {
    ExpectedIsOriginal(original, l, cell);
    hide IsOriginal, ClaimOf, Proper;
  }

  /** The target still is the copy that the link's isolation put there. */
  predicate HoldsCopy(d: Disk, l: Link, cell: Cell) {
    && cell.IsolationIs(Applied) && cell.isolation.value.after.Some? && d.Has(Plain(l.target))
    && d.names[Plain(l.target)] == cell.isolation.value.after.value.inode
    && d.files[d.names[Plain(l.target)]].owner == Some(l)
  }

  predicate HasRecordedSize(d: Disk, l: Link, cell: Cell)
    requires HoldsCopy(d, l, cell)
  {
    |d.files[d.names[Plain(l.target)]].bytes| == cell.isolation.value.after.value.size
  }

  lemma ClientsHoldCopies(original: Disk, d: Disk, l: Link, cell: Cell)
    requires Sound(original, d, l, cell) && IsClients(cell)
    ensures HoldsCopy(d, l, cell)
  {
    hide IsOriginal, Proper;
  }

  lemma CopyIsNotTheLink(original: Disk, d: Disk, l: Link, cell: Cell)
    requires Sound(original, d, l, cell) && HoldsCopy(d, l, cell)
    ensures cell.hardlink.Some? && d.names[Plain(l.target)] != cell.hardlink.value.expected.inode
    ensures !IsOriginal(original, d.names[Plain(l.target)])
  {
    ExpectedIsOriginal(original, l, cell);
    hide IsOriginal, ClaimOf, Proper, DiskHolds;
  }

  /** In every reachable state the rollback of a link whose target has been isolated ends
      ROLLBACK_BLOCKED and leaves the disk alone, with all that the client wrote there. */
  lemma RollbackOfIsolatedIsBlocked(original: Disk, steps: seq<(Link, Step)>, l: Link)
    requires Proper(original)
    requires var s := Execute(original, steps);
             s.CellOf(l).LinkIs(RollbackPending) && (IsClients(s.CellOf(l)) || HoldsCopy(s.disk, l, s.CellOf(l)))
    ensures var s := Execute(original, steps);
            var next := Next(original, s, l, Rollback);
            next.CellOf(l).LinkIs(RollbackBlocked) && next.disk == s.disk && Plain(l.target) in next.disk.names
  {
    var s := Execute(original, steps);
    Reached(original, steps, l);
    hide Execute, Sound, LinkStep;
    if IsClients(s.CellOf(l)) {
      ClientsHoldCopies(original, s.disk, l, s.CellOf(l));
    }
    CopyIsNotTheLink(original, s.disk, l, s.CellOf(l));
    RollbackOutcome(original, s.disk, l, s.CellOf(l));
  }

  /** A pending rollback does not give the target back to the link, whatever is done. */
  lemma PendingStays(d: Disk, cell: Cell, l: Link, step: Step)
    requires cell.LinkIs(RollbackPending) && IsClients(cell) && step != Rollback
    ensures var next := Perform(d, cell, l, step).cell;
            next.LinkIs(RollbackPending) && IsClients(next)
  {
    hide CanUnlink;
  }

  /** So once a rollback of an isolated target has begun, then whatever steps of whatever links
      come before it goes on, it ends ROLLBACK_BLOCKED. */
  lemma {:induction false} LateRollbackIsBlocked(original: Disk, steps: seq<(Link, Step)>, more: seq<(Link, Step)>,
                                                 l: Link)
    requires Proper(original)
    requires Execute(original, steps).CellOf(l).LinkIs(RollbackPending) && IsClients(Execute(original, steps).CellOf(l))
    requires (l, Rollback) !in more
    ensures var s := Execute(original, steps + more);
            var next := Next(original, s, l, Rollback);
            && s.CellOf(l).LinkIs(RollbackPending) && IsClients(s.CellOf(l))
            && next.CellOf(l).LinkIs(RollbackBlocked) && next.disk == s.disk && Plain(l.target) in next.disk.names
  {
    var all := steps + more;
    if more == [] {
      assert all == steps;
    } else {
      var front, last := more[..|more| - 1], more[|more| - 1];
      assert all[..|all| - 1] == steps + front;
      LateRollbackIsBlocked(original, steps, front, l);
      var s := Execute(original, steps + front);
      assert Execute(original, all) == Next(original, s, last.0, last.1);
      hide Execute, Perform, IsClients;
      if last.0 == l {
        PendingStays(s.disk, s.CellOf(l), l, last.1);
      }
    }
    RollbackOfIsolatedIsBlocked(original, all, l);
  }

  // ----- who takes a copy away ------------------------------------------------------------

  /** The link's own steps keep what its APPLIED isolation has on record. */
  lemma RecordStays(d: Disk, cell: Cell, l: Link, step: Step)
    requires cell.IsolationIs(Applied)
    ensures Perform(d, cell, l, step).cell.isolation == cell.isolation
  {
    hide CanUnlink;
  }

  /** What every cell knows of a target that is no link to an original file. */
  ghost predicate Unrelated(d: Disk, cell: Cell, p: Path) {
    && d.Has(p) && !p.LinkTemporary? && !p.RepairTemporary?
    && (cell.worker.Created? ==> cell.worker.inode != d.names[p])
    && (cell.hardlink.Some? ==>
          && cell.hardlink.value.expected.inode != d.names[p]
          && (cell.hardlink.value.after.Some? ==> cell.hardlink.value.after.value.inode != d.names[p]))
  }

  lemma CopiesAreUnrelated(original: Disk, d: Disk, m: Link, cell: Cell, p: Path)
    requires Sound(original, d, m, cell) && p.Plain? && d.Has(p) && !IsOriginal(original, d.names[p])
    ensures Unrelated(d, cell, p)
  {
    if cell.hardlink.Some? {
      ExpectedIsOriginal(original, m, cell);
    }
    hide IsOriginal, Proper, Intact;
  }

  /** The name and the owner of the file are the same as before. */
  predicate Stays(d: Disk, e: Disk, p: Path)
    requires d.Has(p)
  {
    e.Has(p) && e.names[p] == d.names[p] && e.files[e.names[p]].owner == d.files[d.names[p]].owner
  }

  /** Linking, rolling back and isolating leave such a target alone. */
  lemma LinkLeavesIt(d: Disk, cell: Cell, m: Link, step: Step, p: Path)
    requires Unrelated(d, cell, p)
    ensures Stays(d, LinkStep(d, cell, m, step).disk, p)
  {
  }

  lemma IsolationLeavesIt(d: Disk, cell: Cell, m: Link, step: Step, p: Path)
    requires Unrelated(d, cell, p)
    ensures Stays(d, IsolationStep(d, cell, m, step).disk, p)
  {
    assert d.names[p] in d.names.Values;
  }

  /** And cleanup takes it away only if the marker is that of the link. */
  lemma LaterLeavesIt(d: Disk, cell: Cell, m: Link, step: Step, p: Path)
    requires Unrelated(d, cell, p)
    requires step == Unlink ==> d.files[d.names[p]].owner != Some(m)
    ensures Stays(d, LaterStep(d, cell, m, step).disk, p)
  {
  }

  lemma CellStays(original: Disk, s: State, l: Link, m: Link, step: Step)
    requires s.CellOf(l).IsolationIs(Applied)
    ensures Next(original, s, m, step).CellOf(l).isolation == s.CellOf(l).isolation
  {
    hide Perform;
    if m == l {
      RecordStays(s.disk, s.CellOf(l), l, step);
    }
  }

  /** A target that holds its link's copy holds it after every step of every link, the owner's
      marker included, except that link's own unlink. */
  lemma CopyStays(original: Disk, s: State, l: Link, m: Link, step: Step)
    requires Invariant(original, s) && HoldsCopy(s.disk, l, s.CellOf(l))
    requires !(m == l && step == Unlink)
    ensures var next := Next(original, s, m, step);
            HoldsCopy(next.disk, l, next.CellOf(l)) && next.CellOf(l).isolation == s.CellOf(l).isolation
  {
    var d, cell := s.disk, s.CellOf(m);
    SoundOf(original, s, l);
    SoundOf(original, s, m);
    CopyIsNotTheLink(original, d, l, s.CellOf(l));
    hide Invariant, Sound, IsOriginal, LinkStep, IsolationStep, LaterStep;
    CopiesAreUnrelated(original, d, m, cell, Plain(l.target));
    LinkLeavesIt(d, cell, m, step, Plain(l.target));
    IsolationLeavesIt(d, cell, m, step, Plain(l.target));
    LaterLeavesIt(d, cell, m, step, Plain(l.target));
    CellStays(original, s, l, m, step);
  }

  /** When an isolation becomes APPLIED, the target is a file of its own with no other name, and
      has the bytes of the source. */
  lemma IsolationIsAPrivateCopy(original: Disk, steps: seq<(Link, Step)>, l: Link)
    requires Proper(original)
    requires !Execute(original, steps).CellOf(l).IsolationIs(Applied)
    requires Next(original, Execute(original, steps), l, ConfirmIsolation).CellOf(l).IsolationIs(Applied)
    ensures var next := Next(original, Execute(original, steps), l, ConfirmIsolation);
            && next.disk.Has(Plain(l.target)) && next.disk.OnlyName(Plain(l.target))
            && !IsOriginal(original, next.disk.names[Plain(l.target)])
            && next.CellOf(l).hardlink.Some? && next.CellOf(l).hardlink.value.source in original.names
            && original.names[next.CellOf(l).hardlink.value.source] in original.files
            && next.disk.files[next.disk.names[Plain(l.target)]].bytes
            == original.files[original.names[next.CellOf(l).hardlink.value.source]].bytes
  {
    var s := Execute(original, steps);
    Reached(original, steps, l);
    hide Execute, Sound, IsOriginal;
    ConfirmedCopy(original, s.disk, l, s.CellOf(l));
  }

  lemma ConfirmedCopy(original: Disk, d: Disk, l: Link, cell: Cell)
    requires Sound(original, d, l, cell) && !cell.IsolationIs(Applied)
    requires IsolationStep(d, cell, l, ConfirmIsolation).cell.IsolationIs(Applied)
    ensures IsolationStep(d, cell, l, ConfirmIsolation).disk == d
    ensures IsolationStep(d, cell, l, ConfirmIsolation).cell.hardlink == cell.hardlink
    ensures d.Has(Plain(l.target)) && d.OnlyName(Plain(l.target)) && !IsOriginal(original, d.names[Plain(l.target)])
    ensures cell.hardlink.Some? && original.Has(cell.hardlink.value.source)
    ensures d.files[d.names[Plain(l.target)]].bytes == original.files[original.names[cell.hardlink.value.source]].bytes
  {
    hide IsOriginal, Proper, Intact;
    assert cell.worker.Replaced?;
  }

  /** Cleanup removes the last name of a private copy of the recorded size, never one of an
      original file. */
  lemma CleanupUnlinksOnlyCopies(original: Disk, steps: seq<(Link, Step)>, l: Link)
    requires Proper(original)
             && Next(original, Execute(original, steps), l, Unlink).disk != Execute(original, steps).disk
    ensures var s := Execute(original, steps);
            var d := s.disk;
            && HoldsCopy(d, l, s.CellOf(l)) && d.OnlyName(Plain(l.target))
            && !IsOriginal(original, d.names[Plain(l.target)])
            && |d.files[d.names[Plain(l.target)]].bytes| == s.CellOf(l).isolation.value.after.value.size
            && Next(original, s, l, Unlink).disk == d.WithoutName(Plain(l.target))
  {
    var s := Execute(original, steps);
    Reached(original, steps, l);
    hide Execute, Sound, IsOriginal;
    CopyIsNotTheLink(original, s.disk, l, s.CellOf(l));
  }

  // ----- what a run gets done -------------------------------------------------------------

  /** A cleanup becomes APPLIED only when nothing is left under the target's name. */
  lemma CleanupIsAppliedWhenGone(original: Disk, s: State, l: Link, m: Link, step: Step)
    requires !s.CellOf(l).CleanupIs(Applied) && Next(original, s, m, step).CellOf(l).CleanupIs(Applied)
    ensures m == l && step == ConfirmCleanup
    ensures Plain(l.target) !in s.disk.names && Next(original, s, m, step).disk == s.disk
  {
    hide CanUnlink;
  }

  /** No isolation under way, and link, source and target are what the link's journal says. */
  predicate CanIsolate(s: State, l: Link) {
    var cell := s.CellOf(l);
    && cell.LinkIs(Applied) && cell.hardlink.value.after == Some(cell.hardlink.value.expected)
    && cell.isolation.None? && cell.cleanup.None? && cell.worker.Idle?
    && LinkIntact(s, l) && RepairTemporary(l) !in s.disk.names
  }

  predicate LinkIntact(s: State, l: Link) {
    var cell := s.CellOf(l);
    && cell.hardlink.Some?
    && s.disk.Is(cell.hardlink.value.source, cell.hardlink.value.expected)
    && s.disk.Is(Plain(l.target), cell.hardlink.value.expected)
    && cell.hardlink.value.source != Plain(l.target) && cell.hardlink.value.source != RepairTemporary(l)
  }

  /** The file under its temporary name, marked and on record. */
  ghost predicate Resumable(s: State, l: Link, i: Inode) {
    var cell, temporary := s.CellOf(l), RepairTemporary(l);
    && LinkIntact(s, l) && cell.LinkIs(Applied) && cell.hardlink.value.after.Some?
    && cell.IsolationIs(IntentRecorded) && cell.isolation.value.progress == Some(i) && cell.cleanup.None?
    && s.disk.Has(temporary) && s.disk.names[temporary] == i && s.disk.OnlyName(temporary)
    && s.disk.files[i].owner == Some(l)
  }

  /** The file in the target's place, on record, with the source's bytes. */
  ghost predicate Recoverable(s: State, l: Link, i: Inode) {
    var cell, target := s.CellOf(l), Plain(l.target);
    && cell.LinkIs(Applied) && cell.hardlink.value.after.Some?
    && s.disk.Is(cell.hardlink.value.source, cell.hardlink.value.expected) && cell.hardlink.value.source != target
    && cell.IsolationIs(IntentRecorded) && cell.isolation.value.progress == Some(i) && cell.cleanup.None?
    && RepairTemporary(l) !in s.disk.names
    && s.disk.Has(target) && s.disk.names[target] == i && s.disk.OnlyName(target)
    && s.disk.files[i].owner == Some(l)
    && s.disk.files[i].bytes == s.disk.files[cell.hardlink.value.expected.inode].bytes
  }

  /** The target has become a file of its own with the bytes of the source, and is on record. */
  ghost predicate IsPrivateCopy(s: State, l: Link, i: Inode) {
    var cell, target := s.CellOf(l), Plain(l.target);
    && HoldsCopy(s.disk, l, cell) && s.disk.OnlyName(target) && s.disk.names[target] == i
    && cell.isolation.value.after == Some(Record(i, |s.disk.files[i].bytes|))
    && cell.hardlink.Some? && s.disk.Has(cell.hardlink.value.source)
    && s.disk.files[i].bytes == s.disk.files[s.disk.names[cell.hardlink.value.source]].bytes
    && RepairTemporary(l) !in s.disk.names
  }

  /** From an APPLIED link to its copy's record; what it is interrupted by comes below. */
  lemma IsolationIsPrepared(original: Disk, s: State, l: Link, unused: Inode)
    requires CanIsolate(s, l) && unused !in s.disk.names.Values
    ensures var begun := Next(original, s, l, BeginIsolation);
            var prepared := Next(original, begun, l, Prepare(unused));
            var marked := Next(original, prepared, l, Mark);
            var recorded := Next(original, marked, l, RecordProgress);
            Resumable(recorded, l, unused) && recorded.CellOf(l).worker == Owning(unused)
  {
    FileIsCreated(original, s, l, unused);
    hide Next, CanIsolate;
    FileIsMarked(original, Next(original, Next(original, s, l, BeginIsolation), l, Prepare(unused)), l, unused);
  }

  /** A new file under the temporary name, with no mark and on no record. */
  ghost predicate IsCreated(s: State, l: Link, i: Inode) {
    var cell, temporary := s.CellOf(l), RepairTemporary(l);
    && LinkIntact(s, l) && cell.LinkIs(Applied) && cell.hardlink.value.after.Some?
    && cell.isolation == Some(Isolation(IntentRecorded, None, None)) && cell.cleanup.None? && cell.worker == Created(i)
    && s.disk.Has(temporary) && s.disk.names[temporary] == i && s.disk.OnlyName(temporary)
  }

  lemma FileIsCreated(original: Disk, s: State, l: Link, unused: Inode)
    requires CanIsolate(s, l) && unused !in s.disk.names.Values
    ensures IsCreated(Next(original, Next(original, s, l, BeginIsolation), l, Prepare(unused)), l, unused)
  {
    hide LinkStep, LaterStep;
    assert forall p :: p in s.disk.names ==> s.disk.names[p] in s.disk.names.Values;
  }

  lemma FileIsMarked(original: Disk, s: State, l: Link, i: Inode)
    requires IsCreated(s, l, i)
    ensures var recorded := Next(original, Next(original, s, l, Mark), l, RecordProgress);
            Resumable(recorded, l, i) && recorded.CellOf(l).worker == Owning(i)
  {
    hide LinkStep, LaterStep;
    assert s.disk.names[Plain(l.target)] != i && s.disk.names[s.CellOf(l).hardlink.value.source] != i;
  }

  /** The worker that holds the recorded file copies, replaces and confirms. */
  lemma IsolationIsFinished(original: Disk, s: State, l: Link, i: Inode, version: nat)
    requires Resumable(s, l, i) && s.CellOf(l).worker == Owning(i)
    ensures var copied := Next(original, s, l, Copy(version));
            var replaced := Next(original, copied, l, Replace);
            var done := Next(original, replaced, l, ConfirmIsolation);
            && Resumable(copied, l, i) && Recoverable(replaced, l, i) && replaced.CellOf(l).worker == Replaced(i)
            && IsPrivateCopy(done, l, i)
  {
    CopyGoesOn(original, s, l, i, version);
    hide IsolationStep, Resumable;
    var copied := Next(original, s, l, Copy(version));
    ReplacementGoesOn(original, copied, l, i);
    ConfirmationGoesOn(original, Next(original, copied, l, Replace), l, i);
  }

  /** The recorded file holds the source's bytes. */
  predicate Holds(s: State, l: Link, i: Inode) {
    var cell := s.CellOf(l);
    && cell.worker == Copied(i) && cell.hardlink.Some? && cell.hardlink.value.expected.inode in s.disk.files
    && i in s.disk.files && s.disk.files[i].bytes == s.disk.files[cell.hardlink.value.expected.inode].bytes
  }

  lemma CopyGoesOn(original: Disk, s: State, l: Link, i: Inode, version: nat)
    requires Resumable(s, l, i) && s.CellOf(l).worker == Owning(i)
    ensures var copied := Next(original, s, l, Copy(version));
            Resumable(copied, l, i) && Holds(copied, l, i)
  {
    hide LinkStep, LaterStep;
    var cell, d := s.CellOf(l), s.disk;
    var source, expected := cell.hardlink.value.source, cell.hardlink.value.expected;
    assert d.names[source] == expected.inode && d.names[Plain(l.target)] == expected.inode;
    assert d.names[source] != d.names[RepairTemporary(l)];
    var copied := Next(original, s, l, Copy(version));
    assert copied.disk.names == d.names && copied.disk.files[expected.inode] == d.files[expected.inode];
    assert copied.disk.Is(source, expected);
  }

  lemma ReplacementGoesOn(original: Disk, s: State, l: Link, i: Inode)
    requires Resumable(s, l, i) && Holds(s, l, i)
    ensures var replaced := Next(original, s, l, Replace);
            Recoverable(replaced, l, i) && replaced.CellOf(l).worker == Replaced(i)
  {
    hide LinkStep, LaterStep;
  }

  lemma ConfirmationGoesOn(original: Disk, s: State, l: Link, i: Inode)
    requires Recoverable(s, l, i) && s.CellOf(l).worker == Replaced(i)
    ensures IsPrivateCopy(Next(original, s, l, ConfirmIsolation), l, i)
  {
    hide LinkStep, LaterStep;
  }

  /** After a crash the replay finds the recorded file again, whatever inode is offered. */
  lemma IsolationIsResumed(original: Disk, s: State, l: Link, i: Inode, unused: Inode)
    requires Resumable(s, l, i)
    ensures var crashed := Next(original, s, l, Crash);
            var begun := Next(original, crashed, l, BeginIsolation);
            var prepared := Next(original, begun, l, Prepare(unused));
            Resumable(prepared, l, i) && prepared.CellOf(l).worker == Owning(i) && prepared.disk == s.disk
  {
    hide LinkStep, LaterStep;
    assert s.disk.names[Plain(l.target)] != i by {
      assert s.disk.names[Plain(l.target)] != s.disk.names[RepairTemporary(l)];
    }
  }

  /** And one that comes after the replacement only has to be confirmed. */
  lemma IsolationIsRecovered(original: Disk, s: State, l: Link, i: Inode, unused: Inode)
    requires Recoverable(s, l, i)
    ensures var crashed := Next(original, s, l, Crash);
            var begun := Next(original, crashed, l, BeginIsolation);
            var prepared := Next(original, begun, l, Prepare(unused));
            IsPrivateCopy(Next(original, prepared, l, ConfirmIsolation), l, i)
  {
    ReplacementIsFound(original, s, l, i, unused);
    hide Next, Recoverable, IsPrivateCopy;
    var begun := Next(original, Next(original, s, l, Crash), l, BeginIsolation);
    ConfirmationGoesOn(original, Next(original, begun, l, Prepare(unused)), l, i);
  }

  lemma ReplacementIsFound(original: Disk, s: State, l: Link, i: Inode, unused: Inode)
    requires Recoverable(s, l, i)
    ensures var begun := Next(original, Next(original, s, l, Crash), l, BeginIsolation);
            var prepared := Next(original, begun, l, Prepare(unused));
            Recoverable(prepared, l, i) && prepared.CellOf(l).worker == Replaced(i) && prepared.disk == s.disk
  {
    hide LinkStep, LaterStep;
  }

  // ----- rows of steps of one link, within any run ----------------------------------------

  function For(l: Link, row: seq<Step>): seq<(Link, Step)> {
    if row == [] then [] else For(l, row[..|row| - 1]) + [(l, row[|row| - 1])]
  }

  ghost function Row(original: Disk, s: State, l: Link, row: seq<Step>): State {
    if row == [] then s else Next(original, Row(original, s, l, row[..|row| - 1]), l, row[|row| - 1])
  }

  lemma {:induction false} RowIsRun(original: Disk, steps: seq<(Link, Step)>, l: Link, row: seq<Step>)
    ensures Execute(original, steps + For(l, row)) == Row(original, Execute(original, steps), l, row)
  {
    var all := steps + For(l, row);
    if row == [] {
      assert all == steps;
    } else {
      assert all[..|all| - 1] == steps + For(l, row[..|row| - 1]) && all[|all| - 1] == (l, row[|row| - 1]);
      RowIsRun(original, steps, l, row[..|row| - 1]);
    }
  }

  lemma {:induction false} RowsInARow(original: Disk, s: State, l: Link, row: seq<Step>, more: seq<Step>)
    ensures Row(original, s, l, row + more) == Row(original, Row(original, s, l, row), l, more)
  {
    if more == [] {
      assert row + more == row;
    } else {
      assert (row + more)[..|row + more| - 1] == row + more[..|more| - 1];
      RowsInARow(original, s, l, row, more[..|more| - 1]);
    }
  }

  lemma RowOfThree(original: Disk, s: State, l: Link, a: Step, b: Step, c: Step)
    ensures Row(original, s, l, [a]) == Next(original, s, l, a)
    ensures Row(original, s, l, [a, b]) == Next(original, Next(original, s, l, a), l, b)
    ensures Row(original, s, l, [a, b, c]) == Next(original, Next(original, Next(original, s, l, a), l, b), l, c)
  {
    hide Next;
    RowThen(original, s, l, [], a);
    RowThen(original, s, l, [a], b);
    RowThen(original, s, l, [a, b], c);
    NoRow(original, s, l);
    hide Row;
    assert [] + [a] == [a] && [a] + [b] == [a, b] && [a, b] + [c] == [a, b, c];
  }

  lemma RowThen(original: Disk, s: State, l: Link, row: seq<Step>, step: Step)
    ensures Row(original, s, l, row + [step]) == Next(original, Row(original, s, l, row), l, step)
  {
    hide Next;
    assert (row + [step])[..|row|] == row;
  }

  lemma NoRow(original: Disk, s: State, l: Link)
    ensures Row(original, s, l, []) == s
  {
  }

  function Prepares(unused: Inode): seq<Step> {
    [BeginIsolation, Prepare(unused), Mark] + [RecordProgress]
  }

  function Finishes(version: nat): seq<Step> {
    [Copy(version), Replace, ConfirmIsolation]
  }

  /** The process dies, and the isolation is executed again. */
  function DiesAndReturns(unused: Inode): seq<Step> {
    [Crash, BeginIsolation, Prepare(unused)]
  }

  lemma ReachedCanIsolate(original: Disk, steps: seq<(Link, Step)>, l: Link)
    requires Proper(original)
    requires var s := Execute(original, steps);
             var cell := s.CellOf(l);
             && cell.LinkIs(Applied) && cell.isolation.None? && cell.cleanup.None? && cell.worker.Idle?
             && s.disk.Is(Plain(l.target), cell.hardlink.value.expected) && RepairTemporary(l) !in s.disk.names
    ensures CanIsolate(Execute(original, steps), l)
  {
    Reached(original, steps, l);
    var s := Execute(original, steps);
    var j := s.CellOf(l).hardlink.value;
    assert IsOriginal(original, original.names[j.source]);
    hide Execute, ClaimOf, IsOriginal;
  }

  /** From every reachable state, whichever links were at work before: an APPLIED link whose target
      is still the source's and whose temporary name is free is isolated, also when the process
      dies after the progress was recorded, after the bytes were copied or after the replacement. */
  lemma IsolationGetsThrough(original: Disk, steps: seq<(Link, Step)>, l: Link, unused: Inode, other: Inode,
                             version: nat)
    requires Proper(original)
    requires var s := Execute(original, steps);
             var cell := s.CellOf(l);
             && cell.LinkIs(Applied) && cell.isolation.None? && cell.cleanup.None? && cell.worker.Idle?
             && s.disk.Is(Plain(l.target), cell.hardlink.value.expected) && RepairTemporary(l) !in s.disk.names
             && unused !in s.disk.names.Values
    ensures IsPrivateCopy(Execute(original, steps + For(l, Prepares(unused) + Finishes(version))), l, unused)
    ensures var row := Prepares(unused) + DiesAndReturns(other) + Finishes(version);
            IsPrivateCopy(Execute(original, steps + For(l, row)), l, unused)
    ensures var row := Prepares(unused) + [Copy(version)] + DiesAndReturns(other) + Finishes(version);
            IsPrivateCopy(Execute(original, steps + For(l, row)), l, unused)
    ensures var row := Prepares(unused) + [Copy(version), Replace] + DiesAndReturns(other) + [ConfirmIsolation];
            IsPrivateCopy(Execute(original, steps + For(l, row)), l, unused)
  {
    var s := Execute(original, steps);
    ReachedCanIsolate(original, steps, l);
    hide Execute, Next, Row, For, Resumable, Recoverable, IsPrivateCopy, CanIsolate;
    var recorded := Row(original, s, l, Prepares(unused));
    PreparedRow(original, s, l, unused);
    FinishedRow(original, recorded, l, unused, version);
    RowsInARow(original, s, l, Prepares(unused), Finishes(version));
    RowIsRun(original, steps, l, Prepares(unused) + Finishes(version));

    ResumedRow(original, recorded, l, unused, other, version);
    var again := Prepares(unused) + DiesAndReturns(other);
    RowsInARow(original, s, l, Prepares(unused), DiesAndReturns(other));
    RowsInARow(original, s, l, again, Finishes(version));
    RowIsRun(original, steps, l, again + Finishes(version));

    var copied := Prepares(unused) + [Copy(version)];
    RowsInARow(original, s, l, Prepares(unused), [Copy(version)]);
    ResumedRow(original, Row(original, s, l, copied), l, unused, other, version);
    RowsInARow(original, s, l, copied, DiesAndReturns(other));
    RowsInARow(original, s, l, copied + DiesAndReturns(other), Finishes(version));
    RowIsRun(original, steps, l, copied + DiesAndReturns(other) + Finishes(version));

    var replaced := Prepares(unused) + [Copy(version), Replace];
    RowsInARow(original, s, l, Prepares(unused), [Copy(version), Replace]);
    RecoveredRow(original, Row(original, s, l, replaced), l, unused, other);
    RowsInARow(original, s, l, replaced, DiesAndReturns(other));
    RowsInARow(original, s, l, replaced + DiesAndReturns(other), [ConfirmIsolation]);
    RowIsRun(original, steps, l, replaced + DiesAndReturns(other) + [ConfirmIsolation]);
  }

  lemma PreparedRow(original: Disk, s: State, l: Link, unused: Inode)
    requires CanIsolate(s, l) && unused !in s.disk.names.Values
    ensures var recorded := Row(original, s, l, Prepares(unused));
            Resumable(recorded, l, unused) && recorded.CellOf(l).worker == Owning(unused)
  {
    hide Next, Row, Resumable, CanIsolate;
    IsolationIsPrepared(original, s, l, unused);
    RowOfThree(original, s, l, BeginIsolation, Prepare(unused), Mark);
    RowsInARow(original, s, l, [BeginIsolation, Prepare(unused), Mark], [RecordProgress]);
    RowOfThree(original, Row(original, s, l, [BeginIsolation, Prepare(unused), Mark]), l, RecordProgress, Crash, Crash);
  }

  lemma FinishedRow(original: Disk, s: State, l: Link, i: Inode, version: nat)
    requires Resumable(s, l, i) && s.CellOf(l).worker == Owning(i)
    ensures Resumable(Row(original, s, l, [Copy(version)]), l, i)
    ensures Recoverable(Row(original, s, l, [Copy(version), Replace]), l, i)
    ensures IsPrivateCopy(Row(original, s, l, Finishes(version)), l, i)
  {
    hide Next, Row, Resumable, Recoverable, IsPrivateCopy;
    IsolationIsFinished(original, s, l, i, version);
    RowOfThree(original, s, l, Copy(version), Replace, ConfirmIsolation);
  }

  lemma ResumedRow(original: Disk, s: State, l: Link, i: Inode, other: Inode, version: nat)
    requires Resumable(s, l, i)
    ensures IsPrivateCopy(Row(original, Row(original, s, l, DiesAndReturns(other)), l, Finishes(version)), l, i)
  {
    hide Next, Row, Resumable, IsPrivateCopy;
    IsolationIsResumed(original, s, l, i, other);
    RowOfThree(original, s, l, Crash, BeginIsolation, Prepare(other));
    FinishedRow(original, Row(original, s, l, DiesAndReturns(other)), l, i, version);
  }

  lemma RecoveredRow(original: Disk, s: State, l: Link, i: Inode, other: Inode)
    requires Recoverable(s, l, i)
    ensures IsPrivateCopy(Row(original, Row(original, s, l, DiesAndReturns(other)), l, [ConfirmIsolation]), l, i)
  {
    hide Next, Row, Recoverable, IsPrivateCopy;
    IsolationIsRecovered(original, s, l, i, other);
    RowOfThree(original, s, l, Crash, BeginIsolation, Prepare(other));
    RowOfThree(original, Row(original, s, l, DiesAndReturns(other)), l, ConfirmIsolation, Crash, Crash);
  }

  /** A process that dies before the progress is recorded leaves a file that no replay takes for its
      own: whatever inode is offered, nothing is prepared, and giving up quarantines the journal. */
  lemma UnrecordedFileIsNotAdopted(original: Disk, s: State, l: Link, other: Inode)
    requires s.CellOf(l).IsolationIs(IntentRecorded) && s.CellOf(l).isolation.value.progress.None?
    requires s.CellOf(l).LinkIs(Applied) && s.CellOf(l).hardlink.value.after.Some?
    requires LinkIntact(s, l) && s.disk.Has(RepairTemporary(l))
    ensures var begun := Next(original, Next(original, s, l, Crash), l, BeginIsolation);
            var prepared := Next(original, begun, l, Prepare(other));
            var abandoned := Next(original, prepared, l, Abandon);
            && begun.CellOf(l).worker.Ready? && prepared.disk == s.disk && prepared.CellOf(l) == begun.CellOf(l)
            && abandoned.CellOf(l).IsolationIs(ReconcileRequired) && abandoned.CellOf(l).worker.Idle?
            && abandoned.disk == s.disk
  {
    hide LinkStep, LaterStep;
  }

  /** From every reachable state, a copy that still has the recorded size is cleaned up: its name is
      the only thing that goes, and the cleanup is then APPLIED.  One of another size stays, and
      giving up quarantines the cleanup. */
  lemma CleanupGetsThrough(original: Disk, steps: seq<(Link, Step)>, l: Link, plan: string, removal: Removals.Key)
    requires Proper(original)
    requires var s := Execute(original, steps);
             s.CellOf(l).LinkIs(Applied) && s.CellOf(l).cleanup.None? && HoldsCopy(s.disk, l, s.CellOf(l))
    ensures var s := Execute(original, steps);
            var same := HasRecordedSize(s.disk, l, s.CellOf(l));
            var unlinked := Execute(original, steps + For(l, [BeginCleanup(plan, removal), Unlink]));
            var confirmed := Execute(original, steps + For(l, [BeginCleanup(plan, removal), Unlink, ConfirmCleanup]));
            var abandoned := Execute(original, steps + For(l, [BeginCleanup(plan, removal), Unlink, AbandonCleanup]));
            && unlinked.disk == (if same then s.disk.WithoutName(Plain(l.target)) else s.disk)
            && confirmed.disk == unlinked.disk && abandoned.disk == unlinked.disk
            && confirmed.CellOf(l).cleanup == Some(Cleanup(plan, removal, if same then Applied else IntentRecorded))
            && abandoned.CellOf(l).cleanup == Some(Cleanup(plan, removal, ReconcileRequired))
  {
    var s := Execute(original, steps);
    Reached(original, steps, l);
    CopyIsNotTheLink(original, s.disk, l, s.CellOf(l));
    CopyHasOneName(original, s.disk, l, s.CellOf(l));
    CleanupRow(original, s, l, plan, removal);
    hide Execute, Sound, Next, Row, HoldsCopy;
    var begin := BeginCleanup(plan, removal);
    RowOfThree(original, s, l, begin, Unlink, ConfirmCleanup);
    RowOfThree(original, s, l, begin, Unlink, AbandonCleanup);
    RowIsRun(original, steps, l, [begin, Unlink]);
    RowIsRun(original, steps, l, [begin, Unlink, ConfirmCleanup]);
    RowIsRun(original, steps, l, [begin, Unlink, AbandonCleanup]);
  }

  lemma CopyHasOneName(original: Disk, d: Disk, l: Link, cell: Cell)
    requires Sound(original, d, l, cell) && HoldsCopy(d, l, cell) && !IsOriginal(original, d.names[Plain(l.target)])
    ensures d.OnlyName(Plain(l.target))
  {
    hide IsOriginal, ClaimOf;
  }

  lemma CleanupRow(original: Disk, s: State, l: Link, plan: string, removal: Removals.Key)
    requires s.CellOf(l).LinkIs(Applied) && s.CellOf(l).cleanup.None? && HoldsCopy(s.disk, l, s.CellOf(l))
    requires s.disk.OnlyName(Plain(l.target))
    ensures var same := HasRecordedSize(s.disk, l, s.CellOf(l));
            var begun := Next(original, s, l, BeginCleanup(plan, removal));
            var unlinked := Next(original, begun, l, Unlink);
            var confirmed := Next(original, unlinked, l, ConfirmCleanup);
            var abandoned := Next(original, unlinked, l, AbandonCleanup);
            && unlinked.disk == (if same then s.disk.WithoutName(Plain(l.target)) else s.disk)
            && confirmed.disk == unlinked.disk && abandoned.disk == unlinked.disk
            && confirmed.CellOf(l).cleanup == Some(Cleanup(plan, removal, if same then Applied else IntentRecorded))
            && abandoned.CellOf(l).cleanup == Some(Cleanup(plan, removal, ReconcileRequired))
  {
    CleanupBegins(original, s, l, plan, removal);
    hide Next, HasRecordedSize;
    var begun := Next(original, s, l, BeginCleanup(plan, removal));
    UnlinkEffect(original, begun, l);
    CleanupEnds(original, Next(original, begun, l, Unlink), l);
  }

  lemma CleanupBegins(original: Disk, s: State, l: Link, plan: string, removal: Removals.Key)
    requires s.CellOf(l).LinkIs(Applied) && s.CellOf(l).cleanup.None? && s.CellOf(l).IsolationIs(Applied)
    ensures var begun := Next(original, s, l, BeginCleanup(plan, removal));
            && begun.disk == s.disk
            && begun.CellOf(l) == s.CellOf(l).(cleanup := Some(Cleanup(plan, removal, IntentRecorded)))
  {
    hide LinkStep, IsolationStep;
  }

  lemma CleanupEnds(original: Disk, s: State, l: Link)
    requires s.CellOf(l).CleanupIs(IntentRecorded)
    ensures var c := s.CellOf(l).cleanup.value;
            var confirmed, abandoned := Next(original, s, l, ConfirmCleanup), Next(original, s, l, AbandonCleanup);
            && confirmed.disk == s.disk && abandoned.disk == s.disk
            && confirmed.CellOf(l).cleanup
            == Some(c.(status := if Plain(l.target) in s.disk.names then IntentRecorded else Applied))
            && abandoned.CellOf(l).cleanup == Some(c.(status := ReconcileRequired))
  {
    hide LinkStep, IsolationStep, CanUnlink;
  }

  lemma UnlinkEffect(original: Disk, s: State, l: Link)
    requires s.CellOf(l).CleanupIs(IntentRecorded) && HoldsCopy(s.disk, l, s.CellOf(l))
             && s.disk.OnlyName(Plain(l.target))
    ensures var same := HasRecordedSize(s.disk, l, s.CellOf(l));
            var next := Next(original, s, l, Unlink);
            next.disk == (if same then s.disk.WithoutName(Plain(l.target)) else s.disk) && next.CellOf(l) == s.CellOf(l)
  {
    hide LinkStep, IsolationStep;
  }

  /** From every reachable state a new link to an original file gets its name, nothing else changes,
      and rolling it back takes just that name away again; a doubted link is restored. */
  lemma LinkGetsThrough(original: Disk, steps: seq<(Link, Step)>, l: Link, task: string, source: Path,
                        expected: Identity)
    requires Proper(original) && source in original.names
    requires var s := Execute(original, steps);
             && s.CellOf(l).hardlink.None? && s.disk.Is(source, expected)
             && Plain(l.target) !in s.disk.names && LinkTemporary(l) !in s.disk.names
    ensures var s := Execute(original, steps);
            var row := [RecordLink(task, source, expected), MakeTemporary, PlaceLink] + [ConfirmLink];
            var linked := Execute(original, steps + For(l, row));
            var doubted := Execute(original, steps + For(l, row + [DoubtLink]));
            var restored := Execute(original, steps + For(l, row + [DoubtLink, ReconcileLink]));
            var released := Execute(original, steps + For(l, row + [BeginRollback, Rollback]));
            && linked.CellOf(l).hardlink == Some(Hardlink(task, source, expected, Applied, Some(expected)))
            && linked.disk == s.disk.WithName(Plain(l.target), expected.inode)
            && doubted.CellOf(l).LinkIs(ReconcileRequired)
            && restored.CellOf(l) == linked.CellOf(l) && restored.disk == linked.disk
            && released.CellOf(l).LinkIs(RolledBack) && released.disk == s.disk
  {
    var s := Execute(original, steps);
    var row := [RecordLink(task, source, expected), MakeTemporary, PlaceLink];
    hide Execute, For, Row;
    LinkRow(original, s, l, task, source, expected);
    var placed := Row(original, s, l, row);
    RowOfThree(original, s, l, row[0], row[1], row[2]);
    RowsInARow(original, s, l, row, [ConfirmLink]);
    RowOfThree(original, placed, l, ConfirmLink, DoubtLink, ReconcileLink);
    var linked := Row(original, s, l, row + [ConfirmLink]);
    RowsInARow(original, s, l, row + [ConfirmLink], [DoubtLink]);
    RowsInARow(original, s, l, row + [ConfirmLink], [DoubtLink, ReconcileLink]);
    RowsInARow(original, s, l, row + [ConfirmLink], [BeginRollback, Rollback]);
    RowOfThree(original, linked, l, DoubtLink, ReconcileLink, Crash);
    RowOfThree(original, linked, l, BeginRollback, Rollback, Crash);
    RowIsRun(original, steps, l, row + [ConfirmLink]);
    RowIsRun(original, steps, l, row + [ConfirmLink] + [DoubtLink]);
    RowIsRun(original, steps, l, row + [ConfirmLink] + [DoubtLink, ReconcileLink]);
    RowIsRun(original, steps, l, row + [ConfirmLink] + [BeginRollback, Rollback]);
  }

  lemma LinkRow(original: Disk, s: State, l: Link, task: string, source: Path, expected: Identity)
    requires source in original.names && s.CellOf(l).hardlink.None? && s.disk.Is(source, expected)
    requires Plain(l.target) !in s.disk.names && LinkTemporary(l) !in s.disk.names
    ensures var recorded := Next(original, s, l, RecordLink(task, source, expected));
            var made := Next(original, recorded, l, MakeTemporary);
            var placed := Next(original, made, l, PlaceLink);
            var linked := Next(original, placed, l, ConfirmLink);
            var doubted := Next(original, linked, l, DoubtLink);
            var restored := Next(original, doubted, l, ReconcileLink);
            var released := Next(original, Next(original, linked, l, BeginRollback), l, Rollback);
            && linked.CellOf(l).hardlink == Some(Hardlink(task, source, expected, Applied, Some(expected)))
            && linked.disk == s.disk.WithName(Plain(l.target), expected.inode)
            && doubted.CellOf(l).LinkIs(ReconcileRequired)
            && restored.CellOf(l) == linked.CellOf(l) && restored.disk == linked.disk
            && released.CellOf(l).LinkIs(RolledBack) && released.disk == s.disk
  {
    LinkIsPlaced(original, s, l, task, source, expected);
    var placed := Next(original,
      Next(original, Next(original, s, l, RecordLink(task, source, expected)), l, MakeTemporary), l, PlaceLink);
    hide Next, LinkStep, IsolationStep, LaterStep;
    LinkIsConfirmed(original, placed, l);
    assert s.disk.WithName(Plain(l.target), expected.inode).WithoutName(Plain(l.target)).names == s.disk.names;
  }

  lemma LinkIsPlaced(original: Disk, s: State, l: Link, task: string, source: Path, expected: Identity)
    requires source in original.names && s.CellOf(l).hardlink.None? && s.disk.Is(source, expected)
    requires Plain(l.target) !in s.disk.names && LinkTemporary(l) !in s.disk.names
    ensures var recorded := Next(original, s, l, RecordLink(task, source, expected));
            var placed := Next(original, Next(original, recorded, l, MakeTemporary), l, PlaceLink);
            && placed.CellOf(l).hardlink == Some(Hardlink(task, source, expected, IntentRecorded, None))
            && placed.disk == s.disk.WithName(Plain(l.target), expected.inode)
            && placed.disk.Is(Plain(l.target), expected)
  {
    hide IsolationStep, LaterStep;
    var recorded := Next(original, s, l, RecordLink(task, source, expected));
    var made := Next(original, recorded, l, MakeTemporary);
    assert recorded.disk == s.disk
      && recorded.CellOf(l).hardlink == Some(Hardlink(task, source, expected, IntentRecorded, None));
    assert made.disk == s.disk.WithName(LinkTemporary(l), expected.inode) && made.CellOf(l) == recorded.CellOf(l);
    assert made.disk.WithoutName(LinkTemporary(l)).names == s.disk.names;
  }

  lemma LinkIsConfirmed(original: Disk, s: State, l: Link)
    requires s.CellOf(l).LinkIs(IntentRecorded) && s.CellOf(l).hardlink.value.after.None?
    requires s.disk.Is(Plain(l.target), s.CellOf(l).hardlink.value.expected)
    ensures var j := s.CellOf(l).hardlink.value;
            var linked := Next(original, s, l, ConfirmLink);
            var doubted := Next(original, linked, l, DoubtLink);
            var restored := Next(original, doubted, l, ReconcileLink);
            var released := Next(original, Next(original, linked, l, BeginRollback), l, Rollback);
            && linked.CellOf(l).hardlink == Some(j.(status := Applied, after := Some(j.expected)))
            && linked.disk == s.disk
            && doubted.CellOf(l).LinkIs(ReconcileRequired)
            && restored.CellOf(l) == linked.CellOf(l) && restored.disk == linked.disk
            && released.CellOf(l).LinkIs(RolledBack) && released.disk == s.disk.WithoutName(Plain(l.target))
  {
    LinkTurnsApplied(original, s, l);
    hide Next;
    var linked := Next(original, s, l, ConfirmLink);
    DoubtIsRemoved(original, linked, l);
    LinkIsReleased(original, linked, l);
  }

  lemma LinkTurnsApplied(original: Disk, s: State, l: Link)
    requires s.CellOf(l).LinkIs(IntentRecorded) && s.disk.Is(Plain(l.target), s.CellOf(l).hardlink.value.expected)
    ensures var j := s.CellOf(l).hardlink.value;
            var linked := Next(original, s, l, ConfirmLink);
            && linked.CellOf(l).hardlink == Some(j.(status := Applied, after := Some(j.expected)))
            && linked.disk == s.disk
  {
    hide IsolationStep, LaterStep;
  }

  lemma DoubtIsRemoved(original: Disk, s: State, l: Link)
    requires s.CellOf(l).LinkIs(Applied) && s.CellOf(l).hardlink.value.after.Some?
    requires s.disk.Is(Plain(l.target), s.CellOf(l).hardlink.value.after.value)
    ensures var doubted := Next(original, s, l, DoubtLink);
            var restored := Next(original, doubted, l, ReconcileLink);
            && doubted.CellOf(l).LinkIs(ReconcileRequired)
            && restored.CellOf(l) == s.CellOf(l) && restored.disk == s.disk
  {
    hide IsolationStep, LaterStep;
  }

  lemma LinkIsReleased(original: Disk, s: State, l: Link)
    requires s.CellOf(l).LinkIs(Applied) && s.CellOf(l).hardlink.value.after.Some?
    requires s.disk.Is(Plain(l.target), s.CellOf(l).hardlink.value.after.value)
    ensures var released := Next(original, Next(original, s, l, BeginRollback), l, Rollback);
            released.CellOf(l).LinkIs(RolledBack) && released.disk == s.disk.WithoutName(Plain(l.target))
  {
    hide IsolationStep, LaterStep;
  }

  /** What a client writes is what the target then holds. */
  lemma ClientsWritesArrive(original: Disk, steps: seq<(Link, Step)>, l: Link, bytes: string, version: nat)
    requires Proper(original) && IsClients(Execute(original, steps).CellOf(l))
    ensures var s := Execute(original, steps);
            var next := Next(original, s, l, ClientWrites(bytes, version));
            && Plain(l.target) in s.disk.names && next.disk.names == s.disk.names
            && next.disk.files == s.disk.files[s.disk.names[Plain(l.target)] := File(bytes, version, Some(l))]
  {
    Reached(original, steps, l);
    ClientsHoldCopies(original, Execute(original, steps).disk, l, Execute(original, steps).CellOf(l));
  }

  // ----- what a change of status takes ----------------------------------------------------

  /** A journal is recorded as an intent, and then only moves as the repository accepts it. */
  predicate Accepted(was: Option<Status>, now: Option<Status>) {
    was == now || (was.None? && now == Some(IntentRecorded))
      || (was.Some? && now.Some? && MayMove(was.value, now.value))
  }

  function LinkStatus(cell: Cell): Option<Status> {
    if cell.hardlink.Some? then Some(cell.hardlink.value.status) else None
  }

  function IsolationStatus(cell: Cell): Option<Status> {
    if cell.isolation.Some? then Some(cell.isolation.value.status) else None
  }

  function CleanupStatus(cell: Cell): Option<Status> {
    if cell.cleanup.Some? then Some(cell.cleanup.value.status) else None
  }

  lemma MovesAreAccepted(original: Disk, s: State, l: Link, m: Link, step: Step)
    ensures var was, now := s.CellOf(l), Next(original, s, m, step).CellOf(l);
            && Accepted(LinkStatus(was), LinkStatus(now)) && Accepted(IsolationStatus(was), IsolationStatus(now))
            && Accepted(CleanupStatus(was), CleanupStatus(now))
  {
    hide LinkStep, IsolationStep, LaterStep;
    if m == l && SourceIsOriginal(original, step) {
      LinkMoves(s.disk, s.CellOf(l), l, step);
      IsolationMoves(s.disk, s.CellOf(l), l, step);
      CleanupMoves(s.disk, s.CellOf(l), l, step);
    }
  }

  lemma LinkMoves(d: Disk, cell: Cell, l: Link, step: Step)
    ensures var now := LinkStep(d, cell, l, step).cell;
            Accepted(LinkStatus(cell), LinkStatus(now)) && now.isolation == cell.isolation
              && now.cleanup == cell.cleanup
  {
  }

  lemma IsolationMoves(d: Disk, cell: Cell, l: Link, step: Step)
    ensures var now := IsolationStep(d, cell, l, step).cell;
            && Accepted(IsolationStatus(cell), IsolationStatus(now)) && now.hardlink == cell.hardlink
            && now.cleanup == cell.cleanup
  {
  }

  lemma CleanupMoves(d: Disk, cell: Cell, l: Link, step: Step)
    ensures var now := LaterStep(d, cell, l, step).cell;
            && Accepted(CleanupStatus(cell), CleanupStatus(now)) && now.hardlink == cell.hardlink
            && now.isolation == cell.isolation
  {
    hide CanUnlink;
  }

  /** A link's journal is recorded for a free target and its source as it is; it becomes APPLIED, or
      is restored, only with the target a link to that source; and it is rolled back only when
      nothing is left under the target's name. */
  lemma LinkIsEarned(original: Disk, s: State, l: Link, m: Link, step: Step)
    ensures var was, now, target := s.CellOf(l), Next(original, s, m, step).CellOf(l), Plain(l.target);
            && (was.hardlink.None? && now.hardlink.Some? ==>
                  && target !in s.disk.names && now.hardlink.value.status.IntentRecorded?
                  && now.hardlink.value.after.None?
                  && s.disk.Is(now.hardlink.value.source, now.hardlink.value.expected)
                  && now.hardlink.value.source in original.names)
            && (was.LinkIs(IntentRecorded) && now.LinkIs(Applied) ==>
                  s.disk.Is(target, was.hardlink.value.expected)
                    && now.hardlink.value.after == Some(was.hardlink.value.expected))
            && (was.LinkIs(ReconcileRequired) && now.LinkIs(Applied) ==>
                  was.hardlink.value.after.Some? && s.disk.Is(target, was.hardlink.value.after.value))
            && (!was.LinkIs(RolledBack) && now.LinkIs(RolledBack) ==>
                  was.LinkIs(RollbackPending) && target !in Next(original, s, m, step).disk.names)
  {
    hide IsolationStep, LaterStep;
    IsolationMoves(s.disk, s.CellOf(m), m, step);
    CleanupMoves(s.disk, s.CellOf(m), m, step);
    hide Accepted;
  }

  /** An isolation begins only with an APPLIED link, source and target as they were, and a free
      temporary name; a cleanup only after both are APPLIED. */
  lemma LaterJournalsAreEarned(original: Disk, s: State, l: Link, m: Link, step: Step)
    ensures var was, now := s.CellOf(l), Next(original, s, m, step).CellOf(l);
            && (was.isolation.None? && now.isolation.Some? ==>
                  && was.LinkIs(Applied) && was.hardlink.value.after.Some?
                  && s.disk.Is(was.hardlink.value.source, was.hardlink.value.expected)
                  && s.disk.Is(Plain(l.target), was.hardlink.value.after.value)
                  && RepairTemporary(l) !in s.disk.names)
            && (was.cleanup.None? && now.cleanup.Some? ==> was.LinkIs(Applied) && was.IsolationIs(Applied))
  {
    hide LinkStep, CanUnlink;
    LinkMoves(s.disk, s.CellOf(m), m, step);
    hide Accepted;
  }

  /** The copy takes the target's place only while source and target are still what was recorded,
      and under the mark of its link. */
  lemma ReplacementIsEarned(original: Disk, s: State, l: Link)
    requires Next(original, s, l, Replace).disk != s.disk
    ensures var cell := s.CellOf(l);
            && cell.worker.Copied? && cell.hardlink.Some?
            && s.disk.Is(cell.hardlink.value.source, cell.hardlink.value.expected)
            && s.disk.Is(Plain(l.target), cell.hardlink.value.expected)
            && cell.worker.inode in s.disk.files && s.disk.files[cell.worker.inode].owner == Some(l)
  {
  }
}
