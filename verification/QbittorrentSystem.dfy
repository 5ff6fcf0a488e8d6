/** The qBittorrent operation services as one transition system: executions of any number of
    keys, each a sequence of atomic segments between awaits; the reconciler, which holds another
    lock and so interleaves with them; crashes at every point; lost and late responses; and a
    client that outsiders change at will. */
module QbittorrentSystem {
  import opened OperationJournal
  import opened QbittorrentLog
  import opened Wrappers

  type Client = map<Hash, Torrent>

  /** What an awaited query came back with. */
  datatype Answer = Unreachable | Returned(sightings: seq<Sighting>)

  datatype Reply = Errored | Accepted | Rejected | Pending | Miscounted | ForeignIds

  /** Where an execution is: about to look, to send a durable command, to hear of it, to look
      at its effect, to confirm a stop, or to close an intent that found nothing to do. */
  datatype Pc =
    | Verify
    | Look
    | Send(command: Command)
    | Await(command: Command)
    | Inspect(command: Command)
    | Poll(hash: Hash, attempt: nat)
    | CommitNoop

  datatype Run = Run(request: Request, existing: Option<Journal>, pc: Pc, answer: Option<Answer>)

  datatype Reconciliation = Reconciliation(loaded: Journal, target: Hash, answer: Option<Answer>)

  /** All there is about one operation key: its journal, the execution that holds its lock and
      the reconciliation that holds the journal's other lock. */
  datatype Cell = Cell(journal: Option<Journal>, run: Option<Run>, reconciliation: Option<Reconciliation>)

  const BLANK := Cell(None, None, None)

  // ----- decisions: what a segment does with what it sees ---------------------------------

  datatype Decision =
    | Stop
    | Continue(pc: Pc)
    | Record(before: Snapshot, pc: Pc)
    | Confirm(after: Snapshot)
    | Quarantine(expected: set<Status>)

  const EITHER := {IntentRecorded, Applied}

  function Asked(run: Run): seq<Hash> {
    if run.pc.Poll? then [run.pc.hash] else run.request.hashes
  }

  function AddDecision(run: Run, seen: seq<Sighting>): Decision {
    match run.pc
    case Verify =>
      if run.existing.None? || run.existing.value.after.None? || !run.existing.value.after.value.Present? then Stop
      else
        var after := run.existing.value.after.value;
        if && |seen| == 1 && seen[0].hash == after.hash && seen[0].torrent.path == after.path
           && run.request.tag in seen[0].torrent.tags && seen[0].torrent.Stopped()
        then Stop
        else Quarantine({Applied})
    case Look =>
      if run.existing.None? then
        if seen == [] then Record(Absent(run.request.hashes), Send(AddTorrent)) else Stop
      else if seen == [] then Continue(Send(AddTorrent))
      else AddConfirmation(run, seen)
    case Inspect(_) => if seen == [] then Stop else AddConfirmation(run, seen)
    case Poll(hash, attempt) =>
      if !(|seen| == 1 && seen[0].hash == hash && run.request.tag in seen[0].torrent.tags
         && seen[0].torrent.path == run.request.path) then
        Quarantine({IntentRecorded})
      else if seen[0].torrent.Stopped() then Confirm(SnapshotOf(seen[0], run.request.tag))
      else if attempt + 1 < STOP_CONFIRM_ATTEMPTS then Continue(Poll(hash, attempt + 1))
      else Quarantine({IntentRecorded})
    case _ => Stop
  }

  function AddConfirmation(run: Run, seen: seq<Sighting>): Decision {
    if !SoleOwned(run.request, seen) then Quarantine({IntentRecorded})
    else if seen[0].torrent.Stopped() then Confirm(SnapshotOf(seen[0], run.request.tag))
    else Continue(Send(StopTorrent(seen[0].hash)))
  }

  function RecheckDecision(run: Run, seen: seq<Sighting>): Decision {
    var owned := SoleOwned(run.request, seen);
    match run.pc
    case Verify => if owned then Stop else Quarantine(EITHER)
    case Look =>
      if run.existing.None? then
        if !owned || !seen[0].torrent.Stopped() then Stop
        else Record(SnapshotOf(seen[0], run.request.tag), Send(RecheckTorrent(seen[0].hash)))
      else if owned && ProvesRechecked(run.existing.value.before, seen[0].torrent) then
        Confirm(SnapshotOf(seen[0], run.request.tag))
      else Quarantine(EITHER)
    case Inspect(_) => if owned then Confirm(SnapshotOf(seen[0], run.request.tag)) else Quarantine(EITHER)
    case _ => Stop
  }

  function StartDecision(run: Run, seen: seq<Sighting>): Decision {
    var owned := SoleOwned(run.request, seen);
    match run.pc
    case Verify => if owned && seen[0].torrent.Seeding() then Stop else Quarantine(EITHER)
    case Look =>
      if run.existing.None? then
        if !owned || seen[0].torrent.Seeding() || !seen[0].torrent.VerificationComplete() then Stop
        else Record(SnapshotOf(seen[0], run.request.tag), Send(StartTorrent(seen[0].hash)))
      else if !owned then Quarantine(EITHER)
      else if seen[0].torrent.Seeding() then Confirm(SnapshotOf(seen[0], run.request.tag))
      else if seen[0].torrent.VerificationComplete() then Continue(Send(StartTorrent(seen[0].hash)))
      else Quarantine(EITHER)
    case Inspect(_) =>
      if !owned then Quarantine(EITHER)
      else if seen[0].torrent.Seeding() then Confirm(SnapshotOf(seen[0], run.request.tag))
      else if seen[0].torrent.VerificationComplete() then Stop
      else Quarantine(EITHER)
    case _ => Stop
  }

  function RemoveDecision(run: Run, seen: seq<Sighting>): Decision
  {
    var owned := SoleOwned(run.request, seen);
    var gone := Confirm(Gone(run.request.hashes));
    match run.pc
    case Verify => if seen == [] then Stop else Quarantine(EITHER)
    case Look =>
      if run.existing.None? then
        if seen == [] then Record(Absent(run.request.hashes), CommitNoop)
        else if !owned then Stop
        else Record(SnapshotOf(seen[0], run.request.tag), Send(NextRemoval(seen[0])))
      else if seen == [] then gone
      else if owned then Continue(Send(NextRemoval(seen[0])))
      else Quarantine(EITHER)
    case Inspect(_) => if seen == [] then gone else if owned then Stop else Quarantine(EITHER)
    case Poll(hash, attempt) =>
      if seen == [] then gone
      else if !owned then Quarantine(EITHER)
      else if seen[0].torrent.Stopped() then Continue(Send(RemoveTorrent(hash)))
      else if attempt + 1 < STOP_CONFIRM_ATTEMPTS then Continue(Poll(hash, attempt + 1))
      else Stop
    case _ => Stop
  }

  function NextRemoval(s: Sighting): Command {
    if s.torrent.Stopped() then RemoveTorrent(s.hash) else StopTorrent(s.hash)
  }

  function Decide(kind: Kind, run: Run, seen: seq<Sighting>): Decision
  {
    match kind
    case Add => AddDecision(run, seen)
    case Recheck => RecheckDecision(run, seen)
    case Start => StartDecision(run, seen)
    case Remove => RemoveDecision(run, seen)
  }

  /** What a reply to a command leads to.  A remove that errored is looked at all the same. */
  function ReplyDecision(kind: Kind, command: Command, reply: Reply): Decision {
    match command
    case AddTorrent =>
      (match reply
       case Accepted => Continue(Inspect(command))
       case Miscounted => Quarantine({IntentRecorded})
       case ForeignIds => Quarantine({IntentRecorded})
       case _ => Stop)
    case StopTorrent(hash) =>
      if reply.Accepted? then Continue(Poll(hash, 0))
      else if kind.Add? then Quarantine({IntentRecorded})
      else Stop
    case RemoveTorrent(_) => Continue(Inspect(command))
    case _ => if reply.Accepted? then Continue(Inspect(command)) else Stop
  }

  // ----- how a cell moves -----------------------------------------------------------------

  /** A cell after a segment, and the event the segment logs, if any. */
  datatype Outcome = Outcome(cell: Cell, event: Option<Event>)

  function Quiet(cell: Cell): Outcome {
    Outcome(cell, None)
  }

  /** The repository moves a journal only from the status it is expected in. */
  function MoveJournal(key: Key, cell: Cell, expected: set<Status>, to: Status, after: Option<Snapshot>): Outcome {
    if cell.journal.None? || cell.journal.value.status !in expected
       || !MayMove(cell.journal.value.status, to) then Quiet(cell)
    else
      var j := cell.journal.value;
      Outcome(cell.(journal := Some(j.(status := to, after := if after.Some? then after else j.after))),
              Some(Moved(key, j.status, to, after)))
  }

  function Carry(key: Key, cell: Cell, run: Run, d: Decision): Outcome {
    var ended := cell.(run := None);
    match d
    case Stop => Quiet(ended)
    case Continue(pc) => Quiet(cell.(run := Some(run.(pc := pc, answer := None))))
    case Record(before, pc) =>
      if cell.journal.Some? then Quiet(ended)
      else
        Outcome(cell.(journal := Some(Journal(run.request, IntentRecorded, before, None)),
          run := Some(run.(pc := pc, answer := None))),
                Some(Recorded(key, run.request, before)))
    case Confirm(after) => MoveJournal(key, ended, {IntentRecorded}, Applied, Some(after))
    case Quarantine(expected) => MoveJournal(key, ended, expected, ReconcileRequired, None)
  }

  /** Taking the lock and loading the journal. */
  function Enter(key: Key, cell: Cell, request: Request): Outcome {
    var idle := Outcome(cell, Some(Began(key)));
    if cell.journal.None? then Outcome(cell.(run := Some(Run(request, None, Look, None))), Some(Began(key)))
    else
      var j := cell.journal.value;
      if j.request != request then idle
      else if j.status.Applied? then Outcome(cell.(run := Some(Run(request, Some(j), Verify, None))), Some(Began(key)))
      else if j.status.IntentRecorded? then
        Outcome(cell.(run := Some(Run(request, Some(j), Look, None))), Some(Began(key)))
      else idle
  }

  predicate AwaitsAnswer(run: Run) {
    run.answer.None? && (run.pc.Verify? || run.pc.Look? || run.pc.Inspect? || run.pc.Poll?)
  }

  /** The torrent a reconciliation has to see, if the journal allows one at all. */
  function ReconcileTarget(kind: Kind, j: Journal): Option<Hash> {
    if kind.Remove? then None
    else if j.after.Some? then
      var after := j.after.value;
      if && after.Present? && after.path == j.request.path && after.tag == j.request.tag && j.request.tag in after.tags
         && (if kind.Add? then j.before.Absent? && after.hash in j.before.checked else [after.hash] == j.request.hashes)
      then Some(after.hash)
      else None
    else if kind.Add? && j.before == Absent(j.request.hashes) && |j.request.hashes| == 1 then Some(j.request.hashes[0])
    else None
  }

  function EnterReconciliation(key: Key, cell: Cell, replayAllowed: bool): Outcome {
    if cell.journal.None? then Quiet(cell)
    else
      var j := cell.journal.value;
      if !(j.status.ReconcileRequired? || (j.status.Applied? && replayAllowed)) then Quiet(cell)
      else
        var target := ReconcileTarget(key.kind, j);
        if target.None? then Quiet(cell)
        else Quiet(cell.(reconciliation := Some(Reconciliation(j, target.value, None))))
  }

  predicate SoleTarget(r: Reconciliation, seen: seq<Sighting>) {
    && |seen| == 1
    && seen[0].hash == r.target
    && seen[0].torrent.path == r.loaded.request.path
    && r.loaded.request.tag in seen[0].torrent.tags
  }

  function Conclude(key: Key, cell: Cell, r: Reconciliation, seen: seq<Sighting>): Outcome {
    var ended := cell.(reconciliation := None);
    if !(SoleTarget(r, seen) && ReconciledPostcondition(key.kind, seen[0].torrent)) then Quiet(ended)
    else if !r.loaded.status.ReconcileRequired? || cell.journal.None?
            || !cell.journal.value.status.ReconcileRequired? then Quiet(ended)
    else
      var proof := if r.loaded.after.Some? then r.loaded.after.value else SnapshotOf(seen[0], r.loaded.request.tag);
      Outcome(ended.(journal := Some(cell.journal.value.(status := Applied, after := Some(proof)))),
        Some(Restored(key, proof)))
  }

  datatype Act =
    | Begin(request: Request)
    | Receive(answer: Answer)
    | Resume
    | Transmit
    | Respond(reply: Reply)
    | Commit
    | Crash
    | BeginReconciliation(replayAllowed: bool)
    | ReceiveReconciliation(answer: Answer)
    | ResumeReconciliation
    | CrashReconciliation

  function Perform(key: Key, cell: Cell, act: Act): Outcome {
    match act
    case Begin(request) =>
      if cell.run.Some? || !Prepared(key, request) then Quiet(cell) else Enter(key, cell, request)
    case Receive(answer) =>
      if cell.run.None? || !AwaitsAnswer(cell.run.value) then Quiet(cell)
      else
        var run := cell.run.value;
        Outcome(cell.(run := Some(run.(answer := Some(answer)))),
                if answer.Returned? then Some(Observed(key, Observation(Asked(run), answer.sightings))) else None)
    case Resume =>
      if cell.run.None? || cell.run.value.answer.None? then Quiet(cell)
      else if cell.run.value.answer.value.Unreachable? then Quiet(cell.(run := None))
      else Carry(key, cell, cell.run.value, Decide(key.kind, cell.run.value, cell.run.value.answer.value.sightings))
    case Transmit =>
      if cell.run.None? || !cell.run.value.pc.Send? then Quiet(cell)
      else
        var run := cell.run.value;
        Outcome(cell.(run := Some(run.(pc := Await(run.pc.command)))), Some(Sent(key, run.pc.command)))
    case Respond(reply) =>
      if cell.run.None? || !cell.run.value.pc.Await? then Quiet(cell)
      else Carry(key, cell, cell.run.value, ReplyDecision(key.kind, cell.run.value.pc.command, reply))
    case Commit =>
      if cell.run.None? || !cell.run.value.pc.CommitNoop? then Quiet(cell)
      else MoveJournal(key, cell.(run := None), {IntentRecorded}, Noop, None)
    case Crash => Quiet(cell.(run := None))
    case BeginReconciliation(replayAllowed) =>
      if cell.reconciliation.Some? then Quiet(cell) else EnterReconciliation(key, cell, replayAllowed)
    case ReceiveReconciliation(answer) =>
      if cell.reconciliation.None? || cell.reconciliation.value.answer.Some? then Quiet(cell)
      else
        Outcome(cell.(reconciliation := Some(cell.reconciliation.value.(answer := Some(answer)))),
                if answer.Returned? then Some(Glimpsed(key, answer.sightings)) else None)
    case ResumeReconciliation =>
      if cell.reconciliation.None? || cell.reconciliation.value.answer.None? then Quiet(cell)
      else
        (match cell.reconciliation.value.answer.value
         case Unreachable => Quiet(cell.(reconciliation := None))
         case Returned(seen) => Conclude(key, cell, cell.reconciliation.value, seen))
    case CrashReconciliation => Quiet(cell.(reconciliation := None))
  }

  // ----- what holds of a cell -------------------------------------------------------------

  predicate Intending(run: Run, v: View) {
    v.journal.Some? && v.journal.value.status.IntentRecorded? && v.journal.value.request == run.request
  }

  predicate PcHolds(key: Key, run: Run, v: View) {
    match run.pc
    case Verify => v.polls.None? && PastIntent(v)
    case Look => v.polls.None? && v.journal == run.existing && (v.journal.Some? ==> Intending(run, v))
    case Send(command) =>
      && Intending(run, v) && BelongsTo(command, key.kind)
      && v.seen.Some? && Guarded(run.request, command, v.seen.value)
      && !(command.RecheckTorrent? && v.rechecked)
    case Await(command) =>
      && Intending(run, v) && BelongsTo(command, key.kind) && v.sent == Some(command)
      && v.polls == (if command.StopTorrent? then Some(0) else None)
      && (command.StopTorrent? || command.RecheckTorrent? ==> command.hash in run.request.hashes)
    case Inspect(command) =>
      && Intending(run, v) && v.sent == Some(command) && v.polls.None?
      && (key.kind.Recheck? ==> command.RecheckTorrent? && command.hash in run.request.hashes)
    case Poll(hash, attempt) =>
      && Intending(run, v) && (key.kind.Add? || key.kind.Remove?) && hash in run.request.hashes
      && attempt < STOP_CONFIRM_ATTEMPTS
      && v.polls == Some(if run.answer.Some? && run.answer.value.Returned? then attempt + 1 else attempt)
    case CommitNoop =>
      Intending(run, v) && key.kind.Remove? && v.journal.value.before.Absent?
        && v.seen == Some(Observation(run.request.hashes, []))
  }

  predicate RunHolds(key: Key, run: Run, v: View) {
    && Prepared(key, run.request)
    && (run.answer.Some? ==> run.pc.Verify? || run.pc.Look? || run.pc.Inspect? || run.pc.Poll?)
    && (run.answer.Some? && run.answer.value.Returned? ==>
         v.seen == Some(Observation(Asked(run), run.answer.value.sightings)))
    && PcHolds(key, run, v)
    && FoundAbsent(key, run, v)
  }

  /** Only the execution that recorded the intent of an absent torrent's removal is about to close
      it; any other execution that works on such an intent has found it recorded already. */
  predicate FoundAbsent(key: Key, run: Run, v: View) {
    key.kind.Remove? && v.journal.Some? && v.journal.value.before.Absent? ==> (v.recordedHere <==> run.pc.CommitNoop?)
  }

  predicate ProofHolds(request: Request, after: Snapshot) {
    && after.Present? && after.hash in request.hashes && after.path == request.path
    && after.tag == request.tag && request.tag in after.tags
  }

  predicate JournalHolds(key: Key, v: View) {
    if v.journal.None? then !v.rechecked
    else
      && Prepared(key, v.journal.value.request)
      && (key.kind.Add? ==> v.journal.value.before == Absent(v.journal.value.request.hashes))
      && (!key.kind.Remove? && v.journal.value.after.Some? ==>
           ProofHolds(v.journal.value.request, v.journal.value.after.value))
  }

  predicate ReconciliationHolds(key: Key, r: Reconciliation, v: View) {
    && Prepared(key, r.loaded.request)
    && (key.kind.Add? ==> r.loaded.before == Absent(r.loaded.request.hashes))
    && ReconcileTarget(key.kind, r.loaded) == Some(r.target)
    && v.journal.Some? && (r.loaded.status.ReconcileRequired? ==> v.journal.value == r.loaded)
    && (r.answer.Some? && r.answer.value.Returned? ==> v.glimpse == Some(r.answer.value.sightings))
  }

  predicate CellHolds(key: Key, cell: Cell, v: View) {
    && v.journal == cell.journal && JournalHolds(key, v)
    && (cell.run.Some? ==> RunHolds(key, cell.run.value, v))
    && (cell.reconciliation.Some? ==> ReconciliationHolds(key, cell.reconciliation.value, v))
  }

  // ----- every segment is allowed ---------------------------------------------------------

  /** What has to be shown of every segment. */
  predicate Fits(key: Key, v: View, o: Outcome) {
    if o.event.None? then CellHolds(key, o.cell, v)
    else o.event.value.key == key && Allowed(v, o.event.value) && CellHolds(key, o.cell, After(v, o.event.value))
  }

  lemma EnterFits(key: Key, cell: Cell, v: View, request: Request)
    requires CellHolds(key, cell, v) && cell.run.None? && Prepared(key, request)
    ensures Fits(key, v, Enter(key, cell, request))
  {
    hide ReconcileTarget;
  }

  lemma EndedHolds(key: Key, cell: Cell, v: View)
    requires CellHolds(key, cell, v)
    ensures CellHolds(key, cell.(run := None), v)
    ensures CellHolds(key, cell.(reconciliation := None), v)
  {
  }

  /** What a decision has to respect to be carried out. */
  predicate Sound(key: Key, run: Run, v: View, d: Decision) {
    match d
    case Stop => true
    case Continue(pc) => RunHolds(key, run.(pc := pc, answer := None), v)
    case Record(before, pc) =>
      v.journal.Some? || (MayRecord(key, v, run.request, before)
                          && RunHolds(key, run.(pc := pc, answer := None),
                               After(v, Recorded(key, run.request, before))))
    case Confirm(after) =>
      v.journal.Some? && v.journal.value.status.IntentRecorded? ==> Confirms(key, v, v.journal.value, after)
    case Quarantine(expected) => expected <= EITHER
  }

  lemma MovedHolds(key: Key, cell: Cell, v: View, from: Status, to: Status, after: Option<Snapshot>)
    requires CellHolds(key, cell, v) && cell.run.None? && MayMoveJournal(key, v, from, to, after)
    requires from in EITHER
    ensures Fits(key, v, MoveJournal(key, cell, {from}, to, after))
  {
    hide ReconcileTarget, Prepared;
  }

  lemma CarryFits(key: Key, cell: Cell, v: View, run: Run, d: Decision)
    requires CellHolds(key, cell, v) && cell.run == Some(run) && Sound(key, run, v, d)
    ensures Fits(key, v, Carry(key, cell, run, d))
  {
    hide Confirms, ReconcileTarget, Guarded;
    EndedHolds(key, cell, v);
    var ended := cell.(run := None);
    match d
    case Stop =>
    case Continue(_) =>
    case Record(_, _) =>
    case Confirm(after) =>
      if v.journal.Some? && v.journal.value.status.IntentRecorded? {
        MovedHolds(key, ended, v, IntentRecorded, Applied, Some(after));
      }
    case Quarantine(expected) =>
      if v.journal.Some? && v.journal.value.status in expected {
        MovedHolds(key, ended, v, v.journal.value.status, ReconcileRequired, None);
      }
  }

  lemma AddSound(key: Key, run: Run, v: View, seen: seq<Sighting>)
    requires key.kind.Add? && RunHolds(key, run, v) && JournalHolds(key, v) && run.answer == Some(Returned(seen))
    ensures Sound(key, run, v, AddDecision(run, seen))
  {
  }

  lemma RecheckSound(key: Key, run: Run, v: View, seen: seq<Sighting>)
    requires key.kind.Recheck? && RunHolds(key, run, v) && JournalHolds(key, v) && run.answer == Some(Returned(seen))
    ensures Sound(key, run, v, RecheckDecision(run, seen))
  {
  }

  lemma StartSound(key: Key, run: Run, v: View, seen: seq<Sighting>)
    requires key.kind.Start? && RunHolds(key, run, v) && JournalHolds(key, v) && run.answer == Some(Returned(seen))
    ensures Sound(key, run, v, StartDecision(run, seen))
  {
  }

  lemma RemoveSound(key: Key, run: Run, v: View, seen: seq<Sighting>)
    requires key.kind.Remove? && RunHolds(key, run, v) && JournalHolds(key, v) && run.answer == Some(Returned(seen))
    ensures Sound(key, run, v, RemoveDecision(run, seen))
  {
  }

  lemma ReplySound(key: Key, run: Run, v: View, reply: Reply)
    requires RunHolds(key, run, v) && run.pc.Await?
    ensures Sound(key, run, v, ReplyDecision(key.kind, run.pc.command, reply))
  {
  }

  lemma ConcludeFits(key: Key, cell: Cell, v: View, r: Reconciliation, seen: seq<Sighting>)
    requires CellHolds(key, cell, v) && cell.reconciliation == Some(r) && r.answer == Some(Returned(seen))
    ensures Fits(key, v, Conclude(key, cell, r, seen))
  {
  }

  lemma ReceiveFits(key: Key, cell: Cell, v: View, run: Run, answer: Answer)
    requires CellHolds(key, cell, v) && cell.run == Some(run) && AwaitsAnswer(run)
    ensures Fits(key, v, Perform(key, cell, Receive(answer)))
  {
    hide Confirms, ReconcileTarget, Guarded, Prepared;
  }

  lemma TransmitFits(key: Key, cell: Cell, v: View, run: Run)
    requires CellHolds(key, cell, v) && cell.run == Some(run) && run.pc.Send?
    ensures Fits(key, v, Perform(key, cell, Transmit))
  {
    hide ReconcileTarget, Prepared;
  }

  lemma CommitFits(key: Key, cell: Cell, v: View, run: Run)
    requires CellHolds(key, cell, v) && cell.run == Some(run) && run.pc.CommitNoop?
    ensures Fits(key, v, Perform(key, cell, Commit))
  {
    EndedHolds(key, cell, v);
    MovedHolds(key, cell.(run := None), v, IntentRecorded, Noop, None);
  }

  lemma ResumeFits(key: Key, cell: Cell, v: View, run: Run, seen: seq<Sighting>)
    requires CellHolds(key, cell, v) && cell.run == Some(run) && run.answer == Some(Returned(seen))
    ensures Fits(key, v, Carry(key, cell, run, Decide(key.kind, run, seen)))
  {
    hide RunHolds, JournalHolds, ReconciliationHolds, AddDecision, RecheckDecision, StartDecision, RemoveDecision;
    hide Carry, Sound, Fits;
    match key.kind {
      case Add => AddSound(key, run, v, seen);
      case Recheck => RecheckSound(key, run, v, seen);
      case Start => StartSound(key, run, v, seen);
      case Remove => RemoveSound(key, run, v, seen);
    }
    CarryFits(key, cell, v, run, Decide(key.kind, run, seen));
  }

  lemma ReconcilerFits(key: Key, cell: Cell, v: View, act: Act)
    requires CellHolds(key, cell, v)
    requires act.BeginReconciliation? || act.ReceiveReconciliation? || act.CrashReconciliation?
    ensures Fits(key, v, Perform(key, cell, act))
  {
    hide Confirms, Guarded, MayRecord;
  }

  /** Whatever is done with a key, the one event it logs is allowed and the cell stays sound. */
  lemma PerformFits(key: Key, cell: Cell, v: View, act: Act)
    requires CellHolds(key, cell, v)
    ensures Fits(key, v, Perform(key, cell, act))
  {
    hide JournalHolds, RunHolds, ReconciliationHolds, Enter, Carry, Decide, ReplyDecision, Conclude;
    hide EnterReconciliation, MoveJournal, Allowed;
    EndedHolds(key, cell, v);
    match act
    case Begin(request) =>
      if cell.run.None? && Prepared(key, request) {
        EnterFits(key, cell, v, request);
      }
    case Receive(answer) =>
      if cell.run.Some? && AwaitsAnswer(cell.run.value) {
        ReceiveFits(key, cell, v, cell.run.value, answer);
      }
    case Resume =>
      if cell.run.Some? && cell.run.value.answer.Some? && cell.run.value.answer.value.Returned? {
        ResumeFits(key, cell, v, cell.run.value, cell.run.value.answer.value.sightings);
      }
    case Transmit =>
      if cell.run.Some? && cell.run.value.pc.Send? {
        TransmitFits(key, cell, v, cell.run.value);
      }
    case Respond(reply) =>
      if cell.run.Some? && cell.run.value.pc.Await? {
        RespondFits(key, cell, v, cell.run.value, reply);
      }
    case Commit =>
      if cell.run.Some? && cell.run.value.pc.CommitNoop? {
        CommitFits(key, cell, v, cell.run.value);
      }
    case Crash =>
    case ResumeReconciliation =>
      if cell.reconciliation.Some? && cell.reconciliation.value.answer.Some?
         && cell.reconciliation.value.answer.value.Returned? {
        ConcludeFits(key, cell, v, cell.reconciliation.value, cell.reconciliation.value.answer.value.sightings);
      }
    case _ => ReconcilerFits(key, cell, v, act);
  }

  lemma RespondFits(key: Key, cell: Cell, v: View, run: Run, reply: Reply)
    requires CellHolds(key, cell, v) && cell.run == Some(run) && run.pc.Await?
    ensures Fits(key, v, Carry(key, cell, run, ReplyDecision(key.kind, run.pc.command, reply)))
  {
    hide JournalHolds, ReconciliationHolds, Carry, Sound, Fits, ReplyDecision;
    ReplySound(key, run, v, reply);
    CarryFits(key, cell, v, run, ReplyDecision(key.kind, run.pc.command, reply));
  }

  // ----- the whole system -----------------------------------------------------------------

  datatype State = State(
    cells: map<Key, Cell>,
    clients: map<DownloaderId, Client>,
    authorized: set<(Key, Request)>,
    log: Log)
  {
    function CellOf(key: Key): Cell {
      if key in cells then cells[key] else BLANK
    }

    function ClientOf(downloader: DownloaderId): Client {
      if downloader in clients then clients[downloader] else map[]
    }
  }

  datatype Label =
    | Do(key: Key, act: Act)
    | Authorize(key: Key, request: Request, add: Key)
    | Outside(downloader: DownloaderId, client: Client)

  /** A reply lists each torrent that was asked for and is there, as it is, once. */
  ghost predicate Lists(seen: seq<Sighting>, client: Client, asked: seq<Hash>) {
    && (forall i :: 0 <= i < |seen| ==>
         seen[i].hash in asked && seen[i].hash in client && seen[i].torrent == client[seen[i].hash])
    && (forall i, j :: 0 <= i < j < |seen| ==> seen[i].hash != seen[j].hash)
    && (forall hash :: hash in asked && hash in client ==> Sighting(hash, client[hash]) in seen)
  }

  /** What outsiders and the client itself may do: anything, except to tag a torrent as an add's
      that this add, once sent, did not create. */
  ghost predicate HonestClient(log: Log, client: Client) {
    forall hash :: hash in client ==>
      && (forall key :: Owned(key) in client[hash].tags ==> client[hash].origin == ByAdd(key))
      && (client[hash].origin.ByAdd? ==> AddSent(log, client[hash].origin.key))
  }

  /** Only an APPLIED add of the same task, plan and downloader authorises a removal. */
  predicate AddAuthorizes(s: State, key: Key, request: Request, add: Key) {
    && key.kind.Remove? && Prepared(key, request)
    && add.kind.Add? && add.downloader == key.downloader
    && s.CellOf(add).journal.Some?
    && var j := s.CellOf(add).journal.value;
       && j.status.Applied? && j.request.task == request.task && j.request.plan == request.plan
       && j.after.Some? && j.after.value.Present?
       && [j.after.value.hash] == request.hashes && j.after.value.path == request.path
       && j.after.value.tag == request.tag
  }

  ghost predicate Enabled(s: State, step: Label) {
    match step
    case Authorize(key, request, add) => AddAuthorizes(s, key, request, add)
    case Outside(_, client) => HonestClient(s.log, client)
    case Do(key, act) =>
      var cell := s.CellOf(key);
      match act
      case Begin(request) => key.kind.Remove? ==> (key, request) in s.authorized
      case Receive(answer) =>
        answer.Returned? ==>
          cell.run.Some? && Lists(answer.sightings, s.ClientOf(key.downloader), Asked(cell.run.value))
      case ReceiveReconciliation(answer) =>
        answer.Returned? ==>
          cell.reconciliation.Some?
            && Lists(answer.sightings, s.ClientOf(key.downloader), [cell.reconciliation.value.target])
      case _ => true
  }

  /** A label that is not enabled leaves the state as it is. */
  ghost function Step(s: State, step: Label): State {
    if !Enabled(s, step) then s
    else
      match step
      case Authorize(key, request, _) => s.(authorized := s.authorized + {(key, request)})
      case Outside(downloader, client) => s.(clients := s.clients[downloader := client])
      case Do(key, act) =>
        var o := Perform(key, s.CellOf(key), act);
        s.(cells := s.cells[key := o.cell], log := if o.event.Some? then s.log + [o.event.value] else s.log)
  }

  ghost function Execute(s: State, labels: seq<Label>): State {
    if labels == [] then s else Step(Execute(s, labels[..|labels| - 1]), labels[|labels| - 1])
  }

  /** An empty journal store, and a client in which no torrent is an add's. */
  ghost predicate Initial(s: State) {
    && s.cells == map[] && s.authorized == {} && s.log == []
    && forall downloader :: downloader in s.clients ==> HonestClient([], s.clients[downloader])
  }

  ghost predicate Invariant(s: State) {
    && Disciplined(s.log)
    && Honest(s.log)
    && (forall downloader :: downloader in s.clients ==> HonestClient(s.log, s.clients[downloader]))
    && (forall key :: CellHolds(key, s.CellOf(key), ViewOf(s.log, key)))
    && (forall key, request :: (key, request) in s.authorized ==> AuthorizedBy(s.log, key, request))
    && (forall key: Key :: key.kind.Remove? && s.CellOf(key).run.Some? ==>
         (key, s.CellOf(key).run.value.request) in s.authorized)
    && RemovalsAuthorized(s.log)
  }

  // ----- the invariant holds over every run -----------------------------------------------

  lemma AddSentKept(log: Log, e: Event, key: Key)
    requires AddSent(log, key)
    ensures AddSent(log + [e], key)
  {
    var i :| 0 <= i < |log| && log[i] == Sent(key, AddTorrent);
    assert (log + [e])[i] == log[i];
  }

  lemma HonestClientKept(log: Log, e: Event, client: Client)
    requires HonestClient(log, client)
    ensures HonestClient(log + [e], client)
  {
    hide AddSent;
    forall key | AddSent(log, key) ensures AddSent(log + [e], key) {
      AddSentKept(log, e, key);
    }
  }

  /** What an event shows is honest when what the client holds is. */
  lemma HonestStep(log: Log, e: Event)
    requires Honest(log)
    requires forall s, key :: Saw(e, s) && Owned(key) in s.torrent.tags ==>
      s.torrent.origin == ByAdd(key) && AddSent(log, key)
    ensures Honest(log + [e])
  {
    hide AddSent;
    var next := log + [e];
    forall i, s, key | 0 <= i < |next| && Saw(next[i], s) && Owned(key) in s.torrent.tags
      ensures s.torrent.origin == ByAdd(key) && AddSent(next[..i], key)
    {
      if i < |log| {
        assert next[i] == log[i] && next[..i] == log[..i];
      } else {
        assert next[..i] == log;
      }
    }
  }

  /** A reply of an honest client shows only honest torrents. */
  lemma ListedIsHonest(log: Log, client: Client, seen: seq<Sighting>, asked: seq<Hash>, s: Sighting, key: Key)
    requires HonestClient(log, client) && Lists(seen, client, asked) && s in seen && Owned(key) in s.torrent.tags
    ensures s.torrent.origin == ByAdd(key) && AddSent(log, key)
  {
    assert client[s.hash] == s.torrent;
  }

  lemma NoClientIsHonest(log: Log)
    ensures HonestClient(log, map[])
  {
  }

  lemma EventIsHonest(s: State, key: Key, act: Act)
    requires Invariant(s) && Enabled(s, Do(key, act))
    ensures var o := Perform(key, s.CellOf(key), act);
            o.event.Some? ==> forall x, k :: Saw(o.event.value, x) && Owned(k) in x.torrent.tags ==>
              x.torrent.origin == ByAdd(k) && AddSent(s.log, k)
  {
    hide Disciplined, Honest, AddSent, CellHolds, Carry, Enter, Conclude, MoveJournal, RemovalsAuthorized;
    hide AuthorizedBy, HonestClient, Lists;
    var o := Perform(key, s.CellOf(key), act);
    OnlyRepliesShow(key, s.CellOf(key), act);
    NoClientIsHonest(s.log);
    assert HonestClient(s.log, s.ClientOf(key.downloader));
    if o.event.Some? {
      forall x, k | Saw(o.event.value, x) && Owned(k) in x.torrent.tags
        ensures x.torrent.origin == ByAdd(k) && AddSent(s.log, k)
      {
        match act
        case Receive(answer) =>
          ListedIsHonest(s.log, s.ClientOf(key.downloader), answer.sightings, Asked(s.CellOf(key).run.value), x, k);
        case ReceiveReconciliation(answer) =>
          ListedIsHonest(s.log, s.ClientOf(key.downloader), answer.sightings,
            [s.CellOf(key).reconciliation.value.target], x, k);
        case _ =>
          assert false;
      }
    }
  }

  lemma OnlyRepliesShow(key: Key, cell: Cell, act: Act)
    ensures var o := Perform(key, cell, act);
            o.event.Some? && (exists x :: Saw(o.event.value, x)) ==>
              match act
              case Receive(answer) => answer.Returned?
                && o.event == Some(Observed(key, Observation(Asked(cell.run.value), answer.sightings)))
              case ReceiveReconciliation(answer) => answer.Returned? && o.event == Some(Glimpsed(key, answer.sightings))
              case _ => false
  {
    hide Decide, ReplyDecision;
  }

  lemma RequestsComeFromRuns(key: Key, cell: Cell, act: Act)
    ensures var o := Perform(key, cell, act);
            && (o.cell.run.Some? ==>
                  if act.Begin? && cell.run.None? then o.cell.run.value.request == act.request
                  else cell.run.Some? && o.cell.run.value.request == cell.run.value.request)
            && (o.event.Some? && o.event.value.Recorded? ==>
                  o.event.value.key == key && cell.run.Some? && o.event.value.request == cell.run.value.request)
  {
    hide Decide, ReplyDecision, ReconcileTarget;
  }

  lemma AuthorizedKept(log: Log, e: Event, key: Key, request: Request)
    requires AuthorizedBy(log, key, request)
    ensures AuthorizedBy(log + [e], key, request)
  {
    var j: nat, recorded: nat, add :| Authorizes(log, j, recorded, add, key, request);
    assert (log + [e])[j] == log[j] && (log + [e])[recorded] == log[recorded];
    assert Authorizes(log + [e], j, recorded, add, key, request);
  }

  lemma AuthorizationIsEarned(s: State, key: Key, request: Request, add: Key)
    requires Invariant(s) && AddAuthorizes(s, key, request, add)
    ensures AuthorizedBy(s.log, key, request)
  {
    hide Disciplined, Honest, RemovalsAuthorized, ViewOf, AuthorizedBy, ReconciliationHolds, RunHolds;
    assert CellHolds(add, s.CellOf(add), ViewOf(s.log, add));
    assert s.log[..|s.log|] == s.log;
    var i := ProofWasApplied(s.log, |s.log|, add);
    assert request.tag == Owned(add);
    var recorded := JournalWasRecorded(s.log, add);
    WitnessAuthorization(s.log, i, recorded, add, key, request);
  }

  lemma WitnessAuthorization(log: Log, i: nat, recorded: nat, add: Key, key: Key, request: Request)
    requires Authorizes(log, i, recorded, add, key, request)
    ensures AuthorizedBy(log, key, request)
  {
  }

  lemma RemovalsAuthorizedStep(log: Log, e: Event)
    requires RemovalsAuthorized(log)
    requires e.Recorded? && e.key.kind.Remove? ==> AuthorizedBy(log, e.key, e.request)
    ensures RemovalsAuthorized(log + [e])
  {
    hide AuthorizedBy;
    var next := log + [e];
    forall i | 0 <= i < |next| && next[i].Recorded? && next[i].key.kind.Remove?
      ensures AuthorizedBy(next[..i], next[i].key, next[i].request)
    {
      assert next[..i] == if i < |log| then log[..i] else log;
    }
  }

  /** Everything about the log that an event may endanger. */
  lemma EventKept(s: State, e: Event)
    requires Invariant(s) && Allowed(ViewOf(s.log, e.key), e)
    requires forall x, k :: Saw(e, x) && Owned(k) in x.torrent.tags ==>
      x.torrent.origin == ByAdd(k) && AddSent(s.log, k)
    requires e.Recorded? && e.key.kind.Remove? ==> AuthorizedBy(s.log, e.key, e.request)
    ensures Disciplined(s.log + [e]) && Honest(s.log + [e]) && RemovalsAuthorized(s.log + [e])
    ensures forall downloader :: downloader in s.clients ==> HonestClient(s.log + [e], s.clients[downloader])
    ensures forall key, request :: (key, request) in s.authorized ==> AuthorizedBy(s.log + [e], key, request)
    ensures forall key ::
      ViewOf(s.log + [e], key) == if e.key == key then After(ViewOf(s.log, key), e) else ViewOf(s.log, key)
  {
    hide Disciplined, Honest, RemovalsAuthorized, HonestClient, AuthorizedBy, ViewOf, CellHolds, Allowed, AddSent;
    DisciplinedStep(s.log, e);
    HonestStep(s.log, e);
    RemovalsAuthorizedStep(s.log, e);
    forall downloader | downloader in s.clients ensures HonestClient(s.log + [e], s.clients[downloader]) {
      HonestClientKept(s.log, e, s.clients[downloader]);
    }
    forall key, request | (key, request) in s.authorized ensures AuthorizedBy(s.log + [e], key, request) {
      AuthorizedKept(s.log, e, key, request);
    }
    forall key ensures ViewOf(s.log + [e], key) == if e.key == key then After(ViewOf(s.log, key), e)
      else ViewOf(s.log, key) {
      ViewStep(s.log, e, key);
    }
  }

  lemma DoKept(s: State, key: Key, act: Act)
    requires Invariant(s) && Enabled(s, Do(key, act))
    ensures Invariant(Step(s, Do(key, act)))
  {
    hide Disciplined, Honest, RemovalsAuthorized, HonestClient, AuthorizedBy, ViewOf, CellHolds, Allowed, Perform;
    hide AddSent;
    var cell := s.CellOf(key);
    var o := Perform(key, cell, act);
    PerformFits(key, cell, ViewOf(s.log, key), act);
    EventIsHonest(s, key, act);
    RequestsComeFromRuns(key, cell, act);
    if o.event.Some? {
      EventKept(s, o.event.value);
    }
  }

  lemma StepKept(s: State, step: Label)
    requires Invariant(s)
    ensures Invariant(Step(s, step))
  {
    if Enabled(s, step) {
      match step
      case Do(key, act) => DoKept(s, key, act);
      case Authorize(key, request, add) => AuthorizationIsEarned(s, key, request, add);
      case Outside(_, _) =>
    }
  }

  lemma InitiallyHolds(s: State)
    requires Initial(s)
    ensures Invariant(s)
  {
  }

  lemma {:induction false} InvariantHolds(s: State, labels: seq<Label>)
    requires Initial(s)
    ensures Invariant(Execute(s, labels))
  {
    hide Invariant, Step;
    if labels == [] {
      InitiallyHolds(s);
    } else {
      InvariantHolds(s, labels[..|labels| - 1]);
      StepKept(Execute(s, labels[..|labels| - 1]), labels[|labels| - 1]);
    }
  }

  // ----- what that means for every run ----------------------------------------------------

  ghost predicate SilentAfterIntent(log: Log) {
    forall i: nat, j: nat, key ::
      LeftIntentAt(log, i, key) && i < j < |log| && log[j].key == key ==>
        !log[j].Sent? && !log[j].Recorded? && (log[j].Moved? ==> !log[j].to.IntentRecorded?)
  }

  predicate IsRecheck(e: Event) {
    e.Sent? && e.command.RecheckTorrent?
  }

  ghost predicate RechecksOnce(log: Log) {
    forall i, j :: 0 <= i < j < |log| && IsRecheck(log[i]) && IsRecheck(log[j]) ==> log[i].key != log[j].key
  }

  /** The command at `j` follows its intent and rests on the last observation of its run. */
  ghost predicate RestsOn(log: Log, j: nat, recorded: nat, observed: nat) {
    && recorded < j < |log| && log[j].Sent? && log[recorded].Recorded? && log[recorded].key == log[j].key
    && observed < j && log[observed].Observed?
    && LastObserved(log[..j], log[j].key, observed, log[observed].observation)
    && Guarded(log[recorded].request, log[j].command, log[observed].observation)
  }

  ghost predicate CommandsGuarded(log: Log) {
    forall j: nat :: j < |log| && log[j].Sent? ==>
      exists recorded: nat, observed: nat :: RestsOn(log, j, recorded, observed)
  }

  ghost predicate StopsConfirmedQuickly(log: Log) {
    forall key, i: nat :: StopUnderWay(log, key, i) ==> ObservationsAfter(log, key, i) <= STOP_CONFIRM_ATTEMPTS
  }

  /** The torrent that let the add become APPLIED at `j`. */
  ghost predicate AdoptsOwn(log: Log, j: nat, key: Key, absent: nat, recorded: nat, sent: nat, seen: nat, s: Sighting) {
    && absent < recorded < sent < seen < j < |log|
    && log[recorded].Recorded? && log[recorded].key == key && log[sent] == Sent(key, AddTorrent)
    && LastObserved(log[..recorded], key, absent, Observation(log[recorded].request.hashes, []))
    && SawAt(log, seen, s) && log[seen].key == key && s.torrent.origin == ByAdd(key) && s.torrent.Stopped()
    && s.hash in log[recorded].request.hashes && s.torrent.path == log[recorded].request.path
  }

  ghost predicate AdoptsOnlyOwn(log: Log) {
    forall j: nat, key ::
      AppliedAt(log, j, key) && key.kind.Add? ==>
        exists absent: nat, recorded: nat, sent: nat, seen: nat, s ::
          AdoptsOwn(log, j, key, absent, recorded, sent, seen, s)
  }

  ghost predicate UnprovedStaysUnproved(log: Log) {
    forall i: nat, j: nat, key ::
      QuarantinedUnproved(log, i, key) && (key.kind.Recheck? || key.kind.Start?) && i < j < |log| ==>
        !AppliedAt(log, j, key)
  }

  ghost predicate NoopsAreUninterrupted(log: Log) {
    forall key: Key, recorded: nat, j: nat ::
      key.kind.Remove? && recorded < |log| && log[recorded].Recorded? && log[recorded].key == key
        && log[recorded].before.Absent?
      && LeftIntentAt(log, j, key) && !log[j].to.ReconcileRequired? ==>
        recorded < j && (log[j].to.Noop? <==> !BeganBetween(log, key, recorded, j))
  }

  ghost predicate RemovalsSawAbsence(log: Log) {
    forall j: nat, key :: RemovalConfirmedAt(log, j, key) ==>
      exists recorded: nat, seen: nat :: SawAbsent(log, j, key, recorded, seen)
  }

  ghost predicate RemovesOnlyOwn(log: Log) {
    forall j: nat :: j < |log| && log[j].Sent? && log[j].command.RemoveTorrent? ==>
      exists add, seen: nat :: RemovesOwn(log, j, add, seen)
  }

  /** For any labels whatever, from an empty journal store: whichever executions, retries,
      crashes, lost responses, reconciliations and outside changes they stand for. */
  lemma EveryRunIsSafe(s: State, labels: seq<Label>)
    requires Initial(s)
    ensures var log := Execute(s, labels).log;
            && SilentAfterIntent(log) && RechecksOnce(log) && CommandsGuarded(log) && StopsConfirmedQuickly(log)
            && AdoptsOnlyOwn(log) && UnprovedStaysUnproved(log) && RemovesOnlyOwn(log) && RemovalsSawAbsence(log)
            && NoopsAreUninterrupted(log) && RemovalsAuthorized(log)
  {
    InvariantHolds(s, labels);
    SafeLog(Execute(s, labels).log);
  }

  lemma SafeLog(log: Log)
    requires Disciplined(log) && Honest(log) && RemovalsAuthorized(log)
    ensures SilentAfterIntent(log) && RechecksOnce(log) && CommandsGuarded(log) && StopsConfirmedQuickly(log)
    ensures AdoptsOnlyOwn(log) && UnprovedStaysUnproved(log) && RemovesOnlyOwn(log) && RemovalsSawAbsence(log)
    ensures NoopsAreUninterrupted(log)
  {
    hide Disciplined, Honest, RemovalsAuthorized, ViewOf, ObservationsAfter, Guarded, LastObserved, SawAt;
    forall i: nat, j: nat, key | LeftIntentAt(log, i, key) && i < j < |log| && log[j].key == key
      ensures !log[j].Sent? && !log[j].Recorded? && (log[j].Moved? ==> !log[j].to.IntentRecorded?)
    {
      SilenceAfterIntent(log, i, key, j);
    }
    forall i, j | 0 <= i < j < |log| && IsRecheck(log[i]) && IsRecheck(log[j]) ensures log[i].key != log[j].key {
      if log[i].key == log[j].key {
        AtMostOneRecheck(log, i, j);
      }
    }
    forall j: nat | j < |log| && log[j].Sent?
      ensures exists recorded: nat, observed: nat :: RestsOn(log, j, recorded, observed)
    {
      var recorded, observed := CommandsAreGuarded(log, j);
      assert RestsOn(log, j, recorded, observed);
    }
    forall key, i: nat | StopUnderWay(log, key, i) ensures ObservationsAfter(log, key, i) <= STOP_CONFIRM_ATTEMPTS {
      StopConfirmationIsBounded(log, key, i);
    }
    forall j: nat, key | AppliedAt(log, j, key) && key.kind.Add?
      ensures exists absent: nat, recorded: nat, sent: nat, seen: nat, s ::
        AdoptsOwn(log, j, key, absent, recorded, sent, seen, s)
    {
      var absent, recorded, sent, seen, s := NoForeignAdoption(log, j, key);
      assert AdoptsOwn(log, j, key, absent, recorded, sent, seen, s);
    }
    forall i: nat, j: nat, key | QuarantinedUnproved(log, i, key) && (key.kind.Recheck? || key.kind.Start?)
      && i < j < |log|
      ensures !AppliedAt(log, j, key)
    {
      UnprovedIsNeverApplied(log, i, key, j);
    }
    forall j: nat | j < |log| && log[j].Sent? && log[j].command.RemoveTorrent?
      ensures exists add, seen: nat :: RemovesOwn(log, j, add, seen)
    {
      var add, seen := RemovalsActOnOwnTorrents(log, j);
    }
    forall j: nat, key | RemovalConfirmedAt(log, j, key)
      ensures exists recorded: nat, seen: nat :: SawAbsent(log, j, key, recorded, seen)
    {
      var recorded, seen := RemovalMeansSeenAbsent(log, j, key);
    }
    forall key: Key, recorded: nat, j: nat |
      key.kind.Remove? && recorded < |log| && log[recorded].Recorded? && log[recorded].key == key
        && log[recorded].before.Absent?
      && LeftIntentAt(log, j, key) && !log[j].to.ReconcileRequired?
      ensures recorded < j && (log[j].to.Noop? <==> !BeganBetween(log, key, recorded, j))
    {
      NoopIffUninterrupted(log, key, recorded, j);
    }
  }

  // ----- what a look settles --------------------------------------------------------------

  /** The status of an intent after an execution has looked at the client: proved effects are
      APPLIED, sights that nothing explains are quarantined, and the rest stays open. */
  function Settled(key: Key, run: Run, seen: seq<Sighting>): Status {
    if seen == [] then
      match key.kind
      case Add => if run.pc.Poll? then ReconcileRequired else IntentRecorded
      case Remove => Applied
      case _ => ReconcileRequired
    else if !SoleOwned(run.request, seen) then ReconcileRequired
    else
      var t := seen[0].torrent;
      match key.kind
      case Add =>
        if t.Stopped() then Applied
        else if run.pc.Poll? && run.pc.attempt + 1 == STOP_CONFIRM_ATTEMPTS then ReconcileRequired
        else IntentRecorded
      case Recheck =>
        if run.pc.Inspect? || (run.existing.Some? && ProvesRechecked(run.existing.value.before, t)) then Applied
          else ReconcileRequired
      case Start =>
        if t.Seeding() then Applied else if t.VerificationComplete() then IntentRecorded else ReconcileRequired
      case Remove => IntentRecorded
  }

  lemma LookSettlesIntent(key: Key, cell: Cell, v: View, run: Run, seen: seq<Sighting>)
    requires CellHolds(key, cell, v) && cell.run == Some(run) && run.answer == Some(Returned(seen))
    requires cell.journal.Some? && cell.journal.value.status.IntentRecorded?
    requires Observable(run, seen)
    ensures Perform(key, cell, Resume).cell.journal.Some?
    ensures Perform(key, cell, Resume).cell.journal.value.status == Settled(key, run, seen)
  {
    hide Guarded;
  }

  /** A reply names only hashes that were asked for. */
  predicate Observable(run: Run, seen: seq<Sighting>) {
    forall i :: 0 <= i < |seen| ==> seen[i].hash in Asked(run)
  }

  /** An APPLIED journal stays so exactly when its effect can still be seen. */
  predicate StillHolds(kind: Kind, j: Journal, seen: seq<Sighting>) {
    match kind
    case Add => SoleOwned(j.request, seen) && seen[0].torrent.Stopped() && j.after.Some? && j.after.value.Present?
      && seen[0].hash == j.after.value.hash
    case Recheck => SoleOwned(j.request, seen)
    case Start => SoleOwned(j.request, seen) && seen[0].torrent.Seeding()
    case Remove => seen == []
  }

  lemma VerificationQuarantines(key: Key, cell: Cell, v: View, run: Run, seen: seq<Sighting>)
    requires CellHolds(key, cell, v) && cell.run == Some(run) && run.answer == Some(Returned(seen)) && run.pc.Verify?
    requires cell.journal.Some? && run.existing == cell.journal && run.request == cell.journal.value.request
    requires cell.journal.value.status.Applied? && cell.journal.value.after.Some?
    ensures var after := Perform(key, cell, Resume).cell;
            after.run.None? && after.journal.Some?
            && after.journal.value.status == if StillHolds(key.kind, cell.journal.value, seen) then Applied
                 else ReconcileRequired
  {
    hide Guarded;
  }

  /** A reconciliation sends nothing, records no intent, and leaves the execution alone; it
      changes a journal only by restoring it. */
  lemma ReconcilerOnlyReads(key: Key, cell: Cell, act: Act)
    requires act.BeginReconciliation? || act.ReceiveReconciliation? || act.ResumeReconciliation?
             || act.CrashReconciliation?
    ensures var o := Perform(key, cell, act);
            && o.cell.run == cell.run
            && (o.event.Some? ==> o.event.value.Glimpsed? || o.event.value.Restored?)
            && (o.cell.journal != cell.journal ==>
                  o.event.Some? && o.event.value.Restored? && cell.journal.Some?
                    && cell.journal.value.status.ReconcileRequired?)
  {
    hide ReconcileTarget, SoleTarget, ReconciledPostcondition;
  }

  /** Left to itself, the reconciler restores a quarantined journal exactly when what it sees
      allows it. */
  lemma ReconcilerRestoresExactly(key: Key, cell: Cell, v: View, seen: seq<Sighting>)
    requires CellHolds(key, cell, v) && cell.reconciliation.None?
    requires cell.journal.Some? && cell.journal.value.status.ReconcileRequired?
    ensures var acts := [BeginReconciliation(false), ReceiveReconciliation(Returned(seen)), ResumeReconciliation];
            Acts(key, cell, acts).0.journal.Some?
            && (Acts(key, cell, acts).0.journal.value.status.Applied? <==>
                  exists proof :: MayRestore(key, v.(glimpse := Some(seen)), proof))
  {
    hide Acts, CellHolds, EnterReconciliation, Conclude;
    var acts := [BeginReconciliation(false), ReceiveReconciliation(Returned(seen)), ResumeReconciliation];
    var c1 := EnterReconciliation(key, cell, false).cell;
    ActsStep(key, cell, acts);
    ActsStep(key, c1, acts[1..]);
    var c2 := Perform(key, c1, ReceiveReconciliation(Returned(seen))).cell;
    ActsStep(key, c2, acts[2..]);
    var c3 := Perform(key, c2, ResumeReconciliation).cell;
    NoActs(key, c3);
    assert acts[1..][1..] == acts[2..] && acts[2..][1..] == [];
    RestoredExactly(key, cell, v, seen);
  }

  lemma RestoredExactly(key: Key, cell: Cell, v: View, seen: seq<Sighting>)
    requires CellHolds(key, cell, v) && cell.reconciliation.None?
    requires cell.journal.Some? && cell.journal.value.status.ReconcileRequired?
    ensures var c1 := Perform(key, cell, BeginReconciliation(false)).cell;
            var c2 := Perform(key, c1, ReceiveReconciliation(Returned(seen))).cell;
            var c3 := Perform(key, c2, ResumeReconciliation).cell;
            c3.journal.Some?
            && (c3.journal.value.status.Applied? <==> exists proof :: MayRestore(key, v.(glimpse := Some(seen)), proof))
  {
    RestoredIfRestorable(key, cell, seen);
    RestorableMeans(key, cell, v, seen);
    hide *;
  }

  /** The target is determined, is all that is seen, and shows the effect. */
  predicate Restorable(key: Key, j: Journal, seen: seq<Sighting>) {
    var target := ReconcileTarget(key.kind, j);
    target.Some? && SoleTarget(Reconciliation(j, target.value, None), seen)
      && ReconciledPostcondition(key.kind, seen[0].torrent)
  }

  lemma RestoredIfRestorable(key: Key, cell: Cell, seen: seq<Sighting>)
    requires cell.reconciliation.None? && cell.journal.Some? && cell.journal.value.status.ReconcileRequired?
    ensures var c1 := Perform(key, cell, BeginReconciliation(false)).cell;
            var c2 := Perform(key, c1, ReceiveReconciliation(Returned(seen))).cell;
            var c3 := Perform(key, c2, ResumeReconciliation).cell;
            c3.journal.Some? && (c3.journal.value.status.Applied? <==> Restorable(key, cell.journal.value, seen))
  {
    hide ReconcileTarget, ReconciledPostcondition;
  }

  lemma RestorableMeans(key: Key, cell: Cell, v: View, seen: seq<Sighting>)
    requires CellHolds(key, cell, v) && cell.journal.Some? && cell.journal.value.status.ReconcileRequired?
    ensures Restorable(key, cell.journal.value, seen) <==>
      exists proof :: MayRestore(key, v.(glimpse := Some(seen)), proof)
  {
    hide RunHolds, ReconciliationHolds;
    var j := cell.journal.value;
    var proof := if j.after.Some? then j.after.value else if seen != [] then SnapshotOf(seen[0], j.request.tag)
      else Absent([]);
    assert (exists p :: MayRestore(key, v.(glimpse := Some(seen)), p)) <==>
      MayRestore(key, v.(glimpse := Some(seen)), proof);
  }

  // ----- several segments of one key in a row -------------------------------------------

  function Acts(key: Key, cell: Cell, acts: seq<Act>): (Cell, seq<Event>)
    decreases |acts|
  {
    if acts == [] then (cell, [])
    else
      var o := Perform(key, cell, acts[0]);
      var rest := Acts(key, o.cell, acts[1..]);
      (rest.0, (if o.event.Some? then [o.event.value] else []) + rest.1)
  }

  lemma ActsStep(key: Key, cell: Cell, acts: seq<Act>)
    requires acts != []
    ensures var o := Perform(key, cell, acts[0]);
            var rest := Acts(key, o.cell, acts[1..]);
            Acts(key, cell, acts) == (rest.0, (if o.event.Some? then [o.event.value] else []) + rest.1)
  {
  }

  lemma NoActs(key: Key, cell: Cell)
    ensures Acts(key, cell, []) == (cell, [])
  {
  }
}
