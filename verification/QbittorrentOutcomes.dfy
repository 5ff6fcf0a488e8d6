/** What an execution does at each of its looks at the client, as seen from outside: the events it
    adds to the log and the journal it leaves, told by the torrents' hashes, paths, tags, states and
    progress alone.  The services' own words for these are not used here. */
module QbittorrentOutcomes {
  import opened OperationJournal
  import opened QbittorrentLog
  import opened QbittorrentSystem
  import opened QbittorrentRuns
  import opened Wrappers

  // ----- torrents, by what the client shows -----------------------------------------------

  const STOPPED := {StoppedDL, StoppedUP, PausedDL, PausedUP}
  const CHECKING := {CheckingDL, CheckingUP, CheckingResumeData}
  const UPLOADING := {Uploading, StalledUP, QueuedUP, ForcedUP}

  predicate IsStopped(t: Torrent) {
    t.state in STOPPED
  }

  predicate IsComplete(t: Torrent) {
    t.state in {StoppedUP, PausedUP} && t.progress == 1.0
  }

  predicate IsIncomplete(t: Torrent) {
    t.state in {StoppedDL, PausedDL} && t.progress < 1.0
  }

  predicate IsUploading(t: Torrent) {
    t.state in UPLOADING && t.progress == 1.0
  }

  /** One torrent was seen, under a hash, the path and the tag of the request. */
  predicate IsIts(request: Request, seen: seq<Sighting>) {
    && |seen| == 1 && seen[0].hash in request.hashes
    && seen[0].torrent.path == request.path && request.tag in seen[0].torrent.tags
  }

  function Shown(s: Sighting, tag: Tag): Snapshot {
    Present(s.hash, s.torrent.path, s.torrent.state, s.torrent.progress, s.torrent.tags, tag)
  }

  // ----- the first execution of a key -----------------------------------------------------

  /** What it puts on record before it does anything. */
  function FirstRecord(kind: Kind, request: Request, seen: seq<Sighting>): Option<Snapshot> {
    match kind
    case Add => if seen == [] then Some(Absent(request.hashes)) else None
    case Recheck => if IsIts(request, seen) && IsStopped(seen[0].torrent) then Some(Shown(seen[0], request.tag))
      else None
    case Start => if IsIts(request, seen) && IsComplete(seen[0].torrent) then Some(Shown(seen[0], request.tag))
      else None
    case Remove =>
      if seen == [] then Some(Absent(request.hashes))
      else if IsIts(request, seen) then Some(Shown(seen[0], request.tag))
      else None
  }

  /** What it then sends: nothing when there is nothing to remove. */
  function FirstCommand(kind: Kind, seen: seq<Sighting>): Option<Command> {
    if seen == [] then if kind.Add? then Some(AddTorrent) else None
    else
      match kind
      case Add => None
      case Recheck => Some(RecheckTorrent(seen[0].hash))
      case Start => Some(StartTorrent(seen[0].hash))
      case Remove => Some(if IsStopped(seen[0].torrent) then RemoveTorrent(seen[0].hash) else StopTorrent(seen[0].hash))
  }

  // ----- what a later look at the client leads to -----------------------------------------

  datatype Verdict =
    | Applies(after: Snapshot)
    | Quarantines
    | Sends(command: Command)
    | LooksAgain
    | GivesUp

  /** An add that sees its torrent. */
  function AddSeen(request: Request, seen: seq<Sighting>): Verdict {
    if !IsIts(request, seen) then Quarantines
    else if IsStopped(seen[0].torrent) then Applies(Shown(seen[0], request.tag))
    else Sends(StopTorrent(seen[0].hash))
  }

  /** An execution that finds an open intent. */
  function Retried(kind: Kind, j: Journal, seen: seq<Sighting>): Verdict {
    match kind
    case Add => if seen == [] then Sends(AddTorrent) else AddSeen(j.request, seen)
    case Recheck =>
      if && IsIts(j.request, seen)
         && var t := seen[0].torrent;
            || t.state in CHECKING
            || (IsComplete(t) && j.before.Present? && (j.before.state != t.state || j.before.progress != t.progress))
      then Applies(Shown(seen[0], j.request.tag))
      else Quarantines
    case Start =>
      if !IsIts(j.request, seen) then Quarantines
      else if IsUploading(seen[0].torrent) then Applies(Shown(seen[0], j.request.tag))
      else if IsComplete(seen[0].torrent) then Sends(StartTorrent(seen[0].hash))
      else Quarantines
    case Remove =>
      if seen == [] then Applies(Gone(j.request.hashes))
      else if !IsIts(j.request, seen) then Quarantines
      else Sends(if IsStopped(seen[0].torrent) then RemoveTorrent(seen[0].hash) else StopTorrent(seen[0].hash))
  }

  /** An execution that looks for the effect of its command. */
  function Inspected(kind: Kind, j: Journal, seen: seq<Sighting>): Verdict {
    match kind
    case Add => if seen == [] then GivesUp else AddSeen(j.request, seen)
    case Recheck => if IsIts(j.request, seen) then Applies(Shown(seen[0], j.request.tag)) else Quarantines
    case Start =>
      if !IsIts(j.request, seen) then Quarantines
      else if IsUploading(seen[0].torrent) then Applies(Shown(seen[0], j.request.tag))
      else if IsComplete(seen[0].torrent) then GivesUp
      else Quarantines
    case Remove =>
      if seen == [] then Applies(Gone(j.request.hashes)) else if IsIts(j.request, seen) then GivesUp else Quarantines
  }

  /** The look number `n`, from 0, after a stop. */
  function Polled(kind: Kind, j: Journal, hash: Hash, n: nat, seen: seq<Sighting>): Verdict {
    if kind.Remove? && seen == [] then Applies(Gone(j.request.hashes))
    else if !IsIts(j.request, seen) || (kind.Add? && seen[0].hash != hash) then Quarantines
    else if IsStopped(seen[0].torrent) then
      if kind.Add? then Applies(Shown(seen[0], j.request.tag)) else Sends(RemoveTorrent(hash))
    else if n < 9 then LooksAgain
    else if kind.Add? then Quarantines
    else GivesUp
  }

  /** What the client answers to a command. */
  function Replied(kind: Kind, command: Command, reply: Reply): Verdict {
    if reply.Accepted? || command.RemoveTorrent? then LooksAgain
    else if command.AddTorrent? && (reply.Miscounted? || reply.ForeignIds?) then Quarantines
    else if command.StopTorrent? && kind.Add? then Quarantines
    else GivesUp
  }

  /** The effect of an APPLIED journal can still be seen. */
  predicate EffectIsSeen(kind: Kind, j: Journal, seen: seq<Sighting>) {
    match kind
    case Add =>
      && |seen| == 1 && j.after.Some? && j.after.value.Present? && seen[0].hash == j.after.value.hash
      && seen[0].torrent.path == j.after.value.path && j.request.tag in seen[0].torrent.tags
      && IsStopped(seen[0].torrent)
    case Recheck => IsIts(j.request, seen)
    case Start => IsIts(j.request, seen) && IsUploading(seen[0].torrent)
    case Remove => seen == []
  }

  /** The torrent shows what a reconciliation has to see before it restores the journal. */
  predicate ShowsEffect(kind: Kind, t: Torrent) {
    match kind
    case Add => IsStopped(t)
    case Recheck => t.state in CHECKING || IsComplete(t) || IsIncomplete(t)
    case Start => IsUploading(t)
    case Remove => false
  }

  // ----- rows of acts ---------------------------------------------------------------------

  function Of(o: Outcome): Log {
    if o.event.Some? then [o.event.value] else []
  }

  /** One label on one key, from any state. */
  lemma OneStep(s: State, key: Key, act: Act)
    requires Enabled(s, Do(key, act))
    ensures var o := Perform(key, s.CellOf(key), act);
            var next := Step(s, Do(key, act));
            && next.CellOf(key) == o.cell && next.log == s.log + Of(o)
            && next.clients == s.clients && next.authorized == s.authorized
  {
    hide Perform;
  }

  lemma Labels(s: State, a: Label, b: Label, c: Label, d: Label)
    ensures Execute(s, [a]) == Step(s, a)
    ensures Execute(s, [a, b]) == Step(Step(s, a), b)
    ensures Execute(s, [a, b, c]) == Step(Step(Step(s, a), b), c)
    ensures Execute(s, [a, b, c, d]) == Step(Step(Step(Step(s, a), b), c), d)
  {
    hide Step;
    ExecuteThen(s, [], a);
    ExecuteThen(s, [a], b);
    ExecuteThen(s, [a, b], c);
    ExecuteThen(s, [a, b, c], d);
    assert [] + [a] == [a] && [a] + [b] == [a, b] && [a, b] + [c] == [a, b, c] && [a, b, c] + [d] == [a, b, c, d];
  }

  lemma ExecuteThen(s: State, labels: seq<Label>, next: Label)
    ensures Execute(s, []) == s
    ensures Execute(s, labels + [next]) == Step(Execute(s, labels), next)
  {
    assert (labels + [next])[..|labels|] == labels;
  }

  // ----- looks ----------------------------------------------------------------------------

  /** Begin, look at the client, go on, and send what there is to send. */
  function Executes(key: Key, request: Request, seen: seq<Sighting>): seq<Label> {
    [Do(key, Begin(request)), Do(key, Receive(Returned(seen))), Do(key, Resume), Do(key, Transmit)]
  }

  /** The same within an execution that is under way. */
  function Looks(key: Key, seen: seq<Sighting>): seq<Label> {
    [Do(key, Receive(Returned(seen))), Do(key, Resume), Do(key, Transmit)]
  }

  /** What an execution has logged since it began to look, and the journal and run it has left. */
  datatype Left = Left(events: Log, journal: Option<Journal>, run: Option<Run>)

  function Acted(key: Key, cell: Cell, seen: seq<Sighting>): Left {
    var received := Perform(key, cell, Receive(Returned(seen)));
    var resumed := Perform(key, received.cell, Resume);
    var sent := Perform(key, resumed.cell, Transmit);
    Left(Of(received) + Of(resumed) + Of(sent), sent.cell.journal, sent.cell.run)
  }

  /** The reply lists what the client shows of the torrents that the execution asks for. */
  ghost predicate Answered(s: State, key: Key, seen: seq<Sighting>) {
    && s.CellOf(key).run.Some? && AwaitsAnswer(s.CellOf(key).run.value)
    && Lists(seen, s.ClientOf(key.downloader), Asked(s.CellOf(key).run.value))
  }

  lemma LooksAre(s: State, key: Key, seen: seq<Sighting>)
    requires Answered(s, key, seen)
    ensures var next, left := Execute(s, Looks(key, seen)), Acted(key, s.CellOf(key), seen);
            && next.log == s.log + left.events
            && next.CellOf(key).journal == left.journal && next.CellOf(key).run == left.run
  {
    hide Perform, Step, Lists;
    var received := Step(s, Do(key, Receive(Returned(seen))));
    var resumed := Step(received, Do(key, Resume));
    OneStep(s, key, Receive(Returned(seen)));
    OneStep(received, key, Resume);
    OneStep(resumed, key, Transmit);
    Labels(s, Do(key, Receive(Returned(seen))), Do(key, Resume), Do(key, Transmit), Do(key, Transmit));
  }

  lemma ExecutesIs(s: State, key: Key, request: Request, seen: seq<Sighting>)
    requires s.CellOf(key).run.None? && Prepared(key, request) && (key.kind.Remove? ==> (key, request) in s.authorized)
    requires Enter(key, s.CellOf(key), request).cell.run.Some?
    requires Lists(seen, s.ClientOf(key.downloader), request.hashes)
    ensures var next, entered := Execute(s, Executes(key, request, seen)), Enter(key, s.CellOf(key), request);
            var left := Acted(key, entered.cell, seen);
            && next.log == s.log + Of(entered) + left.events
            && next.CellOf(key).journal == left.journal && next.CellOf(key).run == left.run
  {
    hide Step, Lists, Prepared;
    var begun := Step(s, Do(key, Begin(request)));
    OneStep(s, key, Begin(request));
    EnteredAsks(key, s.CellOf(key), request);
    LooksAre(begun, key, seen);
    hide Perform, Enter;
    Labels(s, Do(key, Begin(request)), Do(key, Receive(Returned(seen))), Do(key, Resume), Do(key, Transmit));
    Labels(begun, Do(key, Receive(Returned(seen))), Do(key, Resume), Do(key, Transmit), Do(key, Transmit));
  }

  lemma EnteredAsks(key: Key, cell: Cell, request: Request)
    requires Enter(key, cell, request).cell.run.Some? && cell.run.None?
    ensures var run := Enter(key, cell, request).cell.run.value;
            AwaitsAnswer(run) && Asked(run) == request.hashes
  {
  }

  // ----- the first execution --------------------------------------------------------------

  /** Where an execution is that has sent this command, or has recorded an absence it is to close. */
  function Waiting(request: Request, existing: Option<Journal>, command: Option<Command>): Run {
    Run(request, existing, if command.Some? then Await(command.value) else CommitNoop, None)
  }

  /** From every state in which the key has no journal and no execution: the intent is recorded, and
      then its command sent, exactly for what the first look shows. */
  lemma FirstLook(s: State, key: Key, request: Request, seen: seq<Sighting>)
    requires s.CellOf(key).journal.None? && s.CellOf(key).run.None?
    requires Prepared(key, request) && (key.kind.Remove? ==> (key, request) in s.authorized)
    requires Lists(seen, s.ClientOf(key.downloader), request.hashes)
    ensures var next := Execute(s, Executes(key, request, seen));
            var looked := s.log + [Began(key), Observed(key, Observation(request.hashes, seen))];
            var before, command := FirstRecord(key.kind, request, seen), FirstCommand(key.kind, seen);
            if before.None? then
              next.log == looked && next.CellOf(key).journal.None? && next.CellOf(key).run.None?
            else
              && next.log == looked + [Recorded(key, request, before.value)]
                 + (if command.Some? then [Sent(key, command.value)] else [])
              && next.CellOf(key).journal == Some(Journal(request, IntentRecorded, before.value, None))
              && next.CellOf(key).run == Some(Waiting(request, None, command))
  {
    hide Execute, Lists, Prepared, Acted, FirstRecord, FirstCommand;
    ExecutesIs(s, key, request, seen);
    var cell := s.CellOf(key);
    FirstActs(key, cell.(run := Some(Run(request, None, Look, None))), request, seen);
  }

  lemma FirstActs(key: Key, cell: Cell, request: Request, seen: seq<Sighting>)
    requires cell.journal.None? && cell.run == Some(Run(request, None, Look, None))
    ensures var left := Acted(key, cell, seen);
            var looked := [Observed(key, Observation(request.hashes, seen))];
            var before, command := FirstRecord(key.kind, request, seen), FirstCommand(key.kind, seen);
            if before.None? then left == Left(looked, None, None)
            else
              && left.events == looked + [Recorded(key, request, before.value)]
                 + (if command.Some? then [Sent(key, command.value)] else [])
              && left.journal == Some(Journal(request, IntentRecorded, before.value, None))
              && left.run == Some(Waiting(request, None, command))
  {
  }

  // ----- later looks ----------------------------------------------------------------------

  /** What a verdict leaves of an open intent and of the execution that came to it. */
  function Follows(key: Key, j: Journal, run: Run, v: Verdict, again: Pc): Left {
    match v
    case Applies(after) =>
      Left([Moved(key, IntentRecorded, Applied, Some(after))], Some(j.(status := Applied, after := Some(after))), None)
    case Quarantines =>
      Left([Moved(key, j.status, ReconcileRequired, None)], Some(j.(status := ReconcileRequired)), None)
    case Sends(command) => Left([Sent(key, command)], Some(j), Some(run.(pc := Await(command), answer := None)))
    case LooksAgain => Left([], Some(j), Some(run.(pc := again, answer := None)))
    case GivesUp => Left([], Some(j), None)
  }

  ghost predicate Has(s: State, log: Log, key: Key, left: Left) {
    s.log == log + left.events && s.CellOf(key).journal == left.journal && s.CellOf(key).run == left.run
  }

  /** An open intent, and an execution of the request it was recorded for at this point. */
  predicate Pursues(cell: Cell, j: Journal, run: Run, pc: Pc) {
    && cell.journal == Some(j) && j.status.IntentRecorded? && cell.run == Some(run) && run.request == j.request
    && run.pc == pc && run.answer.None?
  }

  /** From every state in which the key has an open intent and no execution: another execution of the
      request goes by what it sees now and by what was recorded. */
  lemma RetryLooks(s: State, key: Key, j: Journal, seen: seq<Sighting>)
    requires s.CellOf(key).journal == Some(j) && j.status.IntentRecorded? && s.CellOf(key).run.None?
    requires Prepared(key, j.request) && (key.kind.Remove? ==> (key, j.request) in s.authorized)
    requires Lists(seen, s.ClientOf(key.downloader), j.request.hashes)
    ensures var looked := [Began(key), Observed(key, Observation(j.request.hashes, seen))];
            Has(Execute(s, Executes(key, j.request, seen)), s.log + looked, key,
                Follows(key, j, Run(j.request, Some(j), Look, None), Retried(key.kind, j, seen), Look))
  {
    hide Execute, Lists, Acted, Follows, Retried, Prepared;
    OnlyAsked(seen, s.ClientOf(key.downloader), j.request.hashes);
    ExecutesIs(s, key, j.request, seen);
    var run := Run(j.request, Some(j), Look, None);
    RetryActs(key, s.CellOf(key).(run := Some(run)), j, run, seen);
  }

  lemma OnlyAsked(seen: seq<Sighting>, client: Client, asked: seq<Hash>)
    requires Lists(seen, client, asked)
    ensures forall i :: 0 <= i < |seen| ==> seen[i].hash in asked
  {
  }

  lemma RetryActs(key: Key, cell: Cell, j: Journal, run: Run, seen: seq<Sighting>)
    requires Pursues(cell, j, run, Look) && run.existing == Some(j) && Prepared(key, j.request)
    requires forall i :: 0 <= i < |seen| ==> seen[i].hash in j.request.hashes
    ensures Acted(key, cell, seen)
         == AfterLook(key, j.request.hashes, seen, Follows(key, j, run, Retried(key.kind, j, seen), Look))
  {
  }

  function AfterLook(key: Key, asked: seq<Hash>, seen: seq<Sighting>, left: Left): Left {
    left.(events := [Observed(key, Observation(asked, seen))] + left.events)
  }

  /** An execution that looks for the effect of a command its client accepted. */
  lemma InspectionLooks(s: State, key: Key, j: Journal, run: Run, command: Command, seen: seq<Sighting>)
    requires Pursues(s.CellOf(key), j, run, Inspect(command)) && Prepared(key, j.request)
    requires Lists(seen, s.ClientOf(key.downloader), j.request.hashes)
    ensures Has(Execute(s, Looks(key, seen)), s.log + [Observed(key, Observation(j.request.hashes, seen))], key,
                Follows(key, j, run, Inspected(key.kind, j, seen), Look))
  {
    hide Execute, Lists, Acted, Follows, Inspected;
    LooksAre(s, key, seen);
    InspectionActs(key, s.CellOf(key), j, run, command, seen);
  }

  lemma InspectionActs(key: Key, cell: Cell, j: Journal, run: Run, command: Command, seen: seq<Sighting>)
    requires Pursues(cell, j, run, Inspect(command)) && Prepared(key, j.request)
    ensures Acted(key, cell, seen)
         == AfterLook(key, j.request.hashes, seen, Follows(key, j, run, Inspected(key.kind, j, seen), Look))
  {
  }

  /** An execution that waits for its stop to take effect: up to ten looks. */
  lemma PollLooks(s: State, key: Key, j: Journal, run: Run, hash: Hash, n: nat, seen: seq<Sighting>)
    requires Pursues(s.CellOf(key), j, run, Poll(hash, n)) && Prepared(key, j.request)
    requires (key.kind.Add? || key.kind.Remove?) && hash in j.request.hashes && n < 10
    requires Lists(seen, s.ClientOf(key.downloader), [hash])
    ensures Has(Execute(s, Looks(key, seen)), s.log + [Observed(key, Observation([hash], seen))], key,
                Follows(key, j, run, Polled(key.kind, j, hash, n, seen), Poll(hash, n + 1)))
  {
    hide Execute, Lists, Acted, Follows, Polled;
    LooksAre(s, key, seen);
    OnlyAsked(seen, s.ClientOf(key.downloader), [hash]);
    PollActs(key, s.CellOf(key), j, run, hash, n, seen);
  }

  lemma PollActs(key: Key, cell: Cell, j: Journal, run: Run, hash: Hash, n: nat, seen: seq<Sighting>)
    requires Pursues(cell, j, run, Poll(hash, n)) && Prepared(key, j.request)
    requires (key.kind.Add? || key.kind.Remove?) && hash in j.request.hashes && n < 10
    requires forall i :: 0 <= i < |seen| ==> seen[i].hash == hash
    ensures Acted(key, cell, seen)
         == AfterLook(key, [hash], seen, Follows(key, j, run, Polled(key.kind, j, hash, n, seen), Poll(hash, n + 1)))
  {
  }

  /** What the client answers to a command: an accepted one is looked for, a stop up to ten times. */
  lemma ReplyLeads(s: State, key: Key, j: Journal, run: Run, command: Command, reply: Reply)
    requires Pursues(s.CellOf(key), j, run, Await(command)) && BelongsTo(command, key.kind)
    ensures var again := if command.StopTorrent? then Poll(command.hash, 0) else Inspect(command);
            Has(Execute(s, [Do(key, Respond(reply))]), s.log, key,
                Follows(key, j, run, Replied(key.kind, command, reply), again))
  {
    OneStep(s, key, Respond(reply));
    var any := Do(key, Respond(reply));
    Labels(s, any, any, any, any);
    hide Execute, Step;
    ReplyActs(key, s.CellOf(key), j, run, command, reply);
    hide Perform, Follows, Replied;
  }

  lemma ReplyActs(key: Key, cell: Cell, j: Journal, run: Run, command: Command, reply: Reply)
    requires Pursues(cell, j, run, Await(command)) && BelongsTo(command, key.kind)
    ensures var again := if command.StopTorrent? then Poll(command.hash, 0) else Inspect(command);
            var o := Perform(key, cell, Respond(reply));
            Left(Of(o), o.cell.journal, o.cell.run) == Follows(key, j, run, Replied(key.kind, command, reply), again)
  {
    hide Decide;
  }

  /** An execution that finds its journal APPLIED looks whether the effect is still there, and
      quarantines the journal if it is not. */
  lemma AppliedLooks(s: State, key: Key, j: Journal, seen: seq<Sighting>)
    requires s.CellOf(key).journal == Some(j) && j.status.Applied? && s.CellOf(key).run.None?
    requires Prepared(key, j.request) && (key.kind.Remove? ==> (key, j.request) in s.authorized)
    requires Lists(seen, s.ClientOf(key.downloader), j.request.hashes)
    requires key.kind.Add? ==> j.after.Some? && j.after.value.Present?
    ensures var looked := s.log + [Began(key), Observed(key, Observation(j.request.hashes, seen))];
            var next := Execute(s, Executes(key, j.request, seen));
            && next.CellOf(key).run.None?
            && if EffectIsSeen(key.kind, j, seen) then next.log == looked && next.CellOf(key).journal == Some(j)
               else
                 && next.log == looked + [Moved(key, Applied, ReconcileRequired, None)]
                 && next.CellOf(key).journal == Some(j.(status := ReconcileRequired))
  {
    hide Execute, Lists, Acted, EffectIsSeen, Prepared;
    OnlyAsked(seen, s.ClientOf(key.downloader), j.request.hashes);
    ExecutesIs(s, key, j.request, seen);
    AppliedActs(key, s.CellOf(key).(run := Some(Run(j.request, Some(j), Verify, None))), j, seen);
  }

  lemma AppliedActs(key: Key, cell: Cell, j: Journal, seen: seq<Sighting>)
    requires cell.journal == Some(j) && j.status.Applied? && cell.run == Some(Run(j.request, Some(j), Verify, None))
    requires key.kind.Add? ==> j.after.Some? && j.after.value.Present?
    requires forall i :: 0 <= i < |seen| ==> seen[i].hash in j.request.hashes
    ensures Acted(key, cell, seen)
         == AfterLook(key, j.request.hashes, seen,
                      if EffectIsSeen(key.kind, j, seen) then Left([], Some(j), None)
                      else Left([Moved(key, Applied, ReconcileRequired, None)], Some(j.(status := ReconcileRequired)),
                        None))
  {
  }

  /** Any other journal stops an execution before it looks: one of another request, and one that is
      neither open nor APPLIED. */
  lemma OthersAreNotExecuted(s: State, key: Key, j: Journal, request: Request)
    requires s.CellOf(key).journal == Some(j) && s.CellOf(key).run.None?
    requires Prepared(key, request) && (key.kind.Remove? ==> (key, request) in s.authorized)
    ensures var next := Execute(s, [Do(key, Begin(request))]);
            && next.log == s.log + [Began(key)] && next.CellOf(key).journal == Some(j)
            && (next.CellOf(key).run.Some? <==> j.request == request && (j.status.IntentRecorded? || j.status.Applied?))
  {
    OneStep(s, key, Begin(request));
    var any := Do(key, Begin(request));
    Labels(s, any, any, any, any);
    hide Execute, Step, Prepared;
  }

  /** A client that cannot be reached ends the execution and changes nothing. */
  lemma UnreachableEnds(s: State, key: Key)
    requires s.CellOf(key).run.Some? && AwaitsAnswer(s.CellOf(key).run.value)
    ensures var next := Execute(s, [Do(key, Receive(Unreachable)), Do(key, Resume)]);
            next.log == s.log && next.CellOf(key) == s.CellOf(key).(run := None)
  {
    OneStep(s, key, Receive(Unreachable));
    OneStep(Step(s, Do(key, Receive(Unreachable))), key, Resume);
    var any := Do(key, Resume);
    Labels(s, Do(key, Receive(Unreachable)), any, any, any);
    hide Execute, Step;
  }

  // ----- reconciliation -------------------------------------------------------------------

  function Reconciles(key: Key, replayAllowed: bool, seen: seq<Sighting>): seq<Label> {
    [Do(key, BeginReconciliation(replayAllowed)), Do(key, ReceiveReconciliation(Returned(seen))),
     Do(key, ResumeReconciliation)]
  }

  /** What a reconciliation logs and the journal it leaves. */
  function Reconciled(key: Key, cell: Cell, replayAllowed: bool, seen: seq<Sighting>): Left {
    var begun := Perform(key, cell, BeginReconciliation(replayAllowed));
    var received := Perform(key, begun.cell, ReceiveReconciliation(Returned(seen)));
    var resumed := Perform(key, received.cell, ResumeReconciliation);
    Left(Of(begun) + Of(received) + Of(resumed), resumed.cell.journal, resumed.cell.run)
  }

  lemma ReconcilesAre(s: State, key: Key, replayAllowed: bool, seen: seq<Sighting>)
    requires s.CellOf(key).reconciliation.None?
    requires var r := Perform(key, s.CellOf(key), BeginReconciliation(replayAllowed)).cell.reconciliation;
             r.Some? ==> Lists(seen, s.ClientOf(key.downloader), [r.value.target])
    ensures var next, left := Execute(s, Reconciles(key, replayAllowed, seen)),
      Reconciled(key, s.CellOf(key), replayAllowed, seen);
            && next.log == s.log + left.events
            && next.CellOf(key).journal == left.journal && next.CellOf(key).run == left.run
  {
    hide Step, Lists, Perform;
    var begin, receive, resume := Do(key, BeginReconciliation(replayAllowed)),
      Do(key, ReceiveReconciliation(Returned(seen))),
                                  Do(key, ResumeReconciliation);
    var begun := Step(s, begin);
    OneStep(s, key, begin.act);
    var received := Step(begun, receive);
    if Enabled(begun, receive) {
      OneStep(begun, key, receive.act);
    } else {
      NotReceived(begun, key, seen);
    }
    OneStep(received, key, resume.act);
    Labels(s, begin, receive, resume, resume);
  }

  lemma NotReceived(s: State, key: Key, seen: seq<Sighting>)
    requires !Enabled(s, Do(key, ReceiveReconciliation(Returned(seen)))) && s.CellOf(key).reconciliation.None?
    ensures var o := Perform(key, s.CellOf(key), ReceiveReconciliation(Returned(seen)));
            var next := Step(s, Do(key, ReceiveReconciliation(Returned(seen))));
            next == s && next.CellOf(key) == o.cell && next.log == s.log + Of(o)
  {
  }

  /** The one torrent that can prove a quarantined journal, if there is one. */
  function Provable(kind: Kind, j: Journal): Option<Hash> {
    if kind.Remove? then None
    else if j.after.Some? && j.after.value.Present? then Some(j.after.value.hash)
    else if kind.Add? && j.after.None? && |j.request.hashes| == 1 then Some(j.request.hashes[0])
    else None
  }

  /** The client shows it, as the journal's own, in the state that the operation leads to. */
  predicate IsProved(kind: Kind, j: Journal, seen: seq<Sighting>) {
    && Provable(kind, j).Some? && |seen| == 1 && seen[0].hash == Provable(kind, j).value
    && seen[0].torrent.path == j.request.path && j.request.tag in seen[0].torrent.tags
    && ShowsEffect(kind, seen[0].torrent)
  }

  /** In every reachable state, an undisturbed reconciliation restores a quarantined journal if and
      only if the client shows its torrent in the state that the operation leads to: with the proof
      it had, or, for an add without one, with what is seen now. */
  lemma ReconciliationLooks(s: State, key: Key, j: Journal, seen: seq<Sighting>)
    requires Invariant(s)
    requires s.CellOf(key).journal == Some(j) && j.status.ReconcileRequired? && s.CellOf(key).reconciliation.None?
    requires Provable(key.kind, j).Some? ==> Lists(seen, s.ClientOf(key.downloader), [Provable(key.kind, j).value])
    ensures var next := Execute(s, Reconciles(key, false, seen));
            var glimpsed := s.log + (if Provable(key.kind, j).Some? then [Glimpsed(key, seen)] else []);
            if IsProved(key.kind, j, seen) then
              var proof := if j.after.Some? then j.after.value else Shown(seen[0], j.request.tag);
              && next.log == glimpsed + [Restored(key, proof)]
              && next.CellOf(key).journal == Some(j.(status := Applied, after := Some(proof)))
            else next.log == glimpsed && next.CellOf(key).journal == Some(j)
  {
    hide Execute, Lists, ViewOf, Reconciled, ReconcileTarget, Provable, IsProved, Perform, CellHolds, Disciplined;
    hide Honest;
    hide HonestClient, AuthorizedBy, RemovalsAuthorized;
    assert CellHolds(key, s.CellOf(key), ViewOf(s.log, key));
    TargetIsProvable(key, s.CellOf(key), ViewOf(s.log, key), j);
    ReconciledActs(key, s.CellOf(key), j, false, seen);
    ReconcilesAre(s, key, false, seen);
  }

  lemma ReconciledActs(key: Key, cell: Cell, j: Journal, replayAllowed: bool, seen: seq<Sighting>)
    requires cell.journal == Some(j) && cell.reconciliation.None?
    requires j.status.ReconcileRequired? || (j.status.Applied? && replayAllowed)
    requires ReconcileTarget(key.kind, j) == Provable(key.kind, j)
    ensures var begun := Perform(key, cell, BeginReconciliation(replayAllowed)).cell.reconciliation;
            if Provable(key.kind, j).Some? then begun.Some? && begun.value.target == Provable(key.kind, j).value
            else begun.None?
    ensures var left := Reconciled(key, cell, replayAllowed, seen);
            var glimpsed := if Provable(key.kind, j).Some? then [Glimpsed(key, seen)] else [];
            if IsProved(key.kind, j, seen) && j.status.ReconcileRequired? then
              var proof := if j.after.Some? then j.after.value else Shown(seen[0], j.request.tag);
              left == Left(glimpsed + [Restored(key, proof)], Some(j.(status := Applied, after := Some(proof))),
                cell.run)
            else left == Left(glimpsed, Some(j), cell.run)
  {
    hide ReconcileTarget;
  }

  lemma TargetIsProvable(key: Key, cell: Cell, v: View, j: Journal)
    requires CellHolds(key, cell, v) && cell.journal == Some(j)
    ensures ReconcileTarget(key.kind, j) == Provable(key.kind, j)
  {
  }

  /** An APPLIED journal may be looked at again; that changes nothing, whatever is seen. */
  lemma ReplayedReconciliationOnlyLooks(s: State, key: Key, j: Journal, seen: seq<Sighting>)
    requires Invariant(s)
    requires s.CellOf(key).journal == Some(j) && j.status.Applied? && s.CellOf(key).reconciliation.None?
    requires Provable(key.kind, j).Some? && Lists(seen, s.ClientOf(key.downloader), [Provable(key.kind, j).value])
    ensures var next := Execute(s, Reconciles(key, true, seen));
            next.log == s.log + [Glimpsed(key, seen)] && next.CellOf(key).journal == Some(j)
  {
    hide Execute, Lists, ViewOf, Reconciled, ReconcileTarget, Provable, IsProved, Perform, CellHolds, Disciplined;
    hide Honest;
    hide HonestClient, AuthorizedBy, RemovalsAuthorized;
    assert CellHolds(key, s.CellOf(key), ViewOf(s.log, key));
    TargetIsProvable(key, s.CellOf(key), ViewOf(s.log, key), j);
    ReconciledActs(key, s.CellOf(key), j, true, seen);
    ReconcilesAre(s, key, true, seen);
  }

  /** Unless that is allowed, an APPLIED journal is not looked at, nor is an open or a closed one. */
  lemma OnlyQuarantinedIsReconciled(s: State, key: Key, j: Journal)
    requires s.CellOf(key).journal == Some(j) && !j.status.ReconcileRequired? && s.CellOf(key).reconciliation.None?
    ensures Execute(s, [Do(key, BeginReconciliation(false))]).CellOf(key) == s.CellOf(key)
    ensures !j.status.Applied? ==> Execute(s, [Do(key, BeginReconciliation(true))]).CellOf(key) == s.CellOf(key)
  {
    OneStep(s, key, BeginReconciliation(false));
    OneStep(s, key, BeginReconciliation(true));
    var a, b := Do(key, BeginReconciliation(false)), Do(key, BeginReconciliation(true));
    Labels(s, a, a, a, a);
    Labels(s, b, b, b, b);
    hide Execute, Step, ReconcileTarget;
  }

  /** Over every run: whenever a journal is restored, the client had shown the reconciler one torrent,
      under a hash, the path and the tag of the recorded request, in the state that its operation
      leads to: stopped for an add; checking, or stopped with its verification ended, for a recheck;
      uploading and complete for a start.  A removal is never restored. */
  lemma RestorationsRest(s: State, labels: seq<Label>, j: nat) returns (recorded: nat, seen: nat, x: Sighting)
    requires Initial(s) && j < |Execute(s, labels).log| && Execute(s, labels).log[j].Restored?
    ensures var log := Execute(s, labels).log;
            && recorded < j && log[recorded].Recorded? && log[recorded].key == log[j].key
            && seen < j && log[seen] == Glimpsed(log[j].key, [x])
            && IsIts(log[recorded].request, [x]) && ShowsEffect(log[j].key.kind, x.torrent)
  {
    InvariantHolds(s, labels);
    var log := Execute(s, labels).log;
    hide Execute, ViewOf;
    recorded, seen, x := RestoredRests(log, j);
  }

  lemma RestoredRests(log: Log, j: nat) returns (recorded: nat, seen: nat, x: Sighting)
    requires Disciplined(log) && j < |log| && log[j].Restored?
    ensures recorded < j && log[recorded].Recorded? && log[recorded].key == log[j].key
    ensures seen < j && log[seen] == Glimpsed(log[j].key, [x])
    ensures IsIts(log[recorded].request, [x]) && ShowsEffect(log[j].key.kind, x.torrent)
  {
    hide Disciplined, ViewOf;
    AllowedAt(log, j);
    recorded := JournalWasRecorded(log[..j], log[j].key);
    seen := GlimpseWasLogged(log[..j], log[j].key);
    x := ViewOf(log[..j], log[j].key).glimpse.value[0];
    assert ViewOf(log[..j], log[j].key).glimpse.value == [x];
  }
}
