/** What a run of the qBittorrent operation services leaves behind: for each operation key the
    observations it made, the journal it wrote and the commands it sent.  The discipline says
    which of these may follow which; the theorems say what a disciplined log can never show. */
module QbittorrentLog {
  import opened OperationJournal
  import opened Wrappers

  const STOP_CONFIRM_ATTEMPTS := 10

  type Hash = string
  type Path = string
  type DownloaderId = string

  datatype Kind = Add | Recheck | Start | Remove

  /** The idempotency key of an operation; distinct operations have distinct keys. */
  datatype Key = Key(candidate: string, kind: Kind, downloader: DownloaderId)

  /** An ownership tag is derived from the key of the add that hands it out. */
  datatype Tag = Owned(add: Key) | Label(text: string)

  // ----- the client -----------------------------------------------------------------------

  datatype ClientState =
    | StoppedDL | StoppedUP | PausedDL | PausedUP
    | CheckingDL | CheckingUP | CheckingResumeData
    | Uploading | StalledUP | QueuedUP | ForcedUP
    | OtherState(name: string)

  /** Who created a torrent; no service can read it. */
  datatype Origin = External | ByAdd(key: Key)

  datatype Torrent = Torrent(path: Path, tags: set<Tag>, state: ClientState, progress: real, origin: Origin) {
    predicate Stopped() {
      state.StoppedDL? || state.StoppedUP? || state.PausedDL? || state.PausedUP?
    }

    predicate Checking() {
      state.CheckingDL? || state.CheckingUP? || state.CheckingResumeData?
    }

    predicate VerificationComplete() {
      (state.StoppedUP? || state.PausedUP?) && progress == 1.0
    }

    predicate VerificationIncomplete() {
      (state.StoppedDL? || state.PausedDL?) && progress < 1.0
    }

    predicate Seeding() {
      (state.Uploading? || state.StalledUP? || state.QueuedUP? || state.ForcedUP?) && progress == 1.0
    }
  }

  datatype Sighting = Sighting(hash: Hash, torrent: Torrent)

  datatype Observation = Observation(asked: seq<Hash>, sightings: seq<Sighting>)

  // ----- journals -------------------------------------------------------------------------

  /** What an operation binds: for an add, all hashes its metainfo may appear under; for the
      others the one torrent they act on. */
  datatype Request = Request(task: string, plan: string, hashes: seq<Hash>, path: Path, tag: Tag, payload: string)

  predicate Prepared(key: Key, request: Request) {
    if key.kind.Add? then request.hashes != [] && request.tag == Owned(key) else |request.hashes| == 1
  }

  datatype Snapshot =
    | Absent(checked: seq<Hash>)
    | Present(hash: Hash, path: Path, state: ClientState, progress: real, tags: set<Tag>, tag: Tag)
    | Gone(checked: seq<Hash>)

  function SnapshotOf(s: Sighting, tag: Tag): Snapshot {
    Present(s.hash, s.torrent.path, s.torrent.state, s.torrent.progress, s.torrent.tags, tag)
  }

  datatype Journal = Journal(request: Request, status: Status, before: Snapshot, after: Option<Snapshot>)

  datatype Command =
    | AddTorrent
    | StopTorrent(hash: Hash)
    | RecheckTorrent(hash: Hash)
    | StartTorrent(hash: Hash)
    | RemoveTorrent(hash: Hash)

  /** Exactly one torrent was seen, and it is the one the request calls its own. */
  predicate SoleOwned(request: Request, seen: seq<Sighting>) {
    && |seen| == 1
    && seen[0].hash in request.hashes
    && seen[0].torrent.path == request.path
    && request.tag in seen[0].torrent.tags
  }

  /** A lost recheck response is made up for by a torrent that is being checked, or that is
      complete and no longer looks as it did when the intent was recorded. */
  predicate ProvesRechecked(before: Snapshot, t: Torrent) {
    t.Checking() || (before.Present? && t.VerificationComplete()
      && (before.state != t.state || before.progress != t.progress))
  }

  // ----- events and what is known of a key after them -------------------------------------

  datatype Event =
    | Began(key: Key)
    | Observed(key: Key, observation: Observation)
    | Recorded(key: Key, request: Request, before: Snapshot)
    | Sent(key: Key, command: Command)
    | Moved(key: Key, from: Status, to: Status, after: Option<Snapshot>)
    | Glimpsed(key: Key, sightings: seq<Sighting>)
    | Restored(key: Key, proof: Snapshot)

  type Log = seq<Event>

  /** `recordedHere` says that the intent was recorded since the last execution began. */
  datatype View = View(
    journal: Option<Journal>,
    recordedHere: bool,
    seen: Option<Observation>,
    sent: Option<Command>,
    polls: Option<nat>,
    rechecked: bool,
    glimpse: Option<seq<Sighting>>)

  const UNKNOWN := View(None, false, None, None, None, false, None)

  function After(v: View, e: Event): View {
    match e
    case Began(_) => v.(recordedHere := false, seen := None, sent := None, polls := None)
    case Observed(_, o) => v.(seen := Some(o), polls := if v.polls.Some? then Some(v.polls.value + 1) else None)
    case Recorded(_, request, before) => v.(journal := Some(Journal(request, IntentRecorded, before, None)),
      recordedHere := true)
    case Sent(_, command) =>
      v.(seen := None, sent := Some(command), polls := if command.StopTorrent? then Some(0) else None,
         rechecked := v.rechecked || command.RecheckTorrent?)
    case Moved(_, _, to, after) =>
      if v.journal.None? then v
      else v.(journal := Some(v.journal.value.(status := to, after := if after.Some? then after
        else v.journal.value.after)))
    case Glimpsed(_, sightings) => v.(glimpse := Some(sightings))
    case Restored(_, proof) =>
      if v.journal.None? then v
      else v.(journal := Some(v.journal.value.(status := Applied, after := Some(proof))))
  }

  function ViewOf(log: Log, key: Key): View {
    if log == [] then UNKNOWN
    else
      var v, e := ViewOf(log[..|log| - 1], key), log[|log| - 1];
      if e.key == key then After(v, e) else v
  }

  lemma ViewStep(log: Log, e: Event, key: Key)
    ensures ViewOf(log + [e], key) == if e.key == key then After(ViewOf(log, key), e) else ViewOf(log, key)
  {
    assert (log + [e])[..|log|] == log;
  }

  // ----- the discipline -------------------------------------------------------------------

  function Sightings(v: View): seq<Sighting> {
    if v.seen.Some? then v.seen.value.sightings else []
  }

  /** The observation an intent rests on. */
  predicate MayRecord(key: Key, v: View, request: Request, before: Snapshot) {
    && v.journal.None? && v.seen.Some? && v.seen.value.asked == request.hashes
    && Prepared(key, request)
    && var seen := Sightings(v);
       match key.kind
       case Add => seen == [] && before == Absent(request.hashes)
       case Recheck => SoleOwned(request, seen) && seen[0].torrent.Stopped()
         && before == SnapshotOf(seen[0], request.tag)
       case Start =>
         SoleOwned(request, seen) && seen[0].torrent.VerificationComplete()
           && before == SnapshotOf(seen[0], request.tag)
       case Remove =>
         if seen == [] then before == Absent(request.hashes)
         else SoleOwned(request, seen) && before == SnapshotOf(seen[0], request.tag)
  }

  /** The observation a command rests on. */
  predicate Guarded(request: Request, command: Command, o: Observation) {
    match command
    case AddTorrent => o == Observation(request.hashes, [])
    case StopTorrent(h) => SoleOwned(request, o.sightings) && o.sightings[0].hash == h
      && !o.sightings[0].torrent.Stopped()
    case RecheckTorrent(h) =>
      SoleOwned(request, o.sightings) && o.sightings[0].hash == h && o.sightings[0].torrent.Stopped()
    case StartTorrent(h) =>
      SoleOwned(request, o.sightings) && o.sightings[0].hash == h && o.sightings[0].torrent.VerificationComplete()
    case RemoveTorrent(h) =>
      SoleOwned(request, o.sightings) && o.sightings[0].hash == h && o.sightings[0].torrent.Stopped()
  }

  predicate BelongsTo(command: Command, kind: Kind) {
    match command
    case AddTorrent => kind.Add?
    case StopTorrent(_) => kind.Add? || kind.Remove?
    case RecheckTorrent(_) => kind.Recheck?
    case StartTorrent(_) => kind.Start?
    case RemoveTorrent(_) => kind.Remove?
  }

  predicate MaySend(key: Key, v: View, command: Command) {
    && v.journal.Some? && v.journal.value.status.IntentRecorded?
    && BelongsTo(command, key.kind)
    && v.seen.Some? && Guarded(v.journal.value.request, command, v.seen.value)
    && !(command.RecheckTorrent? && v.rechecked)
  }

  /** The observation that lets an intent become APPLIED. */
  predicate Confirms(key: Key, v: View, j: Journal, after: Snapshot) {
    var seen := Sightings(v);
    && v.seen.Some?
    && match key.kind
       case Add => SoleOwned(j.request, seen) && seen[0].torrent.Stopped()
         && after == SnapshotOf(seen[0], j.request.tag)
       case Recheck =>
         && SoleOwned(j.request, seen) && after == SnapshotOf(seen[0], j.request.tag)
         && (v.sent == Some(RecheckTorrent(seen[0].hash)) || ProvesRechecked(j.before, seen[0].torrent))
       case Start => SoleOwned(j.request, seen) && seen[0].torrent.Seeding()
         && after == SnapshotOf(seen[0], j.request.tag)
       case Remove =>
         && v.seen.value == Observation(j.request.hashes, []) && after == Gone(j.request.hashes)
         && !(j.before.Absent? && v.recordedHere)
  }

  predicate MayMoveJournal(key: Key, v: View, from: Status, to: Status, after: Option<Snapshot>) {
    && v.journal.Some? && v.journal.value.status == from && MayMove(from, to)
    && (to.Applied? <==> after.Some?)
    && match to
       case Applied => from.IntentRecorded? && Confirms(key, v, v.journal.value, after.value)
       case Noop =>
         from.IntentRecorded? && key.kind.Remove? && v.journal.value.before.Absent? && v.recordedHere
         && v.seen == Some(Observation(v.journal.value.request.hashes, []))
       case ReconcileRequired => true
       case _ => false
  }

  predicate ReconciledPostcondition(kind: Kind, t: Torrent) {
    match kind
    case Add => t.Stopped()
    case Recheck => t.Checking() || t.VerificationComplete() || t.VerificationIncomplete()
    case Start => t.Seeding()
    case Remove => false
  }

  /** What the reconciler needs before it restores a journal: the postcondition holds of the
      owned torrent now, and either a completion was proved before or, for an add, there was
      one possible torrent and it was absent when the intent was recorded. */
  predicate MayRestore(key: Key, v: View, after: Snapshot) {
    && v.journal.Some? && v.journal.value.status.ReconcileRequired?
    && v.glimpse.Some?
    && var j, seen := v.journal.value, v.glimpse.value;
       && SoleOwned(j.request, seen) && ReconciledPostcondition(key.kind, seen[0].torrent)
       && if j.after.Some? then after == j.after.value && after.Present? && after.hash == seen[0].hash
          else
            && key.kind.Add? && j.before == Absent(j.request.hashes) && |j.request.hashes| == 1
            && after == SnapshotOf(seen[0], j.request.tag)
  }

  predicate Allowed(v: View, e: Event) {
    match e
    case Began(_) => true
    case Observed(_, _) => v.polls.Some? ==> v.polls.value < STOP_CONFIRM_ATTEMPTS
    case Recorded(key, request, before) => MayRecord(key, v, request, before)
    case Sent(key, command) => MaySend(key, v, command)
    case Moved(key, from, to, after) => MayMoveJournal(key, v, from, to, after)
    case Glimpsed(_, _) => true
    case Restored(key, proof) => MayRestore(key, v, proof)
  }

  ghost predicate Disciplined(log: Log) {
    forall i :: 0 <= i < |log| ==> Allowed(ViewOf(log[..i], log[i].key), log[i])
  }

  lemma DisciplinedStep(log: Log, e: Event)
    requires Disciplined(log) && Allowed(ViewOf(log, e.key), e)
    ensures Disciplined(log + [e])
  {
    var next := log + [e];
    forall i | 0 <= i < |next| ensures Allowed(ViewOf(next[..i], next[i].key), next[i]) {
      if i < |log| {
        assert next[..i] == log[..i] && next[i] == log[i];
      } else {
        assert next[..i] == log;
      }
    }
  }

  lemma AllowedAt(log: Log, i: nat)
    requires Disciplined(log) && i < |log|
    ensures Allowed(ViewOf(log[..i], log[i].key), log[i])
    ensures ViewOf(log[..i + 1], log[i].key) == After(ViewOf(log[..i], log[i].key), log[i])
    ensures forall key :: key != log[i].key ==> ViewOf(log[..i + 1], key) == ViewOf(log[..i], key)
  {
    assert log[..i + 1] == log[..i] + [log[i]];
    forall key ensures ViewOf(log[..i + 1], key) == if log[i].key == key then After(ViewOf(log[..i], key), log[i])
      else ViewOf(log[..i], key) {
      ViewStep(log[..i], log[i], key);
    }
  }

  // ----- silence after intent -------------------------------------------------------------

  ghost predicate LeftIntentAt(log: Log, i: nat, key: Key) {
    i < |log| && log[i].key == key && log[i].Moved? && log[i].from.IntentRecorded?
  }

  predicate PastIntent(v: View) {
    v.journal.Some? && !v.journal.value.status.IntentRecorded?
  }

  lemma {:induction false} StaysPastIntent(log: Log, i: nat, key: Key, j: nat)
    requires Disciplined(log) && LeftIntentAt(log, i, key) && i < j <= |log|
    ensures PastIntent(ViewOf(log[..j], key))
    decreases j
  {
    hide Disciplined, ViewOf, Guarded, Confirms, SoleOwned;
    AllowedAt(log, j - 1);
    if j - 1 > i {
      StaysPastIntent(log, i, key, j - 1);
    }
  }

  /** Once a journal has left INTENT_RECORDED it never returns there, its intent is not recorded
      again, and no command of any kind is sent for its key. */
  lemma SilenceAfterIntent(log: Log, i: nat, key: Key, j: nat)
    requires Disciplined(log) && LeftIntentAt(log, i, key) && i < j < |log| && log[j].key == key
    ensures !log[j].Sent? && !log[j].Recorded?
    ensures log[j].Moved? ==> !log[j].from.IntentRecorded? && !log[j].to.IntentRecorded?
  {
    hide Disciplined, ViewOf, Guarded, Confirms;
    StaysPastIntent(log, i, key, j);
    AllowedAt(log, j);
  }

  lemma {:induction false} StaysRechecked(log: Log, i: nat, key: Key, j: nat)
    requires Disciplined(log) && i < |log| && log[i].key == key && log[i].Sent? && log[i].command.RecheckTorrent?
    requires i < j <= |log|
    ensures ViewOf(log[..j], key).rechecked
    decreases j
  {
    hide Disciplined, ViewOf, MayRecord, Guarded, Confirms, MayRestore;
    AllowedAt(log, j - 1);
    if j - 1 > i {
      StaysRechecked(log, i, key, j - 1);
    }
  }

  /** Over all executions of a key, at most one recheck is sent. */
  lemma AtMostOneRecheck(log: Log, i: nat, j: nat)
    requires Disciplined(log) && i < j < |log| && log[i].key == log[j].key
    requires log[i].Sent? && log[i].command.RecheckTorrent?
    ensures !(log[j].Sent? && log[j].command.RecheckTorrent?)
  {
    hide Disciplined, ViewOf, Guarded;
    StaysRechecked(log, i, log[i].key, j);
    AllowedAt(log, j);
  }

  // ----- commands rest on observations and on intents -------------------------------------

  ghost predicate LastObserved(log: Log, key: Key, i: nat, o: Observation) {
    && i < |log| && log[i] == Observed(key, o)
    && forall j :: i < j < |log| && log[j].key == key ==> !log[j].Began? && !log[j].Observed? && !log[j].Sent?
  }

  lemma {:induction false} SeenWasObserved(log: Log, key: Key) returns (i: nat)
    requires ViewOf(log, key).seen.Some?
    ensures LastObserved(log, key, i, ViewOf(log, key).seen.value)
  {
    var before, e := log[..|log| - 1], log[|log| - 1];
    assert log == before + [e];
    if e.key == key && e.Observed? {
      i := |log| - 1;
    } else {
      i := SeenWasObserved(before, key);
    }
  }

  ghost predicate RecordedAt(log: Log, key: Key, i: nat, request: Request, before: Snapshot) {
    i < |log| && log[i] == Recorded(key, request, before)
  }

  lemma {:induction false} JournalWasRecorded(log: Log, key: Key) returns (i: nat)
    requires ViewOf(log, key).journal.Some?
    ensures RecordedAt(log, key, i, ViewOf(log, key).journal.value.request, ViewOf(log, key).journal.value.before)
  {
    var before, e := log[..|log| - 1], log[|log| - 1];
    assert log == before + [e];
    if e.key == key && e.Recorded? {
      i := |log| - 1;
    } else {
      i := JournalWasRecorded(before, key);
    }
  }

  /** Every command is preceded by its durable intent and, in the same execution, by an
      observation that justifies it, with nothing sent or observed for the key in between. */
  lemma CommandsAreGuarded(log: Log, j: nat) returns (recorded: nat, observed: nat)
    requires Disciplined(log) && j < |log| && log[j].Sent?
    ensures recorded < j && log[recorded].Recorded? && log[recorded].key == log[j].key
    ensures observed < j && log[observed].Observed?
    ensures LastObserved(log[..j], log[j].key, observed, log[observed].observation)
    ensures Guarded(log[recorded].request, log[j].command, log[observed].observation)
    ensures BelongsTo(log[j].command, log[j].key.kind)
  {
    hide Disciplined, ViewOf, Guarded;
    AllowedAt(log, j);
    recorded := JournalWasRecorded(log[..j], log[j].key);
    observed := SeenWasObserved(log[..j], log[j].key);
  }

  /** How often the key was observed in the part of the log after `i`. */
  function ObservationsAfter(log: Log, key: Key, i: nat): nat
    requires i < |log|
    decreases |log|
  {
    if i == |log| - 1 then 0
    else
      var e := log[|log| - 1];
      ObservationsAfter(log[..|log| - 1], key, i) + if e.key == key && e.Observed? then 1 else 0
  }

  ghost predicate StopUnderWay(log: Log, key: Key, i: nat) {
    && i < |log| && log[i].key == key && log[i].Sent? && log[i].command.StopTorrent?
    && forall j :: i < j < |log| && log[j].key == key ==> !log[j].Began? && !log[j].Sent?
  }

  lemma {:induction false} PollsCountObservations(log: Log, key: Key, i: nat)
    requires StopUnderWay(log, key, i)
    ensures ViewOf(log, key).polls == Some(ObservationsAfter(log, key, i))
    decreases |log|
  {
    var before, e := log[..|log| - 1], log[|log| - 1];
    assert log == before + [e];
    ViewStep(before, e, key);
    if i < |log| - 1 {
      assert before[i] == log[i];
      PollsCountObservations(before, key, i);
    }
  }

  lemma {:induction false} PollsStayBounded(log: Log, key: Key, j: nat)
    requires Disciplined(log) && j <= |log|
    ensures ViewOf(log[..j], key).polls.Some? ==> ViewOf(log[..j], key).polls.value <= STOP_CONFIRM_ATTEMPTS
  {
    hide Disciplined, MayRecord, Guarded, Confirms, MayRestore;
    if j > 0 {
      PollsStayBounded(log, key, j - 1);
      AllowedAt(log, j - 1);
    }
  }

  /** A stop is confirmed, or given up, within ten observations. */
  lemma StopConfirmationIsBounded(log: Log, key: Key, i: nat)
    requires Disciplined(log) && StopUnderWay(log, key, i)
    ensures ObservationsAfter(log, key, i) <= STOP_CONFIRM_ATTEMPTS
  {
    PollsCountObservations(log, key, i);
    PollsStayBounded(log, key, |log|);
    assert log[..|log|] == log;
  }

  // ----- what APPLIED means ---------------------------------------------------------------

  /** The journal becomes APPLIED at `j`, by an execution or by the reconciler. */
  ghost predicate AppliedAt(log: Log, j: nat, key: Key) {
    j < |log| && log[j].key == key && ((log[j].Moved? && log[j].to.Applied?) || log[j].Restored?)
  }

  /** A torrent that carries the tag of an add was created by that add, which had been sent:
      nobody but the add hands out its tag. */
  ghost predicate Honest(log: Log) {
    forall i, s, key ::
      0 <= i < |log| && Saw(log[i], s) && Owned(key) in s.torrent.tags ==>
        s.torrent.origin == ByAdd(key) && AddSent(log[..i], key)
  }

  predicate Saw(e: Event, s: Sighting) {
    match e
    case Observed(_, o) => s in o.sightings
    case Glimpsed(_, sightings) => s in sightings
    case _ => false
  }

  ghost predicate AddSent(log: Log, key: Key) {
    exists i :: 0 <= i < |log| && log[i] == Sent(key, AddTorrent)
  }

  ghost predicate SawAt(log: Log, i: nat, s: Sighting) {
    i < |log| && Saw(log[i], s)
  }

  lemma {:induction false} GlimpseWasLogged(log: Log, key: Key) returns (i: nat)
    requires ViewOf(log, key).glimpse.Some?
    ensures i < |log| && log[i] == Glimpsed(key, ViewOf(log, key).glimpse.value)
  {
    var before, e := log[..|log| - 1], log[|log| - 1];
    assert log == before + [e];
    if e.key == key && e.Glimpsed? {
      i := |log| - 1;
    } else {
      i := GlimpseWasLogged(before, key);
    }
  }

  /** No foreign adoption.  Whenever an add becomes APPLIED, by execution or by reconciliation,
      the torrent it names was seen stopped, under the bound path and one of the expected
      hashes, and had been created by this very add; and the intent was recorded when none of
      the expected hashes was present, before the add was first sent. */
  lemma NoForeignAdoption(log: Log, j: nat, key: Key)
    returns (absent: nat, recorded: nat, sent: nat, seen: nat, s: Sighting)
    requires Disciplined(log) && Honest(log) && AppliedAt(log, j, key) && key.kind.Add?
    ensures absent < recorded < sent < seen < j
    ensures log[recorded].Recorded? && log[recorded].key == key && log[sent] == Sent(key, AddTorrent)
    ensures LastObserved(log[..recorded], key, absent, Observation(log[recorded].request.hashes, []))
    ensures SawAt(log, seen, s) && log[seen].key == key && s.torrent.origin == ByAdd(key) && s.torrent.Stopped()
    ensures s.hash in log[recorded].request.hashes && s.torrent.path == log[recorded].request.path
    ensures var proof := if log[j].Restored? then log[j].proof else log[j].after.value;
            proof.Present? && proof.hash == s.hash
  {
    hide Honest, Disciplined, AddSent, ViewOf, LastObserved;
    recorded, seen, s := AddAppliedOnOwned(log, j, key);
    sent := TaggedMeansSent(log, seen, s, key);
    var earlier := RecordedBeforeSent(log, sent, key);
    RecordedOnce(log, earlier, recorded, key);
    absent := SeenWasObserved(log[..recorded], key);
    assert absent < recorded by {
      ObservedBefore(log[..recorded], key, absent, Observation(log[recorded].request.hashes, []));
    }
  }

  lemma ObservedBefore(log: Log, key: Key, i: nat, o: Observation)
    requires LastObserved(log, key, i, o)
    ensures i < |log|
  {
  }

  lemma AddAppliedOnOwned(log: Log, j: nat, key: Key) returns (recorded: nat, seen: nat, s: Sighting)
    requires Disciplined(log) && AppliedAt(log, j, key) && key.kind.Add?
    ensures recorded < j && log[recorded].Recorded? && log[recorded].key == key
    ensures seen < j && SawAt(log, seen, s) && log[seen].key == key && s.torrent.Stopped()
    ensures SoleOwned(log[recorded].request, [s]) && log[recorded].request.tag == Owned(key)
    ensures var proof := if log[j].Restored? then log[j].proof else log[j].after.value;
            proof.Present? && proof.hash == s.hash
  {
    hide Disciplined, ViewOf;
    AllowedAt(log, j);
    recorded := JournalWasRecorded(log[..j], key);
    AllowedAt(log, recorded);
    if log[j].Restored? {
      seen := GlimpseWasLogged(log[..j], key);
      s := ViewOf(log[..j], key).glimpse.value[0];
    } else {
      seen := SeenWasObserved(log[..j], key);
      s := Sightings(ViewOf(log[..j], key))[0];
    }
  }

  lemma TaggedMeansSent(log: Log, seen: nat, s: Sighting, key: Key) returns (sent: nat)
    requires Honest(log) && SawAt(log, seen, s) && Owned(key) in s.torrent.tags
    ensures sent < seen && log[sent] == Sent(key, AddTorrent) && s.torrent.origin == ByAdd(key)
  {
    sent :| 0 <= sent < seen && log[..seen][sent] == Sent(key, AddTorrent);
  }

  lemma RecordedBeforeSent(log: Log, sent: nat, key: Key) returns (recorded: nat)
    requires Disciplined(log) && sent < |log| && log[sent].Sent? && log[sent].key == key && key.kind.Add?
    ensures recorded < sent && log[recorded].Recorded? && log[recorded].key == key
    ensures ViewOf(log[..recorded], key).seen == Some(Observation(log[recorded].request.hashes, []))
  {
    hide Disciplined, ViewOf;
    AllowedAt(log, sent);
    recorded := JournalWasRecorded(log[..sent], key);
    AllowedAt(log, recorded);
  }

  lemma {:induction false} StaysRecorded(log: Log, i: nat, key: Key, j: nat)
    requires Disciplined(log) && i < j <= |log| && log[i].Recorded? && log[i].key == key
    ensures ViewOf(log[..j], key).journal.Some?
    decreases j
  {
    hide Disciplined, ViewOf, Guarded, Confirms, SoleOwned;
    AllowedAt(log, j - 1);
    if j - 1 > i {
      StaysRecorded(log, i, key, j - 1);
    }
  }

  /** An intent is recorded at most once per key. */
  lemma RecordedOnce(log: Log, i: nat, j: nat, key: Key)
    requires Disciplined(log) && i < |log| && j < |log|
    requires log[i].Recorded? && log[i].key == key && log[j].Recorded? && log[j].key == key
    ensures i == j
  {
    hide Disciplined, ViewOf, Guarded, Confirms;
    if i < j {
      StaysRecorded(log, i, key, j);
      AllowedAt(log, j);
    } else if j < i {
      StaysRecorded(log, j, key, i);
      AllowedAt(log, i);
    }
  }

  /** The removal journal says that the torrent is gone, from `j` on. */
  ghost predicate RemovalConfirmedAt(log: Log, j: nat, key: Key) {
    j < |log| && log[j].Moved? && log[j].key == key && key.kind.Remove? && (log[j].to.Applied? || log[j].to.Noop?)
  }

  /** The removal of the recorded request looked for its torrent and found nothing, just before
      the journal was closed at `j`. */
  ghost predicate SawAbsent(log: Log, j: nat, key: Key, recorded: nat, seen: nat) {
    && recorded < j <= |log| && log[recorded].Recorded? && log[recorded].key == key
    && seen < j && log[seen].Observed? && log[seen].observation == Observation(log[recorded].request.hashes, [])
    && LastObserved(log[..j], key, seen, log[seen].observation)
  }

  /** A removal is APPLIED or NOOP only after the torrent was looked for and not found, with
      nothing sent or observed for the key since. */
  lemma RemovalMeansSeenAbsent(log: Log, j: nat, key: Key) returns (recorded: nat, seen: nat)
    requires Disciplined(log) && RemovalConfirmedAt(log, j, key)
    ensures SawAbsent(log, j, key, recorded, seen)
  {
    hide Disciplined, ViewOf;
    AllowedAt(log, j);
    recorded := JournalWasRecorded(log[..j], key);
    seen := SeenWasObserved(log[..j], key);
  }

  /** Another execution of the key began after `i` and before `j`. */
  ghost predicate BeganBetween(log: Log, key: Key, i: nat, j: nat)
    requires j <= |log|
  {
    exists n: nat :: i < n < j && log[n] == Began(key)
  }

  lemma {:induction false} RecordedHereMeans(log: Log, key: Key, recorded: nat, n: nat)
    requires Disciplined(log) && recorded < n <= |log| && log[recorded].Recorded? && log[recorded].key == key
    ensures ViewOf(log[..n], key).recordedHere <==> !BeganBetween(log, key, recorded, n)
    decreases n
  {
    hide Disciplined, ViewOf, Allowed;
    AllowedAt(log, n - 1);
    if recorded < n - 1 {
      RecordedHereMeans(log, key, recorded, n - 1);
      if log[n - 1].Recorded? && log[n - 1].key == key {
        RecordedOnce(log, recorded, n - 1, key);
      }
      assert BeganBetween(log, key, recorded, n) <==>
        BeganBetween(log, key, recorded, n - 1) || log[n - 1] == Began(key);
    }
  }

  /** A removal whose torrent was absent when its intent was recorded, and which is closed without
      being quarantined, ends NOOP exactly when the execution that recorded the intent also closed
      it.  As soon as another execution began in between, it ends APPLIED. */
  lemma NoopIffUninterrupted(log: Log, key: Key, recorded: nat, j: nat)
    requires Disciplined(log) && key.kind.Remove? && recorded < |log|
    requires log[recorded].Recorded? && log[recorded].key == key && log[recorded].before.Absent?
    requires LeftIntentAt(log, j, key) && !log[j].to.ReconcileRequired?
    ensures recorded < j
    ensures log[j].to.Noop? <==> !BeganBetween(log, key, recorded, j)
    ensures log[j].to.Applied? <==> BeganBetween(log, key, recorded, j)
  {
    hide Disciplined, ViewOf;
    AllowedAt(log, j);
    var i := JournalWasRecorded(log[..j], key);
    RecordedOnce(log, i, recorded, key);
    RecordedHereMeans(log, key, recorded, j);
  }

  /** A removal journal that is APPLIED or NOOP became so at some point. */
  lemma {:induction false} RemovalWasConfirmed(log: Log, key: Key, n: nat) returns (j: nat)
    requires Disciplined(log) && n <= |log| && key.kind.Remove? && ViewOf(log[..n], key).journal.Some?
    requires ViewOf(log[..n], key).journal.value.status.Applied? || ViewOf(log[..n], key).journal.value.status.Noop?
    ensures j < n && RemovalConfirmedAt(log, j, key)
  {
    hide Disciplined, Guarded, Confirms, SoleOwned;
    AllowedAt(log, n - 1);
    if RemovalConfirmedAt(log, n - 1, key) {
      j := n - 1;
    } else {
      j := RemovalWasConfirmed(log, key, n - 1);
    }
  }

  /** The add became APPLIED at `j`, was recorded for the same task and plan, and the removal names
      its tag, its path and one of its hashes. */
  ghost predicate Authorizes(log: Log, j: nat, recorded: nat, add: Key, key: Key, request: Request) {
    && AppliedAt(log, j, add) && add.kind.Add? && add.downloader == key.downloader && request.tag == Owned(add)
    && recorded < |log| && log[recorded].Recorded? && log[recorded].key == add
    && var adding := log[recorded].request;
       && adding.task == request.task && adding.plan == request.plan && adding.path == request.path
       && |request.hashes| == 1 && request.hashes[0] in adding.hashes
  }

  /** A removal was authorised by an add that had become APPLIED. */
  ghost predicate AuthorizedBy(log: Log, key: Key, request: Request) {
    exists j: nat, recorded: nat, add :: Authorizes(log, j, recorded, add, key, request)
  }

  ghost predicate RemovalsAuthorized(log: Log) {
    forall i :: 0 <= i < |log| && log[i].Recorded? && log[i].key.kind.Remove? ==>
      AuthorizedBy(log[..i], log[i].key, log[i].request)
  }

  ghost predicate RemovesOwn(log: Log, j: nat, add: Key, seen: nat) {
    && j < |log| && log[j].Sent? && log[j].command.RemoveTorrent?
    && add.kind.Add? && add.downloader == log[j].key.downloader
    && (exists i: nat :: i < j && AppliedAt(log, i, add))
    && seen < j && log[seen].Observed? && LastObserved(log[..j], log[j].key, seen, log[seen].observation)
    && |log[seen].observation.sightings| == 1
    && var s := log[seen].observation.sightings[0];
       s.hash == log[j].command.hash && s.torrent.origin == ByAdd(add) && s.torrent.Stopped()
  }

  /** A remove command only ever goes out for a torrent that an add of the same downloader, by
      then APPLIED, had created, and that was just seen stopped. */
  lemma RemovalsActOnOwnTorrents(log: Log, j: nat) returns (add: Key, seen: nat)
    requires Disciplined(log) && Honest(log) && RemovalsAuthorized(log)
    requires j < |log| && log[j].Sent? && log[j].command.RemoveTorrent?
    ensures RemovesOwn(log, j, add, seen)
  {
    hide Disciplined, Honest, ViewOf, LastObserved, RemovalsAuthorized, AuthorizedBy;
    var recorded: nat;
    recorded, seen := CommandsAreGuarded(log, j);
    var applied: nat;
    add, applied := AuthorizingAdd(log, recorded);
    var s := log[seen].observation.sightings[0];
    var sent := TaggedMeansSent(log, seen, s, add);
    assert AppliedAt(log, applied, add);
  }

  lemma AuthorizingAdd(log: Log, recorded: nat) returns (add: Key, applied: nat)
    requires RemovalsAuthorized(log) && recorded < |log| && log[recorded].Recorded? && log[recorded].key.kind.Remove?
    ensures add.kind.Add? && add.downloader == log[recorded].key.downloader && log[recorded].request.tag == Owned(add)
    ensures applied < recorded && AppliedAt(log, applied, add)
  {
    assert AuthorizedBy(log[..recorded], log[recorded].key, log[recorded].request);
    var r: nat;
    applied, r, add :| Authorizes(log[..recorded], applied, r, add, log[recorded].key, log[recorded].request);
  }

  // ----- what reconciliation can restore --------------------------------------------------

  ghost predicate QuarantinedUnproved(log: Log, i: nat, key: Key) {
    LeftIntentAt(log, i, key) && log[i].to.ReconcileRequired?
  }

  lemma {:induction false} StaysUnproved(log: Log, i: nat, key: Key, j: nat)
    requires Disciplined(log) && QuarantinedUnproved(log, i, key) && i < j <= |log|
    requires key.kind.Recheck? || key.kind.Start?
    ensures var v := ViewOf(log[..j], key);
            v.journal.Some? && v.journal.value.status.ReconcileRequired? && v.journal.value.after.None?
    decreases j
  {
    hide Disciplined, ViewOf, Guarded, Confirms, SoleOwned;
    AllowedAt(log, j - 1);
    if j - 1 > i {
      StaysUnproved(log, i, key, j - 1);
    } else {
      IntentHasNoProof(log, i, key);
    }
  }

  lemma {:induction false} IntentHasNoProof(log: Log, i: nat, key: Key)
    requires Disciplined(log) && i <= |log|
    ensures var v := ViewOf(log[..i], key);
            v.journal.Some? && v.journal.value.status.IntentRecorded? ==> v.journal.value.after.None?
  {
    hide Disciplined, MayRecord, Guarded, Confirms, SoleOwned;
    if i > 0 {
      IntentHasNoProof(log, i - 1, key);
      AllowedAt(log, i - 1);
    }
  }

  /** A recheck or a start that went from its intent straight to RECONCILE_REQUIRED is never
      APPLIED, whatever follows. */
  lemma UnprovedIsNeverApplied(log: Log, i: nat, key: Key, j: nat)
    requires Disciplined(log) && QuarantinedUnproved(log, i, key) && i < j < |log|
    requires key.kind.Recheck? || key.kind.Start?
    ensures !AppliedAt(log, j, key)
  {
    hide Disciplined, ViewOf, Guarded, Confirms, SoleOwned;
    if AppliedAt(log, j, key) {
      StaysUnproved(log, i, key, j);
      AllowedAt(log, j);
    }
  }

  /** An add that was never proved is restored only when it had one possible torrent, recorded
      absent, which is now seen owned and stopped. */
  lemma AddRestoredWithoutProof(log: Log, j: nat) returns (recorded: nat, seen: nat)
    requires Disciplined(log) && j < |log| && log[j].Restored?
    requires ViewOf(log[..j], log[j].key).journal.Some? && ViewOf(log[..j], log[j].key).journal.value.after.None?
    ensures log[j].key.kind.Add? && recorded < j && seen < j
    ensures log[recorded].Recorded? && log[recorded].key == log[j].key
    ensures |log[recorded].request.hashes| == 1 && log[recorded].before == Absent(log[recorded].request.hashes)
    ensures log[seen].Glimpsed? && log[seen].key == log[j].key && SoleOwned(log[recorded].request, log[seen].sightings)
    ensures log[seen].sightings[0].torrent.Stopped()
    ensures log[j].proof == SnapshotOf(log[seen].sightings[0], log[recorded].request.tag)
  {
    hide Disciplined, ViewOf;
    AllowedAt(log, j);
    recorded := JournalWasRecorded(log[..j], log[j].key);
    seen := GlimpseWasLogged(log[..j], log[j].key);
  }

  /** Any other restored journal had been APPLIED by an execution before, with the proof it is
      restored with. */
  lemma RestoredProofWasConfirmed(log: Log, j: nat) returns (i: nat)
    requires Disciplined(log) && j < |log| && log[j].Restored?
    requires ViewOf(log[..j], log[j].key).journal.Some? && ViewOf(log[..j], log[j].key).journal.value.after.Some?
    ensures i < j && AppliedAt(log, i, log[j].key)
    ensures log[j].proof == if log[i].Restored? then log[i].proof else log[i].after.value
  {
    AllowedAt(log, j);
    i := ProofWasApplied(log, j, log[j].key);
  }

  lemma {:induction false} ProofWasApplied(log: Log, j: nat, key: Key) returns (i: nat)
    requires Disciplined(log) && j <= |log|
    requires ViewOf(log[..j], key).journal.Some? && ViewOf(log[..j], key).journal.value.after.Some?
    ensures i < j && AppliedAt(log, i, key)
    ensures ViewOf(log[..j], key).journal.value.after == if log[i].Restored? then Some(log[i].proof) else log[i].after
  {
    hide Disciplined, Guarded, Confirms, SoleOwned;
    AllowedAt(log, j - 1);
    if AppliedAt(log, j - 1, key) {
      i := j - 1;
    } else {
      i := ProofWasApplied(log, j - 1, key);
    }
  }
}
