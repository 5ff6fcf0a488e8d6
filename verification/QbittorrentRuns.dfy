/** Runs of the qBittorrent system, label by label.  A removal that finds its torrent gone ends NOOP
    when it is left alone and APPLIED when the process dies at the wrong moment, although no command
    is sent in either run. */
module QbittorrentRuns {
  import opened OperationJournal
  import opened QbittorrentLog
  import opened QbittorrentSystem
  import opened Wrappers

  const NOTHING := State(map[], map[], {}, [])

  lemma Nothing()
    ensures Execute(NOTHING, []) == NOTHING && Initial(NOTHING)
  {
  }

  predicate OnlyOf(log: Log, key: Key) {
    forall i :: 0 <= i < |log| ==> log[i].key == key
  }

  predicate SendsNothing(log: Log, key: Key) {
    forall i :: 0 <= i < |log| && log[i].key == key ==> !log[i].Sent?
  }

  lemma OnlyOfMore(log: Log, e: Event, key: Key)
    requires OnlyOf(log, key) && e.key == key
    ensures OnlyOf(log + [e], key)
  {
  }

  lemma OthersSendNothing(log: Log, add: Key, key: Key)
    requires OnlyOf(log, add) && key != add
    ensures SendsNothing(log, key)
  {
  }

  lemma SendsNothingMore(log: Log, more: Log, key: Key)
    requires SendsNothing(log, key) && SendsNothing(more, key)
    ensures SendsNothing(log + more, key)
  {
  }

  /** One more label on one key. */
  lemma Then(s: State, labels: seq<Label>, key: Key, act: Act, next: Cell, event: Option<Event>)
    requires Enabled(Execute(s, labels), Do(key, act))
    requires Perform(key, Execute(s, labels).CellOf(key), act) == Outcome(next, event)
    ensures var before, after := Execute(s, labels), Execute(s, labels + [Do(key, act)]);
            && after.CellOf(key) == next
            && after.log == (if event.Some? then before.log + [event.value] else before.log)
            && after.clients == before.clients && after.authorized == before.authorized
            && forall other :: other != key ==> after.CellOf(other) == before.CellOf(other)
  {
    assert (labels + [Do(key, act)])[..|labels|] == labels;
  }

  lemma ThenOutside(s: State, labels: seq<Label>, downloader: DownloaderId, client: Client)
    requires HonestClient(Execute(s, labels).log, client)
    ensures var before, after := Execute(s, labels), Execute(s, labels + [Outside(downloader, client)]);
            after.ClientOf(downloader) == client && after.log == before.log && after.cells == before.cells
            && after.authorized == before.authorized
  {
    assert (labels + [Outside(downloader, client)])[..|labels|] == labels;
  }

  lemma ThenAuthorize(s: State, labels: seq<Label>, key: Key, request: Request, add: Key)
    requires AddAuthorizes(Execute(s, labels), key, request, add)
    ensures var before, after := Execute(s, labels), Execute(s, labels + [Authorize(key, request, add)]);
            (key, request) in after.authorized && after.log == before.log && after.cells == before.cells
              && after.clients == before.clients
  {
    assert (labels + [Authorize(key, request, add)])[..|labels|] == labels;
  }

  // ----- finding nothing ------------------------------------------------------------------

  /** Begin, look, and record that no torrent was there. */
  function Opening(key: Key, request: Request): seq<Label> {
    [Do(key, Begin(request)), Do(key, Receive(Returned([]))), Do(key, Resume)]
  }

  ghost predicate Ready(s: State, key: Key, request: Request) {
    && (key.kind.Add? || (key.kind.Remove? && (key, request) in s.authorized))
    && Prepared(key, request) && s.ClientOf(key.downloader) == map[]
  }

  lemma OpensAbsent(s: State, labels: seq<Label>, key: Key, request: Request)
    requires Ready(Execute(s, labels), key, request) && Execute(s, labels).CellOf(key) == BLANK
    ensures var before, after := Execute(s, labels), Execute(s, labels + Opening(key, request));
            var recorded := Journal(request, IntentRecorded, Absent(request.hashes), None);
            var pc := if key.kind.Add? then Send(AddTorrent) else CommitNoop;
            && after.CellOf(key) == Cell(Some(recorded), Some(Run(request, None, pc, None)), None)
            && after.clients == before.clients && after.authorized == before.authorized
            && (forall other :: other != key ==> after.CellOf(other) == before.CellOf(other))
            && after.log == before.log + [Began(key), Observed(key, Observation(request.hashes, [])),
                                          Recorded(key, request, Absent(request.hashes))]
  {
    hide Execute, Step, Prepared, Perform;
    var opening := Opening(key, request);
    var look := Run(request, None, Look, None);
    var recorded := Journal(request, IntentRecorded, Absent(request.hashes), None);
    LookSteps(key, request);
    var pc := if key.kind.Add? then Send(AddTorrent) else CommitNoop;
    assert labels + opening[..1] == labels + [opening[0]]
      && labels + opening[..2] == labels + opening[..1] + [opening[1]];
    assert labels + opening == labels + opening[..2] + [opening[2]];
    Then(s, labels, key, Begin(request), Cell(None, Some(look), None), Some(Began(key)));
    Then(s, labels + opening[..1], key, Receive(Returned([])),
      Cell(None, Some(look.(answer := Some(Returned([])))), None),
         Some(Observed(key, Observation(request.hashes, []))));
    Then(s, labels + opening[..2], key, Resume, Cell(Some(recorded), Some(Run(request, None, pc, None)), None),
         Some(Recorded(key, request, Absent(request.hashes))));
  }

  lemma LookSteps(key: Key, request: Request)
    requires Prepared(key, request) && (key.kind.Add? || key.kind.Remove?)
    ensures var look := Run(request, None, Look, None);
            var answered := look.(answer := Some(Returned([])));
            var recorded := Journal(request, IntentRecorded, Absent(request.hashes), None);
            var pc := if key.kind.Add? then Send(AddTorrent) else CommitNoop;
            && Perform(key, BLANK, Begin(request)) == Outcome(Cell(None, Some(look), None), Some(Began(key)))
            && Perform(key, Cell(None, Some(look), None), Receive(Returned([])))
            == Outcome(Cell(None, Some(answered), None), Some(Observed(key, Observation(request.hashes, []))))
            && Perform(key, Cell(None, Some(answered), None), Resume)
            == Outcome(Cell(Some(recorded), Some(Run(request, None, pc, None)), None),
              Some(Recorded(key, request, Absent(request.hashes))))
  {
  }

  // ----- the add that authorises the removal ----------------------------------------------

  /** The removal is of the torrent that the add has added. */
  predicate Removes(key: Key, request: Request, add: Key, adding: Request) {
    && key.kind.Remove? && add.kind.Add? && add.downloader == key.downloader
    && Prepared(key, request) && Prepared(add, adding)
    && adding.task == request.task && adding.plan == request.plan && adding.hashes == request.hashes
    && adding.path == request.path && adding.tag == request.tag
  }

  /** The torrent the add makes, as the client shows it. */
  function Added(add: Key, adding: Request): Sighting
    requires adding.hashes != []
  {
    Sighting(adding.hashes[0], Torrent(adding.path, {Owned(add)}, StoppedDL, 0.0, ByAdd(add)))
  }

  /** The add is sent and its torrent appears. */
  function Sending(add: Key, adding: Request): seq<Label>
    requires adding.hashes != []
  {
    Opening(add, adding) + [Do(add, Transmit),
      Outside(add.downloader, map[Added(add, adding).hash := Added(add, adding).torrent])]
  }

  /** The add is confirmed. */
  function Confirming(add: Key, adding: Request): seq<Label>
    requires adding.hashes != []
  {
    [Do(add, Respond(Accepted)), Do(add, Receive(Returned([Added(add, adding)]))), Do(add, Resume)]
  }

  /** An outsider takes the torrent away, and the removal is authorised. */
  function Authorizing(key: Key, request: Request, add: Key): seq<Label> {
    [Outside(add.downloader, map[]), Authorize(key, request, add)]
  }

  lemma AddIsSent(key: Key, request: Request, add: Key, adding: Request)
    requires Removes(key, request, add, adding)
    ensures adding.hashes != []
    ensures var s := Execute(NOTHING, Sending(add, adding));
            && s.CellOf(add) == Cell(Some(Journal(adding, IntentRecorded, Absent(adding.hashes), None)),
                                     Some(Run(adding, None, Await(AddTorrent), None)), None)
            && s.CellOf(key) == BLANK && OnlyOf(s.log, add)
            && s.ClientOf(add.downloader) == map[Added(add, adding).hash := Added(add, adding).torrent]
  {
    Nothing();
    HasHash(add, adding);
    hide Execute, Step, Prepared, Perform, Opening, OnlyOf;
    var opening := Opening(add, adding);
    OpensAbsent(NOTHING, [], add, adding);
    assert [] + opening == opening;
    var recorded := Journal(adding, IntentRecorded, Absent(adding.hashes), None);
    var begun := Execute(NOTHING, opening);
    assert begun.CellOf(key) == NOTHING.CellOf(key) == BLANK;
    assert OnlyOf(begun.log, add) by {
      StartsWithAdd(add, begun.log, Observation(adding.hashes, []), adding);
    }
    TransmitStep(add, recorded);
    Then(NOTHING, opening, add, Transmit,
      Cell(Some(recorded), Some(Run(adding, None, Await(AddTorrent), None)), None), Some(Sent(add, AddTorrent)));
    OnlyOfMore(begun.log, Sent(add, AddTorrent), add);
    var s := Execute(NOTHING, opening + [Do(add, Transmit)]);
    assert s.log[3] == Sent(add, AddTorrent) && s.CellOf(key) == BLANK;
    ThenOutside(NOTHING, opening + [Do(add, Transmit)], add.downloader,
      map[Added(add, adding).hash := Added(add, adding).torrent]);
    assert Sending(add, adding) == opening + [Do(add, Transmit)] + [Sending(add, adding)[|opening| + 1]];
  }

  lemma StartsWithAdd(add: Key, log: Log, o: Observation, adding: Request)
    requires log == [Began(add), Observed(add, o), Recorded(add, adding, Absent(adding.hashes))]
    ensures OnlyOf(log, add)
  {
  }

  lemma HasHash(key: Key, request: Request)
    requires Prepared(key, request)
    ensures request.hashes != []
  {
  }

  lemma TransmitStep(add: Key, recorded: Journal)
    ensures Perform(add, Cell(Some(recorded), Some(Run(recorded.request, None, Send(AddTorrent), None)), None),
      Transmit)
         == Outcome(Cell(Some(recorded), Some(Run(recorded.request, None, Await(AddTorrent), None)), None),
           Some(Sent(add, AddTorrent)))
  {
  }

  lemma AddIsConfirmed(key: Key, request: Request, add: Key, adding: Request)
    requires Removes(key, request, add, adding)
    ensures adding.hashes != []
    ensures var s := Execute(NOTHING, Sending(add, adding) + Confirming(add, adding));
            var after := Some(SnapshotOf(Added(add, adding), adding.tag));
            && s.CellOf(add) == Cell(Some(Journal(adding, Applied, Absent(adding.hashes), after)), None, None)
            && s.CellOf(key) == BLANK && OnlyOf(s.log, add)
  {
    AddIsSent(key, request, add, adding);
    hide Execute, Step, Perform, Sending, Prepared, OnlyOf;
    ConfirmSteps(add, adding);
    var sent, labels, seen := Sending(add, adding), Confirming(add, adding), Added(add, adding);
    var recorded := Journal(adding, IntentRecorded, Absent(adding.hashes), None);
    var inspect := Run(adding, None, Inspect(AddTorrent), None);
    var after := Some(SnapshotOf(seen, adding.tag));
    assert sent + labels[..1] == sent + [labels[0]] && sent + labels[..2] == sent + labels[..1] + [labels[1]];
    assert sent + labels == sent + labels[..2] + [labels[2]];
    Then(NOTHING, sent, add, Respond(Accepted), Cell(Some(recorded), Some(inspect), None), None);
    assert Execute(NOTHING, sent + labels[..1]).CellOf(key) == BLANK;
    ListsOne(map[seen.hash := seen.torrent], adding.hashes);
    Then(NOTHING, sent + labels[..1], add, Receive(Returned([seen])),
         Cell(Some(recorded), Some(inspect.(answer := Some(Returned([seen])))), None),
           Some(Observed(add, Observation(adding.hashes, [seen]))));
    OnlyOfMore(Execute(NOTHING, sent).log, Observed(add, Observation(adding.hashes, [seen])), add);
    assert Execute(NOTHING, sent + labels[..2]).CellOf(key) == BLANK;
    Then(NOTHING, sent + labels[..2], add, Resume, Cell(Some(recorded.(status := Applied, after := after)), None, None),
         Some(Moved(add, IntentRecorded, Applied, after)));
    OnlyOfMore(Execute(NOTHING, sent + labels[..2]).log, Moved(add, IntentRecorded, Applied, after), add);
  }

  lemma ConfirmSteps(add: Key, adding: Request)
    requires Prepared(add, adding) && add.kind.Add?
    ensures adding.hashes != []
    ensures var seen := Added(add, adding);
            var recorded := Journal(adding, IntentRecorded, Absent(adding.hashes), None);
            var inspect := Run(adding, None, Inspect(AddTorrent), None);
            var answered := inspect.(answer := Some(Returned([seen])));
            var after := Some(SnapshotOf(seen, adding.tag));
            && Perform(add, Cell(Some(recorded), Some(inspect.(pc := Await(AddTorrent))), None), Respond(Accepted))
            == Outcome(Cell(Some(recorded), Some(inspect), None), None)
            && Perform(add, Cell(Some(recorded), Some(inspect), None), Receive(Returned([seen])))
            == Outcome(Cell(Some(recorded), Some(answered), None),
              Some(Observed(add, Observation(adding.hashes, [seen]))))
            && Perform(add, Cell(Some(recorded), Some(answered), None), Resume)
            == Outcome(Cell(Some(recorded.(status := Applied, after := after)), None, None),
              Some(Moved(add, IntentRecorded, Applied, after)))
  {
  }

  lemma ListsOne(client: Client, asked: seq<Hash>)
    requires |asked| == 1 && client.Keys == {asked[0]}
    ensures Lists([Sighting(asked[0], client[asked[0]])], client, asked)
  {
  }

  function Preparing(key: Key, request: Request, add: Key, adding: Request): seq<Label>
    requires adding.hashes != []
  {
    Sending(add, adding) + Confirming(add, adding) + Authorizing(key, request, add)
  }

  lemma RemovalIsReady(key: Key, request: Request, add: Key, adding: Request)
    requires Removes(key, request, add, adding)
    ensures adding.hashes != []
    ensures var s := Execute(NOTHING, Preparing(key, request, add, adding));
            Ready(s, key, request) && s.CellOf(key) == BLANK && OnlyOf(s.log, add)
  {
    AddIsConfirmed(key, request, add, adding);
    hide Execute, Step, AddSent, Perform, Sending, Confirming, OnlyOf;
    var confirmed, labels := Sending(add, adding) + Confirming(add, adding), Authorizing(key, request, add);
    assert confirmed + labels == confirmed + [labels[0]] + [labels[1]];
    ThenOutside(NOTHING, confirmed, add.downloader, map[]);
    ThenAuthorize(NOTHING, confirmed + [labels[0]], key, request, add);
  }

  // ----- the removal ----------------------------------------------------------------------

  lemma ReplaySteps(key: Key, recorded: Journal)
    requires Prepared(key, recorded.request) && key.kind.Remove? && recorded.status.IntentRecorded?
    ensures var look := Run(recorded.request, Some(recorded), Look, None);
            var answered := look.(answer := Some(Returned([])));
            var gone := Some(Gone(recorded.request.hashes));
            && Perform(key, Cell(Some(recorded), None, None), Begin(recorded.request))
            == Outcome(Cell(Some(recorded), Some(look), None), Some(Began(key)))
            && Perform(key, Cell(Some(recorded), Some(look), None), Receive(Returned([])))
            == Outcome(Cell(Some(recorded), Some(answered), None),
              Some(Observed(key, Observation(recorded.request.hashes, []))))
            && Perform(key, Cell(Some(recorded), Some(answered), None), Resume)
            == Outcome(Cell(Some(recorded.(status := Applied, after := gone)), None, None),
              Some(Moved(key, IntentRecorded, Applied, gone)))
  {
  }

  lemma CloseSteps(key: Key, recorded: Journal)
    requires recorded.status.IntentRecorded?
    ensures var closing := Cell(Some(recorded), Some(Run(recorded.request, None, CommitNoop, None)), None);
            && Perform(key, closing, Commit)
            == Outcome(Cell(Some(recorded.(status := Noop)), None, None), Some(Moved(key, IntentRecorded, Noop, None)))
            && Perform(key, closing, Crash) == Outcome(Cell(Some(recorded), None, None), None)
  {
  }

  lemma ReplaysAbsent(s: State, labels: seq<Label>, key: Key, recorded: Journal)
    requires key.kind.Remove? && Ready(Execute(s, labels), key, recorded.request) && recorded.status.IntentRecorded?
    requires Execute(s, labels).CellOf(key) == Cell(Some(recorded), None, None)
    ensures var before, after := Execute(s, labels), Execute(s, labels + Opening(key, recorded.request));
            var gone := Some(Gone(recorded.request.hashes));
            && after.CellOf(key) == Cell(Some(recorded.(status := Applied, after := gone)), None, None)
            && after.log == before.log + [Began(key), Observed(key, Observation(recorded.request.hashes, [])),
                                          Moved(key, IntentRecorded, Applied, gone)]
  {
    hide Execute, Step, Prepared, Perform;
    ReplaySteps(key, recorded);
    var request := recorded.request;
    var opening, gone := Opening(key, request), Some(Gone(request.hashes));
    var look := Run(request, Some(recorded), Look, None);
    assert labels + opening[..1] == labels + [opening[0]]
      && labels + opening[..2] == labels + opening[..1] + [opening[1]];
    assert labels + opening == labels + opening[..2] + [opening[2]];
    Then(s, labels, key, Begin(request), Cell(Some(recorded), Some(look), None), Some(Began(key)));
    Then(s, labels + opening[..1], key, Receive(Returned([])),
      Cell(Some(recorded), Some(look.(answer := Some(Returned([])))), None),
         Some(Observed(key, Observation(request.hashes, []))));
    Then(s, labels + opening[..2], key, Resume, Cell(Some(recorded.(status := Applied, after := gone)), None, None),
         Some(Moved(key, IntentRecorded, Applied, gone)));
  }

  /** For every removal and every add that authorises it there are two runs from an empty store,
      in which the add is confirmed, an outsider takes the torrent away, and the removal finds it
      gone.  In the first the removal closes its intent and ends NOOP.  In the second the process
      dies before it does, the replay finds the same, and the journal ends APPLIED.  In neither is
      anything sent for the removal's key. */
  lemma CrashTurnsNoopIntoApplied(key: Key, request: Request, add: Key, adding: Request)
    requires Removes(key, request, add, adding)
    ensures adding.hashes != [] && Initial(NOTHING)
    ensures var opening := Preparing(key, request, add, adding) + Opening(key, request);
            var alone := Execute(NOTHING, opening + [Do(key, Commit)]);
            var crashed := Execute(NOTHING, opening + [Do(key, Crash)] + Opening(key, request));
            && StatusIs(alone, key, Noop) && SendsNothing(alone.log, key)
            && StatusIs(crashed, key, Applied) && SendsNothing(crashed.log, key)
  {
    Nothing();
    RemovalIsReady(key, request, add, adding);
    hide Execute, Step, Prepared, Preparing, Perform, Opening, OnlyOf, SendsNothing;
    var before := Preparing(key, request, add, adding);
    var opening := before + Opening(key, request);
    var recorded := Journal(request, IntentRecorded, Absent(request.hashes), None);
    OthersSendNothing(Execute(NOTHING, before).log, add, key);
    CloseSteps(key, recorded);
    OpensAbsent(NOTHING, before, key, request);
    RecordingSendsNothing(key, Observation(request.hashes, []), request);
    SendsNothingMore(Execute(NOTHING, before).log,
                     [Began(key), Observed(key, Observation(request.hashes, [])),
                       Recorded(key, request, Absent(request.hashes))], key);
    Then(NOTHING, opening, key, Commit, Cell(Some(recorded.(status := Noop)), None, None),
      Some(Moved(key, IntentRecorded, Noop, None)));
    SendsNothingMore(Execute(NOTHING, opening).log, [Moved(key, IntentRecorded, Noop, None)], key);
    Then(NOTHING, opening, key, Crash, Cell(Some(recorded), None, None), None);
    ReplaysAbsent(NOTHING, opening + [Do(key, Crash)], key, recorded);
    SendsNothingMore(Execute(NOTHING, opening).log,
                     [Began(key), Observed(key, Observation(request.hashes, [])),
                      Moved(key, IntentRecorded, Applied, Some(Gone(request.hashes)))], key);
  }

  lemma RecordingSendsNothing(key: Key, o: Observation, request: Request)
    ensures SendsNothing([Began(key), Observed(key, o), Recorded(key, request, Absent(request.hashes))], key)
    ensures SendsNothing([Began(key), Observed(key, o),
      Moved(key, IntentRecorded, Applied, Some(Gone(request.hashes)))], key)
    ensures SendsNothing([Moved(key, IntentRecorded, Noop, None)], key)
  {
  }

  predicate StatusIs(s: State, key: Key, status: Status) {
    s.CellOf(key).journal.Some? && s.CellOf(key).journal.value.status == status
  }
}
