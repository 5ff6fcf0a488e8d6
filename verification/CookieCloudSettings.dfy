/** The CookieCloud settings record, the probes and syncs that are in flight while it is edited,
    and the connection status they leave in it. */
module CookieCloudSettings {
  import opened Wrappers

  type SecretId = nat

  datatype ConnectionStatus = Untested | Ok | Failed

  datatype Record = Record(
    version: nat,
    enabled: bool,
    server: string,
    uuid: string,
    secret: Option<SecretId>,
    timeout: nat,
    schedule: string,
    status: ConnectionStatus,
    testedAt: Option<nat>)
  {
    predicate Complete() {
      server != "" && uuid != "" && secret.Some?
    }
  }

  datatype PasswordAction = Keep | Set(password: string) | Clear

  datatype Change = Change(enabled: bool, server: string, uuid: string, timeout: nat, schedule: string,
    password: PasswordAction)

  /** Everything a fetch and a decryption depend on. */
  datatype Connection = Connection(server: string, uuid: string, password: string, timeout: nat)

  datatype Kind = Probe | Sync

  /** A probe or sync under way: the settings it read, the password once it is loaded, and
      whether fetching and decrypting succeeded once that is known. */
  datatype Attempt = Attempt(
    kind: Kind,
    version: nat,
    server: string,
    uuid: string,
    secret: SecretId,
    timeout: nat,
    startedAt: nat,
    password: Option<string>,
    outcome: Option<bool>)
  {
    function Used(): Connection
      requires password.Some?
    {
      Connection(server, uuid, password.value, timeout)
    }
  }

  /** The stored state, and what happened so far: every secret ever stored, and the connections
      some attempt proved or saw fail. */
  datatype World = World(
    record: Record,
    secrets: map<SecretId, string>,
    attempts: map<nat, Attempt>,
    issued: map<SecretId, string>,
    proved: set<Connection>,
    failed: set<Connection>)

  datatype Verdict = Done | Invalid | VersionConflict

  // ----- updates --------------------------------------------------------------------------

  function SecretAfter(r: Record, action: PasswordAction, unused: SecretId): Option<SecretId> {
    match action
    case Keep => r.secret
    case Set(_) => Some(unused)
    case Clear => None
  }

  predicate PasswordChanges(r: Record, action: PasswordAction) {
    action.Set? || (action.Clear? && r.secret.Some?)
  }

  predicate ConnectionChanges(r: Record, change: Change) {
    r.server != change.server || r.uuid != change.uuid || r.timeout != change.timeout
      || PasswordChanges(r, change.password)
  }

  function UpdateVerdict(w: World, change: Change, expected: nat, unused: SecretId): Verdict {
    if change.password.Set? && change.password.password == "" then Invalid
    else if w.record.version != expected then VersionConflict
    else if change.enabled
            && (change.server == "" || change.uuid == "" || SecretAfter(w.record, change.password, unused).None?)
    then Invalid
    else Done
  }

  function Updated(w: World, change: Change, expected: nat, unused: SecretId): World {
    if !UpdateVerdict(w, change, expected, unused).Done? then w
    else
      var r := w.record;
      var secret := SecretAfter(r, change.password, unused);
      var changed := ConnectionChanges(r, change);
      w.(record := Record(r.version + 1, change.enabled, change.server, change.uuid, secret, change.timeout,
        change.schedule,
                          if changed then Untested else r.status, if changed then None else r.testedAt),
         secrets := SecretsAfter(w.secrets, r.secret, secret, change.password, unused),
         issued := Put(w.issued, change.password, unused))
  }

  function Put(secrets: map<SecretId, string>, action: PasswordAction, unused: SecretId): map<SecretId, string> {
    if action.Set? then secrets[unused := action.password] else secrets
  }

  function SecretsAfter(secrets: map<SecretId, string>, before: Option<SecretId>, after: Option<SecretId>,
                        action: PasswordAction,
                        unused: SecretId): map<SecretId, string> {
    var stored := Put(secrets, action, unused);
    if before.Some? && before != after then stored - {before.value} else stored
  }

  /** What a save comes to, by what is stored before and after it. */
  ghost predicate SavedAs(before: World, after: World, verdict: Verdict, change: Change, expected: nat) {
    var was, now := before.record, after.record;
    var missing := match change.password
                   case Keep => was.secret.None?
                   case Set(_) => false
                   case Clear => true;
    && (change.password.Set? && change.password.password == "" ==> verdict == Invalid)
    && (!(change.password.Set? && change.password.password == "") ==>
          && (verdict == VersionConflict <==> was.version != expected)
          && (verdict == Invalid <==>
                was.version == expected && change.enabled && (change.server == "" || change.uuid == "" || missing)))
    && (verdict != Done ==> after == before)
    && (verdict == Done ==>
          && now.version == was.version + 1 && now.enabled == change.enabled
          && now.server == change.server && now.uuid == change.uuid
          && now.timeout == change.timeout && now.schedule == change.schedule
          && after.attempts == before.attempts && after.proved == before.proved && after.failed == before.failed
          && (match change.password
              case Keep => now.secret == was.secret && after.secrets == before.secrets
              case Set(password) =>
                && now.secret.Some? && now.secret.value !in before.issued
                && after.secrets.Keys == before.secrets.Keys - (if was.secret.Some? then {was.secret.value} else {})
                                         + {now.secret.value}
                && after.secrets[now.secret.value] == password
                && (forall id :: id in after.secrets && id != now.secret.value ==>
                     after.secrets[id] == before.secrets[id])
              case Clear =>
                && now.secret.None?
                && after.secrets == before.secrets - (if was.secret.Some? then {was.secret.value} else {})))
  }

  lemma UpdatedIsSaved(w: World, change: Change, expected: nat, unused: SecretId)
    requires Consistent(w) && unused !in w.issued
    ensures SavedAs(w, Updated(w, change, expected, unused), UpdateVerdict(w, change, expected, unused), change,
      expected)
  {
    hide AttemptHolds, Stored;
    assert w.record.secret.Some? ==> w.record.secret.value != unused;
  }

  // ----- attempts -------------------------------------------------------------------------

  function Begun(w: World, id: nat, kind: Kind, now: nat): World {
    var r := w.record;
    if !r.Complete() || id in w.attempts then w
    else w.(attempts := w.attempts[id :=
      Attempt(kind, r.version, r.server, r.uuid, r.secret.value, r.timeout, now, None, None)])
  }

  /** The password is read by its id; when it has been deleted meanwhile, the attempt ends. */
  function Loaded(w: World, id: nat): World {
    if id !in w.attempts then w
    else
      var a := w.attempts[id];
      if a.secret in w.secrets then w.(attempts := w.attempts[id := a.(password := Some(w.secrets[a.secret]))])
      else w.(attempts := w.attempts - {id})
  }

  function Fetched(w: World, id: nat, ok: bool): World {
    if id !in w.attempts || w.attempts[id].password.None? || w.attempts[id].outcome.Some? then w
    else
      var a := w.attempts[id];
      w.(attempts := w.attempts[id := a.(outcome := Some(ok))],
         proved := if ok then w.proved + {a.Used()} else w.proved,
         failed := if ok then w.failed else w.failed + {a.Used()})
  }

  /** A probe stores its result, a sync stores success only when all of its later work on the
      sites succeeded too.  Either way the record must still have the version that was read. */
  function Finished(w: World, id: nat, worked: bool): World {
    if id !in w.attempts || w.attempts[id].outcome.None? || w.attempts[id].password.None? then w
    else
      var a := w.attempts[id];
      var ended := w.(attempts := w.attempts - {id});
      var success := a.outcome.value && (a.kind.Probe? || worked);
      if w.record.version != a.version then ended
      else
        ended.(record := w.record.(status := if success then Ok else Failed,
                                   testedAt := if a.kind.Probe? then Some(a.startedAt) else w.record.testedAt),
               failed := if success then w.failed else w.failed + {a.Used()})
  }

  function Aborted(w: World, id: nat): World {
    w.(attempts := w.attempts - {id})
  }

  // ----- what holds -----------------------------------------------------------------------

  /** The connection the record stands for now. */
  function Stored(w: World): Option<Connection> {
    var r := w.record;
    if r.secret.Some? && r.secret.value in w.secrets then
      Some(Connection(r.server, r.uuid, w.secrets[r.secret.value], r.timeout))
    else None
  }

  /** The attempt read the settings that are still stored, as long as the version says so. */
  predicate AttemptHolds(w: World, a: Attempt) {
    && a.version <= w.record.version
    && (a.version == w.record.version ==>
          a.server == w.record.server && a.uuid == w.record.uuid && w.record.secret == Some(a.secret)
            && a.timeout == w.record.timeout)
    && (a.password.Some? ==> a.secret in w.issued && w.issued[a.secret] == a.password.value)
    && (a.outcome.Some? ==> a.password.Some? && a.Used() in if a.outcome.value then w.proved else w.failed)
  }

  ghost predicate Consistent(w: World) {
    && (w.record.secret.Some? ==> w.record.secret.value in w.secrets)
    && (forall id :: id in w.secrets ==> id in w.issued && w.issued[id] == w.secrets[id])
    && (forall id :: id in w.attempts ==> AttemptHolds(w, w.attempts[id]))
    && (w.record.status.Untested? ==> w.record.testedAt.None?)
    && (w.record.status.Ok? ==> Stored(w).Some? && Stored(w).value in w.proved)
    && (w.record.status.Failed? ==> Stored(w).Some? && Stored(w).value in w.failed)
  }

  lemma UpdatedConsistent(w: World, change: Change, expected: nat, unused: SecretId)
    requires Consistent(w) && unused !in w.issued
    ensures Consistent(Updated(w, change, expected, unused))
  {
  }

  lemma BegunConsistent(w: World, id: nat, kind: Kind, now: nat)
    requires Consistent(w)
    ensures Consistent(Begun(w, id, kind, now))
  {
  }

  lemma LoadedConsistent(w: World, id: nat)
    requires Consistent(w)
    ensures Consistent(Loaded(w, id))
  {
  }

  lemma FetchedConsistent(w: World, id: nat, ok: bool)
    requires Consistent(w)
    ensures Consistent(Fetched(w, id, ok))
  {
  }

  lemma FinishedConsistent(w: World, id: nat, worked: bool)
    requires Consistent(w)
    ensures Consistent(Finished(w, id, worked))
  {
  }

  lemma AbortedConsistent(w: World, id: nat)
    requires Consistent(w)
    ensures Consistent(Aborted(w, id))
  {
  }

  // ----- runs -----------------------------------------------------------------------------

  datatype Step =
    | Update(change: Change, expected: nat, unused: SecretId)
    | Begin(id: nat, kind: Kind, now: nat)
    | Load(id: nat)
    | Fetch(id: nat, ok: bool)
    | Finish(id: nat, worked: bool)
    | Abort(id: nat)

  /** A new secret gets an id that was never used. */
  function Next(w: World, step: Step): World {
    match step
    case Update(change, expected, unused) => if unused in w.issued then w else Updated(w, change, expected, unused)
    case Begin(id, kind, now) => Begun(w, id, kind, now)
    case Load(id) => Loaded(w, id)
    case Fetch(id, ok) => Fetched(w, id, ok)
    case Finish(id, worked) => Finished(w, id, worked)
    case Abort(id) => Aborted(w, id)
  }

  const DEFAULT := Record(1, false, "", "", None, 15, "*/30 * * * *", Untested, None)

  const EMPTY := World(DEFAULT, map[], map[], map[], {}, {})

  function Execute(steps: seq<Step>): World {
    if steps == [] then EMPTY else Next(Execute(steps[..|steps| - 1]), steps[|steps| - 1])
  }

  lemma NextConsistent(w: World, step: Step)
    requires Consistent(w)
    ensures Consistent(Next(w, step))
  {
    hide Consistent, Updated, Begun, Loaded, Fetched, Finished, Aborted;
    match step
    case Update(change, expected, unused) =>
      if unused !in w.issued {
        UpdatedConsistent(w, change, expected, unused);
      }
    case Begin(id, kind, now) => BegunConsistent(w, id, kind, now);
    case Load(id) => LoadedConsistent(w, id);
    case Fetch(id, ok) => FetchedConsistent(w, id, ok);
    case Finish(id, worked) => FinishedConsistent(w, id, worked);
    case Abort(id) => AbortedConsistent(w, id);
  }

  lemma {:induction false} ExecuteConsistent(steps: seq<Step>)
    ensures Consistent(Execute(steps))
  {
    if steps != [] {
      ExecuteConsistent(steps[..|steps| - 1]);
      NextConsistent(Execute(steps[..|steps| - 1]), steps[|steps| - 1]);
    }
  }

  /** The step at `i` was a fetch that ended like this, made with this very connection. */
  ghost predicate FetchedAt(steps: seq<Step>, i: nat, c: Connection, ok: bool) {
    && i < |steps| && steps[i].Fetch? && steps[i].ok == ok
    && var w := Execute(steps[..i]);
       steps[i].id in w.attempts && w.attempts[steps[i].id].password.Some? && w.attempts[steps[i].id].Used() == c
  }

  lemma {:induction false} ProvedByAFetch(steps: seq<Step>, c: Connection) returns (i: nat)
    requires c in Execute(steps).proved
    ensures FetchedAt(steps, i, c, true)
  {
    var before := steps[..|steps| - 1];
    if c in Execute(before).proved {
      i := ProvedByAFetch(before, c);
      assert before[..i] == steps[..i];
    } else {
      i := |steps| - 1;
    }
  }

  /** However updates, probes and syncs overlap: when the status says OK, what is stored now is
      exactly a connection with which some fetch and decryption succeeded. */
  lemma StatusIsNeverStale(steps: seq<Step>) returns (i: nat)
    requires Execute(steps).record.status.Ok?
    ensures Stored(Execute(steps)).Some? && FetchedAt(steps, i, Stored(Execute(steps)).value, true)
  {
    ExecuteConsistent(steps);
    i := ProvedByAFetch(steps, Stored(Execute(steps)).value);
  }

  /** An accepted update keeps the status and the time of the last test exactly when the stored
      connection is what it was and no password was set; otherwise it forgets both. */
  lemma UpdatesForgetExactly(w: World, change: Change, expected: nat, unused: SecretId)
    requires Consistent(w) && unused !in w.issued && UpdateVerdict(w, change, expected, unused).Done?
    ensures var next := Updated(w, change, expected, unused);
            var same := Stored(next) == Stored(w) && !change.password.Set?;
            && next.record.version == w.record.version + 1
            && next.record.status == (if same then w.record.status else Untested)
            && next.record.testedAt == (if same then w.record.testedAt else None)
            && (next.record.enabled ==> Stored(next).Some?)
  {
    StoredAfter(w, change, expected, unused);
    hide Stored;
  }

  /** Without a new password, what is stored stays the same exactly when the settings do. */
  lemma StoredAfter(w: World, change: Change, expected: nat, unused: SecretId)
    requires Consistent(w) && unused !in w.issued && UpdateVerdict(w, change, expected, unused).Done?
    ensures var next := Updated(w, change, expected, unused);
            && (next.record.enabled ==> Stored(next).Some?)
            && (!ConnectionChanges(w.record, change) ==> Stored(next) == Stored(w))
            && (ConnectionChanges(w.record, change) && !change.password.Set? && Stored(next) == Stored(w) ==>
                 Stored(w).None?)
  {
    hide AttemptHolds;
    assert Stored(w).Some? <==> w.record.secret.Some?;
  }

  /** What an attempt finds out is stored exactly when nobody saved the settings meanwhile. */
  lemma LateResultsAreDropped(steps: seq<Step>, id: nat, worked: bool)
    requires id in Execute(steps).attempts && Execute(steps).attempts[id].outcome.Some?
    ensures var w := Execute(steps);
            var next := Finished(w, id, worked);
            id !in next.attempts
            && (w.attempts[id].version != w.record.version ==> next.record == w.record)
            && (w.attempts[id].version == w.record.version ==>
                  Stored(w) == Some(w.attempts[id].Used())
                  && next.record.status ==
                       if w.attempts[id].outcome.value && (w.attempts[id].kind.Probe? || worked) then Ok else Failed)
  {
    ExecuteConsistent(steps);
  }

  /** Left alone, an attempt stores what it found out: a probe with the time it began, a sync with
      the success of its later work.  Nothing else in the record changes. */
  lemma AttemptGetsThrough(w: World, id: nat, kind: Kind, now: nat, ok: bool, worked: bool)
    requires Consistent(w) && id !in w.attempts
    requires w.record.server != "" && w.record.uuid != "" && w.record.secret.Some?
    ensures var fetched := Next(Next(Next(w, Begin(id, kind, now)), Load(id)), Fetch(id, ok));
            var done := Next(fetched, Finish(id, worked));
            && done.attempts == w.attempts && done.secrets == w.secrets
            && done.record == w.record.(status := if ok && (kind.Probe? || worked) then Ok else Failed,
                                        testedAt := if kind.Probe? then Some(now) else w.record.testedAt)
            && (ok ==> done.proved == w.proved + {Stored(w).value})
  {
    hide AttemptHolds;
    BegunAs(w, id, kind, now);
    var begun := Begun(w, id, kind, now);
    var loaded := Loaded(begun, id);
    assert loaded.attempts[id].Used() == Stored(w).value;
    assert w.attempts[id := loaded.attempts[id].(outcome := Some(ok))] - {id} == w.attempts;
  }

  lemma BegunAs(w: World, id: nat, kind: Kind, now: nat)
    requires Consistent(w) && id !in w.attempts
    requires w.record.server != "" && w.record.uuid != "" && w.record.secret.Some?
    ensures var r := w.record;
            Begun(w, id, kind, now)
            == w.(attempts := w.attempts[id :=
              Attempt(kind, r.version, r.server, r.uuid, r.secret.value, r.timeout, now,
                                                       None, None)])
            && r.secret.value in w.secrets && Stored(w).Some?
  {
  }

  /** A password that is replaced or cleared before it was loaded ends the attempt. */
  lemma ReplacedPasswordEndsAttempt(w: World, id: nat, kind: Kind, now: nat, change: Change, unused: SecretId)
    requires Consistent(w) && id !in w.attempts && unused !in w.issued
    requires w.record.server != "" && w.record.uuid != "" && w.record.secret.Some?
    requires !change.password.Keep? && UpdateVerdict(w, change, w.record.version, unused).Done?
    ensures var begun := Next(w, Begin(id, kind, now));
            var saved := Next(begun, Update(change, w.record.version, unused));
            var loaded := Next(saved, Load(id));
            loaded.attempts == w.attempts && loaded.record == saved.record
              && saved.record.version == w.record.version + 1
  {
    hide AttemptHolds, Stored;
    BegunAs(w, id, kind, now);
    var begun := Begun(w, id, kind, now);
    assert begun.attempts - {id} == w.attempts;
  }

  /** Settings that are not complete are not tried. */
  lemma IncompleteIsNotTried(w: World, id: nat, kind: Kind, now: nat)
    requires w.record.server == "" || w.record.uuid == "" || w.record.secret.None?
    ensures Next(w, Begin(id, kind, now)) == w
  {
  }

  // ----- the service ----------------------------------------------------------------------

  class Settings {
    var record: Record
    var secrets: map<SecretId, string>
    /** The locals of the attempts under way. */
    var attempts: map<nat, Attempt>
    var nextSecret: SecretId
    ghost var issued: map<SecretId, string>
    ghost var proved: set<Connection>
    ghost var failed: set<Connection>

    ghost function State(): World
      reads this
    {
      World(record, secrets, attempts, issued, proved, failed)
    }

    ghost predicate Valid()
      reads this
    {
      Consistent(State()) && forall id :: id in issued ==> id < nextSecret
    }

    constructor ()
      ensures Valid() && State() == EMPTY
      ensures !record.enabled && record.secret.None? && record.status.Untested? && record.testedAt.None?
      ensures record.version == 1 && record.server == "" && record.uuid == ""
      ensures record.timeout == 15 && record.schedule == "*/30 * * * *"
    {
      record, secrets, attempts, nextSecret := DEFAULT, map[], map[], 0;
      issued, proved, failed := map[], {}, {};
    }

    method Save(change: Change, expectedVersion: nat) returns (verdict: Verdict)
      requires Valid()
      modifies this
      ensures Valid()
      ensures verdict == UpdateVerdict(old(State()), change, expectedVersion, old(nextSecret))
      ensures State() == Updated(old(State()), change, expectedVersion, old(nextSecret))
      ensures SavedAs(old(State()), State(), verdict, change, expectedVersion)
    {
      hide Consistent, ConnectionChanges, SecretsAfter, Put, SavedAs;
      UpdatedConsistent(State(), change, expectedVersion, nextSecret);
      UpdatedIsSaved(State(), change, expectedVersion, nextSecret);
      if change.password.Set? && change.password.password == "" {
        return Invalid;
      }
      if record.version != expectedVersion {
        return VersionConflict;
      }
      var before := record;
      var newSecret :=
        match change.password
        case Keep => before.secret
        case Set(_) => Some(nextSecret)
        case Clear => None;
      if change.enabled && (change.server == "" || change.uuid == "" || newSecret.None?) {
        return Invalid;
      }
      var changed := ConnectionChanges(before, change);
      record := Record(before.version + 1, change.enabled, change.server, change.uuid, newSecret, change.timeout,
        change.schedule,
                       if changed then Untested else before.status, if changed then None else before.testedAt);
      ReplaceSecret(before.secret, newSecret, change.password);
      verdict := Done;
    }

    /** Stores a new password and deletes the one it replaces. */
    method ReplaceSecret(before: Option<SecretId>, after: Option<SecretId>, action: PasswordAction)
      modifies `secrets, `issued, `nextSecret
      ensures secrets == SecretsAfter(old(secrets), before, after, action, old(nextSecret))
      ensures issued == Put(old(issued), action, old(nextSecret))
      ensures nextSecret >= old(nextSecret) && forall id :: id in issued && id !in old(issued) ==> id < nextSecret
    {
      if action.Set? {
        secrets := secrets[nextSecret := action.password];
        issued := issued[nextSecret := action.password];
        nextSecret := nextSecret + 1;
      }
      if before.Some? && before != after {
        secrets := secrets - {before.value};
      }
    }

    /** Reads the settings an attempt is to run with; `begun` is false when they are incomplete. */
    method BeginAttempt(id: nat, kind: Kind, now: nat) returns (begun: bool)
      requires Valid() && id !in attempts
      modifies `attempts
      ensures Valid() && State() == Begun(old(State()), id, kind, now)
      ensures begun <==> old(record).Complete()
    {
      hide Consistent;
      BegunConsistent(State(), id, kind, now);
      begun := record.server != "" && record.uuid != "" && record.secret.Some?;
      if begun {
        attempts := attempts[id := Attempt(kind, record.version, record.server, record.uuid, record.secret.value,
          record.timeout, now, None, None)];
      }
    }

    method LoadPassword(id: nat) returns (loaded: bool)
      requires Valid() && id in attempts
      modifies `attempts
      ensures Valid() && State() == Loaded(old(State()), id)
      ensures loaded <==> id in attempts
    {
      hide Consistent;
      LoadedConsistent(State(), id);
      loaded := attempts[id].secret in secrets;
      if loaded {
        attempts := attempts[id := attempts[id].(password := Some(secrets[attempts[id].secret]))];
      } else {
        attempts := attempts - {id};
      }
    }

    /** What fetching and decrypting with the attempt's connection came to. */
    method FetchAndDecrypt(id: nat, ok: bool)
      requires Valid() && id in attempts && attempts[id].password.Some? && attempts[id].outcome.None?
      modifies `attempts, `proved, `failed
      ensures Valid() && State() == Fetched(old(State()), id, ok)
    {
      hide Consistent;
      FetchedConsistent(State(), id, ok);
      if ok {
        proved := proved + {attempts[id].Used()};
      } else {
        failed := failed + {attempts[id].Used()};
      }
      attempts := attempts[id := attempts[id].(outcome := Some(ok))];
    }

    /** The end of a probe. */
    method StoreProbe(id: nat) returns (verdict: Verdict)
      requires Valid() && id in attempts && attempts[id].kind.Probe? && attempts[id].outcome.Some?
               && attempts[id].password.Some?
      modifies `attempts, `record, `failed
      ensures Valid() && State() == Finished(old(State()), id, true)
      ensures verdict.VersionConflict? <==> old(record.version != attempts[id].version)
    {
      hide Consistent;
      FinishedConsistent(State(), id, true);
      var a := attempts[id];
      attempts := attempts - {id};
      if record.version != a.version {
        return VersionConflict;
      }
      if !a.outcome.value {
        failed := failed + {a.Used()};
      }
      record := record.(status := if a.outcome.value then Ok else Failed, testedAt := Some(a.startedAt));
      verdict := Done;
    }

    /** The end of a sync; `worked` tells whether its work on the sites succeeded.  A failure is
        only noted while the version is still the one that was read. */
    method StoreSync(id: nat, worked: bool) returns (verdict: Verdict)
      requires Valid() && id in attempts && attempts[id].kind.Sync? && attempts[id].outcome.Some?
               && attempts[id].password.Some?
      modifies `attempts, `record, `failed
      ensures Valid() && State() == Finished(old(State()), id, worked)
      ensures verdict.VersionConflict? <==> old(record.version != attempts[id].version)
    {
      hide Consistent;
      FinishedConsistent(State(), id, worked);
      var a := attempts[id];
      attempts := attempts - {id};
      if record.version != a.version {
        return VersionConflict;
      }
      if a.outcome.value && worked {
        record := record.(status := Ok);
      } else {
        failed := failed + {a.Used()};
        record := record.(status := Failed);
      }
      verdict := Done;
    }
  }
}
