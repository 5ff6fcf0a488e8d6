/** The login rate limiter: two buckets of failure instants per attempt, pruned as they are read. */
module LoginLimiter {
  import opened SlidingWindow

  const WINDOW := 300.0
  const LIMIT := 5

  /** A bucket belongs to one source (by its digest) or to the one administrator account. */
  datatype Key = Source(source: string) | Account

  function Get(m: map<Key, Instants>, key: Key): Instants {
    if key in m then m[key] else []
  }

  function Ceil(x: real): int {
    -((-x).Floor)
  }

  /** The verdict computed from a full failure history: 0 admits, otherwise seconds to wait. */
  function RetryAfter(history: Instants, now: real): (r: nat) {
    var recent := After(history, now - WINDOW);
    if |recent| < LIMIT then 0
    else
      var wait := Ceil(WINDOW - (now - recent[0]));
      if wait < 1 then 1 else wait
  }

  function Max(a: nat, b: nat): nat {
    if a < b then b else a
  }

  predicate Concerns(source: string, key: Key) {
    key == Source(source) || key == Account
  }

  function Verdict(history: map<Key, Instants>, source: string, now: real): nat {
    Max(RetryAfter(Get(history, Source(source)), now), RetryAfter(Get(history, Account), now))
  }

  function Failed(history: map<Key, Instants>, source: string, now: real): map<Key, Instants> {
    history[Source(source) := Get(history, Source(source)) + [now]][Account := Get(history, Account) + [now]]
  }

  datatype Credentials = SetupRequired | Rejected | Accepted
  datatype LoginOutcome = Limited(retryAfter: nat) | NotConfigured | Invalid | Admitted

  /** A bucket stands for an ascending history of which it has forgotten, at most, what the
      window no longer sees. */
  ghost predicate Remembers(history: Instants, bucket: Instants, clock: real) {
    && Ascending(history + [clock])
    && |After(history, clock - WINDOW)| <= |bucket| <= |history|
    && bucket == history[|history| - |bucket|..]
  }

  /** The prune loop: pop from the left while the oldest failure has left the window. */
  method PopExpired(bucket: Instants, threshold: real) returns (kept: Instants, ghost popped: Instants)
    requires Ascending(bucket)
    ensures bucket == popped + kept
    ensures forall i :: 0 <= i < |popped| ==> popped[i] <= threshold
    ensures forall i :: 0 <= i < |kept| ==> kept[i] > threshold
  {
    hide Ascending;
    kept, popped := bucket, [];
    while kept != [] && kept[0] <= threshold
      invariant bucket == popped + kept
      invariant forall i :: 0 <= i < |popped| ==> popped[i] <= threshold
    {
      kept, popped := kept[1..], popped + [kept[0]];
    }
    SplitAscends(popped, kept);
  }

  lemma PruneRemembers(history: Instants, popped: Instants, kept: Instants, clock: real, now: real)
    requires Remembers(history, popped + kept, clock) && clock <= now
    requires forall i :: 0 <= i < |popped| ==> popped[i] <= now - WINDOW
    requires forall i :: 0 <= i < |kept| ==> kept[i] > now - WINDOW
    ensures Remembers(history, kept, now) && After(history, now - WINDOW) == kept
  {
    var dropped := history[..|history| - |kept|];
    Later(history, clock, now);
    DroppedIsOld(history, popped, kept, clock, now);
    hide Ascending;
    assert history == dropped + kept;
    AfterForgets(dropped, kept, now - WINDOW);
  }

  /** What a bucket has forgotten, and what is popped from it now, has left the window. */
  lemma DroppedIsOld(history: Instants, popped: Instants, kept: Instants, clock: real, now: real)
    requires Remembers(history, popped + kept, clock) && clock <= now
    requires forall i :: 0 <= i < |popped| ==> popped[i] <= now - WINDOW
    ensures |kept| <= |history| && kept == history[|history| - |kept|..]
    ensures forall i :: 0 <= i < |history| - |kept| ==> history[i] <= now - WINDOW
  {
    Later(history, clock, now);
    AfterIsSuffix(history, clock - WINDOW);
    hide After, Ascending;
    var older := |history| - |popped + kept|;
    forall i | 0 <= i < |history| - |kept| ensures history[i] <= now - WINDOW {
      if i >= older {
        assert history[older..][i - older] == popped[i - older];
      }
    }
  }

  lemma AppendRemembers(history: Instants, bucket: Instants, now: real)
    requires Remembers(history, bucket, now) && bucket == After(history, now - WINDOW)
    ensures Remembers(history + [now], bucket + [now], now)
  {
    assert (history + [now])[..|history|] == history;
    assert (history + [now] + [now])[..|history| + 1] == history + [now];
  }

  lemma BucketAscending(history: Instants, bucket: Instants, clock: real)
    requires Remembers(history, bucket, clock)
    ensures Ascending(bucket)
  {
    Later(history, clock, clock);
    forall i, j | 0 <= i < j < |bucket| ensures bucket[i] <= bucket[j] {
      assert history[|history| - |bucket| + i] <= history[|history| - |bucket| + j];
    }
  }

  ghost predicate AllRemember(history: map<Key, Instants>, failures: map<Key, Instants>, clock: real) {
    forall key :: Remembers(Get(history, key), Get(failures, key), clock)
  }

  /** The clock moves on and one bucket is pruned: no bucket remembers too little. */
  lemma PruneKeepsAll(history: map<Key, Instants>, failures: map<Key, Instants>, clock: real,
                      key: Key, failures': map<Key, Instants>, now: real)
    requires AllRemember(history, failures, clock) && clock <= now
    requires forall k :: k != key ==> Get(failures', k) == Get(failures, k)
    requires Remembers(Get(history, key), Get(failures', key), now)
    ensures AllRemember(history, failures', now)
  {
    forall k | k != key ensures Remembers(Get(history, k), Get(failures', k), now) {
      assert Remembers(Get(history, k), Get(failures, k), clock);
      Later(Get(history, k), clock, now);
      AfterShrinks(Get(history, k), clock - WINDOW, now - WINDOW);
    }
  }

  /** The buckets with one of them replaced; an empty one is dropped. */
  function WithBucket(failures: map<Key, Instants>, key: Key, bucket: Instants): map<Key, Instants> {
    if bucket == [] then failures - {key} else failures[key := bucket]
  }

  /** The prune loop has split the bucket; what is kept serves every later verdict. */
  lemma PruneStep(history: map<Key, Instants>, failures: map<Key, Instants>, clock: real,
                  key: Key, popped: Instants, kept: Instants, now: real)
    requires AllRemember(history, failures, clock) && clock <= now && Get(failures, key) == popped + kept
    requires forall i :: 0 <= i < |popped| ==> popped[i] <= now - WINDOW
    requires forall i :: 0 <= i < |kept| ==> kept[i] > now - WINDOW
    ensures AllRemember(history, WithBucket(failures, key, kept), now)
    ensures Get(WithBucket(failures, key, kept), key) == kept == After(Get(history, key), now - WINDOW)
    ensures forall k :: k != key ==> Get(WithBucket(failures, key, kept), k) == Get(failures, k)
  {
    var pruned := WithBucket(failures, key, kept);
    WithBucketGets(failures, key, kept);
    RememberedUnder(history, failures, clock, key);
    hide *;
    PruneRemembers(Get(history, key), popped, kept, clock, now);
    PruneKeepsAll(history, failures, clock, key, pruned, now);
  }

  lemma WithBucketGets(failures: map<Key, Instants>, key: Key, bucket: Instants)
    ensures Get(WithBucket(failures, key, bucket), key) == bucket
    ensures forall k :: k != key ==> Get(WithBucket(failures, key, bucket), k) == Get(failures, k)
  {
  }

  lemma RememberedUnder(history: map<Key, Instants>, failures: map<Key, Instants>, clock: real, key: Key)
    requires AllRemember(history, failures, clock)
    ensures Remembers(Get(history, key), Get(failures, key), clock)
  {
  }

  lemma BucketsAscend(history: map<Key, Instants>, failures: map<Key, Instants>, clock: real, key: Key)
    requires AllRemember(history, failures, clock)
    ensures Ascending(Get(failures, key))
  {
    RememberedUnder(history, failures, clock, key);
    hide *;
    BucketAscending(Get(history, key), Get(failures, key), clock);
  }

  class LoginRateLimiter {
    var failures: map<Key, Instants>
    /** Every failure under a key since the last success that concerns it. */
    ghost var history: map<Key, Instants>
    /** The latest instant the clock has shown. */
    ghost var clock: real

    ghost predicate Valid()
      reads this
    {
      AllRemember(history, failures, clock)
    }

    ghost predicate Bounded()
      reads this
    {
      forall key :: |Get(failures, key)| <= LIMIT
    }

    constructor (ghost now: real)
      ensures Valid() && Bounded() && history == map[] && failures == map[] && clock == now
    {
      failures, history, clock := map[], map[], now;
    }

    method Prune(key: Key, now: real)
      requires Valid() && clock <= now
      modifies `failures, `clock
      ensures Valid() && clock == now
      ensures forall k :: k != key ==> Get(failures, k) == old(Get(failures, k))
      ensures Get(failures, key) == After(Get(history, key), now - WINDOW)
      ensures |Get(failures, key)| <= |old(Get(failures, key))|
    {
      hide After, Ascending, AllRemember, Get;
      BucketsAscend(history, failures, clock, key);
      var kept, popped := PopExpired(Get(failures, key), now - WINDOW);
      PruneStep(history, failures, clock, key, popped, kept, now);
      clock, failures := now, WithBucket(failures, key, kept);
    }

    method RetryAfterLocked(key: Key, now: real) returns (r: nat)
      requires Valid() && clock <= now
      modifies `failures, `clock
      ensures Valid() && clock == now
      ensures forall k :: k != key ==> Get(failures, k) == old(Get(failures, k))
      ensures Get(failures, key) == After(Get(history, key), now - WINDOW)
      ensures |Get(failures, key)| <= |old(Get(failures, key))|
      ensures r == RetryAfter(Get(history, key), now)
    {
      hide After, Remembers, Ascending;
      Prune(key, now);
      var bucket := Get(failures, key);
      if |bucket| < LIMIT {
        return 0;
      }
      var wait := Ceil(WINDOW - (now - bucket[0]));
      r := if wait < 1 then 1 else wait;
    }

    /** The verdict is the one the full histories give, although the buckets forget. */
    method Check(source: string, now: real) returns (retryAfter: nat)
      requires Valid() && clock <= now
      modifies `failures, `clock
      ensures Valid() && clock == now
      ensures forall k :: |Get(failures, k)| <= |old(Get(failures, k))|
      ensures retryAfter == Verdict(history, source, now)
      ensures retryAfter > 0 <==>
        FiveSince(Get(history, Source(source)), now - 300.0) || FiveSince(Get(history, Account), now - 300.0)
      ensures retryAfter == 0 ==> |Get(failures, Source(source))| < LIMIT && |Get(failures, Account)| < LIMIT
    {
      hide After, Remembers, Ascending;
      VerdictMeans(history, failures, clock, source, now);
      hide RetryAfter;
      var bySource := RetryAfterLocked(Source(source), now);
      var byAccount := RetryAfterLocked(Account, now);
      retryAfter := Max(bySource, byAccount);
    }

    method RecordFailure(source: string, now: real)
      requires Valid() && clock <= now
      modifies this
      ensures Valid() && clock == now
      ensures history == Failed(old(history), source, now)
      ensures forall k :: |Get(failures, k)| <= |old(Get(failures, k))| + (if Concerns(source, k) then 1 else 0)
    {
      hide After, Remembers, Ascending;
      Record(Source(source), now);
      Record(Account, now);
    }

    method Record(key: Key, now: real)
      requires Valid() && clock <= now
      modifies this
      ensures Valid() && clock == now
      ensures history == old(history)[key := old(Get(history, key)) + [now]]
      ensures forall k :: k != key ==> Get(failures, k) == old(Get(failures, k))
      ensures |Get(failures, key)| <= |old(Get(failures, key))| + 1
    {
      hide After, Remembers, Ascending;
      Prune(key, now);
      label pruned:
      AppendRemembers(Get(history, key), Get(failures, key), now);
      history := history[key := Get(history, key) + [now]];
      failures := failures[key := Get(failures, key) + [now]];
      forall k ensures Remembers(Get(history, k), Get(failures, k), clock) {
        assert k != key ==> old@pruned(Remembers(Get(history, k), Get(failures, k), clock));
      }
    }

    method ClearSuccess(source: string)
      requires Valid()
      modifies `failures, `history
      ensures Valid() && history == old(history) - {Source(source), Account}
      ensures forall k :: |Get(failures, k)| <= |old(Get(failures, k))|
    {
      assert Remembers([], [], clock);
      hide After, Remembers, Ascending;
      failures := failures - {Source(source), Account};
      history := history - {Source(source), Account};
      forall k ensures Remembers(Get(history, k), Get(failures, k), clock) {
        assert !Concerns(source, k) ==> old(Remembers(Get(history, k), Get(failures, k), clock));
      }
    }

    /** The reported wait is exact in every state that serial logins lead to: with no attempt in
        between, the same source is admitted once it has waited that long, and still refused up to
        a second before. */
    lemma ReportedWaitIsExact(source: string, now: real, t: real)
      requires Valid() && Bounded() && clock <= now <= t
      ensures var wait := Verdict(history, source, now);
              wait > 0 ==>
                && (t >= now + wait as real ==> Verdict(history, source, t) == 0)
                && (t <= now + (wait - 1) as real ==> Verdict(history, source, t) > 0)
    {
      hide After, RetryAfter, Ascending;
      BoundedWindow(Get(history, Source(source)), Get(failures, Source(source)), clock, now);
      BoundedWindow(Get(history, Account), Get(failures, Account), clock, now);
      if Verdict(history, source, now) > 0 {
        WaitsAreExact(Get(history, Source(source)), Get(history, Account), now, t);
      }
    }

    /** One serial login: check first, and record only after the check admitted the attempt. */
    method Login(source: string, credentials: Credentials, checkedAt: real, decidedAt: real)
      returns (outcome: LoginOutcome)
      requires Valid() && clock <= checkedAt <= decidedAt
      modifies this
      ensures Valid() && (old(Bounded()) ==> Bounded() && forall key :: |Get(failures, key)| <= 5)
      ensures var wait := Verdict(old(history), source, checkedAt);
              outcome == if wait > 0 then Limited(wait)
                         else match credentials
                              case SetupRequired => NotConfigured
                              case Rejected => Invalid
                              case Accepted => Admitted
      ensures history ==
              match outcome
              case Invalid => Failed(old(history), source, decidedAt)
              case Admitted => old(history) - {Source(source), Account}
              case _ => old(history)
    {
      hide After, Remembers, Ascending, RetryAfter;
      var retryAfter := Check(source, checkedAt);
      if retryAfter > 0 {
        return Limited(retryAfter);
      }
      match credentials
      case SetupRequired =>
        return NotConfigured;
      case Rejected =>
        RecordFailure(source, decidedAt);
        return Invalid;
      case Accepted =>
        ClearSuccess(source);
        return Admitted;
    }
  }

  /** At least five of the failures came after `t`. */
  predicate FiveSince(history: Instants, t: real) {
    |history| >= 5 && history[|history| - 5] > t
  }

  lemma RefusedIff(history: Instants, now: real)
    requires Ascending(history)
    ensures RetryAfter(history, now) > 0 <==> FiveSince(history, now - 300.0)
  {
    AfterIsSuffix(history, now - WINDOW);
    hide Ascending, After;
  }

  lemma VerdictMeans(history: map<Key, Instants>, failures: map<Key, Instants>, clock: real, source: string, now: real)
    requires AllRemember(history, failures, clock)
    ensures Verdict(history, source, now) > 0 <==>
      FiveSince(Get(history, Source(source)), now - 300.0) || FiveSince(Get(history, Account), now - 300.0)
  {
    hide RetryAfter, After, Ascending, FiveSince, Remembers;
    RememberedAscends(history, failures, clock, Source(source));
    RememberedAscends(history, failures, clock, Account);
    RefusedIff(Get(history, Source(source)), now);
    RefusedIff(Get(history, Account), now);
  }

  lemma RememberedAscends(history: map<Key, Instants>, failures: map<Key, Instants>, clock: real, key: Key)
    requires AllRemember(history, failures, clock)
    ensures Ascending(Get(history, key))
  {
    RememberedUnder(history, failures, clock, key);
    Later(Get(history, key), clock, clock);
  }

  // ----- what the reported wait is worth --------------------------------------------------

  /** Waiting the reported time frees a bucket exactly when its fifth newest failure expires by
      then; that is always so when the window holds no more than five. */
  lemma WaitSufficesIff(history: Instants, now: real, t: real)
    requires Ascending(history) && now <= t && RetryAfter(history, now) > 0
    ensures |history| >= LIMIT
    ensures RetryAfter(history, t) == 0 <==> history[|history| - LIMIT] <= t - WINDOW
    ensures |After(history, now - WINDOW)| <= LIMIT && t >= now + RetryAfter(history, now) as real
            ==> RetryAfter(history, t) == 0
    ensures t <= now + (RetryAfter(history, now) - 1) as real ==> RetryAfter(history, t) > 0
  {
    AfterIsSuffix(history, now - WINDOW);
    AfterIsSuffix(history, t - WINDOW);
    var recent := After(history, now - WINDOW);
    assert recent[0] == history[|history| - |recent|];
    CeilBounds(WINDOW - (now - recent[0]));
  }

  lemma CeilBounds(x: real)
    ensures x <= Ceil(x) as real < x + 1.0
  {
  }

  /** The exact bound for two buckets of at most five: waiting the longer of their waits always
      suffices, and waiting up to one second less never does. */
  lemma WaitsAreExact(bySource: Instants, byAccount: Instants, now: real, t: real)
    requires Ascending(bySource) && Ascending(byAccount) && now <= t
    requires |After(bySource, now - WINDOW)| <= LIMIT && |After(byAccount, now - WINDOW)| <= LIMIT
    requires var r := Max(RetryAfter(bySource, now), RetryAfter(byAccount, now)); r > 0
    ensures var r := Max(RetryAfter(bySource, now), RetryAfter(byAccount, now));
            && (t >= now + r as real ==> RetryAfter(bySource, t) == 0 && RetryAfter(byAccount, t) == 0)
            && (t <= now + (r - 1) as real ==> Max(RetryAfter(bySource, t), RetryAfter(byAccount, t)) > 0)
  {
    BucketWait(bySource, now, t);
    BucketWait(byAccount, now, t);
  }

  /** A bucket of at most five that remembers its history has at most five in the window. */
  lemma BoundedWindow(history: Instants, bucket: Instants, clock: real, now: real)
    requires Remembers(history, bucket, clock) && |bucket| <= LIMIT && clock <= now
    ensures Ascending(history) && |After(history, now - WINDOW)| <= LIMIT
  {
    Later(history, clock, now);
    AfterShrinks(history, clock - WINDOW, now - WINDOW);
  }

  lemma BucketWait(history: Instants, now: real, t: real)
    requires Ascending(history) && now <= t && |After(history, now - WINDOW)| <= LIMIT
    ensures t >= now + RetryAfter(history, now) as real ==> RetryAfter(history, t) == 0
    ensures RetryAfter(history, now) > 0 && t <= now + (RetryAfter(history, now) - 1) as real
            ==> RetryAfter(history, t) > 0
  {
    if RetryAfter(history, now) > 0 {
      WaitSufficesIff(history, now, t);
    } else {
      AfterIsSuffix(history, now - WINDOW);
      AfterIsSuffix(history, t - WINDOW);
    }
  }

  /** The failures of a source and of the account are these. */
  ghost predicate Under(limiter: LoginRateLimiter, source: string, failures: Instants, clock: real)
    reads limiter
  {
    && limiter.Valid() && limiter.clock == clock
    && Get(limiter.history, Source(source)) == failures && Get(limiter.history, Account) == failures
  }

  function Repeated(n: nat, at: real): Instants {
    if n == 0 then [] else Repeated(n - 1, at) + [at]
  }

  /** Attempts that are all checked before any of them is recorded: each check sees one failure. */
  method CheckAll(limiter: LoginRateLimiter, source: string, attempts: nat) returns (waits: nat)
    requires Under(limiter, source, [0.0], 0.0) || Under(limiter, source, [0.0], 10.0)
    modifies limiter
    ensures attempts > 0 ==> Under(limiter, source, [0.0], 10.0)
    ensures waits == 0
  {
    hide AllRemember, RetryAfter;
    OneFailureIsNotRefused(10.0);
    waits := 0;
    for checked := 0 to attempts
      invariant Under(limiter, source, [0.0], 0.0) || Under(limiter, source, [0.0], 10.0)
      invariant checked > 0 ==> Under(limiter, source, [0.0], 10.0)
      invariant waits == 0
    {
      var wait := limiter.Check(source, 10.0);
      waits := waits + wait;
    }
  }

  method RecordAll(limiter: LoginRateLimiter, source: string, attempts: nat)
    requires Under(limiter, source, [0.0], 10.0)
    modifies limiter
    ensures Under(limiter, source, [0.0] + Repeated(attempts, 10.0), 10.0)
  {
    hide AllRemember;
    for recorded := 0 to attempts
      invariant Under(limiter, source, [0.0] + Repeated(recorded, 10.0), 10.0)
    {
      limiter.RecordFailure(source, 10.0);
      assert [0.0] + Repeated(recorded, 10.0) + [10.0] == [0.0] + Repeated(recorded + 1, 10.0);
    }
  }

  /** One failure, then five attempts whose checks all pass before any of them is recorded: six
      failures share a window.  The wait reported afterwards is over when the first of them leaves
      the window, but the attempt made then is refused again. */
  method OverlappingChecksBreakTheBound(source: string) returns (waits: nat, reported: nat, onTime: nat)
    ensures waits == 0 && reported == 280 && onTime == 10
  {
    hide AllRemember, RetryAfter;
    SixInAWindow();
    var limiter := new LoginRateLimiter(0.0);
    limiter.RecordFailure(source, 0.0);
    waits := CheckAll(limiter, source, 5);
    RecordAll(limiter, source, 5);
    reported := limiter.Check(source, 20.0);
    onTime := limiter.Check(source, 20.0 + reported as real);
  }

  lemma OneFailureIsNotRefused(now: real)
    ensures RetryAfter([0.0], now) == 0
  {
    AfterIsNoLonger([0.0], now - WINDOW);
  }

  lemma {:induction false} AfterIsNoLonger(h: Instants, t: real)
    ensures |After(h, t)| <= |h|
  {
    if h != [] {
      AfterIsNoLonger(h[..|h| - 1], t);
    }
  }

  lemma SixInAWindow()
    ensures RetryAfter([0.0] + Repeated(5, 10.0), 20.0) == 280
    ensures RetryAfter([0.0] + Repeated(5, 10.0), 300.0) == 10
  {
    var later := Repeated(5, 10.0);
    assert later == [10.0, 10.0, 10.0, 10.0, 10.0];
    assert [] + ([0.0] + later) == [0.0] + later;
    WaitOf([], [0.0] + later, 20.0);
    WaitOf([0.0], later, 300.0);
  }

  lemma WaitOf(gone: Instants, kept: Instants, now: real)
    requires forall i :: 0 <= i < |gone| ==> gone[i] <= now - WINDOW
    requires forall i :: 0 <= i < |kept| ==> kept[i] > now - WINDOW
    requires |kept| >= LIMIT
    ensures RetryAfter(gone + kept, now) == var wait := Ceil(WINDOW - (now - kept[0])); if wait < 1 then 1 else wait
  {
    AfterForgets(gone, kept, now - WINDOW);
  }
}
