/** The background queue of site profile syncs.  The reference is a log of what happened to each
    site, and the demand it leaves outstanding; the queue, the enqueued set, the running set and
    the rerun map together have to represent that demand. */
module ProfileSyncQueue {
  import opened Wrappers

  const CONCURRENCY := 4

  type SiteId = string

  datatype Flag = ConnectionTest | Profile

  datatype Flags = Flags(connectionTest: bool, profile: bool) {
    function Or(other: Flags): Flags {
      Flags(connectionTest || other.connectionTest, profile || other.profile)
    }

    predicate Has(flag: Flag) {
      if flag.ConnectionTest? then connectionTest else profile
    }
  }

  function OrElse(a: Option<Flags>, b: Flags): Flags {
    if a.Some? then a.value.Or(b) else b
  }

  datatype Job = Job(site: SiteId, flags: Flags)

  // ----- the reference --------------------------------------------------------------------

  datatype Event =
    | Requested(site: SiteId, flags: Flags)
    | Popped(site: SiteId)
    | Completed(site: SiteId)
    | Interrupted(site: SiteId)

  type Log = seq<Event>

  /** What a site still asks for, and what its running job was started with. */
  datatype Demand = Demand(outstanding: Option<Flags>, inFlight: Option<Flags>)

  /** The demand after one event of the site, in terms of the demand before. */
  function Next(before: Demand, e: Event): Demand {
    match e
    case Requested(_, flags) => before.(outstanding := Some(OrElse(before.outstanding, flags)))
    case Popped(_) => Demand(None, before.outstanding)
    case Completed(_) => before.(inFlight := None)
    case Interrupted(_) =>
      if before.inFlight.None? then before
      else Demand(Some(OrElse(before.outstanding, before.inFlight.value)), None)
  }

  function DemandOf(log: Log, site: SiteId): Demand {
    if log == [] then Demand(None, None)
    else
      var before, e := DemandOf(log[..|log| - 1], site), log[|log| - 1];
      if e.site != site then before else Next(before, e)
  }

  lemma DemandStep(log: Log, e: Event, site: SiteId)
    ensures DemandOf(log + [e], site)
         == if e.site != site then DemandOf(log, site) else Next(DemandOf(log, site), e)
  {
    assert (log + [e])[..|log|] == log;
  }

  /** The run popped at `j` was interrupted before it ended in any other way. */
  ghost predicate RunInterrupted(log: Log, site: SiteId, j: nat) {
    exists k :: j < k < |log| && log[k] == Interrupted(site)
             && forall m :: j < m < k ==>
                  log[m] != Completed(site) && log[m] != Popped(site) && log[m] != Interrupted(site)
  }

  /** The request logged at `i` is still owed: every run popped since was interrupted. */
  ghost predicate Owed(log: Log, site: SiteId, i: nat) {
    forall j :: i < j < |log| && log[j] == Popped(site) ==> RunInterrupted(log, site, j)
  }

  ghost predicate OwedFlag(log: Log, site: SiteId, flag: Flag) {
    exists i :: 0 <= i < |log| && log[i].Requested? && log[i].site == site && log[i].flags.Has(flag)
      && Owed(log, site, i)
  }

  /** A run of `site` popped at `p` is still in flight. */
  ghost predicate InFlightSince(log: Log, site: SiteId, p: nat) {
    p < |log| && log[p] == Popped(site)
    && forall m :: p < m < |log| ==> log[m] != Completed(site) && log[m] != Popped(site) && log[m] != Interrupted(site)
  }

  ghost predicate HasFlag(f: Option<Flags>, flag: Flag) {
    f.Some? && f.value.Has(flag)
  }

  /** Only running jobs end, and none is popped twice: what the queue guarantees. */
  ghost predicate WellFormed(log: Log) {
    forall i :: 0 <= i < |log| ==>
      match log[i]
      case Requested(_, _) => true
      case Popped(site) => DemandOf(log[..i], site).inFlight.None? && DemandOf(log[..i], site).outstanding.Some?
      case _ => DemandOf(log[..i], log[i].site).inFlight.Some?
  }

  /** The demand is what it should be: a flag is outstanding exactly when some request asked for
      it and no run popped afterwards has completed or is still running.  Nothing is lost, and
      nothing is absorbed into a run that was already popped. */
  lemma {:induction false} OutstandingIsOwed(log: Log, site: SiteId, flag: Flag)
    requires WellFormed(log)
    ensures HasFlag(DemandOf(log, site).outstanding, flag) <==> OwedFlag(log, site, flag)
    ensures DemandOf(log, site).inFlight.Some? ==>
      exists p: nat :: InFlightSince(log, site, p)
        && (HasFlag(DemandOf(log, site).inFlight, flag) <==> OwedFlag(log[..p], site, flag))
    ensures DemandOf(log, site).inFlight.None? ==> forall p: nat :: !InFlightSince(log, site, p)
  {
    hide OwedFlag, InFlightSince;
    if log == [] {
      NothingOwedYet(site, flag);
    } else {
      var before, e := log[..|log| - 1], log[|log| - 1];
      assert forall i :: 0 <= i < |before| ==> before[..i] == log[..i];
      OutstandingIsOwed(before, site, flag);
      assert log == before + [e];
      DemandStep(before, e, site);
      if e.site != site {
        IrrelevantEvent(before, e, site, flag);
        SameFlight(before, log, site, flag);
      } else {
        match e
        case Requested(_, _) =>
          AfterRequest(before, e, site, flag);
          SameFlight(before, log, site, flag);
        case Popped(_) => AfterPop(before, site, flag);
        case Completed(_) => AfterCompletion(before, site, flag);
        case Interrupted(_) => AfterInterruption(before, site, flag);
      }
    }
  }

  lemma NothingOwedYet(site: SiteId, flag: Flag)
    ensures !OwedFlag([], site, flag) && forall p: nat :: !InFlightSince([], site, p)
  {
  }

  lemma SameFlight(log: Log, next: Log, site: SiteId, flag: Flag)
    requires DemandOf(next, site).inFlight == DemandOf(log, site).inFlight
    requires DemandOf(log, site).inFlight.Some? ==>
      exists p: nat :: InFlightSince(log, site, p)
        && (HasFlag(DemandOf(log, site).inFlight, flag) <==> OwedFlag(log[..p], site, flag))
    requires forall p: nat | InFlightSince(log, site, p) :: InFlightSince(next, site, p) && next[..p] == log[..p]
    ensures DemandOf(next, site).inFlight.Some? ==>
      exists p: nat :: InFlightSince(next, site, p)
        && (HasFlag(DemandOf(next, site).inFlight, flag) <==> OwedFlag(next[..p], site, flag))
  {
  }

  /** Events that end no run of the site leave what was owed owed. */
  lemma OwedKept(log: Log, e: Event, site: SiteId, i: nat)
    requires i < |log| && (e.site != site || e.Requested? || e.Completed?)
    ensures Owed(log + [e], site, i) <==> Owed(log, site, i)
  {
    var next := log + [e];
    assert forall m :: 0 <= m < |log| ==> next[m] == log[m];
    forall j: nat | i < j < |log| && log[j] == Popped(site)
      ensures RunInterrupted(next, site, j) <==> RunInterrupted(log, site, j)
    {
      if k :| j < k < |log| && log[k] == Interrupted(site)
             && forall m :: j < m < k ==>
                  log[m] != Completed(site) && log[m] != Popped(site) && log[m] != Interrupted(site) {
        assert next[k] == Interrupted(site);
      }
    }
    assert forall j :: i < j < |next| && next[j] == Popped(site) ==> j < |log| && log[j] == Popped(site);
    assert forall j :: i < j < |log| && log[j] == Popped(site) ==> next[j] == Popped(site);
  }

  lemma FlagKept(log: Log, e: Event, site: SiteId, flag: Flag)
    requires e.site != site || e.Completed?
    ensures OwedFlag(log + [e], site, flag) <==> OwedFlag(log, site, flag)
  {
    var next := log + [e];
    forall i | 0 <= i < |log| ensures next[i] == log[i] && (Owed(next, site, i) <==> Owed(log, site, i)) {
      OwedKept(log, e, site, i);
    }
  }

  lemma FlightKept(log: Log, e: Event, site: SiteId, p: nat)
    requires e.site != site || e.Requested?
    ensures InFlightSince(log + [e], site, p) <==> InFlightSince(log, site, p)
    ensures InFlightSince(log, site, p) ==> (log + [e])[..p] == log[..p]
  {
    assert forall m :: 0 <= m < |log| ==> (log + [e])[m] == log[m];
  }

  lemma IrrelevantEvent(log: Log, e: Event, site: SiteId, flag: Flag)
    requires e.site != site
    ensures OwedFlag(log + [e], site, flag) <==> OwedFlag(log, site, flag)
    ensures forall p: nat :: InFlightSince(log + [e], site, p) <==> InFlightSince(log, site, p)
    ensures forall p: nat :: InFlightSince(log, site, p) ==> (log + [e])[..p] == log[..p]
  {
    FlagKept(log, e, site, flag);
    forall p: nat ensures InFlightSince(log + [e], site, p) <==> InFlightSince(log, site, p) {
      FlightKept(log, e, site, p);
    }
  }

  lemma AfterRequest(log: Log, e: Event, site: SiteId, flag: Flag)
    requires e.Requested? && e.site == site
    ensures OwedFlag(log + [e], site, flag) <==> OwedFlag(log, site, flag) || e.flags.Has(flag)
    ensures forall p: nat :: InFlightSince(log + [e], site, p) <==> InFlightSince(log, site, p)
    ensures forall p: nat :: InFlightSince(log, site, p) ==> (log + [e])[..p] == log[..p]
  {
    var next := log + [e];
    forall i | 0 <= i < |log| ensures next[i] == log[i] && (Owed(next, site, i) <==> Owed(log, site, i)) {
      OwedKept(log, e, site, i);
    }
    assert next[|log|] == e && Owed(next, site, |log|);
    forall p: nat ensures InFlightSince(next, site, p) <==> InFlightSince(log, site, p) {
      FlightKept(log, e, site, p);
    }
  }

  lemma AfterPop(log: Log, site: SiteId, flag: Flag)
    ensures !OwedFlag(log + [Popped(site)], site, flag)
    ensures InFlightSince(log + [Popped(site)], site, |log|) && (log + [Popped(site)])[..|log|] == log
  {
    var next := log + [Popped(site)];
    assert next[|log|] == Popped(site);
    assert !RunInterrupted(next, site, |log|);
  }

  lemma AfterCompletion(log: Log, site: SiteId, flag: Flag)
    ensures OwedFlag(log + [Completed(site)], site, flag) <==> OwedFlag(log, site, flag)
    ensures forall p: nat :: !InFlightSince(log + [Completed(site)], site, p)
  {
    FlagKept(log, Completed(site), site, flag);
    assert (log + [Completed(site)])[|log|] == Completed(site);
  }

  lemma AfterInterruption(log: Log, site: SiteId, flag: Flag)
    requires exists p: nat :: InFlightSince(log, site, p)
    ensures forall p: nat | InFlightSince(log, site, p) ::
      OwedFlag(log + [Interrupted(site)], site, flag) <==> OwedFlag(log, site, flag) || OwedFlag(log[..p], site, flag)
    ensures forall p: nat :: !InFlightSince(log + [Interrupted(site)], site, p)
  {
    var next := log + [Interrupted(site)];
    assert next[|log|] == Interrupted(site);
    forall p: nat | InFlightSince(log, site, p)
      ensures OwedFlag(next, site, flag) <==> OwedFlag(log, site, flag) || OwedFlag(log[..p], site, flag)
    {
      forall i | 0 <= i < |log|
        ensures next[i] == log[i] && (Owed(next, site, i) <==> Owed(log, site, i) || (i < p && Owed(log[..p], site, i)))
      {
        InterruptionReopens(log, site, p, i);
      }
      assert forall i :: 0 <= i < p ==> log[..p][i] == log[i];
    }
  }

  lemma EarlierRunsUnchanged(log: Log, site: SiteId, p: nat, j: nat)
    requires p < |log| && log[p] == Popped(site) && j < p
    ensures RunInterrupted(log + [Interrupted(site)], site, j) <==> RunInterrupted(log[..p], site, j)
  {
    var next, prefix := log + [Interrupted(site)], log[..p];
    assert forall m :: 0 <= m < p ==> next[m] == prefix[m];
    if RunInterrupted(next, site, j) {
      var k :| j < k < |next| && next[k] == Interrupted(site)
           && forall m :: j < m < k ==>
                next[m] != Completed(site) && next[m] != Popped(site) && next[m] != Interrupted(site);
      assert k < p by { assert next[p] == Popped(site); }
      assert prefix[k] == Interrupted(site);
    }
    if RunInterrupted(prefix, site, j) {
      var k :| j < k < |prefix| && prefix[k] == Interrupted(site)
           && forall m :: j < m < k ==>
                prefix[m] != Completed(site) && prefix[m] != Popped(site) && prefix[m] != Interrupted(site);
      assert next[k] == Interrupted(site);
    }
  }

  /** Interrupting the run popped at `p` gives back what it had taken. */
  lemma InterruptionReopens(log: Log, site: SiteId, p: nat, i: nat)
    requires InFlightSince(log, site, p) && i < |log|
    ensures Owed(log + [Interrupted(site)], site, i) <==> Owed(log, site, i) || (i < p && Owed(log[..p], site, i))
  {
    var next, prefix := log + [Interrupted(site)], log[..p];
    assert forall m :: 0 <= m < |log| ==> next[m] == log[m];
    assert next[|log|] == Interrupted(site);
    assert RunInterrupted(next, site, p);
    assert !RunInterrupted(log, site, p);
    forall j: nat | j < p ensures RunInterrupted(next, site, j) <==> RunInterrupted(prefix, site, j) {
      EarlierRunsUnchanged(log, site, p, j);
    }
    hide RunInterrupted;
    assert forall j :: p < j < |next| ==> next[j] != Popped(site);
    if i < p {
      assert forall j :: 0 <= j < p ==> prefix[j] == next[j];
      assert log[p] == Popped(site) && next[p] == Popped(site);
    }
  }

  // ----- the queue ------------------------------------------------------------------------

  /** The flags queued for a site. */
  function QueuedFlags(queue: seq<Job>, site: SiteId): Option<Flags> {
    if queue == [] then None
    else if queue[0].site == site then Some(queue[0].flags)
    else QueuedFlags(queue[1..], site)
  }

  ghost predicate DistinctSites(queue: seq<Job>) {
    queue != [] ==> QueuedFlags(queue[1..], queue[0].site).None? && DistinctSites(queue[1..])
  }

  /** The queue with a request merged into the job already waiting for its site. */
  function Merge(queue: seq<Job>, job: Job): seq<Job> {
    if queue == [] then []
    else if queue[0].site == job.site then [Job(job.site, queue[0].flags.Or(job.flags))] + queue[1..]
    else [queue[0]] + Merge(queue[1..], job)
  }

  /** The order in which sites wait. */
  function Sites(queue: seq<Job>): seq<SiteId> {
    seq(|queue|, i requires 0 <= i < |queue| => queue[i].site)
  }

  lemma {:induction false} MergeKeepsOrder(queue: seq<Job>, job: Job)
    requires QueuedFlags(queue, job.site).Some?
    ensures Sites(Merge(queue, job)) == Sites(queue)
  {
    if queue[0].site != job.site {
      MergeKeepsOrder(queue[1..], job);
      assert Sites(queue) == [queue[0].site] + Sites(queue[1..]);
      assert Sites(Merge(queue, job)) == [queue[0].site] + Sites(Merge(queue[1..], job));
    }
  }

  lemma SitesOfBoth(a: seq<Job>, b: seq<Job>)
    ensures Sites(a + b) == Sites(a) + Sites(b)
  {
  }

  lemma SiteOfOne(job: Job)
    ensures Sites([job]) == [job.site]
  {
  }

  lemma {:induction false} MergeFacts(queue: seq<Job>, job: Job)
    requires DistinctSites(queue) && QueuedFlags(queue, job.site).Some?
    ensures DistinctSites(Merge(queue, job)) && |Merge(queue, job)| == |queue|
    ensures forall site ::
      QueuedFlags(Merge(queue, job), site) ==
      if site == job.site then Some(OrElse(QueuedFlags(queue, site), job.flags)) else QueuedFlags(queue, site)
  {
    if queue[0].site != job.site {
      MergeFacts(queue[1..], job);
      assert Merge(queue, job)[1..] == Merge(queue[1..], job);
    } else {
      assert Merge(queue, job)[1..] == queue[1..];
    }
  }

  lemma {:induction false} AppendFacts(queue: seq<Job>, job: Job)
    requires DistinctSites(queue) && QueuedFlags(queue, job.site).None?
    ensures DistinctSites(queue + [job])
    ensures forall site ::
      QueuedFlags(queue + [job], site) ==
      if site == job.site then Some(job.flags) else QueuedFlags(queue, site)
  {
    if queue != [] {
      AppendFacts(queue[1..], job);
      assert (queue + [job])[1..] == queue[1..] + [job];
    } else {
      assert queue + [job] == [job] && [job][1..] == [];
    }
  }

  lemma PrependFacts(queue: seq<Job>, job: Job)
    requires DistinctSites(queue) && QueuedFlags(queue, job.site).None?
    ensures DistinctSites([job] + queue)
    ensures forall site ::
      QueuedFlags([job] + queue, site) ==
      if site == job.site then Some(job.flags) else QueuedFlags(queue, site)
  {
    assert ([job] + queue)[1..] == queue;
  }

  /** The waiting sites are distinct, none of them runs, and together with the running ones they
      are the sites marked enqueued. */
  ghost predicate Placed(queue: seq<Job>, enqueued: set<SiteId>, running: set<SiteId>) {
    && DistinctSites(queue)
    && (forall site :: site in enqueued <==> QueuedFlags(queue, site).Some? || site in running)
    && (forall site :: site in running ==> QueuedFlags(queue, site).None?)
  }

  /** The part of the service that changes, and the flags its running jobs were started with. */
  datatype Fields = Fields(
    queue: seq<Job>,
    enqueued: set<SiteId>,
    running: set<SiteId>,
    rerun: map<SiteId, Flags>,
    started: map<SiteId, Flags>)
  {
    /** What the fields hold of a site's unserved requests. */
    function Pending(site: SiteId): Option<Flags> {
      if site !in running then QueuedFlags(queue, site) else Rerun(site)
    }

    function Rerun(site: SiteId): Option<Flags> {
      if site in rerun then Some(rerun[site]) else None
    }

    function Started(site: SiteId): Option<Flags> {
      if site in started then Some(started[site]) else None
    }

    ghost predicate Consistent() {
      && Placed(queue, enqueued, running)
      && rerun.Keys <= running
      && started.Keys == running
      && |running| <= CONCURRENCY
    }

    ghost predicate Represents(log: Log) {
      WellFormed(log) && forall site :: DemandOf(log, site) == Demand(Pending(site), Started(site))
    }

    function WithRequest(job: Job): Fields {
      if job.site in running then
        this.(rerun := rerun[job.site := OrElse(Rerun(job.site), job.flags)])
      else if job.site in enqueued then
        this.(queue := Merge(queue, job))
      else
        this.(enqueued := enqueued + {job.site}, queue := queue + [job])
    }

    function WithPop(): Fields
      requires queue != []
    {
      var job := queue[0];
      this.(queue := queue[1..], running := running + {job.site}, started := started[job.site := job.flags])
    }

    function WithEnd(site: SiteId, flags: Flags, interrupted: bool): Fields {
      var again := Rerun(site);
      Fields(
        if interrupted then [Job(site, OrElse(again, flags))] + queue
        else if again.Some? then queue + [Job(site, again.value)]
        else queue,
        if interrupted || again.Some? then enqueued + {site} else enqueued - {site},
        running - {site}, rerun - {site}, started - {site})
    }

    /** Decreases with every step that is neither a request nor an interruption. */
    function Measure(): nat {
      2 * |queue| + |running| + 2 * |rerun|
    }
  }

  lemma EndOrders(f: Fields, site: SiteId, flags: Flags, interrupted: bool)
    ensures Sites(f.WithEnd(site, flags, interrupted).queue)
         == if interrupted then [site] + Sites(f.queue)
            else Sites(f.queue) + (if site in f.rerun then [site] else [])
  {
    var again := f.Rerun(site);
    SitesOfBoth([Job(site, OrElse(again, flags))], f.queue);
    SiteOfOne(Job(site, OrElse(again, flags)));
    if again.Some? {
      SitesOfBoth(f.queue, [Job(site, again.value)]);
      SiteOfOne(Job(site, again.value));
    }
  }

  lemma WellFormedStep(log: Log, e: Event)
    requires WellFormed(log)
    requires e.Popped? ==> DemandOf(log, e.site).inFlight.None? && DemandOf(log, e.site).outstanding.Some?
    requires e.Completed? || e.Interrupted? ==> DemandOf(log, e.site).inFlight.Some?
    ensures WellFormed(log + [e])
  {
    var next := log + [e];
    forall i | 0 <= i < |next| ensures next[..i] == log[..i] && (i < |log| ==> next[i] == log[i]) {}
    assert log[..|log|] == log;
  }

  /** A step that only concerns one site is judged on that site alone. */
  lemma RepresentsStep(f: Fields, log: Log, e: Event, g: Fields)
    requires f.Represents(log)
    requires e.Popped? ==> f.Started(e.site).None? && f.Pending(e.site).Some?
    requires e.Completed? || e.Interrupted? ==> f.Started(e.site).Some?
    requires forall site :: site != e.site ==> g.Pending(site) == f.Pending(site) && g.Started(site) == f.Started(site)
    requires Demand(g.Pending(e.site), g.Started(e.site)) == Next(Demand(f.Pending(e.site), f.Started(e.site)), e)
    ensures g.Represents(log + [e])
  {
    assert DemandOf(log, e.site) == Demand(f.Pending(e.site), f.Started(e.site));
    WellFormedStep(log, e);
    forall site ensures DemandOf(log + [e], site) == Demand(g.Pending(site), g.Started(site)) {
      DemandStep(log, e, site);
    }
  }

  /** A request joins the site's outstanding demand, wherever the site is found. */
  lemma RequestStep(f: Fields, log: Log, job: Job)
    requires f.Consistent() && f.Represents(log)
    ensures f.WithRequest(job).Consistent()
    ensures f.WithRequest(job).Represents(log + [Requested(job.site, job.flags)])
  {
    hide Fields.Represents, DistinctSites, Merge;
    if job.site !in f.running {
      if job.site in f.enqueued {
        MergeFacts(f.queue, job);
      } else {
        AppendFacts(f.queue, job);
      }
    }
    RepresentsStep(f, log, Requested(job.site, job.flags), f.WithRequest(job));
  }

  lemma WhatConsistencySays(f: Fields, site: SiteId)
    requires f.Consistent()
    ensures site in f.enqueued && site !in f.running ==> QueuedFlags(f.queue, site).Some?
    ensures f.queue != [] ==> f.queue[0].site !in f.running
    ensures f.rerun.Keys <= f.running == f.started.Keys
    ensures f.enqueued == {} <==> f.queue == [] && f.running == {}
  {
    if f.queue != [] {
      assert QueuedFlags(f.queue, f.queue[0].site).Some?;
    }
  }

  lemma PopStep(f: Fields, log: Log)
    requires f.Consistent() && f.Represents(log) && f.queue != [] && |f.running| < CONCURRENCY
    ensures f.WithPop().Consistent()
    ensures f.WithPop().Represents(log + [Popped(f.queue[0].site)])
  {
    hide Fields.Represents;
    RepresentsStep(f, log, Popped(f.queue[0].site), f.WithPop());
  }

  function Ending(site: SiteId, interrupted: bool): Event {
    if interrupted then Interrupted(site) else Completed(site)
  }

  /** A step of one site keeps the fields consistent when it leaves the others alone. */
  lemma ConsistentElsewhere(f: Fields, g: Fields, site: SiteId)
    requires f.Consistent() && DistinctSites(g.queue)
    requires g.running == f.running - {site} && g.rerun == f.rerun - {site} && g.started == f.started - {site}
    requires forall other :: other != site ==> QueuedFlags(g.queue, other) == QueuedFlags(f.queue, other)
    requires forall other :: other != site ==> (other in g.enqueued <==> other in f.enqueued)
    requires site in g.enqueued <==> QueuedFlags(g.queue, site).Some?
    ensures g.Consistent()
  {
    hide Placed;
    PlacedElsewhere(f, g, site);
    SmallerRunning(f.running, site);
  }

  lemma PlacedElsewhere(f: Fields, g: Fields, site: SiteId)
    requires Placed(f.queue, f.enqueued, f.running) && DistinctSites(g.queue) && g.running == f.running - {site}
    requires forall other :: other != site ==> QueuedFlags(g.queue, other) == QueuedFlags(f.queue, other)
    requires forall other :: other != site ==> (other in g.enqueued <==> other in f.enqueued)
    requires site in g.enqueued <==> QueuedFlags(g.queue, site).Some?
    ensures Placed(g.queue, g.enqueued, g.running)
  {
    hide DistinctSites, QueuedFlags;
  }

  lemma SmallerRunning(running: set<SiteId>, site: SiteId)
    ensures |running - {site}| <= |running|
  {
    assert running == (running - {site}) + (if site in running then {site} else {});
  }

  lemma EndConsistent(f: Fields, site: SiteId, flags: Flags, interrupted: bool)
    requires f.Consistent() && site in f.running
    ensures f.WithEnd(site, flags, interrupted).Consistent()
  {
    hide DistinctSites, Fields.Consistent, QueuedFlags;
    RunningWaitsNowhere(f, site);
    if interrupted {
      PrependFacts(f.queue, Job(site, OrElse(f.Rerun(site), flags)));
    } else if site in f.rerun {
      AppendFacts(f.queue, Job(site, f.rerun[site]));
    }
    ConsistentElsewhere(f, f.WithEnd(site, flags, interrupted), site);
  }

  lemma RunningWaitsNowhere(f: Fields, site: SiteId)
    requires f.Consistent() && site in f.running
    ensures DistinctSites(f.queue) && QueuedFlags(f.queue, site).None?
  {
  }

  lemma EndRepresents(f: Fields, log: Log, site: SiteId, interrupted: bool)
    requires f.Consistent() && f.Represents(log) && site in f.running
    ensures f.WithEnd(site, f.started[site], interrupted).Represents(log + [Ending(site, interrupted)])
  {
    hide Fields.Represents, DistinctSites;
    if interrupted {
      PrependFacts(f.queue, Job(site, OrElse(f.Rerun(site), f.started[site])));
    } else if site in f.rerun {
      AppendFacts(f.queue, Job(site, f.rerun[site]));
    }
    RepresentsStep(f, log, Ending(site, interrupted), f.WithEnd(site, f.started[site], interrupted));
  }

  lemma CompletionDecreases(f: Fields, site: SiteId)
    requires site in f.running && site in f.started
    ensures f.WithEnd(site, f.started[site], false).Measure() == f.Measure() - 1
  {
    assert f.rerun.Keys == (f.rerun - {site}).Keys + if site in f.rerun then {site} else {};
    assert f.running == (f.running - {site}) + {site};
  }

  /** The reported pending count is what waits plus what runs. */
  lemma PendingCount(f: Fields)
    requires f.Consistent()
    ensures |f.enqueued| == |f.queue| + |f.running|
  {
    var waiting := f.enqueued - f.running;
    CountQueued(f.queue, waiting);
    assert f.running <= f.enqueued;
    assert f.enqueued == waiting + f.running;
  }

  lemma {:induction false} CountQueued(queue: seq<Job>, waiting: set<SiteId>)
    requires DistinctSites(queue)
    requires forall site :: site in waiting <==> QueuedFlags(queue, site).Some?
    ensures |waiting| == |queue|
  {
    if queue != [] {
      CountQueued(queue[1..], waiting - {queue[0].site});
    }
  }

  lemma NothingOutstanding(f: Fields, log: Log)
    requires f.Consistent() && f.Represents(log) && f.queue == [] && f.running == {}
    ensures f.enqueued == {} && f.rerun == map[]
    ensures forall site :: DemandOf(log, site) == Demand(None, None)
  {
    WhatConsistencySays(f, "");
    forall site ensures DemandOf(log, site) == Demand(None, None) {
      assert f.Pending(site).None? && f.Started(site).None?;
    }
  }

  /** What the scan learns at each place. */
  lemma ScanStep(queue: seq<Job>, i: nat, job: Job)
    requires i <= |queue| && QueuedFlags(queue[i..], job.site).Some?
    ensures i < |queue|
    ensures queue[i].site == job.site ==>
      Merge(queue[i..], job) == [Job(job.site, queue[i].flags.Or(job.flags))] + queue[i + 1..]
    ensures queue[i].site != job.site ==>
      Merge(queue[i..], job) == [queue[i]] + Merge(queue[i + 1..], job) && QueuedFlags(queue[i + 1..], job.site).Some?
  {
    assert queue[i..][0] == queue[i] && queue[i..][1..] == queue[i + 1..];
  }

  /** The scan of the queue for the job to merge with.  The service follows it with a branch
      for a job that is marked enqueued yet waits nowhere; the branch is never reached. */
  method MergeQueued(queue: seq<Job>, job: Job) returns (merged: seq<Job>)
    requires QueuedFlags(queue, job.site).Some?
    ensures merged == Merge(queue, job)
  {
    hide Merge, QueuedFlags;
    assert queue[0..] == queue;
    var i := 0;
    while i < |queue|
      invariant 0 <= i <= |queue|
      invariant Merge(queue, job) == queue[..i] + Merge(queue[i..], job)
      invariant QueuedFlags(queue[i..], job.site).Some?
    {
      ScanStep(queue, i, job);
      if queue[i].site == job.site {
        merged := queue[i := Job(job.site, queue[i].flags.Or(job.flags))];
        return;
      }
      assert queue[..i + 1] == queue[..i] + [queue[i]];
      i := i + 1;
    }
    ScanStep(queue, i, job);
    assert false;
  }

  /** The drain task: none or done, live, or live with its cancellation requested. */
  datatype Drain = Idle | Live | Cancelling

  class ProfileSyncs {
    var queue: seq<Job>
    var enqueued: set<SiteId>
    var running: set<SiteId>
    var rerun: map<SiteId, Flags>
    var drain: Drain
    /** Set when a drain ended by cancellation and none has started since. */
    ghost var cancelled: bool
    /** The arguments of the running job bodies. */
    var started: map<SiteId, Flags>
    ghost var log: Log

    ghost function State(): Fields
      reads this
    {
      Fields(queue, enqueued, running, rerun, started)
    }

    ghost predicate Valid()
      reads this
    {
      && State().Consistent()
      && State().Represents(log)
      && (running != {} ==> !drain.Idle?)
      && (queue != [] ==> !drain.Idle? || cancelled)
    }

    constructor ()
      ensures Valid() && log == [] && drain == Idle && !cancelled
    {
      queue, enqueued, running, rerun, drain := [], {}, {}, map[], Idle;
      cancelled, started, log := false, map[], [];
    }

    /** Merges requests into whatever the site already has outstanding, and makes sure that a
        drain will serve them. */
    method Enqueue(jobs: seq<Job>)
      requires Valid()
      modifies this
      ensures Valid()
      ensures log == old(log) + Requests(jobs)
      ensures running == old(running) && started == old(started)
      ensures drain == if queue != [] && old(drain).Idle? then Live else old(drain)
      ensures cancelled == (old(cancelled) && drain == old(drain))
      ensures Sites(old(queue)) <= Sites(queue)
    {
      hide Fields.Represents, Fields.Consistent;
      var n := 0;
      while n < |jobs|
        invariant 0 <= n <= |jobs|
        invariant State().Consistent() && State().Represents(log)
        invariant log == old(log) + Requests(jobs[..n])
        invariant running == old(running) && started == old(started)
        invariant drain == old(drain) && cancelled == old(cancelled) && Sites(old(queue)) <= Sites(queue)
      {
        EnqueueOne(jobs[n]);
        assert jobs[..n + 1] == jobs[..n] + [jobs[n]];
        n := n + 1;
      }
      assert jobs[..n] == jobs;
      if queue == [] {
        return;
      }
      if drain.Idle? {
        drain, cancelled := Live, false;
      }
    }

    method EnqueueOne(job: Job)
      requires State().Consistent() && State().Represents(log)
      modifies `queue, `enqueued, `rerun, `log
      ensures State() == old(State()).WithRequest(job)
      ensures State().Consistent() && State().Represents(log)
      ensures log == old(log) + [Requested(job.site, job.flags)]
      ensures Sites(queue) == Sites(old(queue)) + (if job.site in running || job.site in old(enqueued) then []
        else [job.site])
    {
      hide Fields.Represents, Fields.Consistent, Sites;
      SitesOfBoth(queue, [job]);
      SiteOfOne(job);
      RequestStep(State(), log, job);
      WhatConsistencySays(State(), job.site);
      log := log + [Requested(job.site, job.flags)];
      if job.site in running {
        var previous := if job.site in rerun then rerun[job.site] else Flags(false, false);
        rerun := rerun[job.site := previous.Or(job.flags)];
        return;
      }
      if job.site in enqueued {
        MergeKeepsOrder(queue, job);
        queue := MergeQueued(queue, job);
        return;
      }
      enqueued := enqueued + {job.site};
      queue := queue + [job];
    }

    /** One turn of the drain loop, up to the point where it awaits its batch. */
    method PopBatch()
      requires Valid() && drain.Live? && running == {}
      modifies `queue, `running, `started, `drain, `log
      ensures Valid()
      ensures drain == if old(queue) == [] then Idle else Live
      ensures var size := if |old(queue)| < 4 then |old(queue)| else 4;
              && queue == old(queue)[size..] && |running| == size
              && log == old(log) + Pops(old(queue)[..size])
      ensures old(queue) != [] ==> State().Measure() < old(State()).Measure()
    {
      hide Fields.Consistent, Fields.Represents;
      if queue == [] {
        drain := Idle;
        return;
      }
      WhatConsistencySays(State(), queue[0].site);
      StartBatch(if |queue| < CONCURRENCY then |queue| else CONCURRENCY);
    }

    method StartBatch(size: nat)
      requires State().Consistent() && State().Represents(log) && running == {} && size <= |queue|
               && size <= CONCURRENCY
      modifies `queue, `running, `started, `log
      ensures State().Consistent() && State().Represents(log)
      ensures queue == old(queue)[size..] && |running| == size && log == old(log) + Pops(old(queue)[..size])
      ensures State().Measure() == old(State()).Measure() - size
    {
      hide Fields.Consistent, Fields.Represents, Fields.Measure;
      var batch := queue[..size];
      for n := 0 to size
        invariant State().Consistent() && State().Represents(log)
        invariant queue == old(queue)[n..] && |running| == n
        invariant log == old(log) + Pops(batch[..n])
        invariant State().Measure() == old(State()).Measure() - n
      {
        assert batch[..n + 1] == batch[..n] + [queue[0]];
        StartFirst();
      }
      assert batch[..size] == batch;
    }

    method StartFirst()
      requires State().Consistent() && State().Represents(log) && queue != [] && |running| < CONCURRENCY
      modifies `queue, `running, `started, `log
      ensures State().Consistent() && State().Represents(log)
      ensures queue == old(queue)[1..] && |running| == |old(running)| + 1
      ensures log == old(log) + [Popped(old(queue)[0].site)]
      ensures State().Measure() == old(State()).Measure() - 1
    {
      hide Fields.Consistent, Fields.Represents;
      PopStep(State(), log);
      WhatConsistencySays(State(), queue[0].site);
      log := log + [Popped(queue[0].site)];
      running := running + {queue[0].site};
      started := started[queue[0].site := queue[0].flags];
      queue := queue[1..];
    }

    /** The end of a job body that was started with `flags`: `interrupted` when it was cancelled
        at one of its awaits. */
    method Finish(site: SiteId, flags: Flags, interrupted: bool)
      requires Valid() && site in running && site in started && started[site] == flags
      modifies `queue, `enqueued, `running, `rerun, `started, `log
      ensures Valid() && running == old(running) - {site} && started == old(started) - {site}
      ensures log == old(log) + [Ending(site, interrupted)]
      ensures !interrupted ==> State().Measure() == old(State()).Measure() - 1
      ensures Sites(queue) == if interrupted then [site] + Sites(old(queue))
                              else Sites(old(queue)) + (if site in old(rerun) then [site] else [])
    {
      hide Fields.Consistent, Fields.Represents, Fields.Measure, Sites;
      EndOrders(State(), site, flags, interrupted);
      EndConsistent(State(), site, flags, interrupted);
      EndRepresents(State(), log, site, interrupted);
      CompletionDecreases(State(), site);
      var again := if site in rerun then Some(rerun[site]) else None;
      log := log + [Ending(site, interrupted)];
      running, rerun, started := running - {site}, rerun - {site}, started - {site};
      if interrupted {
        queue, enqueued := [Job(site, OrElse(again, flags))] + queue, enqueued + {site};
      } else if again.Some? {
        queue, enqueued := queue + [Job(site, again.value)], enqueued + {site};
      } else {
        enqueued := enqueued - {site};
      }
      assert State() == old(State()).WithEnd(site, flags, interrupted);
    }

    /** A cancelled drain ends once the jobs it was awaiting have ended. */
    method CancelDrain()
      requires Valid() && !drain.Idle?
      modifies `drain
      ensures Valid() && drain == Cancelling
    {
      drain := Cancelling;
    }

    method EndCancelledDrain()
      requires Valid() && drain.Cancelling? && running == {}
      modifies `drain, `cancelled
      ensures Valid() && drain == Idle && cancelled
    {
      drain, cancelled := Idle, true;
    }

    /** Left to itself, a drain serves everything that is outstanding and ends. */
    method Drain()
      requires Valid() && drain.Live?
      modifies `queue, `enqueued, `running, `rerun, `started, `drain, `log
      ensures Valid() && drain.Idle? && queue == [] && running == {} && enqueued == {} && rerun == map[]
      ensures forall site :: DemandOf(log, site) == Demand(None, None)
    {
      hide Fields.Consistent, Fields.Represents;
      while !drain.Idle?
        invariant Valid() && (drain.Idle? ==> queue == [] && running == {})
        invariant !drain.Cancelling?
        decreases !drain.Idle?, State().Measure()
      {
        if running == {} {
          PopBatch();
        } else {
          var site :| site in running;
          WhatConsistencySays(State(), site);
          Finish(site, started[site], false);
        }
      }
      NothingOutstanding(State(), log);
    }
  }

  function Requests(jobs: seq<Job>): Log {
    if jobs == [] then []
    else Requests(jobs[..|jobs| - 1]) + [Requested(jobs[|jobs| - 1].site, jobs[|jobs| - 1].flags)]
  }

  function Pops(jobs: seq<Job>): Log {
    if jobs == [] then [] else Pops(jobs[..|jobs| - 1]) + [Popped(jobs[|jobs| - 1].site)]
  }
}
