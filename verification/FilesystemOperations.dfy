/** The journalled creation of directories and hard links for one candidate, and its rollback.
    The process may die at any fault point; what is left on disk has to stay accounted for. */
module FilesystemOperations {
  import opened FileTree
  import opened OperationJournal
  import opened Wrappers

  datatype ErrorCode =
    | TargetConflict
    | SourceChanged
    | PathMappingInvalid
    | InvalidStateTransition
    | IdempotencyConflict
    | BlockedRollback

  datatype Outcome = Proceed | Raised(code: ErrorCode) | Crashed

  datatype Kind = Directory | Hardlink

  /** Directory journals are filed under the full path of their directory. */
  datatype Key = Key(kind: Kind, path: Path)

  datatype Intent =
    | DirectoryIntent(root: Path, relative: Path)
    | HardlinkIntent(root: Path, relative: Path, source: Path, expected: Entry)

  datatype Journal = Journal(intent: Intent, parent: Entry, status: Status, after: Option<Entry>)

  datatype Request = Request(source: Path, root: Path, relative: Path, expected: Entry) {
    function Target(): Path {
      root + relative
    }

    /** The directories below the root that the target needs. */
    predicate Needs(p: Path) {
      root < p < Target()
    }

    predicate SourceMatches(tree: Tree) {
      source in tree && tree[source].File? && tree[source] == expected
    }
  }

  /** How an execution ends: with the journals of its directories, shallow first, or with an
      error, or dead. */
  datatype Result = Done(directories: seq<Path>, replayed: bool) | Failed(code: ErrorCode) | Died

  datatype Disk = Disk(tree: Tree, journals: map<Key, Journal>)

  function TemporaryFor(target: Path): Path
    requires target != []
  {
    Parent(target) + [Temporary(target)]
  }

  // ----- what holds whoever else writes to the disk ---------------------------------------

  ghost predicate Canonical(journals: map<Key, Journal>) {
    forall key :: key in journals ==>
      && journals[key].intent.relative != []
      && journals[key].intent.root + journals[key].intent.relative == key.path
      && (journals[key].intent.DirectoryIntent? <==> key.kind.Directory?)
      && (key.kind.Hardlink? && journals[key].after.Some? ==>
           journals[key].after.value == journals[key].intent.expected)
  }

  // ----- what holds while nobody else does ------------------------------------------------

  predicate OnChain(p: Path, target: Path)
    requires target != []
  {
    (p != [] && p <= target) || p == TemporaryFor(target)
  }

  predicate KeyOnChain(key: Key, target: Path) {
    if key.kind.Directory? then key.path != [] && key.path < target else key.path == target
  }

  predicate HasJournal(journals: map<Key, Journal>, p: Path, target: Path)
    requires target != []
  {
    if p == target || p == TemporaryFor(target) then Key(Hardlink, target) in journals
      else Key(Directory, p) in journals
  }

  predicate IsApplied(journals: map<Key, Journal>, key: Key) {
    key in journals && journals[key].status.Applied?
  }

  /** An APPLIED journal vouches for the path. */
  predicate Vouched(journals: map<Key, Journal>, p: Path) {
    IsApplied(journals, Key(Directory, p)) || IsApplied(journals, Key(Hardlink, p))
  }

  predicate Extra(d: Disk, original: Tree, p: Path) {
    p in d.tree && p !in original
  }

  predicate Stray(d: Disk, original: Tree, p: Path) {
    Extra(d, original, p) && !Vouched(d.journals, p)
  }

  ghost predicate NoStray(d: Disk, original: Tree) {
    forall p :: !Stray(d, original, p)
  }

  /** A stray is the deepest of the extra entries, so there is at most one. */
  ghost predicate StraysAreLast(d: Disk, original: Tree) {
    forall p, q :: Stray(d, original, p) && Extra(d, original, q) ==> q == p || |q| < |p|
  }

  ghost predicate ExtrasExplained(d: Disk, original: Tree, target: Path)
    requires target != []
  {
    forall p :: Extra(d, original, p) ==> OnChain(p, target) && HasJournal(d.journals, p, target)
  }

  ghost predicate JournalsOnChain(d: Disk, original: Tree, target: Path)
    requires target != []
  {
    forall key :: key in d.journals ==>
      && key.path !in original && KeyOnChain(key, target) && IsDir(d.tree, Parent(key.path))
      && (d.journals[key].status.IntentRecorded? || d.journals[key].status.Applied?
           || d.journals[key].status.ReconcileRequired?)
  }

  /** What was recorded is what is there. */
  predicate Matches(tree: Tree, key: Key, recorded: Option<Entry>) {
    && key.path in tree && recorded.Some?
    && SameEntry(tree[key.path], recorded.value)
    && (key.kind.Directory? <==> tree[key.path].Dir?)
  }

  predicate Proved(d: Disk, key: Key)
    requires key in d.journals
  {
    Matches(d.tree, key, d.journals[key].after)
  }

  ghost predicate AppliedProved(d: Disk) {
    forall key :: IsApplied(d.journals, key) ==> Proved(d, key)
  }

  /** Everything on the disk is accounted for: the original tree is there, every other entry is
      one the request made and has its journal, and at most one of them is not APPLIED. */
  ghost predicate Accounted(d: Disk, original: Tree, target: Path)
    requires target != []
  {
    && WellFormed(original) && Keeps(d.tree, original) && TemporaryFor(target) !in original
    && ExtrasExplained(d, original, target)
    && JournalsOnChain(d, original, target)
    && AppliedProved(d)
    && StraysAreLast(d, original)
  }

  /** A journal whose entry is still to be made remembers the parent as it is; where the
      temporary link is already there, the parent by its identity and the link by its inode. */
  predicate ParentFits(d: Disk, key: Key, target: Path)
    requires target != [] && key in d.journals
  {
    var j := d.journals[key];
    && key.path != [] && Parent(key.path) in d.tree
    && if key.kind.Hardlink? && TemporaryFor(target) in d.tree then
         && SameEntry(d.tree[Parent(key.path)], j.parent)
         && j.intent.HardlinkIntent? && d.tree[TemporaryFor(target)] == j.intent.expected
       else d.tree[Parent(key.path)] == j.parent
  }

  predicate JournalFits(d: Disk, key: Key, target: Path)
    requires target != [] && key in d.journals
  {
    && (d.journals[key].status.ReconcileRequired? ==> key.path in d.tree)
    && (d.journals[key].status.IntentRecorded? && key.path !in d.tree ==> ParentFits(d, key, target))
  }

  /** What an interrupted execution leaves can be taken up again, except where an entry is there
      that no journal vouches for. */
  ghost predicate Fitting(d: Disk, target: Path)
    requires target != []
  {
    forall key :: key in d.journals ==> JournalFits(d, key, target)
  }

  lemma AtMostOneStray(d: Disk, original: Tree, target: Path, p: Path, q: Path)
    requires target != [] && Accounted(d, original, target) && Stray(d, original, p) && Stray(d, original, q)
    ensures p == q
  {
  }

  // ----- what an execution may do to the disk ---------------------------------------------

  ghost predicate KeepsEntries(a: Disk, b: Disk, target: Path)
    requires target != []
  {
    && (forall p :: p in a.tree && p != TemporaryFor(target) ==> p in b.tree && SameEntry(b.tree[p], a.tree[p]))
    && (forall p :: p in b.tree && p !in a.tree ==> OnChain(p, target))
  }

  /** Journals stay, new ones are the request's own, and no entry that was there before its
      journal was APPLIED is ever taken for one of ours. */
  ghost predicate AdoptsNothing(a: Disk, b: Disk, target: Path) {
    && (forall key :: key in a.journals ==>
          && key in b.journals && b.journals[key].intent == a.journals[key].intent
          && (b.journals[key].status.IntentRecorded? ==> a.journals[key].status.IntentRecorded?)
          && (IsApplied(b.journals, key) ==>
               IsApplied(a.journals, key) || (a.journals[key].status.IntentRecorded? && key.path !in a.tree)))
    && (forall key :: key in b.journals && key !in a.journals ==> KeyOnChain(key, target) && key.path !in a.tree)
  }

  /** What every step of an execution that started from `a` keeps. */
  ghost predicate Kept(a: Disk, b: Disk, original: Tree, target: Path)
    requires target != []
  {
    && WellFormed(b.tree) && Canonical(b.journals)
    && KeepsEntries(a, b, target) && AdoptsNothing(a, b, target)
    && (Accounted(a, original, target) ==> Accounted(b, original, target))
    && (Accounted(a, original, target) && Fitting(a, target) ==> Fitting(b, target))
  }

  // ----- the atomic steps -----------------------------------------------------------------

  function Recorded(d: Disk, key: Key, intent: Intent, parent: Entry): Disk {
    d.(journals := d.journals[key := Journal(intent, parent, IntentRecorded, None)])
  }

  function Moved(d: Disk, key: Key, to: Status, after: Option<Entry>): Disk {
    if key !in d.journals then d
    else
      var j := d.journals[key];
      d.(journals := d.journals[key := j.(status := to, after := if after.Some? then after else j.after)])
  }

  function Made(d: Disk, p: Path, e: Entry, stamp: nat): Disk
    requires p != []
  {
    d.(tree := WithEntry(d.tree, p, e, stamp))
  }

  /** The temporary link takes the target's place, which must be free. */
  function Renamed(d: Disk, target: Path, stamp: nat): Disk
    requires target != [] && TemporaryFor(target) in d.tree
  {
    var e := d.tree[TemporaryFor(target)];
    d.(tree := WithEntry(WithoutEntry(d.tree, TemporaryFor(target), stamp), target, e, stamp))
  }

  /** A step that only writes the journal of `key`. */
  ghost predicate JournalStep(d: Disk, next: Disk, key: Key, j: Journal) {
    next == Disk(d.tree, d.journals[key := j])
  }

  lemma JournalStepExplains(d: Disk, next: Disk, original: Tree, target: Path, key: Key, j: Journal)
    requires target != [] && JournalStep(d, next, key, j) && ExtrasExplained(d, original, target)
    ensures ExtrasExplained(next, original, target)
  {
    hide OnChain;
    forall p | Extra(next, original, p) ensures OnChain(p, target) && HasJournal(next.journals, p, target) {
      assert Extra(d, original, p);
    }
  }

  lemma JournalStepOnChain(d: Disk, next: Disk, original: Tree, target: Path, key: Key, j: Journal)
    requires target != [] && JournalStep(d, next, key, j) && JournalsOnChain(d, original, target)
    requires key.path !in original && KeyOnChain(key, target) && IsDir(d.tree, Parent(key.path))
    requires j.status.IntentRecorded? || j.status.Applied? || j.status.ReconcileRequired?
    ensures JournalsOnChain(next, original, target)
  {
    hide KeyOnChain;
  }

  lemma JournalStepProved(d: Disk, next: Disk, key: Key, j: Journal)
    requires JournalStep(d, next, key, j) && AppliedProved(d)
    requires j.status.Applied? ==> Proved(next, key)
    ensures AppliedProved(next)
  {
    forall k | IsApplied(next.journals, k) ensures Proved(next, k) {
      if k != key {
        assert IsApplied(d.journals, k);
      }
    }
  }

  lemma JournalStepStrays(d: Disk, next: Disk, original: Tree, key: Key, j: Journal)
    requires JournalStep(d, next, key, j) && StraysAreLast(d, original)
    requires IsApplied(d.journals, key) ==> j.status.Applied?
    ensures StraysAreLast(next, original)
    ensures forall p :: Stray(next, original, p) ==> Stray(d, original, p)
  {
    forall p | Stray(next, original, p) ensures Stray(d, original, p) {
      assert forall k :: IsApplied(d.journals, k) ==> IsApplied(next.journals, k);
    }
  }

  lemma JournalStepAccounted(d: Disk, next: Disk, original: Tree, target: Path, key: Key, j: Journal)
    requires target != [] && JournalStep(d, next, key, j) && Accounted(d, original, target)
    requires key.path !in original && KeyOnChain(key, target) && IsDir(d.tree, Parent(key.path))
    requires j.status.IntentRecorded? || j.status.Applied? || j.status.ReconcileRequired?
    requires j.status.Applied? ==> Proved(next, key)
    requires IsApplied(d.journals, key) ==> j.status.Applied?
    ensures Accounted(next, original, target)
  {
    hide ExtrasExplained, JournalsOnChain, AppliedProved, StraysAreLast, KeyOnChain, Proved;
    JournalStepExplains(d, next, original, target, key, j);
    JournalStepOnChain(d, next, original, target, key, j);
    JournalStepProved(d, next, key, j);
    JournalStepStrays(d, next, original, key, j);
  }

  lemma JournalStepFits(d: Disk, next: Disk, target: Path, key: Key, j: Journal)
    requires target != [] && JournalStep(d, next, key, j) && Fitting(d, target) && JournalFits(next, key, target)
    ensures Fitting(next, target)
  {
    hide SameEntry;
    forall k | k in next.journals ensures JournalFits(next, k, target) {
      assert k != key ==> JournalFits(d, k, target);
    }
  }

  lemma RecordedKept(a: Disk, d: Disk, original: Tree, target: Path, key: Key, intent: Intent, parent: Entry)
    requires target != [] && Kept(a, d, original, target)
    requires key !in d.journals && KeyOnChain(key, target) && key.path !in d.tree && IsDir(d.tree, Parent(key.path))
    requires intent.relative != [] && intent.root + intent.relative == key.path && parent == d.tree[Parent(key.path)]
    requires intent.DirectoryIntent? <==> key.kind.Directory?
    ensures Kept(a, Recorded(d, key, intent, parent), original, target)
  {
    hide Accounted, WellFormed, Fitting, KeepsEntries, AdoptsNothing, Canonical, Kept, SameEntry;
    var next := Recorded(d, key, intent, parent);
    KeptMeans(a, d, original, target);
    RecordedAdopts(a, d, target, key, intent, parent);
    RecordedCanonical(d, key, intent, parent);
    if Accounted(a, original, target) {
      OriginalIsThere(d, original, target);
      JournalStepAccounted(d, next, original, target, key, next.journals[key]);
      if Fitting(a, target) {
        if key.kind.Hardlink? {
          NoTemporaryYet(d, original, target);
        }
        JournalStepFits(d, next, target, key, next.journals[key]);
      }
    }
    KeptFrom(a, d, next, original, target);
  }

  lemma KeptFrom(a: Disk, d: Disk, next: Disk, original: Tree, target: Path)
    requires target != [] && KeepsEntries(a, d, target) && next.tree == d.tree && WellFormed(next.tree)
    requires AdoptsNothing(a, next, target) && Canonical(next.journals)
    requires Accounted(a, original, target) ==> Accounted(next, original, target)
    requires Accounted(a, original, target) && Fitting(a, target) ==> Fitting(next, target)
    ensures Kept(a, next, original, target)
  {
    hide Accounted, Fitting, WellFormed, AdoptsNothing, Canonical, OnChain, SameEntry;
  }

  lemma RecordedAdopts(a: Disk, d: Disk, target: Path, key: Key, intent: Intent, parent: Entry)
    requires target != [] && KeepsEntries(a, d, target) && AdoptsNothing(a, d, target)
    requires key !in d.journals && KeyOnChain(key, target) && key.path !in d.tree
    ensures AdoptsNothing(a, Recorded(d, key, intent, parent), target)
  {
    hide OnChain, SameEntry;
    TemporaryIsElsewhere(target);
  }

  lemma RecordedCanonical(d: Disk, key: Key, intent: Intent, parent: Entry)
    requires Canonical(d.journals) && intent.relative != [] && intent.root + intent.relative == key.path
    requires intent.DirectoryIntent? <==> key.kind.Directory?
    ensures Canonical(Recorded(d, key, intent, parent).journals)
  {
  }

  /** The temporary link is made under the journal of the link. */
  lemma NoTemporaryYet(d: Disk, original: Tree, target: Path)
    requires target != [] && Accounted(d, original, target) && Key(Hardlink, target) !in d.journals
    ensures TemporaryFor(target) !in d.tree && (target !in original ==> target !in d.tree)
  {
    assert TemporaryFor(target) in d.tree ==> Extra(d, original, TemporaryFor(target));
    assert target in d.tree && target !in original ==> Extra(d, original, target);
    hide WellFormed, OnChain;
  }

  lemma OriginalIsThere(d: Disk, original: Tree, target: Path)
    requires target != [] && Accounted(d, original, target)
    ensures forall p :: p in original ==> p in d.tree
  {
  }

  lemma TemporaryIsElsewhere(target: Path)
    requires target != []
    ensures TemporaryFor(target) != target && !(TemporaryFor(target) <= target)
    ensures |TemporaryFor(target)| == |target| && Parent(TemporaryFor(target)) == Parent(target)
  {
    NotItsOwnTemporary(target, |target| - 1);
    assert TemporaryFor(target)[|target| - 1] == Temporary(target);
  }

  lemma JournalStepKept(a: Disk, d: Disk, next: Disk, original: Tree, target: Path, key: Key, j: Journal)
    requires target != [] && Kept(a, d, original, target) && JournalStep(d, next, key, j)
    requires key in d.journals && j.intent == d.journals[key].intent
    requires j.status.Applied? ==> key.path !in a.tree && (key in a.journals ==> a.journals[key].status.IntentRecorded?)
    requires !j.status.IntentRecorded?
    requires j.after == d.journals[key].after || (key.kind.Hardlink? ==> j.after == Some(j.intent.expected))
    requires Accounted(a, original, target) ==> Accounted(next, original, target)
    requires Accounted(a, original, target) && Fitting(a, target) ==> Fitting(next, target)
    ensures Kept(a, next, original, target)
  {
    hide Accounted, WellFormed, Fitting, KeepsEntries, AdoptsNothing, Canonical, Kept;
    KeptMeans(a, d, original, target);
    JournalStepAdopts(a, d, next, target, key, j);
    KeptFrom(a, d, next, original, target);
  }

  lemma JournalStepAdopts(a: Disk, d: Disk, next: Disk, target: Path, key: Key, j: Journal)
    requires AdoptsNothing(a, d, target) && Canonical(d.journals) && JournalStep(d, next, key, j)
    requires key in d.journals && j.intent == d.journals[key].intent && !j.status.IntentRecorded?
    requires j.status.Applied? ==> key.path !in a.tree && (key in a.journals ==> a.journals[key].status.IntentRecorded?)
    requires j.after == d.journals[key].after || (key.kind.Hardlink? ==> j.after == Some(j.intent.expected))
    ensures AdoptsNothing(a, next, target) && Canonical(next.journals)
  {
    hide KeyOnChain;
  }

  lemma QuarantinedKept(a: Disk, d: Disk, original: Tree, target: Path, key: Key)
    requires target != [] && Kept(a, d, original, target) && key in d.journals
    requires d.journals[key].status.IntentRecorded? || (d.journals[key].status.Applied? && !Proved(d, key))
    requires Accounted(a, original, target) && Fitting(a, target) && d.journals[key].status.IntentRecorded? ==>
      key.path in d.tree
    ensures Kept(a, Moved(d, key, ReconcileRequired, None), original, target)
  {
    KeptMeans(a, d, original, target);
    hide Kept, Accounted, Proved, Fitting, SameEntry;
    var next := Moved(d, key, ReconcileRequired, None);
    if Accounted(a, original, target) {
      WhatAccountedSays(d, original, target, key);
      JournalStepAccounted(d, next, original, target, key, next.journals[key]);
      if Fitting(a, target) {
        JournalStepFits(d, next, target, key, next.journals[key]);
      }
    }
    JournalStepKept(a, d, next, original, target, key, next.journals[key]);
  }

  lemma WhatAccountedSays(d: Disk, original: Tree, target: Path, key: Key)
    requires target != [] && Accounted(d, original, target) && key in d.journals
    ensures key.path !in original && KeyOnChain(key, target) && IsDir(d.tree, Parent(key.path))
    ensures IsApplied(d.journals, key) ==> Proved(d, key)
  {
    hide WellFormed, Keeps, ExtrasExplained, StraysAreLast, Proved, KeyOnChain;
  }

  /** A journal becomes APPLIED for an entry that was not there when the execution started. */
  lemma AppliedKept(a: Disk, d: Disk, original: Tree, target: Path, key: Key)
    requires target != [] && Kept(a, d, original, target) && key in d.journals && d.journals[key].status.IntentRecorded?
    requires key in a.journals ==> a.journals[key].status.IntentRecorded?
    requires key.path in d.tree && key.path !in a.tree && (key.kind.Directory? <==> d.tree[key.path].Dir?)
    requires key.kind.Hardlink? ==>
      d.journals[key].intent.HardlinkIntent? && d.tree[key.path] == d.journals[key].intent.expected
    ensures Kept(a, Moved(d, key, Applied, Some(d.tree[key.path])), original, target)
    ensures forall p :: Stray(Moved(d, key, Applied, Some(d.tree[key.path])), original, p) ==>
      Stray(d, original, p) && p != key.path
  {
    KeptMeans(a, d, original, target);
    var next := Moved(d, key, Applied, Some(d.tree[key.path]));
    AppliedStrays(d, original, key);
    hide Kept, Accounted, SameEntry, Fitting, Stray;
    if Accounted(a, original, target) {
      WhatAccountedSays(d, original, target, key);
      JournalStepAccounted(d, next, original, target, key, next.journals[key]);
      if Fitting(a, target) {
        JournalStepFits(d, next, target, key, next.journals[key]);
      }
    }
    JournalStepKept(a, d, next, original, target, key, next.journals[key]);
  }

  lemma AppliedStrays(d: Disk, original: Tree, key: Key)
    requires key in d.journals && key.path in d.tree
    ensures forall p :: Stray(Moved(d, key, Applied, Some(d.tree[key.path])), original, p) ==>
      Stray(d, original, p) && p != key.path
  {
    var next := Moved(d, key, Applied, Some(d.tree[key.path]));
    forall p | Stray(next, original, p) ensures Stray(d, original, p) && p != key.path {
      assert forall k :: IsApplied(d.journals, k) ==> IsApplied(next.journals, k);
      assert IsApplied(next.journals, key);
      match key.kind
      case Directory => assert key == Key(Directory, key.path);
      case Hardlink => assert key == Key(Hardlink, key.path);
    }
  }

  // ----- the prefixes of the target are settled one by one --------------------------------

  predicate SettledAt(d: Disk, original: Tree, p: Path) {
    Extra(d, original, p) ==> Vouched(d.journals, p)
  }

  ghost predicate Settled(d: Disk, original: Tree, target: Path, n: nat)
    requires n <= |target|
  {
    forall m :: 1 <= m <= n ==> SettledAt(d, original, target[..m])
  }

  lemma AbsentBelow(tree: Tree, p: Path, n: nat)
    requires WellFormed(tree) && n <= |p| && p[..n] !in tree
    ensures p !in tree
  {
    assert p[..|p|] == p;
    if p in tree && n < |p| {
      AncestorsAreDirs(tree, p, n);
    }
  }

  /** When the first `n` components but the last are settled and the last is not there, then
      nothing is astray, and nothing extra reaches that deep. */
  lemma ClearAhead(d: Disk, original: Tree, target: Path, n: nat)
    requires 1 <= n <= |target| && WellFormed(d.tree) && Accounted(d, original, target)
    requires Settled(d, original, target, n - 1) && target[..n] !in d.tree
    requires n == |target| ==> TemporaryFor(target) !in d.tree
    ensures NoStray(d, original)
    ensures forall p :: Extra(d, original, p) ==> |p| < n
  {
    hide WellFormed, Keeps, JournalsOnChain, AppliedProved, StraysAreLast, Vouched;
    forall p | Extra(d, original, p) ensures |p| < n && Vouched(d.journals, p) {
      assert OnChain(p, target);
      if p <= target {
        assert p == target[..|p|];
        if n <= |p| {
          assert p[..n] == target[..n];
          AbsentBelow(d.tree, p, n);
        }
        assert SettledAt(d, original, target[..|p|]);
      } else {
        TemporaryIsElsewhere(target);
        assert p[..n] == target[..n] by {
          assert n < |target|;
          assert p[..n] == Parent(p)[..n];
        }
        AbsentBelow(d.tree, p, n);
        assert false;
      }
    }
  }

  lemma MadeExplains(d: Disk, original: Tree, target: Path, p: Path, e: Entry, stamp: nat)
    requires target != [] && WellFormed(d.tree) && p != [] && p !in d.tree && IsDir(d.tree, Parent(p))
    requires ExtrasExplained(d, original, target) && JournalsOnChain(d, original, target) && AppliedProved(d)
             && Keeps(d.tree, original)
    requires OnChain(p, target) && HasJournal(d.journals, p, target)
    ensures var next := Made(d, p, e, stamp);
            && ExtrasExplained(next, original, target) && JournalsOnChain(next, original, target)
            && AppliedProved(next) && Keeps(next.tree, original)
  {
    hide OnChain, HasJournal, KeyOnChain, WellFormed, WithEntry;
    AddedEntry(d.tree, p, e, stamp);
    var next := Made(d, p, e, stamp);
    forall q | Extra(next, original, q) ensures OnChain(q, target) && HasJournal(next.journals, q, target) {
      assert q == p || Extra(d, original, q);
    }
    forall key | IsApplied(next.journals, key) ensures Proved(next, key) {
      assert Proved(d, key);
    }
  }

  lemma MadeAccounted(d: Disk, original: Tree, target: Path, p: Path, e: Entry, stamp: nat)
    requires target != [] && WellFormed(d.tree) && Accounted(d, original, target)
    requires p != [] && p !in d.tree && IsDir(d.tree, Parent(p)) && OnChain(p, target)
             && HasJournal(d.journals, p, target)
    requires NoStray(d, original) && forall q :: Extra(d, original, q) ==> |q| < |p|
    ensures Accounted(Made(d, p, e, stamp), original, target)
    ensures forall q :: Stray(Made(d, p, e, stamp), original, q) ==> q == p
  {
    hide OnChain, HasJournal, WellFormed, ExtrasExplained, JournalsOnChain, AppliedProved, WithEntry, Vouched, Keeps;
    AddedEntry(d.tree, p, e, stamp);
    MadeExplains(d, original, target, p, e, stamp);
    var next := Made(d, p, e, stamp);
    forall q | Stray(next, original, q) ensures q == p {
      assert q == p || !Stray(d, original, q);
    }
    forall q | Extra(next, original, q) ensures q == p || |q| < |p| {
      assert q == p || Extra(d, original, q);
    }
  }

  /** The temporary link, if that is what is made, is the link of its journal's intent. */
  predicate AsIntended(d: Disk, target: Path, p: Path, e: Entry)
    requires target != []
  {
    var link := Key(Hardlink, target);
    p == TemporaryFor(target) && link in d.journals ==>
      d.journals[link].intent.HardlinkIntent? && e == d.journals[link].intent.expected
  }

  lemma MadeFits(d: Disk, original: Tree, target: Path, p: Path, e: Entry, stamp: nat)
    requires target != [] && WellFormed(d.tree) && JournalsOnChain(d, original, target) && Fitting(d, target)
    requires p != [] && p !in d.tree && IsDir(d.tree, Parent(p)) && OnChain(p, target) && AsIntended(d, target, p, e)
    ensures Fitting(Made(d, p, e, stamp), target)
  {
    var next := Made(d, p, e, stamp);
    AddedEntry(d.tree, p, e, stamp);
    AddedElsewhere(d.tree, p, e, stamp);
    hide WellFormed, WithEntry, JournalFits, SameEntry, Fitting, JournalsOnChain;
    forall key | key in next.journals ensures JournalFits(next, key, target) {
      OneOnChain(d, original, target, key);
      StillFits(d, next, target, key, p, e);
    }
  }

  lemma OneOnChain(d: Disk, original: Tree, target: Path, key: Key)
    requires target != [] && JournalsOnChain(d, original, target) && Fitting(d, target) && key in d.journals
    ensures KeyOnChain(key, target) && JournalFits(d, key, target) && IsDir(d.tree, Parent(key.path))
  {
  }

  /** The journal of another entry is not affected: no two have one parent, but the link and its
      temporary link. */
  lemma StillFits(d: Disk, next: Disk, target: Path, key: Key, p: Path, e: Entry)
    requires target != [] && key in d.journals && next.journals == d.journals
    requires KeyOnChain(key, target) && JournalFits(d, key, target) && IsDir(d.tree, Parent(key.path))
    requires p != [] && p !in d.tree && OnChain(p, target) && AsIntended(d, target, p, e)
    requires next.tree.Keys == d.tree.Keys + {p} && next.tree[p] == e
    requires forall q :: q in d.tree ==> SameEntry(next.tree[q], d.tree[q])
    requires forall q :: q in d.tree && q != p && q != Parent(p) ==> next.tree[q] == d.tree[q]
    ensures JournalFits(next, key, target)
  {
    TemporaryIsElsewhere(target);
    if p <= target {
      SamePrefix(key.path, p, target);
    }
  }

  lemma SamePrefix(p: Path, q: Path, target: Path)
    requires p != [] && q != [] && p <= target && q <= target
    ensures Parent(p) == Parent(q) ==> p == q
  {
    assert p == target[..|p|] && q == target[..|q|];
  }

  lemma AddedElsewhere(tree: Tree, p: Path, e: Entry, stamp: nat)
    requires p != []
    ensures forall q :: q in tree && q != p && q != Parent(p) ==> WithEntry(tree, p, e, stamp)[q] == tree[q]
  {
  }

  /** A new entry on the chain, where nothing extra reaches. */
  lemma MadeKept(a: Disk, d: Disk, original: Tree, target: Path, p: Path, e: Entry, stamp: nat)
    requires target != [] && Kept(a, d, original, target)
    requires p != [] && p !in d.tree && IsDir(d.tree, Parent(p)) && OnChain(p, target)
             && HasJournal(d.journals, p, target)
    requires Accounted(a, original, target) ==>
      NoStray(d, original) && forall q :: Extra(d, original, q) ==> |q| < |p|
    requires AsIntended(d, target, p, e)
    ensures Kept(a, Made(d, p, e, stamp), original, target)
    ensures Accounted(a, original, target) ==> forall q :: Stray(Made(d, p, e, stamp), original, q) ==> q == p
  {
    hide Accounted, OnChain, HasJournal, WithEntry, WellFormed, Canonical, AdoptsNothing, NoStray, Fitting, AsIntended;
    AddedEntry(d.tree, p, e, stamp);
    if Accounted(a, original, target) {
      MadeAccounted(d, original, target, p, e, stamp);
      if Fitting(a, target) {
        ChainOf(d, original, target);
        MadeFits(d, original, target, p, e, stamp);
      }
    }
    SameJournalsKept(a, d, Made(d, p, e, stamp), target);
  }

  lemma ChainOf(d: Disk, original: Tree, target: Path)
    requires target != [] && Accounted(d, original, target)
    ensures JournalsOnChain(d, original, target)
  {
    hide JournalsOnChain;
  }

  lemma SameJournalsKept(a: Disk, d: Disk, next: Disk, target: Path)
    requires AdoptsNothing(a, d, target) && Canonical(d.journals) && next.journals == d.journals
    ensures AdoptsNothing(a, next, target) && Canonical(next.journals)
  {
  }

  /** A link is a leaf. */
  lemma FilesAreLeaves(tree: Tree, p: Path)
    requires WellFormed(tree) && p in tree && tree[p].File?
    ensures forall q :: q in tree && q != [] ==> Parent(q) != p
  {
  }

  lemma RenamedTree(d: Disk, target: Path, stamp: nat)
    requires target != [] && WellFormed(d.tree) && TemporaryFor(target) in d.tree && d.tree[TemporaryFor(target)].File?
    requires target !in d.tree
    ensures var next := Renamed(d, target, stamp).tree;
            && WellFormed(next) && next.Keys == d.tree.Keys - {TemporaryFor(target)} + {target}
            && next[target] == d.tree[TemporaryFor(target)]
            && forall q :: q in d.tree && q != TemporaryFor(target) ==> SameEntry(next[q], d.tree[q])
  {
    hide WellFormed, WithoutEntry, WithEntry, SameEntry;
    TemporaryIsElsewhere(target);
    FilesAreLeaves(d.tree, TemporaryFor(target));
    ParentIsDir(d.tree, TemporaryFor(target));
    RemovedEntry(d.tree, TemporaryFor(target), stamp);
    var without := WithoutEntry(d.tree, TemporaryFor(target), stamp);
    assert IsDir(without, Parent(target)) by {
      assert SameEntry(without[Parent(target)], d.tree[Parent(target)]);
      SameKind(without[Parent(target)], d.tree[Parent(target)]);
    }
    AddedEntry(without, target, d.tree[TemporaryFor(target)], stamp);
    var next := Renamed(d, target, stamp).tree;
    forall q | q in d.tree && q != TemporaryFor(target) ensures SameEntry(next[q], d.tree[q]) {
      SameEntryTransitive(next[q], without[q], d.tree[q]);
    }
  }

  lemma ParentIsDir(tree: Tree, p: Path)
    requires WellFormed(tree) && p in tree && p != []
    ensures IsDir(tree, Parent(p)) && Parent(p) != p
  {
  }

  lemma SameKind(a: Entry, b: Entry)
    requires SameEntry(a, b)
    ensures a.Dir? <==> b.Dir?
  {
  }

  lemma SameEntryTransitive(a: Entry, b: Entry, c: Entry)
    requires SameEntry(a, b) && SameEntry(b, c)
    ensures SameEntry(a, c)
  {
  }

  lemma RenamedExplains(d: Disk, original: Tree, target: Path, stamp: nat)
    requires target != [] && WellFormed(d.tree) && TemporaryFor(target) in d.tree && d.tree[TemporaryFor(target)].File?
    requires target !in d.tree && Key(Hardlink, target) in d.journals && TemporaryFor(target) !in original
    requires ExtrasExplained(d, original, target) && JournalsOnChain(d, original, target) && AppliedProved(d)
             && Keeps(d.tree, original)
    ensures var next := Renamed(d, target, stamp);
            && ExtrasExplained(next, original, target) && JournalsOnChain(next, original, target)
            && AppliedProved(next) && Keeps(next.tree, original)
  {
    hide WellFormed, Renamed;
    RenamedTree(d, target, stamp);
    TemporaryIsElsewhere(target);
    var next := Renamed(d, target, stamp);
    assert next.journals == d.journals by {
      RenamedJournals(d, target, stamp);
    }
    forall q | Extra(next, original, q) ensures OnChain(q, target) && HasJournal(next.journals, q, target) {
      assert q == target || Extra(d, original, q);
    }
    forall key | IsApplied(next.journals, key) ensures Proved(next, key) {
      assert Proved(d, key) && KeyOnChain(key, target);
    }
    forall key | key in next.journals ensures IsDir(next.tree, Parent(key.path)) {
      assert KeyOnChain(key, target) && IsDir(d.tree, Parent(key.path));
    }
  }

  lemma RenamedJournals(d: Disk, target: Path, stamp: nat)
    requires target != [] && TemporaryFor(target) in d.tree
    ensures Renamed(d, target, stamp).journals == d.journals
  {
  }

  lemma TemporaryIsStray(d: Disk, original: Tree, target: Path)
    requires target != [] && Accounted(d, original, target) && TemporaryFor(target) in d.tree
    ensures Stray(d, original, TemporaryFor(target))
    ensures forall q :: Extra(d, original, q) ==> q == TemporaryFor(target) || |q| < |target|
    ensures forall q :: Stray(d, original, q) ==> q == TemporaryFor(target)
  {
    hide WellFormed, Keeps, ExtrasExplained, AppliedProved;
    TemporaryIsElsewhere(target);
    assert forall key :: key in d.journals ==> KeyOnChain(key, target);
  }

  lemma RenamedAccounted(d: Disk, original: Tree, target: Path, stamp: nat)
    requires target != [] && WellFormed(d.tree) && Accounted(d, original, target)
    requires TemporaryFor(target) in d.tree && d.tree[TemporaryFor(target)].File?
    requires target !in d.tree && Key(Hardlink, target) in d.journals
    ensures Accounted(Renamed(d, target, stamp), original, target)
    ensures forall q :: Stray(Renamed(d, target, stamp), original, q) ==> q == target
  {
    hide WellFormed, Renamed, ExtrasExplained, JournalsOnChain, AppliedProved, Keeps, Vouched, SameEntry;
    RenamedTree(d, target, stamp);
    RenamedJournals(d, target, stamp);
    RenamedExplains(d, original, target, stamp);
    TemporaryIsStray(d, original, target);
    var next := Renamed(d, target, stamp);
    forall q | Extra(next, original, q) && q != target
      ensures Extra(d, original, q) && |q| < |target| && !Stray(next, original, q)
    {
      assert !Stray(d, original, q);
    }
  }

  lemma RenamedFits(d: Disk, original: Tree, target: Path, stamp: nat)
    requires target != [] && WellFormed(d.tree) && JournalsOnChain(d, original, target) && Fitting(d, target)
    requires TemporaryFor(target) in d.tree && d.tree[TemporaryFor(target)].File? && target !in d.tree
    ensures Fitting(Renamed(d, target, stamp), target)
  {
    var next := Renamed(d, target, stamp);
    RenamedTree(d, target, stamp);
    RenamedJournals(d, target, stamp);
    TemporaryIsElsewhere(target);
    hide Renamed, SameEntry, WellFormed, ParentFits;
    forall key | key in next.journals ensures JournalFits(next, key, target) {
      assert KeyOnChain(key, target) && JournalFits(d, key, target);
      if key.kind.Directory? {
        AboveIsThere(d.tree, TemporaryFor(target), target, key.path);
      }
    }
  }

  lemma AboveIsThere(tree: Tree, p: Path, target: Path, above: Path)
    requires WellFormed(tree) && target != [] && p in tree && p != [] && Parent(p) == Parent(target) && above < target
    ensures above in tree
  {
    assert above == target[..|above|] == Parent(target)[..|above|] == p[..|above|];
    AncestorsAreDirs(tree, p, |above|);
  }

  lemma RenamedKept(a: Disk, d: Disk, original: Tree, target: Path, stamp: nat)
    requires target != [] && Kept(a, d, original, target)
    requires TemporaryFor(target) in d.tree && d.tree[TemporaryFor(target)].File?
    requires target !in d.tree && Key(Hardlink, target) in d.journals
    ensures Kept(a, Renamed(d, target, stamp), original, target)
    ensures Accounted(a, original, target) ==> forall q :: Stray(Renamed(d, target, stamp), original, q) ==> q == target
  {
    hide Accounted, Renamed, WellFormed, Canonical, AdoptsNothing, SameEntry, Fitting;
    RenamedTree(d, target, stamp);
    RenamedJournals(d, target, stamp);
    if Accounted(d, original, target) {
      RenamedAccounted(d, original, target, stamp);
      if Accounted(a, original, target) && Fitting(a, target) {
        ChainOf(d, original, target);
        RenamedFits(d, original, target, stamp);
      }
    }
    SameJournalsKept(a, d, Renamed(d, target, stamp), target);
    var next := Renamed(d, target, stamp);
    forall p | p in a.tree && p != TemporaryFor(target) ensures p in next.tree && SameEntry(next.tree[p], a.tree[p]) {
      SameEntryTransitive(next.tree[p], d.tree[p], a.tree[p]);
    }
  }

  // ----- the journals an execution returns ------------------------------------------------

  /** The directory journals returned so far: those of the first `n` prefixes of the target. */
  ghost predicate Lists(directories: seq<Path>, keys: set<Key>, target: Path, n: nat) {
    forall p :: p in directories <==> p != [] && p <= target && |p| <= n && Key(Directory, p) in keys
  }

  ghost predicate Increasing(directories: seq<Path>) {
    forall i, j :: 0 <= i < j < |directories| ==> |directories[i]| < |directories[j]|
  }

  lemma NothingYet(d: Disk, original: Tree, target: Path)
    ensures Lists([], d.journals.Keys, target, 0) && Increasing([]) && Settled(d, original, target, 0)
  {
  }

  lemma ListedNext(directories: seq<Path>, keys: set<Key>, target: Path, n: nat)
    requires 1 <= n <= |target| && Lists(directories, keys, target, n - 1) && Increasing(directories)
    ensures var full := target[..n];
            && Increasing(directories + [full])
            && Lists(directories + [full], keys + {Key(Directory, full)}, target, n)
            && (Key(Directory, full) !in keys ==> Lists(directories, keys, target, n))
  {
    var full := target[..n];
    forall p | p != [] && p <= target && |p| <= n ensures |p| <= n - 1 || p == full {
      assert p == target[..|p|];
    }
    forall i | 0 <= i < |directories| ensures |directories[i]| <= n - 1 {
      assert directories[i] in directories;
    }
  }

  lemma ListedAlready(directories: seq<Path>, keys: set<Key>, target: Path, n: nat)
    requires 1 <= n <= |target| && Lists(directories, keys, target, n - 1) && Increasing(directories)
    requires Key(Directory, target[..n]) in keys
    ensures Increasing(directories + [target[..n]]) && Lists(directories + [target[..n]], keys, target, n)
  {
    ListedNext(directories, keys, target, n);
    hide Lists, Increasing;
    assert keys + {Key(Directory, target[..n])} == keys;
  }

  lemma ListedWithout(directories: seq<Path>, keys: set<Key>, target: Path, n: nat)
    requires 1 <= n <= |target| && Lists(directories, keys, target, n - 1) && Increasing(directories)
    requires Key(Directory, target[..n]) !in keys
    ensures Lists(directories, keys, target, n)
  {
    ListedNext(directories, keys, target, n);
    hide Lists, Increasing;
  }

  lemma SettledNext(d: Disk, original: Tree, target: Path, n: nat)
    requires 1 <= n <= |target| && Settled(d, original, target, n - 1) && SettledAt(d, original, target[..n])
    ensures Settled(d, original, target, n)
  {
  }

  lemma NoStraySettles(d: Disk, original: Tree, target: Path, n: nat)
    requires n <= |target| && NoStray(d, original)
    ensures Settled(d, original, target, n)
  {
    forall m | 1 <= m <= n ensures SettledAt(d, original, target[..m]) {
      assert !Stray(d, original, target[..m]);
    }
  }

  lemma RecordedSettles(d: Disk, original: Tree, target: Path, key: Key, intent: Intent, parent: Entry, n: nat)
    requires n <= |target| && key !in d.journals && Settled(d, original, target, n)
    ensures Settled(Recorded(d, key, intent, parent), original, target, n)
  {
    var next := Recorded(d, key, intent, parent);
    forall m | 1 <= m <= n ensures SettledAt(next, original, target[..m]) {
      assert SettledAt(d, original, target[..m]);
      assert Vouched(d.journals, target[..m]) ==> Vouched(next.journals, target[..m]);
    }
  }

  lemma KeptAtFirst(d: Disk, original: Tree, target: Path)
    requires target != [] && WellFormed(d.tree) && Canonical(d.journals)
    ensures Kept(d, d, original, target)
  {
    hide Accounted, WellFormed, Canonical, Fitting;
  }

  /** A directory that has no journal is not ours, and one that is APPLIED is settled. */
  lemma SettledDirectory(d: Disk, original: Tree, target: Path, p: Path)
    requires target != [] && Accounted(d, original, target) && p != [] && p < target
    requires Key(Directory, p) !in d.journals || IsApplied(d.journals, Key(Directory, p))
    ensures SettledAt(d, original, p)
  {
    TemporaryIsElsewhere(target);
    hide WellFormed, Keeps, JournalsOnChain, AppliedProved, StraysAreLast;
  }

  lemma StaysSettled(a: Disk, d: Disk, original: Tree, target: Path, n: nat)
    requires 1 <= n < |target| && Kept(a, d, original, target)
    requires Accounted(a, original, target) ==> Settled(d, original, target, n - 1)
    requires Key(Directory, target[..n]) !in d.journals || IsApplied(d.journals, Key(Directory, target[..n]))
    ensures Accounted(a, original, target) ==> Settled(d, original, target, n)
  {
    KeptMeans(a, d, original, target);
    hide Kept, Accounted, Settled, SettledAt;
    if Accounted(a, original, target) {
      SettledDirectory(d, original, target, target[..n]);
      SettledNext(d, original, target, n);
    }
  }

  lemma WhatKeptSays(a: Disk, d: Disk, original: Tree, target: Path, key: Key)
    requires target != [] && Kept(a, d, original, target) && KeyOnChain(key, target)
    ensures WellFormed(d.tree) && Canonical(d.journals)
            && (Accounted(a, original, target) ==> Accounted(d, original, target))
    ensures key.path !in d.tree ==> key.path !in a.tree
    ensures key in d.journals && d.journals[key].status.IntentRecorded? && key in a.journals ==>
      a.journals[key].status.IntentRecorded?
  {
    TemporaryIsElsewhere(target);
    hide WellFormed, Canonical, Accounted;
  }

  ghost predicate Distinct(directories: seq<Path>) {
    forall i, j :: 0 <= i < j < |directories| ==> directories[i] != directories[j]
  }

  lemma IncreasingIsDistinct(directories: seq<Path>)
    requires Increasing(directories)
    ensures Distinct(directories)
  {
  }

  /** A directory that is recorded when its journal is new extends the list without a repeat;
      as long as nobody else writes, it is also deeper than all listed before. */
  lemma ListedLast(d: Disk, original: Tree, target: Path, directories: seq<Path>, n: nat)
    requires 1 <= n < |target| && WellFormed(d.tree) && target[..n] !in d.tree
    requires Lists(directories, d.journals.Keys, target, |target| - 1) && Distinct(directories)
    requires Key(Directory, target[..n]) !in d.journals
    ensures var full := target[..n];
            && Lists(directories + [full], d.journals.Keys + {Key(Directory, full)}, target, |target| - 1)
            && Distinct(directories + [full])
            && (Accounted(d, original, target) && Increasing(directories) ==> Increasing(directories + [full]))
  {
    hide WellFormed, Keeps, ExtrasExplained, AppliedProved, StraysAreLast;
    var full := target[..n];
    forall i | 0 <= i < |directories|
      ensures directories[i] != full && (Accounted(d, original, target) ==> |directories[i]| < n)
    {
      var p := directories[i];
      assert p in directories;
      if Accounted(d, original, target) && n <= |p| {
        assert Key(Directory, p) in d.journals && IsDir(d.tree, Parent(p));
        assert p == target[..|p|];
        assert n < |p|;
        assert Parent(p)[..n] == full;
        AbsentBelow(d.tree, Parent(p), n);
      }
    }
  }

  /** With its hard link APPLIED, a request has nothing astray. */
  lemma LinkedMeansNoStray(d: Disk, original: Tree, target: Path)
    requires target != [] && Accounted(d, original, target) && IsApplied(d.journals, Key(Hardlink, target))
    ensures NoStray(d, original)
  {
    TemporaryIsElsewhere(target);
    var link := Key(Hardlink, target);
    WhatAccountedSays(d, original, target, link);
    assert Extra(d, original, target) && Vouched(d.journals, target);
    forall p | Extra(d, original, p) ensures |p| <= |target| {
      assert OnChain(p, target);
    }
  }

  // ----- when nothing is in the way -------------------------------------------------------

  /** The entry and the journal of one directory are all that may have changed. */
  ghost predicate GrowsBy(d: Disk, next: Disk, p: Path) {
    && d.tree.Keys <= next.tree.Keys <= d.tree.Keys + {p}
    && (forall q :: q in d.tree ==> SameEntry(next.tree[q], d.tree[q]))
    && d.journals.Keys <= next.journals.Keys <= d.journals.Keys + {Key(Directory, p)}
    && (forall key :: key in d.journals ==>
          && next.journals[key].intent == d.journals[key].intent
          && (key != Key(Directory, p) ==> next.journals[key] == d.journals[key]))
  }

  /** No file of the original tree stands where the target or one of its directories belongs. */
  ghost predicate WayIsOpen(original: Tree, target: Path) {
    && target !in original
    && forall n :: 0 <= n < |target| && target[..n] in original ==> original[target[..n]].Dir?
  }

  ghost predicate OnlyTemporaryAstray(d: Disk, original: Tree, target: Path)
    requires target != []
  {
    forall p :: Stray(d, original, p) ==> p == TemporaryFor(target)
  }

  ghost predicate Clear(d: Disk, original: Tree, target: Path)
    requires target != []
  {
    && Accounted(d, original, target) && Fitting(d, target) && WayIsOpen(original, target)
    && OnlyTemporaryAstray(d, original, target)
  }

  lemma StillClear(a: Disk, d: Disk, original: Tree, target: Path)
    requires target != [] && Clear(a, original, target) && Kept(a, d, original, target) && NoStray(d, original)
    ensures Clear(d, original, target)
  {
    KeptMeans(a, d, original, target);
    hide Accounted, Fitting, Kept, WayIsOpen;
  }

  lemma WhenClear(d: Disk, original: Tree, target: Path)
    requires target != []
    ensures Clear(d, original, target) ==> Accounted(d, original, target) && Fitting(d, target)
  {
    hide Accounted, Fitting, WayIsOpen, OnlyTemporaryAstray;
  }

  /** A directory on a clear way is there and vouched for, or it is yet to be made. */
  lemma ClearDirectory(d: Disk, original: Tree, target: Path, n: nat)
    requires 1 <= n < |target| && Clear(d, original, target)
    ensures var p := target[..n];
            && (p in d.tree ==> d.tree[p].Dir?)
            && (Key(Directory, p) in d.journals ==> DirectoryIsReady(d, p))
  {
    TemporaryIsElsewhere(target);
    var p := target[..n];
    var key := Key(Directory, p);
    if p in d.tree {
      DirectoryIsVouched(d, original, target, n);
    }
    if key in d.journals {
      WhatAccountedSays(d, original, target, key);
      assert JournalFits(d, key, target);
    }
    hide Accounted, OnlyTemporaryAstray, WayIsOpen, Fitting;
  }

  ghost predicate DirectoryIsReady(d: Disk, p: Path)
    requires p != [] && Key(Directory, p) in d.journals
  {
    var key := Key(Directory, p);
    if p in d.tree then d.journals[key].status.Applied? && Proved(d, key)
    else
      && d.journals[key].status.IntentRecorded? && IsDir(d.tree, Parent(p))
      && d.tree[Parent(p)] == d.journals[key].parent
  }

  lemma DirectoryIsVouched(d: Disk, original: Tree, target: Path, n: nat)
    requires 1 <= n < |target| && Clear(d, original, target) && target[..n] in d.tree
    ensures var p := target[..n];
            if p in original then d.tree[p].Dir? else IsApplied(d.journals, Key(Directory, p)) && d.tree[p].Dir?
  {
    TemporaryIsElsewhere(target);
    var p := target[..n];
    if p !in original {
      assert Extra(d, original, p) && !Stray(d, original, p);
      ChainOf(d, original, target);
      assert Key(Hardlink, p) !in d.journals by {
        assert !KeyOnChain(Key(Hardlink, p), target);
      }
      WhatAccountedSays(d, original, target, Key(Directory, p));
    }
    hide JournalsOnChain, ExtrasExplained, StraysAreLast, WellFormed, Fitting, AppliedProved;
  }

  /** The same for the link. */
  lemma ClearLink(d: Disk, original: Tree, target: Path)
    requires target != [] && Clear(d, original, target)
    ensures target in d.tree ==> IsApplied(d.journals, Key(Hardlink, target))
    ensures IsApplied(d.journals, Key(Hardlink, target)) ==> Proved(d, Key(Hardlink, target))
  {
    TemporaryIsElsewhere(target);
    if target in d.tree {
      assert Extra(d, original, target) && !Stray(d, original, target);
      ChainOf(d, original, target);
      assert Key(Directory, target) !in d.journals by {
        assert !KeyOnChain(Key(Directory, target), target);
      }
    }
    if IsApplied(d.journals, Key(Hardlink, target)) {
      WhatAccountedSays(d, original, target, Key(Hardlink, target));
    }
    hide Accounted, Fitting, WayIsOpen, Proved;
  }

  /** A link that is not in its place can be put there, from where its journal was left. */
  lemma LinkIsReady(d: Disk, original: Tree, target: Path)
    requires target != [] && Accounted(d, original, target) && Fitting(d, target) && target !in d.tree
    ensures var link := Key(Hardlink, target);
            if link in d.journals then d.journals[link].status.IntentRecorded? && ParentFits(d, link, target)
            else TemporaryFor(target) !in d.tree
  {
    var link := Key(Hardlink, target);
    if link in d.journals {
      WhatAccountedSays(d, original, target, link);
      ChainOf(d, original, target);
      assert JournalFits(d, link, target);
    } else {
      NoTemporaryYet(d, original, target);
    }
    hide Accounted, Fitting, ParentFits;
  }

  ghost predicate NothingToDo(d: Disk, root: Path, anchor: nat, depth: nat)
    requires 1 <= depth <= |root|
  {
    var key := Key(Directory, root[..depth]);
    if key in d.journals then d.journals[key].status.Applied? && Proved(d, key) else depth <= anchor
  }

  lemma GrowsByNothing(d: Disk, p: Path)
    ensures GrowsBy(d, d, p)
  {
  }

  lemma MadeGrows(d: Disk, p: Path, e: Entry, stamp: nat)
    requires WellFormed(d.tree) && p != [] && IsDir(d.tree, Parent(p)) && p !in d.tree
    ensures GrowsBy(d, Made(d, p, e, stamp), p)
  {
    hide WellFormed, WithEntry, SameEntry;
    AddedEntry(d.tree, p, e, stamp);
  }

  lemma NotTheTemporary(d: Disk, target: Path, p: Path, e: Entry)
    requires target != [] && p < target
    ensures AsIntended(d, target, p, e)
  {
    TemporaryIsElsewhere(target);
  }

  lemma NothingElseAstray(d: Disk, original: Tree, key: Key)
    requires key in d.journals && key.path in d.tree
    ensures (forall p :: Stray(d, original, p) ==> p == key.path) ==>
      NoStray(Moved(d, key, Applied, Some(d.tree[key.path])), original)
  {
    AppliedStrays(d, original, key);
    hide Stray, Moved;
  }

  /** A journal of the directory's own was written. */
  lemma GrowsByJournal(d: Disk, next: Disk, p: Path)
    requires next.tree == d.tree && d.journals.Keys <= next.journals.Keys <= d.journals.Keys + {Key(Directory, p)}
    requires forall key :: key in d.journals ==> next.journals[key].intent == d.journals[key].intent
    requires forall key :: key in d.journals && key != Key(Directory, p) ==> next.journals[key] == d.journals[key]
    ensures GrowsBy(d, next, p)
  {
  }

  lemma GrowsByBoth(d: Disk, middle: Disk, next: Disk, p: Path)
    requires GrowsBy(d, middle, p) && GrowsBy(middle, next, p)
    ensures GrowsBy(d, next, p)
  {
    hide SameEntry;
    forall q | q in d.tree ensures SameEntry(next.tree[q], d.tree[q]) {
      SameEntryTransitive(next.tree[q], middle.tree[q], d.tree[q]);
    }
  }

  /** Past the anchor there is no directory of the root yet, up to it there are all. */
  ghost predicate Ahead(tree: Tree, root: Path, anchor: nat, depth: nat) {
    && (forall m :: depth <= m <= |root| && anchor < m ==> !IsDir(tree, root[..m]))
    && (forall m :: 0 <= m <= anchor && m <= |root| ==> IsDir(tree, root[..m]))
  }

  lemma AheadAtFirst(tree: Tree, root: Path, anchor: nat)
    requires WellFormed(tree) && anchor <= |root| && (anchor > 0 ==> IsDir(tree, root[..anchor]))
    requires forall n :: anchor < n <= |root| ==> !IsDir(tree, root[..n])
    ensures Ahead(tree, root, anchor, 1)
  {
    forall m | 0 <= m <= anchor ensures IsDir(tree, root[..m]) {
      assert root[..0] == [];
      if m < anchor {
        AncestorsAreDirs(tree, root[..anchor], m);
        assert root[..anchor][..m] == root[..m];
      }
    }
  }

  lemma AheadStep(d: Disk, next: Disk, root: Path, anchor: nat, depth: nat)
    requires Ahead(d.tree, root, anchor, depth) && depth <= |root| && GrowsBy(d, next, root[..depth])
    ensures Ahead(next.tree, root, anchor, depth + 1)
  {
    forall m | depth + 1 <= m <= |root| && anchor < m ensures !IsDir(next.tree, root[..m]) {
      assert |root[..m]| != |root[..depth]|;
    }
  }

  lemma AheadHere(tree: Tree, root: Path, anchor: nat, depth: nat)
    requires Ahead(tree, root, anchor, depth) && 1 <= depth <= |root| && anchor <= |root|
    ensures IsDir(tree, root[..anchor]) && (IsDir(tree, root[..depth]) <==> depth <= anchor)
  {
  }

  lemma NotReadyYet(d: Disk, p: Path)
    requires p != []
    ensures Key(Directory, p) in d.journals && DirectoryIsReady(d, p) && p !in d.tree ==> IsDir(d.tree, Parent(p))
  {
  }

  /** How much of the root is there already. */
  function AnchorOf(tree: Tree, root: Path): nat
    ensures AnchorOf(tree, root) <= |root|
  {
    if root == [] || IsDir(tree, root) then |root| else AnchorOf(tree, Parent(root))
  }

  lemma WholeRoot(root: Path)
    ensures root[..|root|] == root
  {
  }

  lemma AnchorAbove(tree: Tree, root: Path, anchor: nat)
    requires 0 < anchor <= |root| && !IsDir(tree, root[..anchor])
    ensures AnchorOf(tree, root[..anchor]) == AnchorOf(tree, root[..anchor - 1])
  {
    assert Parent(root[..anchor]) == root[..anchor - 1];
  }

  lemma AnchorHere(tree: Tree, root: Path, anchor: nat)
    requires anchor <= |root| && (anchor == 0 || IsDir(tree, root[..anchor]))
    ensures AnchorOf(tree, root[..anchor]) == anchor
  {
  }

  /** A new journal of a directory of the root is filed under the split at the anchor. */
  predicate FiledAt(journals: map<Key, Journal>, next: map<Key, Journal>, root: Path, anchor: nat, depth: nat)
    requires depth <= |root|
  {
    var key := Key(Directory, root[..depth]);
    key in next && key !in journals ==>
      anchor < depth && next[key].intent == DirectoryIntent(root[..anchor], root[anchor..depth])
  }

  ghost predicate AllFiledAt(journals: map<Key, Journal>, next: map<Key, Journal>, root: Path, anchor: nat) {
    forall depth :: 1 <= depth <= |root| ==> FiledAt(journals, next, root, anchor, depth)
  }

  lemma NewlyFiled(journals: map<Key, Journal>, d: Disk, next: Disk, root: Path, anchor: nat, depth: nat)
    requires 1 <= depth <= |root| && AllFiledAt(journals, d.journals, root, anchor)
    requires GrowsBy(d, next, root[..depth]) && FiledAt(d.journals, next.journals, root, anchor, depth)
    ensures AllFiledAt(journals, next.journals, root, anchor)
  {
    hide SameEntry;
    forall n | 1 <= n <= |root| ensures FiledAt(journals, next.journals, root, anchor, n) {
      assert FiledAt(journals, d.journals, root, anchor, n);
      assert n != depth ==> |root[..n]| != |root[..depth]|;
    }
  }

  lemma NothingFiledYet(journals: map<Key, Journal>, root: Path, anchor: nat)
    ensures AllFiledAt(journals, journals, root, anchor)
  {
  }

  lemma PrefixIsDir(tree: Tree, p: Path, q: Path)
    requires WellFormed(tree) && IsDir(tree, p) && q <= p
    ensures IsDir(tree, q)
  {
    assert q == p[..|q|] && p == p[..|p|];
    if |q| < |p| {
      AncestorsAreDirs(tree, p, |q|);
    }
  }

  /** Which directories were found missing is still right for those to come. */
  ghost predicate MissingAhead(tree: Tree, target: Path, missing: set<Path>, n: nat) {
    forall m :: n <= m < |target| ==> (target[..m] in missing <==> target[..m] !in tree)
  }

  lemma MissingStep(d: Disk, next: Disk, target: Path, missing: set<Path>, n: nat)
    requires MissingAhead(d.tree, target, missing, n) && n < |target| && GrowsBy(d, next, target[..n])
    ensures MissingAhead(next.tree, target, missing, n + 1)
  {
    forall m | n + 1 <= m < |target| ensures target[..m] in next.tree <==> target[..m] in d.tree {
      assert |target[..m]| != |target[..n]|;
    }
  }

  lemma MissingAtFirst(d: Disk, request: Request, missing: set<Path>)
    requires request.relative != []
    requires forall p :: p in missing <==> request.Needs(p) && p !in d.tree
    ensures MissingAhead(d.tree, request.Target(), missing, |request.root| + 1)
  {
    var target := request.Target();
    forall m | |request.root| + 1 <= m < |target| ensures request.Needs(target[..m]) {
      assert target[..m][..|request.root|] == request.root;
    }
  }

  /** Once the link is APPLIED, so are all directories that the request made. */
  lemma LinkedHasNothingToDo(d: Disk, original: Tree, root: Path, target: Path, anchor: nat, depth: nat)
    requires root < target && anchor <= |root| && 1 <= depth <= |root| && WellFormed(d.tree)
    requires Accounted(d, original, target) && IsApplied(d.journals, Key(Hardlink, target))
    requires Ahead(d.tree, root, anchor, depth)
    ensures NothingToDo(d, root, anchor, depth)
  {
    hide Accounted, WellFormed, Matches;
    var key := Key(Directory, root[..depth]);
    LinkedMeansNoStray(d, original, target);
    WhatAccountedSays(d, original, target, Key(Hardlink, target));
    if key in d.journals {
      AllApplied(d, original, target, key);
    }
    assert target in d.tree by {
      ProvedIsThere(d, Key(Hardlink, target));
    }
    AncestorsAreDirs(d.tree, target, |root|);
    assert target[..|root|] == root && root[..|root|] == root;
  }

  lemma ProvedIsThere(d: Disk, key: Key)
    requires key in d.journals && Proved(d, key)
    ensures key.path in d.tree
  {
  }

  // ----- one request, tried again ---------------------------------------------------------

  /** The directory's journal is filed under this split of its path, and proved if APPLIED. */
  predicate Filed(d: Disk, request: Request, key: Key)
    requires key in d.journals && request.Needs(key.path)
  {
    && d.journals[key].intent == DirectoryIntent(request.root, key.path[|request.root|..])
    && (d.journals[key].status.Applied? ==> Proved(d, key))
  }

  /** The directories shallower than this are. */
  ghost predicate FiledBefore(d: Disk, request: Request, n: nat) {
    forall p :: request.Needs(p) && |p| < n && Key(Directory, p) in d.journals ==> Filed(d, request, Key(Directory, p))
  }

  lemma NoneFiledBefore(d: Disk, request: Request)
    ensures FiledBefore(d, request, |request.root| + 1)
  {
  }

  lemma AllFiledBefore(d: Disk, request: Request)
    requires FiledBefore(d, request, |request.Target()|)
    ensures forall p :: request.Needs(p) && Key(Directory, p) in d.journals ==> Filed(d, request, Key(Directory, p))
  {
    hide Filed;
  }

  lemma FiledNext(d: Disk, request: Request, depth: nat)
    requires 1 <= depth < |request.relative| && FiledBefore(d, request, |request.root| + depth)
    ensures var full := request.root + request.relative[..depth];
            var key := Key(Directory, full);
            && full == request.Target()[..|request.root| + depth] && request.Needs(full)
            && (key in d.journals ==>
                  (Filed(d, request, key) <==>
                    && d.journals[key].intent == DirectoryIntent(request.root, request.relative[..depth])
                    && (d.journals[key].status.Applied? ==> Proved(d, key))))
            && (key !in d.journals || Filed(d, request, key) ==> FiledBefore(d, request, |request.root| + depth + 1))
  {
    hide Proved;
    var full := request.root + request.relative[..depth];
    assert full[|request.root|..] == request.relative[..depth];
    NeededAt(request, depth);
  }

  /** Whatever was recorded for the target and its directories below the root was recorded for
      this very request. */
  ghost predicate SameRequest(journals: map<Key, Journal>, request: Request) {
    && (forall p :: request.Needs(p) && Key(Directory, p) in journals ==>
          journals[Key(Directory, p)].intent == DirectoryIntent(request.root, p[|request.root|..]))
    && (Key(Hardlink, request.Target()) in journals ==>
          journals[Key(Hardlink, request.Target())].intent
          == HardlinkIntent(request.root, request.relative, request.source, request.expected))
  }

  /** What was recorded is still recorded, and nothing else below the root. */
  ghost predicate SameBelow(journals: map<Key, Journal>, next: map<Key, Journal>, n: nat) {
    forall key: Key :: |key.path| > n ==>
      (key in next <==> key in journals) && (key in next ==> next[key] == journals[key])
  }

  lemma SameRequestBelow(journals: map<Key, Journal>, next: map<Key, Journal>, request: Request)
    requires request.relative != [] && SameBelow(journals, next, |request.root|) && SameRequest(journals, request)
    ensures SameRequest(next, request)
  {
  }

  lemma SameBelowGrows(a: map<Key, Journal>, d: Disk, next: Disk, p: Path, n: nat)
    requires SameBelow(a, d.journals, n) && GrowsBy(d, next, p) && |p| <= n
    ensures SameBelow(a, next.journals, n)
  {
    hide SameEntry;
    forall key: Key | |key.path| > n
      ensures (key in next.journals <==> key in a) && (key in next.journals ==> next.journals[key] == a[key])
    {
      assert key != Key(Directory, p);
    }
  }

  lemma SameIntents(journals: map<Key, Journal>, next: map<Key, Journal>, request: Request)
    requires SameRequest(journals, request) && next.Keys == journals.Keys
    requires forall key :: key in journals ==> next[key].intent == journals[key].intent
    ensures SameRequest(next, request)
  {
  }

  lemma SameRequestGrows(d: Disk, next: Disk, request: Request, n: nat)
    requires |request.root| < n < |request.Target()| && SameRequest(d.journals, request)
    requires GrowsBy(d, next, request.Target()[..n])
    requires FiledUnder(d.journals, next.journals, request, n)
    ensures SameRequest(next.journals, request)
  {
    hide SameEntry;
    var full := request.Target()[..n];
    assert full[|request.root|..] == request.Target()[|request.root|..n];
  }

  /** An accounted state in which this request, and no other, was tried any number of times, and
      the source is intact. */
  ghost predicate Retryable(d: Disk, original: Tree, request: Request)
    requires request.relative != []
  {
    && Accounted(d, original, request.Target()) && Fitting(d, request.Target()) && WayIsOpen(original, request.Target())
    && SameRequest(d.journals, request)
    && request.SourceMatches(d.tree) && request.source != TemporaryFor(request.Target())
  }

  /** A request whose source is as expected, whose way is free and which was never tried. */
  ghost predicate Unobstructed(d: Disk, request: Request)
    requires request.relative != []
  {
    && d.journals == map[] && request.SourceMatches(d.tree) && request.source != TemporaryFor(request.Target())
    && TemporaryFor(request.Target()) !in d.tree && WayIsOpen(d.tree, request.Target())
  }

  /** Whoever else wrote to the tree before. */
  lemma UnobstructedIsRetryable(d: Disk, request: Request)
    requires request.relative != [] && WellFormed(d.tree) && Unobstructed(d, request)
    ensures Retryable(d, d.tree, request) && NoStray(d, d.tree)
  {
    InitiallyAccounted(d.tree, request.Target());
  }

  /** What is astray stays so, unless it is the temporary link. */
  lemma StrayStays(a: Disk, b: Disk, original: Tree, target: Path, p: Path)
    requires target != [] && KeepsEntries(a, b, target) && AdoptsNothing(a, b, target)
    requires Stray(a, original, p) && p != TemporaryFor(target)
    ensures Stray(b, original, p)
  {
    hide SameEntry, OnChain, KeyOnChain;
    assert !IsApplied(a.journals, Key(Directory, p)) && !IsApplied(a.journals, Key(Hardlink, p));
  }

  lemma SplitIsFiled(d: Disk, original: Tree, request: Request)
    requires request.relative != [] && Accounted(d, original, request.Target()) && SameRequest(d.journals, request)
    ensures forall p :: request.Needs(p) && Key(Directory, p) in d.journals ==> Filed(d, request, Key(Directory, p))
  {
    forall p | request.Needs(p) && Key(Directory, p) in d.journals ensures Filed(d, request, Key(Directory, p)) {
      WhatAccountedSays(d, original, request.Target(), Key(Directory, p));
    }
    hide Accounted, Proved;
  }

  /** The directories of a clear way that are there are directories. */
  lemma ClearNeeds(d: Disk, original: Tree, request: Request)
    requires request.relative != [] && Clear(d, original, request.Target())
    ensures forall p :: request.Needs(p) && p in d.tree ==> d.tree[p].Dir?
  {
    forall p | request.Needs(p) && p in d.tree ensures d.tree[p].Dir? {
      assert p == request.Target()[..|p|];
      ClearDirectory(d, original, request.Target(), |p|);
    }
    hide Clear;
  }

  /** The link is APPLIED for this very request, and its directories are filed under its split. */
  predicate SameLinkAs(d: Disk, request: Request) {
    var key := Key(Hardlink, request.Target());
    && IsApplied(d.journals, key)
    && d.journals[key].intent == HardlinkIntent(request.root, request.relative, request.source, request.expected)
  }

  ghost predicate Completed(d: Disk, request: Request) {
    && SameLinkAs(d, request) && request.SourceMatches(d.tree)
    && forall p :: request.Needs(p) && Key(Directory, p) in d.journals ==> Filed(d, request, Key(Directory, p))
  }

  lemma CompletedMeansIf(d: Disk, original: Tree, request: Request)
    requires request.relative != []
    ensures Accounted(d, original, request.Target()) && Completed(d, request) ==>
      var key := Key(Hardlink, request.Target());
      && IsApplied(d.journals, key) && Proved(d, key) && request.SourceMatches(d.tree)
      && d.journals[key].intent == HardlinkIntent(request.root, request.relative, request.source, request.expected)
      && forall p :: request.Needs(p) && Key(Directory, p) in d.journals ==> Filed(d, request, Key(Directory, p))
  {
    hide Accounted, Completed, Filed, Proved;
    if Accounted(d, original, request.Target()) && Completed(d, request) {
      CompletedMeans(d, original, request);
    }
  }

  lemma SourceKept(a: Disk, d: Disk, request: Request)
    requires request.relative != [] && KeepsEntries(a, d, request.Target())
    requires request.SourceMatches(a.tree) && request.source != TemporaryFor(request.Target())
    ensures request.SourceMatches(d.tree)
  {
  }

  lemma CompletedMeans(d: Disk, original: Tree, request: Request)
    requires request.relative != [] && Accounted(d, original, request.Target()) && Completed(d, request)
    ensures var key := Key(Hardlink, request.Target());
            && IsApplied(d.journals, key) && Proved(d, key)
            && d.journals[key].intent == HardlinkIntent(request.root, request.relative, request.source,
                 request.expected)
    ensures request.SourceMatches(d.tree)
    ensures forall p :: request.Needs(p) && Key(Directory, p) in d.journals ==> Filed(d, request, Key(Directory, p))
  {
    hide Accounted, Matches;
    WhatAccountedSays(d, original, request.Target(), Key(Hardlink, request.Target()));
  }

  /** The way is clear up to this level of the root. */
  ghost predicate RootIsNext(a: Disk, d: Disk, original: Tree, root: Path, target: Path, anchor: nat, depth: nat)
    requires root < target && 1 <= depth <= |root|
  {
    && Clear(a, original, target) && Clear(d, original, target)
    && Ahead(d.tree, root, anchor, depth) && IsDir(d.tree, root[..depth - 1])
  }

  lemma RootIsNextAt(a: Disk, d: Disk, original: Tree, root: Path, target: Path, anchor: nat, depth: nat)
    requires root < target && 1 <= depth <= |root| && Clear(a, original, target) && Clear(d, original, target)
    requires Ahead(d.tree, root, anchor, depth) && IsDir(d.tree, root[..depth - 1])
    ensures RootIsNext(a, d, original, root, target, anchor, depth)
  {
    hide Clear, Ahead;
  }

  lemma RootIsReady(a: Disk, d: Disk, original: Tree, root: Path, target: Path, anchor: nat, depth: nat)
    requires root < target && 1 <= depth <= |root| && anchor <= |root| && Kept(a, d, original, target)
    ensures RootIsNext(a, d, original, root, target, anchor, depth) ==>
      var p := root[..depth];
      && Accounted(a, original, target) && Fitting(a, target)
      && Clear(a, original, target) && Clear(d, original, target)
      && IsDir(d.tree, root[..anchor]) && IsDir(d.tree, Parent(p))
      && (p in d.tree ==> d.tree[p].Dir?)
      && (if Key(Directory, p) in d.journals then
            && DirectoryIsReady(d, p)
            && (p !in d.tree ==> IsDir(d.tree, d.journals[Key(Directory, p)].intent.root))
          else p in d.tree <==> depth <= anchor)
  {
    hide Clear, Kept, Ahead, WellFormed, KeepsEntries, AdoptsNothing, Accounted, Fitting, DirectoryIsReady;
    var p := root[..depth];
    assert p == target[..depth] && Parent(p) == root[..depth - 1];
    KeptMeans(a, d, original, target);
    if RootIsNext(a, d, original, root, target, anchor, depth) {
      WhenClear(a, original, target);
      ClearDirectory(d, original, target, depth);
      AheadHere(d.tree, root, anchor, depth);
      NotReadyYet(d, p);
      if Key(Directory, p) in d.journals && p !in d.tree {
        PrefixIsDir(d.tree, Parent(p), d.journals[Key(Directory, p)].intent.root);
      }
    }
  }

  /** The way is clear up to this level below the root. */
  ghost predicate ParentIsNext(a: Disk, d: Disk, original: Tree, request: Request, missing: set<Path>, n: nat)
    requires |request.root| < n < |request.Target()|
  {
    && Clear(a, original, request.Target()) && Clear(d, original, request.Target())
    && IsDir(d.tree, request.root) && IsDir(d.tree, request.Target()[..n - 1])
    && (request.Target()[..n] in missing ==> request.Target()[..n] !in d.tree)
  }

  lemma ParentIsReady(a: Disk, d: Disk, original: Tree, request: Request, missing: set<Path>, n: nat)
    requires |request.root| < n < |request.Target()|
    ensures Parent(request.Target()[..n]) == request.Target()[..n - 1]
    ensures ParentIsNext(a, d, original, request, missing, n) ==>
      var p := request.Target()[..n];
      && Accounted(a, original, request.Target()) && Fitting(a, request.Target())
      && Clear(a, original, request.Target()) && Clear(d, original, request.Target())
      && IsDir(d.tree, request.root) && IsDir(d.tree, Parent(p))
      && (p in missing ==> p !in d.tree) && (p in d.tree ==> d.tree[p].Dir?)
      && (Key(Directory, p) in d.journals ==> DirectoryIsReady(d, p))
  {
    assert Parent(request.Target()[..n]) == request.Target()[..n - 1];
    if ParentIsNext(a, d, original, request, missing, n) {
      WhenClear(a, original, request.Target());
      ClearDirectory(d, original, request.Target(), n);
      hide Clear;
    }
  }

  /** A journal that is new for this level is filed under the request's split of its path. */
  predicate FiledUnder(journals: map<Key, Journal>, next: map<Key, Journal>, request: Request, n: nat)
    requires |request.root| < n < |request.Target()|
  {
    var key := Key(Directory, request.Target()[..n]);
    key in next && key !in journals ==>
      next[key].intent == DirectoryIntent(request.root, request.Target()[|request.root|..n])
  }

  lemma TopIsDir(tree: Tree)
    requires WellFormed(tree)
    ensures IsDir(tree, [])
  {
  }

  /** What is there has its directories, and so has the split its journal is filed under. */
  lemma ThereUnderRoot(d: Disk, p: Path)
    requires WellFormed(d.tree) && Canonical(d.journals) && p in d.tree && p != [] && Key(Directory, p) in d.journals
    ensures IsDir(d.tree, Parent(p)) && IsDir(d.tree, d.journals[Key(Directory, p)].intent.root)
  {
    PrefixIsDir(d.tree, Parent(p), d.journals[Key(Directory, p)].intent.root);
  }

  lemma NothingBelow(journals: map<Key, Journal>, n: nat)
    ensures SameBelow(journals, journals, n)
  {
  }

  lemma IntentKept(d: Disk, next: Disk, p: Path)
    requires GrowsBy(d, next, p)
    ensures forall key :: key in d.journals ==>
      key in next.journals && next.journals[key].intent == d.journals[key].intent
  {
  }

  lemma DirsStay(d: Disk, next: Disk, p: Path)
    requires GrowsBy(d, next, p)
    ensures forall q :: IsDir(d.tree, q) ==> IsDir(next.tree, q)
  {
  }

  lemma SplitOfPath(request: Request, n: nat)
    requires |request.root| < n < |request.Target()|
    ensures var full := request.Target()[..n];
            && full < request.Target() && full != [] && |full| == n
            && request.root + request.Target()[|request.root|..n] == full && request.Target()[|request.root|..n] != []
  {
    assert request.Target()[..|request.root|] == request.root;
  }

  lemma MissingNow(tree: Tree, target: Path, missing: set<Path>, n: nat)
    requires MissingAhead(tree, target, missing, n) && n < |target|
    ensures target[..n] in missing <==> target[..n] !in tree
  {
  }

  ghost predicate SameLinkJournal(journals: map<Key, Journal>, next: map<Key, Journal>, target: Path) {
    var link := Key(Hardlink, target);
    (link in next <==> link in journals) && (link in next ==> next[link] == journals[link])
  }

  lemma LinkJournalFirst(journals: map<Key, Journal>, target: Path)
    ensures SameLinkJournal(journals, journals, target)
  {
  }

  lemma LinkJournalStays(journals: map<Key, Journal>, d: Disk, next: Disk, target: Path, n: nat)
    requires SameLinkJournal(journals, d.journals, target) && n <= |target| && GrowsBy(d, next, target[..n])
    ensures SameLinkJournal(journals, next.journals, target)
  {
  }

  // ----- how a retry gets through -----------------------------------------------------------

  /** A retry with nothing but the temporary link astray. */
  ghost predicate ClearRetry(d: Disk, original: Tree, request: Request)
    requires request.relative != []
  {
    Retryable(d, original, request) && Clear(d, original, request.Target())
  }

  lemma WhatRetryableSays(d: Disk, original: Tree, request: Request)
    requires request.relative != [] && Retryable(d, original, request)
    ensures Accounted(d, original, request.Target()) && SameRequest(d.journals, request)
  {
    hide Accounted, Fitting, WayIsOpen, SameRequest;
  }

  lemma ClearToRetry(d: Disk, original: Tree, request: Request)
    requires request.relative != [] && Retryable(d, original, request)
             && OnlyTemporaryAstray(d, original, request.Target())
    ensures ClearRetry(d, original, request)
  {
    hide Accounted, Fitting, WayIsOpen, SameRequest, OnlyTemporaryAstray;
  }

  lemma WhatClearRetrySays(d: Disk, original: Tree, request: Request)
    requires request.relative != []
    ensures ClearRetry(d, original, request) ==>
      && Clear(d, original, request.Target()) && SameRequest(d.journals, request)
      && Accounted(d, original, request.Target()) && Fitting(d, request.Target())
      && request.SourceMatches(d.tree) && request.source != TemporaryFor(request.Target())
  {
    hide Accounted, Fitting, WayIsOpen, SameRequest, OnlyTemporaryAstray;
  }

  lemma RetryableStays(a: Disk, d: Disk, original: Tree, request: Request)
    requires request.relative != [] && Retryable(a, original, request)
    requires Kept(a, d, original, request.Target()) && SameRequest(d.journals, request)
    ensures Retryable(d, original, request)
  {
    KeptMeans(a, d, original, request.Target());
    SourceKept(a, d, request);
    hide Accounted, Fitting, WayIsOpen, SameRequest, Kept;
  }

  lemma NoStrayAtAll(d: Disk, original: Tree, target: Path)
    requires target != []
    ensures NoStray(d, original) ==> OnlyTemporaryAstray(d, original, target)
  {
  }

  lemma SomethingStaysAstray(a: Disk, d: Disk, original: Tree, target: Path)
    requires target != [] && KeepsEntries(a, d, target) && AdoptsNothing(a, d, target)
    requires !OnlyTemporaryAstray(a, original, target)
    ensures !NoStray(d, original) && !OnlyTemporaryAstray(d, original, target)
  {
    var p :| Stray(a, original, p) && p != TemporaryFor(target);
    StrayStays(a, d, original, target, p);
  }

  lemma SameRequestBelowIf(journals: map<Key, Journal>, next: map<Key, Journal>, request: Request)
    requires request.relative != [] && SameBelow(journals, next, |request.root|)
    ensures SameRequest(journals, request) ==> SameRequest(next, request)
  {
    hide SameRequest, SameBelow;
    if SameRequest(journals, request) {
      SameRequestBelow(journals, next, request);
    }
  }

  lemma LinkIsBelow(journals: map<Key, Journal>, next: map<Key, Journal>, request: Request)
    requires request.relative != [] && SameBelow(journals, next, |request.root|)
    ensures SameLinkJournal(journals, next, request.Target())
  {
  }

  /** A link that was proved still is. */
  lemma LinkStaysProved(a: Disk, d: Disk, target: Path)
    requires target != [] && KeepsEntries(a, d, target) && SameLinkJournal(a.journals, d.journals, target)
    ensures var link := Key(Hardlink, target);
            link in a.journals && Proved(a, link) ==> link in d.journals && Proved(d, link)
  {
    TemporaryIsElsewhere(target);
  }

  /** What is left of the link's journal after steps that do not touch it, and one that may. */
  lemma LeftOver(r: Result, a: Disk, d: Disk, next: Disk, target: Path)
    requires target != [] && (KeepsEntries(a, d, target) || target !in a.tree)
    requires SameLinkJournal(a.journals, d.journals, target) && LinkJournalLeft(r, d, next, target)
    ensures LinkJournalLeft(r, a, next, target)
  {
    if target in a.tree {
      LinkStaysProved(a, d, target);
    }
    hide KeepsEntries;
  }

  lemma QuarantineLeaves(d: Disk, target: Path)
    requires Key(Hardlink, target) in d.journals && d.journals[Key(Hardlink, target)].status.IntentRecorded?
    ensures LinkJournalLeft(Failed(TargetConflict), d, Moved(d, Key(Hardlink, target), ReconcileRequired, None), target)
  {
  }

  lemma Untouched(r: Result, d: Disk, target: Path)
    ensures LinkJournalLeft(r, d, d, target)
  {
  }

  lemma DoneLeaves(r: Result, d: Disk, next: Disk, target: Path)
    requires r.Done?
    ensures LinkJournalLeft(r, d, next, target)
  {
  }

  lemma LeftAlone(r: Result, d: Disk, next: Disk, target: Path)
    requires SameLinkJournal(d.journals, next.journals, target)
    ensures LinkJournalLeft(r, d, next, target)
  {
  }

  lemma PlacedLeaves(r: Outcome, d: Disk, next: Disk, request: Request)
    requires request.relative != [] && Parent(request.Target()) in d.tree && PlacedAs(r, d, next, request)
    requires request.Target() !in d.tree && !r.Proceed?
    ensures LinkJournalLeft(Ended(r), d, next, request.Target())
  {
    hide LinkIsRefused, RefusalCode;
  }

  lemma FiledStopIsDirectory(d: Disk, request: Request, depth: nat)
    requires 1 <= depth
    ensures FiledStop(d, request, depth).Some? && FiledStop(d, request, depth).value.quarantined.Some? ==>
      FiledStop(d, request, depth).value.quarantined.value.kind.Directory?
    decreases |request.relative| - depth
  {
    hide Proved;
    if depth < |request.relative| {
      FiledStopIsDirectory(d, request, depth + 1);
    }
  }

  lemma MetIsLeft(d: Disk, o: Obstacle, target: Path)
    requires o.quarantined.Some? ==> o.quarantined.value.kind.Directory?
    ensures SameLinkJournal(d.journals, Met(d, o).journals, target)
  {
  }

  lemma SameIntentsIf(journals: map<Key, Journal>, next: map<Key, Journal>, request: Request)
    requires next.Keys == journals.Keys
    requires forall key :: key in journals ==> next[key].intent == journals[key].intent
    ensures SameRequest(journals, request) ==> SameRequest(next, request)
  {
    hide SameRequest;
    if SameRequest(journals, request) {
      SameIntents(journals, next, request);
    }
  }

  lemma SameRequestLinks(journals: map<Key, Journal>, request: Request)
    ensures SameRequest(journals, request) && Key(Hardlink, request.Target()) in journals ==>
      journals[Key(Hardlink, request.Target())].intent
      == HardlinkIntent(request.root, request.relative, request.source, request.expected)
  {
  }

  lemma SameRequestRecorded(d: Disk, request: Request, parent: Entry)
    ensures var intent := HardlinkIntent(request.root, request.relative, request.source, request.expected);
            SameRequest(d.journals, request) ==>
              SameRequest(Recorded(d, Key(Hardlink, request.Target()), intent, parent).journals, request)
  {
  }

  lemma MovedIntents(d: Disk, key: Key, request: Request)
    ensures SameRequest(d.journals, request) ==> SameRequest(Moved(d, key, ReconcileRequired, None).journals, request)
  {
    hide SameRequest;
    SameIntentsIf(d.journals, Moved(d, key, ReconcileRequired, None).journals, request);
  }

  /** Its directories are filed as they should be, and so is its link. */
  lemma ReadyToValidate(a: Disk, d: Disk, original: Tree, request: Request)
    requires request.relative != [] && ClearRetry(a, original, request) && Kept(a, d, original, request.Target())
    requires Clear(d, original, request.Target()) && SameRequest(d.journals, request)
    ensures forall p :: request.Needs(p) && Key(Directory, p) in d.journals ==> Filed(d, request, Key(Directory, p))
    ensures var key := Key(Hardlink, request.Target());
            IsApplied(d.journals, key) ==>
              && d.journals[key].intent == HardlinkIntent(request.root, request.relative, request.source,
                   request.expected)
              && request.SourceMatches(d.tree) && Proved(d, key)
  {
    KeptMeans(a, d, original, request.Target());
    WhatClearRetrySays(a, original, request);
    SplitIsFiled(d, original, request);
    ClearLink(d, original, request.Target());
    SourceKept(a, d, request);
    hide Clear, ClearRetry, Kept, Filed, Accounted, Fitting, Proved;
  }

  lemma ReadyForInspection(a: Disk, d: Disk, original: Tree, request: Request)
    requires request.relative != [] && ClearRetry(a, original, request) && Kept(a, d, original, request.Target())
    requires Clear(d, original, request.Target()) && !IsApplied(d.journals, Key(Hardlink, request.Target()))
    ensures request.SourceMatches(d.tree) && request.Target() !in d.tree && Clear(a, original, request.Target())
    ensures Accounted(a, original, request.Target()) && Fitting(a, request.Target())
    ensures forall p :: request.Needs(p) && p in d.tree ==> d.tree[p].Dir?
  {
    KeptMeans(a, d, original, request.Target());
    WhatClearRetrySays(a, original, request);
    SourceKept(a, d, request);
    ClearLink(d, original, request.Target());
    ClearNeeds(d, original, request);
    hide Clear, ClearRetry, Kept, Accounted, Fitting;
  }

  lemma ReadyForLink(a: Disk, d: Disk, original: Tree, request: Request)
    requires request.relative != [] && ClearRetry(a, original, request) && Kept(a, d, original, request.Target())
    requires Clear(d, original, request.Target()) && !IsApplied(d.journals, Key(Hardlink, request.Target()))
    requires IsDir(d.tree, Parent(request.Target()))
    ensures request.SourceMatches(d.tree) && request.Target() !in d.tree
    ensures IsDir(d.tree, request.root) && forall p :: request.Needs(p) ==> IsDir(d.tree, p)
  {
    ReadyForInspection(a, d, original, request);
    KeptMeans(a, d, original, request.Target());
    BelowRoot(d.tree, request);
    hide Clear, ClearRetry, Kept;
  }

  lemma SameLinkJournalMeans(journals: map<Key, Journal>, next: map<Key, Journal>, target: Path)
    requires SameLinkJournal(journals, next, target)
    ensures var link := Key(Hardlink, target);
            (link in next <==> link in journals) && (link in next ==> next[link] == journals[link])
  {
  }

  lemma StillUnlinked(journals: map<Key, Journal>, next: map<Key, Journal>, target: Path)
    requires SameLinkJournal(journals, next, target) && !IsApplied(journals, Key(Hardlink, target))
    ensures !IsApplied(next, Key(Hardlink, target))
  {
  }

  // ----- placing the link -----------------------------------------------------------------

  /** Why the link cannot be placed. */
  predicate LinkIsRefused(tree: Tree, request: Request, parent: Entry)
    requires request.relative != []
  {
    var target, temporary := request.Target(), TemporaryFor(request.Target());
    || !IsDir(tree, Parent(target))
    || !request.SourceMatches(tree)
    || target in tree
    || (temporary !in tree && tree[Parent(target)] != parent)
    || (temporary in tree && (!SameEntry(tree[Parent(target)], parent) || tree[temporary] != request.expected))
  }

  /** The first of them counts: a path that is no directory, a source or parent that changed, or
      something else in the place of the target or of the temporary link. */
  function RefusalCode(tree: Tree, request: Request, parent: Entry): ErrorCode
    requires request.relative != []
  {
    var target, temporary := request.Target(), TemporaryFor(request.Target());
    if !IsDir(tree, Parent(target)) then PathMappingInvalid
    else if !request.SourceMatches(tree) then SourceChanged
    else if target in tree then TargetConflict
    else if temporary !in tree || !SameEntry(tree[Parent(target)], parent) then SourceChanged
    else TargetConflict
  }

  lemma LinkIsFree(tree: Tree, request: Request, parent: Entry)
    requires request.relative != [] && IsDir(tree, Parent(request.Target())) && request.SourceMatches(tree)
    requires request.Target() !in tree
    ensures LinkIsRefused(tree, request, parent) <==>
      if TemporaryFor(request.Target()) !in tree then tree[Parent(request.Target())] != parent
      else
        || !SameEntry(tree[Parent(request.Target())], parent)
        || tree[TemporaryFor(request.Target())] != request.expected
    ensures SameEntry(tree[Parent(request.Target())], tree[Parent(request.Target())])
  {
  }

  lemma RefusedForTemporary(tree: Tree, request: Request, parent: Entry)
    requires request.relative != []
    ensures LinkIsRefused(tree, request, parent) && RefusalCode(tree, request, parent).TargetConflict? ==>
      request.Target() in tree
      || (TemporaryFor(request.Target()) in tree && tree[TemporaryFor(request.Target())] != request.expected)
  {
  }

  /** The one link of the request is now here, and everything else is as it was. */
  ghost predicate LinkIsAt(a: Tree, b: Tree, request: Request, p: Path)
    requires request.relative != []
  {
    && b.Keys == a.Keys - {TemporaryFor(request.Target())} + {p} && b[p] == request.expected
    && forall q :: q in a && q != TemporaryFor(request.Target()) ==> SameEntry(b[q], a[q])
  }

  lemma FilesStay(a: Tree, b: Tree, request: Request)
    requires request.SourceMatches(a) && request.source in b && SameEntry(b[request.source], a[request.source])
    ensures request.SourceMatches(b)
  {
  }

  lemma LinkIsThere(a: Tree, b: Tree, request: Request)
    requires request.relative != [] && LinkIsAt(a, b, request, request.Target())
    ensures request.Target() in b && b[request.Target()] == request.expected
  {
  }

  lemma TemporaryIsThere(a: Tree, b: Tree, request: Request)
    requires request.relative != [] && LinkIsAt(a, b, request, TemporaryFor(request.Target()))
    ensures TemporaryFor(request.Target()) in b && b[TemporaryFor(request.Target())] == request.expected
  {
  }

  /** The temporary link is the only thing that may have come since. */
  ghost predicate TemporaryAdded(a: Tree, b: Tree, request: Request)
    requires request.relative != []
  {
    && b.Keys == a.Keys + {TemporaryFor(request.Target())}
    && forall q :: q in a && q != TemporaryFor(request.Target()) ==> SameEntry(b[q], a[q])
  }

  lemma LinkedOver(a: Tree, b: Tree, request: Request)
    requires request.relative != [] && TemporaryFor(request.Target()) in b
    requires b == a || LinkIsAt(a, b, request, TemporaryFor(request.Target()))
    ensures TemporaryAdded(a, b, request)
  {
  }

  lemma LinkMoves(a: Tree, b: Tree, c: Tree, request: Request)
    requires request.relative != [] && TemporaryAdded(a, b, request) && LinkIsAt(b, c, request, request.Target())
    ensures LinkIsAt(a, c, request, request.Target())
  {
    hide SameEntry;
    forall q | q in a && q != TemporaryFor(request.Target()) ensures SameEntry(c[q], a[q]) {
      SameEntryTransitive(c[q], b[q], a[q]);
    }
  }

  // ----- what stops an execution before it has made anything ------------------------------

  /** An error, and the journal that is quarantined for it, if any. */
  datatype Obstacle = Obstacle(code: ErrorCode, quarantined: Option<Key>)

  /** The disk once an execution has met it. */
  function Met(d: Disk, o: Obstacle): Disk {
    if o.quarantined.Some? then Moved(d, o.quarantined.value, ReconcileRequired, None) else d
  }

  predicate RaisedFor(r: Outcome, d: Disk, next: Disk, o: Option<Obstacle>) {
    o.Some? ==> r == Raised(o.value.code) && next == Met(d, o.value)
  }

  predicate FailedFor(r: Result, d: Disk, next: Disk, o: Option<Obstacle>) {
    o.Some? ==> r == Failed(o.value.code) && next == Met(d, o.value)
  }

  /** The directory is there, and its journal, if it has one, is APPLIED. */
  predicate Quiet(d: Disk, p: Path) {
    IsDir(d.tree, p) && (Key(Directory, p) in d.journals ==> d.journals[Key(Directory, p)].status.Applied?)
  }

  /** What the journal of a directory of the root is good for. */
  function RootObstacle(d: Disk, p: Path): Option<Obstacle> {
    var key := Key(Directory, p);
    if key !in d.journals then None
    else if d.journals[key].status.Applied? then
      if Proved(d, key) then None else Some(Obstacle(SourceChanged, Some(key)))
    else BelowObstacle(d, p)
  }

  /** The same for a directory below the root, whose proof has been looked at before. */
  function BelowObstacle(d: Disk, p: Path): Option<Obstacle> {
    var key := Key(Directory, p);
    if key !in d.journals || d.journals[key].status.Applied? then None
    else if !d.journals[key].status.IntentRecorded? then Some(Obstacle(InvalidStateTransition, None))
    else if p in d.tree then Some(Obstacle(TargetConflict, Some(key)))
    else None
  }

  /** The first obstacle among the directories of the root, as far as they are all there. */
  function RootStop(d: Disk, root: Path, depth: nat): Option<Obstacle>
    decreases |root| + 1 - depth
  {
    if depth > |root| then None
    else if RootObstacle(d, root[..depth]).Some? then RootObstacle(d, root[..depth])
    else if Quiet(d, root[..depth]) then RootStop(d, root, depth + 1)
    else None
  }

  /** From this depth on they are all there, and proved as far as they have journals. */
  predicate RootPasses(d: Disk, root: Path, depth: nat)
    decreases |root| + 1 - depth
  {
    depth > |root|
    || (RootObstacle(d, root[..depth]).None? && Quiet(d, root[..depth]) && RootPasses(d, root, depth + 1))
  }

  function ParentStop(d: Disk, target: Path, n: nat): Option<Obstacle>
    decreases |target| - n
  {
    if n >= |target| then None
    else if BelowObstacle(d, target[..n]).Some? then BelowObstacle(d, target[..n])
    else if Quiet(d, target[..n]) then ParentStop(d, target, n + 1)
    else None
  }

  predicate ParentsPass(d: Disk, target: Path, n: nat)
    decreases |target| - n
  {
    n >= |target| || (BelowObstacle(d, target[..n]).None? && Quiet(d, target[..n]) && ParentsPass(d, target, n + 1))
  }

  function FiledObstacle(d: Disk, request: Request, depth: nat): Option<Obstacle>
    requires 1 <= depth < |request.relative|
  {
    var key := Key(Directory, request.root + request.relative[..depth]);
    if key !in d.journals then None
    else if d.journals[key].intent != DirectoryIntent(request.root, request.relative[..depth]) then
      Some(Obstacle(IdempotencyConflict, None))
    else if d.journals[key].status.Applied? && !Proved(d, key) then Some(Obstacle(SourceChanged, Some(key)))
    else None
  }

  /** The first journal below the root that is another request's or no longer proved. */
  function FiledStop(d: Disk, request: Request, depth: nat): Option<Obstacle>
    requires 1 <= depth
    decreases |request.relative| - depth
  {
    if depth >= |request.relative| then None
    else if FiledObstacle(d, request, depth).Some? then FiledObstacle(d, request, depth)
    else FiledStop(d, request, depth + 1)
  }

  /** A request whose link is APPLIED. */
  function ReplayStop(d: Disk, request: Request): Option<Obstacle>
    requires Key(Hardlink, request.Target()) in d.journals
  {
    var link := Key(Hardlink, request.Target());
    if d.journals[link].intent != HardlinkIntent(request.root, request.relative, request.source, request.expected) then
      Some(Obstacle(IdempotencyConflict, None))
    else if !request.SourceMatches(d.tree) then Some(Obstacle(SourceChanged, None))
    else if !Proved(d, link) then Some(Obstacle(SourceChanged, Some(link)))
    else None
  }

  /** What the look at source and target finds. */
  ghost function Inspected(tree: Tree, request: Request): Option<ErrorCode>
    requires request.relative != []
  {
    if !request.SourceMatches(tree) then Some(SourceChanged)
    else if request.Target() in tree && IsDir(tree, Parent(request.Target())) then Some(TargetConflict)
    else if IsDir(tree, request.root) && forall p :: request.Needs(p) && p in tree ==> tree[p].Dir? then None
    else Some(PathMappingInvalid)
  }

  /** A request whose link is not. */
  ghost function LinkStop(d: Disk, request: Request): Option<Obstacle>
    requires request.relative != []
  {
    var link, code := Key(Hardlink, request.Target()), Inspected(d.tree, request);
    if code.None? then ParentStop(d, request.Target(), |request.root| + 1)
    else if code.value.TargetConflict? && link in d.journals && d.journals[link].status.IntentRecorded? then
      Some(Obstacle(TargetConflict, Some(link)))
    else Some(Obstacle(code.value, None))
  }

  /** The link's journal as it is, or as it is recorded now. */
  function WithLinkJournal(d: Disk, request: Request): Disk
    requires request.relative != [] && Parent(request.Target()) in d.tree
  {
    var link := Key(Hardlink, request.Target());
    if link in d.journals then d
    else
      var intent := HardlinkIntent(request.root, request.relative, request.source, request.expected);
      Recorded(d, link, intent, d.tree[Parent(request.Target())])
  }

  /** A link whose directories are there and whose target is free: another request's journal, one
      that is APPLIED although the target is gone, one that is closed, or a refusal of the gateway. */
  function PlacingObstacle(d: Disk, request: Request): Option<Obstacle>
    requires request.relative != [] && Parent(request.Target()) in d.tree
  {
    var link := Key(Hardlink, request.Target());
    var j := WithLinkJournal(d, request).journals[link];
    if j.intent != HardlinkIntent(request.root, request.relative, request.source, request.expected) then
      Some(Obstacle(IdempotencyConflict, None))
    else if j.status.Applied? then Some(Obstacle(SourceChanged, Some(link)))
    else if !j.status.IntentRecorded? then Some(Obstacle(InvalidStateTransition, None))
    else if LinkIsRefused(d.tree, request, j.parent) then
      var code := RefusalCode(d.tree, request, j.parent);
      Some(Obstacle(code, if code.TargetConflict? then Some(link) else None))
    else None
  }

  predicate PlacedAs(r: Outcome, d: Disk, next: Disk, request: Request)
    requires request.relative != [] && Parent(request.Target()) in d.tree
  {
    var o, recorded := PlacingObstacle(d, request), WithLinkJournal(d, request);
    && (r.Raised? ==> o.Some? && r.code == o.value.code && next == Met(recorded, o.value))
    && (r.Proceed? ==> o.None?)
    && (r.Crashed? ==> next.journals == recorded.journals)
  }

  /** The directories are there, the target is free, and no journal stands in the way: all that
      can still go wrong is the placing of the link. */
  ghost predicate ReachesPlacing(d: Disk, request: Request)
    requires request.relative != []
  {
    ParentsPass(d, request.Target(), |request.root| + 1) && PlacingIsNext(d, request)
  }

  ghost predicate PlacingIsNext(d: Disk, request: Request)
    requires request.relative != []
  {
    Inspected(d.tree, request).None? && request.Target() !in d.tree && IsDir(d.tree, Parent(request.Target()))
  }

  /** And the journals of the directories have been looked at. */
  ghost predicate BelowReaches(d: Disk, request: Request)
    requires request.relative != []
  {
    FiledStop(d, request, 1).None? && !IsApplied(d.journals, Key(Hardlink, request.Target()))
      && ReachesPlacing(d, request)
  }

  /** How an execution ends that comes that far. */
  ghost predicate EndsAtPlacing(r: Result, d: Disk, next: Disk, request: Request)
    requires request.relative != [] && Parent(request.Target()) in d.tree
  {
    var o := PlacingObstacle(d, request);
    if o.Some? then r.Died? || (r == Failed(o.value.code) && next == Met(WithLinkJournal(d, request), o.value))
    else !r.Failed?
  }

  /** Short of being done, an execution leaves the link's journal as it was, unless it quarantines
      an open intent for a conflict or an APPLIED journal whose entry is lost. */
  predicate LinkJournalLeft(r: Result, d: Disk, next: Disk, target: Path) {
    var link := Key(Hardlink, target);
    link in d.journals && !r.Done? ==>
      && link in next.journals
      && (next.journals[link] == d.journals[link]
          || (next.journals[link] == d.journals[link].(status := ReconcileRequired)
              && ((r == Failed(TargetConflict) && d.journals[link].status.IntentRecorded?)
                  || (r == Failed(SourceChanged) && d.journals[link].status.Applied? && !Proved(d, link)))))
  }

  ghost function BelowStop(d: Disk, request: Request): Option<Obstacle>
    requires request.relative != []
  {
    if FiledStop(d, request, 1).Some? then FiledStop(d, request, 1)
    else if IsApplied(d.journals, Key(Hardlink, request.Target())) then ReplayStop(d, request)
    else LinkStop(d, request)
  }

  ghost function Refusal(d: Disk, request: Request): Option<Obstacle>
    requires request.relative != []
  {
    if RootStop(d, request.root, 1).Some? then RootStop(d, request.root, 1)
    else if RootPasses(d, request.root, 1) then BelowStop(d, request)
    else None
  }

  /** A level below the root that has an obstacle, or needs nothing. */
  predicate ParentLevelIs(r: Outcome, d: Disk, next: Disk, p: Path) {
    && RaisedFor(r, d, next, BelowObstacle(d, p))
    && (BelowObstacle(d, p).None? && Quiet(d, p) ==> r.Proceed? && next == d)
  }

  lemma ParentStopStep(d: Disk, target: Path, n: nat)
    requires n < |target|
    ensures ParentStop(d, target, n).Some? ==>
      if BelowObstacle(d, target[..n]).Some? then ParentStop(d, target, n) == BelowObstacle(d, target[..n])
      else Quiet(d, target[..n]) && ParentStop(d, target, n) == ParentStop(d, target, n + 1)
    ensures ParentsPass(d, target, n) ==>
      BelowObstacle(d, target[..n]).None? && Quiet(d, target[..n]) && ParentsPass(d, target, n + 1)
  {
    hide BelowObstacle, Quiet;
  }

  lemma ParentStopEnds(d: Disk, target: Path, n: nat)
    requires n >= |target|
    ensures ParentStop(d, target, n).None?
  {
  }

  lemma RootStopStep(d: Disk, root: Path, depth: nat)
    requires 1 <= depth <= |root|
    ensures RootStop(d, root, depth).Some? ==>
      if RootObstacle(d, root[..depth]).Some? then RootStop(d, root, depth) == RootObstacle(d, root[..depth])
      else Quiet(d, root[..depth]) && RootStop(d, root, depth) == RootStop(d, root, depth + 1)
    ensures RootPasses(d, root, depth) ==>
      && RootObstacle(d, root[..depth]).None? && Quiet(d, root[..depth]) && IsDir(d.tree, root[..depth])
      && RootPasses(d, root, depth + 1)
  {
    hide RootObstacle;
  }

  lemma RootStopEnds(d: Disk, root: Path, depth: nat)
    requires depth > |root|
    ensures RootStop(d, root, depth).None?
  {
  }

  lemma FiledStopStep(d: Disk, request: Request, depth: nat)
    requires 1 <= depth < |request.relative|
    ensures FiledStop(d, request, depth)
         == if FiledObstacle(d, request, depth).Some? then FiledObstacle(d, request, depth)
            else FiledStop(d, request, depth + 1)
  {
  }

  lemma FiledStopEnds(d: Disk, request: Request, depth: nat)
    requires depth >= |request.relative| && 1 <= depth
    ensures FiledStop(d, request, depth).None?
  {
  }

  lemma QuietIsNothingToDo(d: Disk, root: Path, anchor: nat, depth: nat)
    requires 1 <= depth <= |root| && anchor <= |root| && Ahead(d.tree, root, anchor, depth)
    requires RootObstacle(d, root[..depth]).None? && Quiet(d, root[..depth])
    ensures NothingToDo(d, root, anchor, depth)
  {
    hide Proved;
    AheadHere(d.tree, root, anchor, depth);
  }

  // ----- what an execution is refused for -------------------------------------------------

  /** The directory is there, and its journal, if it has one, is APPLIED, proved and, below the
      root, filed under the request's split. */
  predicate DirectoryPasses(d: Disk, request: Request, m: nat)
    requires 1 <= m < |request.Target()|
  {
    var p := request.Target()[..m];
    var key := Key(Directory, p);
    && IsDir(d.tree, p)
    && (key in d.journals ==>
          && d.journals[key].status.Applied? && Proved(d, key)
          && (m > |request.root| ==>
                d.journals[key].intent == DirectoryIntent(request.root, request.Target()[|request.root|..m])))
  }

  ghost predicate DirectoriesPass(d: Disk, request: Request, n: nat)
    requires n <= |request.Target()|
  {
    forall m :: 1 <= m < n ==> DirectoryPasses(d, request, m)
  }

  predicate HasStatus(d: Disk, key: Key, status: Status) {
    key in d.journals && d.journals[key].status == status
  }

  /** An execution died after the renaming: the target is there under an open intent. */
  ghost predicate LinkStands(d: Disk, request: Request) {
    && DirectoriesPass(d, request, |request.Target()|) && request.SourceMatches(d.tree)
    && HasStatus(d, Key(Hardlink, request.Target()), IntentRecorded) && request.Target() in d.tree
  }

  /** An execution died after making a directory: it is there under an open intent. */
  ghost predicate DirectoryStands(d: Disk, request: Request, n: nat)
    requires request.relative != []
  {
    && 1 <= n < |request.Target()| && DirectoriesPass(d, request, n)
    && HasStatus(d, Key(Directory, request.Target()[..n]), IntentRecorded) && request.Target()[..n] in d.tree
    && (n > |request.root| ==>
          && Inspected(d.tree, request).None? && request.Target() !in d.tree
          && !IsApplied(d.journals, Key(Hardlink, request.Target()))
          && forall p :: request.Needs(p) && Key(Directory, p) in d.journals ==> Filed(d, request, Key(Directory, p)))
  }

  /** A directory that was made and registered is not there any more, or another is. */
  ghost predicate DirectoryLost(d: Disk, request: Request, n: nat) {
    && 1 <= n < |request.Target()| && DirectoriesPass(d, request, n)
    && var key := Key(Directory, request.Target()[..n]);
       && IsApplied(d.journals, key) && !Proved(d, key)
       && (n > |request.root| ==>
             d.journals[key].intent == DirectoryIntent(request.root, request.Target()[|request.root|..n]))
  }

  /** The same for the link. */
  ghost predicate LinkLost(d: Disk, request: Request) {
    && DirectoriesPass(d, request, |request.Target()|) && request.SourceMatches(d.tree)
    && SameLinkAs(d, request) && !Proved(d, Key(Hardlink, request.Target()))
  }

  /** Another file of the candidate may have made the directories; only the link is missing. */
  ghost predicate OnlyLinkMissing(d: Disk, request: Request)
    requires request.relative != []
  {
    && DirectoriesPass(d, request, |request.Target()|) && request.SourceMatches(d.tree)
    && request.Target() !in d.tree && TemporaryFor(request.Target()) !in d.tree
    && Key(Hardlink, request.Target()) !in d.journals
  }

  lemma {:induction false} RootSkips(d: Disk, request: Request, m: nat, n: nat)
    requires 1 <= m <= n <= |request.root| + 1 && n <= |request.Target()| && DirectoriesPass(d, request, n)
    ensures RootStop(d, request.root, m) == RootStop(d, request.root, n)
    ensures RootPasses(d, request.root, m) <==> RootPasses(d, request.root, n)
    decreases n - m
  {
    if m < n {
      assert DirectoryPasses(d, request, m) && request.root[..m] == request.Target()[..m];
      hide Proved, DirectoriesPass;
      RootSkips(d, request, m + 1, n);
    }
  }

  lemma {:induction false} FiledSkips(d: Disk, request: Request, k: nat, n: nat)
    requires 1 <= k <= n <= |request.relative| && DirectoriesPass(d, request, |request.root| + n)
    ensures FiledStop(d, request, k) == FiledStop(d, request, n)
    decreases n - k
  {
    if k < n {
      var target, full := request.Target(), request.root + request.relative[..k];
      assert DirectoryPasses(d, request, |request.root| + k);
      assert full == target[..|request.root| + k];
      assert request.relative[..k] == target[|request.root|..|request.root| + k];
      hide Proved, DirectoriesPass;
      FiledSkips(d, request, k + 1, n);
    }
  }

  lemma {:induction false} ParentSkips(d: Disk, request: Request, m: nat, n: nat)
    requires 1 <= m <= n <= |request.Target()| && DirectoriesPass(d, request, n)
    ensures ParentStop(d, request.Target(), m) == ParentStop(d, request.Target(), n)
    ensures ParentsPass(d, request.Target(), m) <==> ParentsPass(d, request.Target(), n)
    decreases n - m
  {
    if m < n {
      assert DirectoryPasses(d, request, m);
      hide Proved, DirectoriesPass;
      ParentSkips(d, request, m + 1, n);
    }
  }

  /** Whatever stands in the way is behind the root and the journals below it. */
  lemma RootAndJournalsPass(d: Disk, request: Request)
    requires request.relative != [] && DirectoriesPass(d, request, |request.Target()|)
    ensures RootStop(d, request.root, 1).None? && RootPasses(d, request.root, 1)
    ensures FiledStop(d, request, 1).None?
    ensures ParentsPass(d, request.Target(), |request.root| + 1)
    ensures forall p :: request.Needs(p) ==> IsDir(d.tree, p)
  {
    var target := request.Target();
    assert forall m :: 1 <= m < |request.root| + 1 ==> DirectoryPasses(d, request, m);
    RootSkips(d, request, 1, |request.root| + 1);
    FiledSkips(d, request, 1, |request.relative|);
    ParentSkips(d, request, |request.root| + 1, |target|);
    forall p | request.Needs(p) ensures IsDir(d.tree, p) {
      assert p == target[..|p|];
      assert DirectoryPasses(d, request, |p|);
    }
  }

  lemma LinkStandsIsRefused(d: Disk, request: Request)
    requires request.relative != [] && WellFormed(d.tree) && LinkStands(d, request)
    ensures Refusal(d, request) == Some(Obstacle(TargetConflict, Some(Key(Hardlink, request.Target()))))
  {
    hide Refusal, LinkStop, ReplayStop, DirectoriesPass;
    RefusedBelow(d, request);
    TargetIsTaken(d, request);
  }

  /** With all directories passing, only the link can be refused. */
  lemma RefusedBelow(d: Disk, request: Request)
    requires request.relative != [] && DirectoriesPass(d, request, |request.Target()|)
    ensures Refusal(d, request)
         == if IsApplied(d.journals, Key(Hardlink, request.Target())) then ReplayStop(d, request)
            else LinkStop(d, request)
  {
    hide RootStop, RootPasses, FiledStop, LinkStop, ReplayStop, DirectoriesPass;
    RootAndJournalsPass(d, request);
  }

  lemma TargetIsTaken(d: Disk, request: Request)
    requires request.relative != [] && WellFormed(d.tree) && request.SourceMatches(d.tree) && request.Target() in d.tree
    requires HasStatus(d, Key(Hardlink, request.Target()), IntentRecorded)
    ensures LinkStop(d, request) == Some(Obstacle(TargetConflict, Some(Key(Hardlink, request.Target()))))
  {
    hide ParentStop;
    ParentIsDir(d.tree, request.Target());
    hide WellFormed;
  }

  lemma LinkLostIsRefused(d: Disk, request: Request)
    requires request.relative != [] && LinkLost(d, request)
    ensures Refusal(d, request) == Some(Obstacle(SourceChanged, Some(Key(Hardlink, request.Target()))))
  {
    hide Refusal, LinkStop, DirectoriesPass, Proved;
    RefusedBelow(d, request);
  }

  lemma DirectoryLostIsRefused(d: Disk, request: Request, n: nat)
    requires request.relative != [] && DirectoryLost(d, request, n)
    ensures Refusal(d, request) == Some(Obstacle(SourceChanged, Some(Key(Directory, request.Target()[..n]))))
  {
    var target := request.Target();
    if n <= |request.root| {
      RootSkips(d, request, 1, n);
      assert request.root[..n] == target[..n];
      hide Proved, DirectoriesPass;
    } else {
      assert forall m :: 1 <= m < |request.root| + 1 ==> DirectoryPasses(d, request, m);
      RootSkips(d, request, 1, |request.root| + 1);
      var k := n - |request.root|;
      FiledSkips(d, request, 1, k);
      assert request.root + request.relative[..k] == target[..n] && request.relative[..k] == target[|request.root|..n];
      hide Proved, DirectoriesPass;
    }
  }

  lemma DirectoryStandsIsRefused(d: Disk, request: Request, n: nat)
    requires request.relative != [] && DirectoryStands(d, request, n)
    ensures Refusal(d, request) == Some(Obstacle(TargetConflict, Some(Key(Directory, request.Target()[..n]))))
  {
    var target := request.Target();
    if n <= |request.root| {
      RootSkips(d, request, 1, n);
      assert request.root[..n] == target[..n];
    } else {
      assert forall m :: 1 <= m < |request.root| + 1 ==> DirectoryPasses(d, request, m);
      RootSkips(d, request, 1, |request.root| + 1);
      FiledMeansNoStop(d, request, 1);
      ParentSkips(d, request, |request.root| + 1, n);
      hide FiledStop, DirectoriesPass, Proved;
    }
  }

  lemma {:induction false} FiledMeansNoStop(d: Disk, request: Request, depth: nat)
    requires 1 <= depth
    requires forall p :: request.Needs(p) && Key(Directory, p) in d.journals ==> Filed(d, request, Key(Directory, p))
    ensures FiledStop(d, request, depth).None?
    decreases |request.relative| - depth
  {
    if depth < |request.relative| {
      var full := request.root + request.relative[..depth];
      NeededAt(request, depth);
      assert full[|request.root|..] == request.relative[..depth];
      FiledMeansNoStop(d, request, depth + 1);
    }
  }

  lemma OnlyLinkMissingIsPlaced(d: Disk, request: Request)
    requires request.relative != [] && WellFormed(d.tree) && OnlyLinkMissing(d, request)
    ensures RootPasses(d, request.root, 1) && BelowReaches(d, request) && PlacingObstacle(d, request).None?
  {
    var target := request.Target();
    RootAndJournalsPass(d, request);
    ParentIsThere(d, request);
    LinkIsFree(d.tree, request, d.tree[Parent(target)]);
    hide RootStop, RootPasses, FiledStop, ParentsPass, DirectoriesPass, LinkIsRefused, RefusalCode;
  }

  /** What the journals and the entries say before an execution, and what it is refused for. */
  lemma RefusedFor(d: Disk, request: Request)
    requires request.relative != [] && WellFormed(d.tree)
    ensures LinkStands(d, request) ==>
      Refusal(d, request) == Some(Obstacle(TargetConflict, Some(Key(Hardlink, request.Target()))))
    ensures LinkLost(d, request) ==>
      Refusal(d, request) == Some(Obstacle(SourceChanged, Some(Key(Hardlink, request.Target()))))
    ensures forall n: nat :: DirectoryStands(d, request, n) ==>
      Refusal(d, request) == Some(Obstacle(TargetConflict, Some(Key(Directory, request.Target()[..n]))))
    ensures forall n: nat :: DirectoryLost(d, request, n) ==>
      Refusal(d, request) == Some(Obstacle(SourceChanged, Some(Key(Directory, request.Target()[..n]))))
    ensures OnlyLinkMissing(d, request) ==>
      && RootPasses(d, request.root, 1) && BelowReaches(d, request)
      && forall r, next :: EndsAtPlacing(r, d, next, request) ==> !r.Failed?
  {
    hide LinkStands, LinkLost, OnlyLinkMissing, Refusal, RootPasses, BelowReaches, DirectoriesPass, Inspected, Filed;
    if LinkStands(d, request) {
      LinkStandsIsRefused(d, request);
    }
    if LinkLost(d, request) {
      LinkLostIsRefused(d, request);
    }
    forall n: nat | DirectoryStands(d, request, n)
      ensures Refusal(d, request) == Some(Obstacle(TargetConflict, Some(Key(Directory, request.Target()[..n]))))
    {
      DirectoryStandsIsRefused(d, request, n);
    }
    forall n: nat | DirectoryLost(d, request, n)
      ensures Refusal(d, request) == Some(Obstacle(SourceChanged, Some(Key(Directory, request.Target()[..n]))))
    {
      DirectoryLostIsRefused(d, request, n);
    }
    if OnlyLinkMissing(d, request) {
      OnlyLinkMissingIsPlaced(d, request);
    }
  }

  lemma ParentIsThere(d: Disk, request: Request)
    requires request.relative != [] && WellFormed(d.tree) && DirectoriesPass(d, request, |request.Target()|)
    ensures IsDir(d.tree, Parent(request.Target())) && IsDir(d.tree, request.root)
  {
    var target := request.Target();
    assert target[..|target| - 1] == Parent(target) && target[..|request.root|] == request.root;
    if |target| > 1 {
      assert DirectoryPasses(d, request, |target| - 1);
    }
    if |request.root| > 0 {
      assert DirectoryPasses(d, request, |request.root|);
    }
  }

  // ----- the service ----------------------------------------------------------------------

  class Service {
    var tree: Tree
    var journals: map<Key, Journal>
    /** Whether the process may die at the fault points it comes to. */
    var mayDie: bool

    function State(): Disk
      reads this
    {
      Disk(tree, journals)
    }

    ghost predicate Valid()
      reads this
    {
      WellFormed(tree) && Canonical(journals)
    }

    /** Before the first request, everything is accounted for. */
    constructor (found: Tree, mayDie: bool)
      requires WellFormed(found)
      ensures Valid() && tree == found && journals == map[] && this.mayDie == mayDie
      ensures forall target :: target != [] && TemporaryFor(target) !in found ==>
        Accounted(State(), found, target) && Fitting(State(), target)
    {
      hide Accounted, Fitting, WellFormed;
      tree, journals, this.mayDie := found, map[], mayDie;
      new;
      forall target | target != [] && TemporaryFor(target) !in found
        ensures Accounted(State(), found, target) && Fitting(State(), target)
      {
        InitiallyAccounted(found, target);
      }
    }

    /** Creates the directory of an intent under the parent the intent saw, and registers it. */
    method CreateDirectory(p: Path, expectedParent: Entry, ghost target: Path, ghost original: Tree, ghost a: Disk)
      returns (r: Outcome)
      requires p != [] && p < target && Kept(a, State(), original, target)
      requires Key(Directory, p) in journals && journals[Key(Directory, p)].status.IntentRecorded?
      requires Accounted(a, original, target) ==> Settled(State(), original, target, |p| - 1)
      modifies this`tree, this`journals
      ensures Kept(a, State(), original, target)
      ensures journals.Keys == old(journals).Keys && old(tree).Keys <= tree.Keys
      ensures r.Proceed? ==> IsDir(tree, p) && IsApplied(journals, Key(Directory, p))
      ensures r.Proceed? && Accounted(a, original, target) ==> NoStray(State(), original)
      ensures r.Raised? ==> State() == old(State())
      ensures r.Raised? <==> !IsDir(old(tree), Parent(p)) || old(tree)[Parent(p)] != expectedParent || p in old(tree)
      ensures r.Raised? ==>
        r.code == if !IsDir(tree, Parent(p)) then PathMappingInvalid
                  else if tree[Parent(p)] != expectedParent then SourceChanged
                  else TargetConflict
      ensures r.Proceed? ==>
        journals == old(journals)[Key(Directory, p) :=
          old(journals)[Key(Directory, p)].(status := Applied, after := Some(tree[p]))]
      ensures r.Crashed? ==> journals == old(journals)
      ensures GrowsBy(old(State()), State(), p)
      ensures !mayDie ==> !r.Crashed?
    {
      hide Kept, Accounted, WithEntry, Stamped, WellFormed, GrowsBy, NoStray, Settled, Stray, SameEntry, Fitting;
      hide AsIntended;
      var key := Key(Directory, p);
      GrowsByNothing(State(), p);
      WhatKeptSays(a, State(), original, target, key);
      if !IsDir(tree, Parent(p)) {
        return Raised(PathMappingInvalid);
      }
      if tree[Parent(p)] != expectedParent {
        return Raised(SourceChanged);
      }
      if p in tree {
        return Raised(TargetConflict);
      }
      var inode: nat, own: nat, parents: nat := *, *, *;
      if Accounted(a, original, target) {
        assert p == target[..|p|];
        ClearAhead(State(), original, target, |p|);
      }
      TemporaryIsElsewhere(target);
      NotTheTemporary(State(), target, p, Dir(inode, own));
      MadeKept(a, State(), original, target, p, Dir(inode, own), parents);
      MadeGrows(State(), p, Dir(inode, own), parents);
      AddedEntry(tree, p, Dir(inode, own), parents);
      tree := WithEntry(tree, p, Dir(inode, own), parents);
      var dies: bool := *;
      if mayDie && dies {
        return Crashed;
      }
      AppliedKept(a, State(), original, target, key);
      NothingElseAstray(State(), original, key);
      GrowsByJournal(State(), Moved(State(), key, Applied, Some(tree[p])), p);
      GrowsByBoth(old(State()), State(), Moved(State(), key, Applied, Some(tree[p])), p);
      journals := journals[key := journals[key].(status := Applied, after := Some(tree[p]))];
      return Proceed;
    }

    /** The journal of a directory that is to be made. */
    method BeginDirectory(p: Path, intent: Intent, ghost target: Path, ghost original: Tree, ghost a: Disk)
      requires p != [] && p < target && Kept(a, State(), original, target)
      requires Key(Directory, p) !in journals && p !in tree && IsDir(tree, Parent(p))
      requires intent.DirectoryIntent? && intent.relative != [] && intent.root + intent.relative == p
      requires Accounted(a, original, target) ==> Settled(State(), original, target, |p| - 1)
      modifies this`journals
      ensures Kept(a, State(), original, target)
      ensures State() == Recorded(old(State()), Key(Directory, p), intent, tree[Parent(p)])
      ensures journals[Key(Directory, p)].status.IntentRecorded? && journals[Key(Directory, p)].intent == intent
      ensures journals.Keys == old(journals).Keys + {Key(Directory, p)}
      ensures GrowsBy(old(State()), State(), p)
      ensures Accounted(a, original, target) ==> Settled(State(), original, target, |p| - 1)
    {
      hide Kept, Accounted, Settled, GrowsBy;
      if Accounted(a, original, target) {
        RecordedSettles(State(), original, target, Key(Directory, p), intent, tree[Parent(p)], |p| - 1);
      }
      RecordIntent(Key(Directory, p), intent, target, original, a);
      GrowsByJournal(old(State()), State(), p);
    }

    /** From the recorded intent on; the process may die before the directory is there. */
    method FinishDirectory(p: Path, parent: Entry, ghost target: Path, ghost original: Tree, ghost a: Disk)
      returns (r: Outcome)
      requires p != [] && p < target && Kept(a, State(), original, target)
      requires Key(Directory, p) in journals && journals[Key(Directory, p)].status.IntentRecorded?
      requires Accounted(a, original, target) ==> Settled(State(), original, target, |p| - 1)
      modifies this`tree, this`journals
      ensures Kept(a, State(), original, target)
      ensures journals.Keys == old(journals).Keys && GrowsBy(old(State()), State(), p)
      ensures r.Proceed? ==> IsDir(tree, p)
      ensures r.Proceed? && Accounted(a, original, target) ==> Settled(State(), original, target, |p|)
      ensures r.Proceed? && Clear(a, original, target) ==> Clear(State(), original, target)
      ensures r.Raised? ==> !IsDir(old(tree), Parent(p)) || old(tree)[Parent(p)] != parent || p in old(tree)
      ensures !mayDie ==> !r.Crashed?
    {
      WhenClear(a, original, target);
      hide Kept, Accounted, Settled, GrowsBy, Clear, NoStray;
      GrowsByNothing(State(), p);
      var dies: bool := *;
      if mayDie && dies {
        return Crashed;
      }
      r := CreateDirectory(p, parent, target, original, a);
      if r.Proceed? && Accounted(a, original, target) {
        NoStraySettles(State(), original, target, |p|);
        if Clear(a, original, target) {
          StillClear(a, State(), original, target);
        }
      }
    }

    /** The quarantine of a journal whose entry is not what it recorded, or is there too soon. */
    method Quarantine(key: Key, ghost target: Path, ghost original: Tree, ghost a: Disk)
      requires target != [] && Kept(a, State(), original, target) && key in journals
      requires journals[key].status.IntentRecorded? || (journals[key].status.Applied? && !Proved(State(), key))
      requires Accounted(a, original, target) && Fitting(a, target) && journals[key].status.IntentRecorded? ==>
        key.path in tree
      modifies this`journals
      ensures Kept(a, State(), original, target)
      ensures State() == Moved(old(State()), key, ReconcileRequired, None)
    {
      hide Kept;
      QuarantinedKept(a, State(), original, target, key);
      journals := journals[key := journals[key].(status := ReconcileRequired)];
    }

    method RecordIntent(key: Key, intent: Intent, ghost target: Path, ghost original: Tree, ghost a: Disk)
      requires target != [] && Kept(a, State(), original, target)
      requires key !in journals && KeyOnChain(key, target) && key.path !in tree && IsDir(tree, Parent(key.path))
      requires intent.relative != [] && intent.root + intent.relative == key.path
      requires intent.DirectoryIntent? <==> key.kind.Directory?
      modifies this`journals
      ensures Kept(a, State(), original, target)
      ensures State() == Recorded(old(State()), key, intent, tree[Parent(key.path)])
      ensures journals.Keys == old(journals).Keys + {key}
    {
      hide Kept;
      RecordedKept(a, State(), original, target, key, intent, tree[Parent(key.path)]);
      journals := journals[key := Journal(intent, tree[Parent(key.path)], IntentRecorded, None)];
    }

    /** The deepest directory of the root that is already there. */
    method FindAnchor(root: Path) returns (anchor: nat)
      requires WellFormed(tree)
      ensures anchor <= |root| && Ahead(tree, root, anchor, 1) && anchor == AnchorOf(tree, root)
    {
      hide AnchorOf, Ahead;
      anchor := |root|;
      WholeRoot(root);
      while anchor > 0 && !IsDir(tree, root[..anchor])
        invariant anchor <= |root|
        invariant AnchorOf(tree, root) == AnchorOf(tree, root[..anchor])
        invariant forall n :: anchor < n <= |root| ==> !IsDir(tree, root[..n])
      {
        AnchorAbove(tree, root, anchor);
        anchor := anchor - 1;
      }
      AnchorHere(tree, root, anchor);
      AheadAtFirst(tree, root, anchor);
    }

    /** One level of the root: nothing to do, or a directory to create under its own journal. */
    method EnsureRootDirectory(root: Path, anchor: nat, depth: nat, listed: seq<Path>,
                               ghost target: Path, ghost original: Tree, ghost a: Disk)
      returns (r: Outcome, directories: seq<Path>)
      requires root < target && anchor <= |root| && 1 <= depth <= |root|
      requires Kept(a, State(), original, target)
      requires Lists(listed, journals.Keys, target, depth - 1) && Increasing(listed)
      requires Accounted(a, original, target) ==> Settled(State(), original, target, depth - 1)
      modifies this`tree, this`journals
      ensures Kept(a, State(), original, target)
      ensures r.Proceed? ==> Lists(directories, journals.Keys, target, depth) && Increasing(directories)
      ensures r.Proceed? && Accounted(a, original, target) ==> Settled(State(), original, target, depth)
      ensures GrowsBy(old(State()), State(), root[..depth])
      ensures old(RootIsNext(a, State(), original, root, target, anchor, depth)) ==>
        !r.Raised? && (r.Proceed? ==> Clear(State(), original, target) && IsDir(tree, root[..depth]))
      ensures old(NothingToDo(State(), root, anchor, depth)) ==> r.Proceed? && State() == old(State())
      ensures RaisedFor(r, old(State()), State(), old(RootObstacle(State(), root[..depth])))
      ensures FiledAt(old(journals), journals, root, anchor, depth)
      ensures !mayDie ==> !r.Crashed?
    {
      hide *;
      if Key(Directory, root[..depth]) in journals {
        r, directories := ResumeRootDirectory(root, anchor, depth, listed, target, original, a);
      } else {
        r, directories := StartRootDirectory(root, anchor, depth, listed, target, original, a);
      }
    }

    /** A level of the root that has its journal already. */
    method ResumeRootDirectory(root: Path, ghost anchor: nat, depth: nat, listed: seq<Path>,
                               ghost target: Path, ghost original: Tree, ghost a: Disk)
      returns (r: Outcome, directories: seq<Path>)
      requires root < target && anchor <= |root| && 1 <= depth <= |root|
      requires Kept(a, State(), original, target)
      requires Lists(listed, journals.Keys, target, depth - 1) && Increasing(listed)
      requires Accounted(a, original, target) ==> Settled(State(), original, target, depth - 1)
      requires Key(Directory, root[..depth]) in journals
      modifies this`tree, this`journals
      ensures Kept(a, State(), original, target)
      ensures r.Proceed? ==> Lists(directories, journals.Keys, target, depth) && Increasing(directories)
      ensures r.Proceed? && Accounted(a, original, target) ==> Settled(State(), original, target, depth)
      ensures GrowsBy(old(State()), State(), root[..depth])
      ensures old(RootIsNext(a, State(), original, root, target, anchor, depth)) ==>
        !r.Raised? && (r.Proceed? ==> Clear(State(), original, target) && IsDir(tree, root[..depth]))
      ensures old(NothingToDo(State(), root, anchor, depth)) ==> r.Proceed? && State() == old(State())
      ensures RaisedFor(r, old(State()), State(), old(RootObstacle(State(), root[..depth])))
      ensures FiledAt(old(journals), journals, root, anchor, depth)
      ensures !mayDie ==> !r.Crashed?
    {
      hide Kept, Accounted, WellFormed, Settled, Matches, Lists, Increasing, Clear, GrowsBy, Ahead, Fitting, Moved;
      hide Recorded;
      hide RootIsNext, Canonical, Vouched, SameEntry, Stray, SettledAt, OnChain, Extra;
      RootIsReady(a, State(), original, root, target, anchor, depth);
      var full := root[..depth];
      assert full == target[..depth] && Parent(full) == root[..depth - 1];
      var key := Key(Directory, full);
      WhatKeptSays(a, State(), original, target, key);
      ListedAlready(listed, journals.Keys, target, depth);
      directories := listed + [full];
      GrowsByNothing(State(), full);
      if journals[key].status.Applied? {
        if !Proved(State(), key) {
          QuarantineDirectory(full, target, original, a);
          return Raised(SourceChanged), directories;
        }
        StaysSettled(a, State(), original, target, depth);
        return Proceed, directories;
      }
      if !journals[key].status.IntentRecorded? {
        return Raised(InvalidStateTransition), directories;
      }
      if full in tree {
        ThereUnderRoot(State(), full);
      }
      if !IsDir(tree, journals[key].intent.root) || !IsDir(tree, Parent(full)) {
        return Raised(PathMappingInvalid), directories;
      }
      if full in tree {
        QuarantineDirectory(full, target, original, a);
        return Raised(TargetConflict), directories;
      }
      r := FinishDirectory(full, tree[Parent(full)], target, original, a);
    }

    /** A level of the root that has none. */
    method StartRootDirectory(root: Path, anchor: nat, depth: nat, listed: seq<Path>,
                              ghost target: Path, ghost original: Tree, ghost a: Disk)
      returns (r: Outcome, directories: seq<Path>)
      requires root < target && anchor <= |root| && 1 <= depth <= |root|
      requires Kept(a, State(), original, target)
      requires Lists(listed, journals.Keys, target, depth - 1) && Increasing(listed)
      requires Accounted(a, original, target) ==> Settled(State(), original, target, depth - 1)
      requires Key(Directory, root[..depth]) !in journals
      modifies this`tree, this`journals
      ensures Kept(a, State(), original, target)
      ensures r.Proceed? ==> Lists(directories, journals.Keys, target, depth) && Increasing(directories)
      ensures r.Proceed? && Accounted(a, original, target) ==> Settled(State(), original, target, depth)
      ensures GrowsBy(old(State()), State(), root[..depth])
      ensures old(RootIsNext(a, State(), original, root, target, anchor, depth)) ==>
        !r.Raised? && (r.Proceed? ==> Clear(State(), original, target) && IsDir(tree, root[..depth]))
      ensures old(NothingToDo(State(), root, anchor, depth)) ==> r.Proceed? && State() == old(State())
      ensures RaisedFor(r, old(State()), State(), old(RootObstacle(State(), root[..depth])))
      ensures FiledAt(old(journals), journals, root, anchor, depth)
      ensures !mayDie ==> !r.Crashed?
    {
      hide Kept, Accounted, WellFormed, Settled, Matches, Lists, Increasing, Clear, GrowsBy, Ahead, Fitting, Moved;
      hide Recorded;
      hide RootIsNext, Canonical, Vouched, SameEntry, Stray, SettledAt, OnChain, Extra;
      RootIsReady(a, State(), original, root, target, anchor, depth);
      var full := root[..depth];
      assert full == target[..depth] && Parent(full) == root[..depth - 1];
      var key := Key(Directory, full);
      WhatKeptSays(a, State(), original, target, key);
      ListedNext(listed, journals.Keys, target, depth);
      GrowsByNothing(State(), full);
      if depth <= anchor {
        StaysSettled(a, State(), original, target, depth);
        return Proceed, listed;
      }
      var creationRoot, relative := root[..anchor], root[anchor..depth];
      assert creationRoot + relative == full;
      if !IsDir(tree, creationRoot) || !IsDir(tree, Parent(full)) {
        return Raised(PathMappingInvalid), listed;
      }
      if full in tree {
        return Raised(TargetConflict), listed;
      }
      BeginDirectory(full, DirectoryIntent(creationRoot, relative), target, original, a);
      directories := listed + [full];
      ghost var recorded := State();
      r := FinishDirectory(full, tree[Parent(full)], target, original, a);
      GrowsByBoth(old(State()), recorded, State(), full);
      IntentKept(recorded, State(), full);
    }

    method QuarantineDirectory(p: Path, ghost target: Path, ghost original: Tree, ghost a: Disk)
      requires target != [] && Kept(a, State(), original, target) && Key(Directory, p) in journals
      requires var key := Key(Directory, p);
               journals[key].status.IntentRecorded? || (journals[key].status.Applied? && !Proved(State(), key))
      requires Accounted(a, original, target) && Fitting(a, target)
               && journals[Key(Directory, p)].status.IntentRecorded? ==>
        p in tree
      modifies this`journals
      ensures Kept(a, State(), original, target) && GrowsBy(old(State()), State(), p)
      ensures State() == Moved(old(State()), Key(Directory, p), ReconcileRequired, None)
    {
      hide Kept, Accounted, Fitting, GrowsBy;
      Quarantine(Key(Directory, p), target, original, a);
      GrowsByJournal(old(State()), State(), p);
    }

    method EnsureTargetRoot(root: Path, ghost target: Path, ghost original: Tree, ghost a: Disk)
      returns (r: Outcome, directories: seq<Path>)
      requires root < target && Kept(a, State(), original, target)
      modifies this`tree, this`journals
      ensures Kept(a, State(), original, target)
      ensures SameBelow(old(journals), journals, |root|)
      ensures r.Proceed? ==> Lists(directories, journals.Keys, target, |root|) && Increasing(directories)
      ensures r.Proceed? && Accounted(a, original, target) ==> Settled(State(), original, target, |root|)
      ensures Clear(a, original, target) && old(Clear(State(), original, target)) ==>
        !r.Raised? && (r.Proceed? ==> Clear(State(), original, target) && IsDir(tree, root))
      ensures old(Accounted(State(), original, target) && IsApplied(journals, Key(Hardlink, target))) ==>
        r.Proceed? && State() == old(State())
      ensures RaisedFor(r, old(State()), State(), old(RootStop(State(), root, 1)))
      ensures AllFiledAt(old(journals), journals, root, old(AnchorOf(tree, root)))
      ensures old(RootPasses(State(), root, 1)) ==> r.Proceed? && State() == old(State()) && IsDir(tree, root)
      ensures !mayDie ==> !r.Crashed?
    {
      hide RootStop, RootPasses, RootObstacle, Quiet, Moved, AnchorOf, AllFiledAt, FiledAt;
      hide Kept, Accounted, Settled, Proved, Lists, Increasing, Clear, GrowsBy, Ahead, NothingToDo, Fitting, SameBelow;
      hide WellFormed, RootIsNext, IsDir, Canonical, KeepsEntries, AdoptsNothing;
      KeptMeans(a, State(), original, target);
      TopIsDir(tree);
      NothingYet(State(), original, target);
      NothingBelow(journals, |root|);
      NothingFiledYet(journals, root, AnchorOf(tree, root));
      assert root[..0] == [] && root[..|root|] == root;
      var anchor := FindAnchor(root);
      ghost var free := Clear(a, original, target) && Clear(State(), original, target);
      ghost var linked := Accounted(State(), original, target) && IsApplied(journals, Key(Hardlink, target));
      ghost var stop, passes := RootStop(State(), root, 1), RootPasses(State(), root, 1);
      r, directories := Proceed, [];
      var depth := 1;
      while depth <= |root|
        invariant 1 <= depth <= |root| + 1 && r == Proceed
        invariant Kept(a, State(), original, target) && SameBelow(old(journals), journals, |root|)
        invariant Lists(directories, journals.Keys, target, depth - 1) && Increasing(directories)
        invariant Accounted(a, original, target) ==> Settled(State(), original, target, depth - 1)
        invariant Ahead(tree, root, anchor, depth) && AllFiledAt(old(journals), journals, root, anchor)
        invariant free ==> Clear(State(), original, target) && IsDir(tree, root[..depth - 1])
        invariant linked ==> State() == old(State())
        invariant stop.Some? ==> State() == old(State()) && RootStop(State(), root, depth) == stop
        invariant passes ==>
          State() == old(State()) && RootPasses(State(), root, depth) && IsDir(tree, root[..depth - 1])
      {
        ghost var d := State();
        RootStopStep(d, root, depth);
        if RootObstacle(d, root[..depth]).None? && Quiet(d, root[..depth]) {
          QuietIsNothingToDo(d, root, anchor, depth);
        }
        if linked {
          LinkedHasNothingToDo(d, original, root, target, anchor, depth);
        }
        if free {
          RootIsNextAt(a, d, original, root, target, anchor, depth);
        }
        r, directories := EnsureRootDirectory(root, anchor, depth, directories, target, original, a);
        SameBelowGrows(old(journals), d, State(), root[..depth], |root|);
        NewlyFiled(old(journals), d, State(), root, anchor, depth);
        AheadStep(d, State(), root, anchor, depth);
        if !r.Proceed? {
          return;
        }
        depth := depth + 1;
      }
      RootStopEnds(State(), root, depth);
    }

    /** The journals of the directories below the root, as far as there are any. */
    method ValidateExisting(request: Request, listed: seq<Path>, ghost original: Tree, ghost a: Disk)
      returns (r: Outcome, directories: seq<Path>)
      requires request.relative != [] && Kept(a, State(), original, request.Target())
      requires Lists(listed, journals.Keys, request.Target(), |request.root|) && Increasing(listed)
      modifies this`journals
      ensures Kept(a, State(), original, request.Target())
      ensures r.Proceed? ==> State() == old(State())
      ensures journals.Keys == old(journals).Keys && forall key :: key in journals ==>
        journals[key].intent == old(journals)[key].intent
      ensures r.Raised? || r.Proceed?
      ensures r.Proceed? ==>
        Lists(directories, journals.Keys, request.Target(), |request.Target()| - 1) && Increasing(directories)
      ensures r.Proceed? <==>
        forall p :: request.Needs(p) && Key(Directory, p) in old(journals) ==>
          Filed(old(State()), request, Key(Directory, p))
      ensures RaisedFor(r, old(State()), State(), old(FiledStop(State(), request, 1)))
      ensures old(FiledStop(State(), request, 1)).None? ==> r.Proceed?
    {
      hide Kept, Proved, Lists, Increasing, Filed, FiledBefore, Accounted, Fitting, FiledStop;
      var target := request.Target();
      directories := listed;
      var depth := 1;
      NoneFiledBefore(State(), request);
      while depth < |request.relative|
        invariant 1 <= depth <= |request.relative| && State() == old(State())
        invariant Lists(directories, journals.Keys, target, |request.root| + depth - 1) && Increasing(directories)
        invariant FiledBefore(State(), request, |request.root| + depth)
        invariant FiledStop(State(), request, depth) == old(FiledStop(State(), request, 1))
      {
        FiledStopStep(State(), request, depth);
        var full := request.root + request.relative[..depth];
        FiledNext(State(), request, depth);
        var key := Key(Directory, full);
        if key in journals {
          ListedAlready(directories, journals.Keys, target, |request.root| + depth);
          directories := directories + [full];
          if journals[key].intent != DirectoryIntent(request.root, request.relative[..depth]) {
            return Raised(IdempotencyConflict), directories;
          }
          if journals[key].status.Applied? && !Proved(State(), key) {
            Quarantine(key, target, original, a);
            return Raised(SourceChanged), directories;
          }
        } else {
          ListedWithout(directories, journals.Keys, target, |request.root| + depth);
        }
        depth := depth + 1;
      }
      AllFiledBefore(State(), request);
      FiledStopEnds(State(), request, depth);
      r := Proceed;
    }

    /** The read-only look before anything is written: is the source what it should be, is the
        target free, and which of its directories are missing? */
    method InspectHardlink(request: Request) returns (code: Option<ErrorCode>, missing: set<Path>)
      requires request.relative != [] && WellFormed(tree)
      ensures code.None? <==>
        && request.SourceMatches(tree) && IsDir(tree, request.root) && request.Target() !in tree
        && forall p :: request.Needs(p) && p in tree ==> tree[p].Dir?
      ensures code == Some(TargetConflict) <==>
        request.SourceMatches(tree) && request.Target() in tree && IsDir(tree, Parent(request.Target()))
      ensures code.None? ==> forall p :: p in missing <==> request.Needs(p) && p !in tree
      ensures code == Inspected(tree, request)
    {
      hide WellFormed;
      var target := request.Target();
      missing := {};
      BelowRoot(tree, request);
      if !request.SourceMatches(tree) {
        return Some(SourceChanged), {};
      }
      if !IsDir(tree, request.root) {
        return Some(PathMappingInvalid), {};
      }
      var depth := 1;
      while depth < |request.relative|
        invariant 1 <= depth <= |request.relative|
        invariant forall p :: request.Needs(p) && |p| < |request.root| + depth && p in tree ==> tree[p].Dir?
        invariant forall p :: p in missing <==> request.Needs(p) && |p| < |request.root| + depth && p !in tree
      {
        var full := request.root + request.relative[..depth];
        NeededAt(request, depth);
        if missing != {} || full !in tree {
          MissingBelow(tree, request, missing, depth);
          missing := missing + {full};
        } else if tree[full].File? {
          return Some(PathMappingInvalid), {};
        }
        depth := depth + 1;
      }
      if missing == {} && target in tree {
        return Some(TargetConflict), {};
      }
      MissingBelow(tree, request, missing, depth);
      code := None;
    }

    /** One level below the root. */
    method CreateParent(request: Request, n: nat, missing: set<Path>, listed: seq<Path>, ghost original: Tree,
                        ghost a: Disk)
      returns (r: Outcome, directories: seq<Path>)
      requires |request.root| < n < |request.Target()|
      requires Kept(a, State(), original, request.Target())
      requires Lists(listed, journals.Keys, request.Target(), |request.Target()| - 1) && Distinct(listed)
      requires Accounted(a, original, request.Target()) ==>
        Increasing(listed) && Settled(State(), original, request.Target(), n - 1)
      requires request.Target()[..n] !in missing ==> request.Target()[..n] in tree
      modifies this`tree, this`journals
      ensures Kept(a, State(), original, request.Target())
      ensures r.Proceed? ==>
        Lists(directories, journals.Keys, request.Target(), |request.Target()| - 1) && Distinct(directories)
      ensures r.Proceed? && Accounted(a, original, request.Target()) ==>
        Increasing(directories) && Settled(State(), original, request.Target(), n)
      ensures GrowsBy(old(State()), State(), request.Target()[..n])
      ensures FiledUnder(old(journals), journals, request, n)
      ensures old(ParentIsNext(a, State(), original, request, missing, n)) ==>
        !r.Raised? && (r.Proceed? ==> Clear(State(), original, request.Target()) && IsDir(tree, request.Target()[..n]))
      ensures old(request.Target()[..n] in missing <==> request.Target()[..n] !in tree) ==>
        ParentLevelIs(r, old(State()), State(), request.Target()[..n])
      ensures !mayDie ==> !r.Crashed?
    {
      hide Kept, Accounted, Settled, Lists, Increasing, Distinct, Clear, GrowsBy, Fitting, ParentIsNext, FiledUnder;
      hide ParentLevelIs;
      if Key(Directory, request.Target()[..n]) in journals {
        r := ResumeParent(request, n, missing, listed, original, a);
        directories := listed;
      } else {
        r, directories := StartParent(request, n, missing, listed, original, a);
      }
    }

    method ResumeParent(request: Request, n: nat, missing: set<Path>, ghost listed: seq<Path>, ghost original: Tree,
                        ghost a: Disk)
      returns (r: Outcome)
      requires |request.root| < n < |request.Target()|
      requires Kept(a, State(), original, request.Target())
      requires Lists(listed, journals.Keys, request.Target(), |request.Target()| - 1) && Distinct(listed)
      requires Accounted(a, original, request.Target()) ==>
        Increasing(listed) && Settled(State(), original, request.Target(), n - 1)
      requires request.Target()[..n] !in missing ==> request.Target()[..n] in tree
      requires Key(Directory, request.Target()[..n]) in journals
      modifies this`tree, this`journals
      ensures Kept(a, State(), original, request.Target())
      ensures r.Proceed? ==>
        Lists(listed, journals.Keys, request.Target(), |request.Target()| - 1) && Distinct(listed)
      ensures r.Proceed? && Accounted(a, original, request.Target()) ==>
        Increasing(listed) && Settled(State(), original, request.Target(), n)
      ensures GrowsBy(old(State()), State(), request.Target()[..n])
      ensures FiledUnder(old(journals), journals, request, n)
      ensures old(ParentIsNext(a, State(), original, request, missing, n)) ==>
        !r.Raised? && (r.Proceed? ==> Clear(State(), original, request.Target()) && IsDir(tree, request.Target()[..n]))
      ensures old(request.Target()[..n] in missing <==> request.Target()[..n] !in tree) ==>
        ParentLevelIs(r, old(State()), State(), request.Target()[..n])
      ensures !mayDie ==> !r.Crashed?
    {
      hide Kept, Accounted, WellFormed, Settled, Matches, Lists, Increasing, Distinct, Clear, GrowsBy, Fitting;
      hide Moved, Recorded;
      hide ParentIsNext, Canonical, Vouched, SameEntry, Stray, SettledAt, OnChain, Extra;
      var target := request.Target();
      var full := target[..n];
      var key := Key(Directory, full);
      ParentIsReady(a, State(), original, request, missing, n);
      WhatKeptSays(a, State(), original, target, key);
      GrowsByNothing(State(), full);
      if journals[key].status.Applied? {
        StaysSettled(a, State(), original, target, n);
        return Proceed;
      }
      if !journals[key].status.IntentRecorded? {
        return Raised(InvalidStateTransition);
      }
      if full !in missing {
        QuarantineDirectory(full, target, original, a);
        return Raised(TargetConflict);
      }
      r := FinishDirectory(full, journals[key].parent, target, original, a);
    }

    method StartParent(request: Request, n: nat, missing: set<Path>, listed: seq<Path>, ghost original: Tree,
                       ghost a: Disk)
      returns (r: Outcome, directories: seq<Path>)
      requires |request.root| < n < |request.Target()|
      requires Kept(a, State(), original, request.Target())
      requires Lists(listed, journals.Keys, request.Target(), |request.Target()| - 1) && Distinct(listed)
      requires Accounted(a, original, request.Target()) ==>
        Increasing(listed) && Settled(State(), original, request.Target(), n - 1)
      requires request.Target()[..n] !in missing ==> request.Target()[..n] in tree
      requires Key(Directory, request.Target()[..n]) !in journals
      modifies this`tree, this`journals
      ensures Kept(a, State(), original, request.Target())
      ensures r.Proceed? ==>
        Lists(directories, journals.Keys, request.Target(), |request.Target()| - 1) && Distinct(directories)
      ensures r.Proceed? && Accounted(a, original, request.Target()) ==>
        Increasing(directories) && Settled(State(), original, request.Target(), n)
      ensures GrowsBy(old(State()), State(), request.Target()[..n])
      ensures FiledUnder(old(journals), journals, request, n)
      ensures old(ParentIsNext(a, State(), original, request, missing, n)) ==>
        !r.Raised? && (r.Proceed? ==> Clear(State(), original, request.Target()) && IsDir(tree, request.Target()[..n]))
      ensures old(request.Target()[..n] in missing <==> request.Target()[..n] !in tree) ==>
        ParentLevelIs(r, old(State()), State(), request.Target()[..n])
      ensures !mayDie ==> !r.Crashed?
    {
      hide Kept, Accounted, WellFormed, Settled, Matches, Lists, Increasing, Distinct, Clear, GrowsBy, Fitting;
      hide Moved, Recorded;
      hide ParentIsNext, Canonical, Vouched, SameEntry, Stray, SettledAt, OnChain, Extra;
      var target := request.Target();
      var full := target[..n];
      ParentIsReady(a, State(), original, request, missing, n);
      WhatKeptSays(a, State(), original, target, Key(Directory, full));
      GrowsByNothing(State(), full);
      if full !in missing {
        StaysSettled(a, State(), original, target, n);
        return Proceed, listed;
      }
      if !IsDir(tree, request.root) || !IsDir(tree, Parent(full)) {
        return Raised(PathMappingInvalid), listed;
      }
      if full in tree {
        return Raised(TargetConflict), listed;
      }
      var parent := tree[Parent(full)];
      directories := RecordParent(request, n, listed, original, a);
      ghost var recorded := State();
      r := FinishDirectory(full, parent, target, original, a);
      GrowsByBoth(old(State()), recorded, State(), full);
      IntentKept(recorded, State(), full);
    }

    /** The intent of a directory below the root, put on record and on the list. */
    method RecordParent(request: Request, n: nat, listed: seq<Path>, ghost original: Tree, ghost a: Disk)
      returns (directories: seq<Path>)
      requires |request.root| < n < |request.Target()| && Kept(a, State(), original, request.Target())
      requires Lists(listed, journals.Keys, request.Target(), |request.Target()| - 1) && Distinct(listed)
      requires Accounted(a, original, request.Target()) ==>
        Increasing(listed) && Settled(State(), original, request.Target(), n - 1)
      requires var full := request.Target()[..n];
               Key(Directory, full) !in journals && full !in tree && IsDir(tree, Parent(full))
      modifies this`journals
      ensures Kept(a, State(), original, request.Target())
      ensures Lists(directories, journals.Keys, request.Target(), |request.Target()| - 1) && Distinct(directories)
      ensures Accounted(a, original, request.Target()) ==>
        Increasing(directories) && Settled(State(), original, request.Target(), n - 1)
      ensures GrowsBy(old(State()), State(), request.Target()[..n])
      ensures var key := Key(Directory, request.Target()[..n]);
              key in journals && journals[key].status.IntentRecorded?
              && journals[key].intent == DirectoryIntent(request.root, request.Target()[|request.root|..n])
    {
      hide Kept, Accounted, WellFormed, Settled, Lists, Increasing, Distinct, GrowsBy, Canonical, KeepsEntries;
      hide AdoptsNothing, Recorded;
      var target, full := request.Target(), request.Target()[..n];
      SplitOfPath(request, n);
      KeptMeans(a, State(), original, target);
      ListedLast(State(), original, target, listed, n);
      BeginDirectory(full, DirectoryIntent(request.root, target[|request.root|..n]), target, original, a);
      directories := listed + [full];
    }

    method CreateParents(request: Request, missing: set<Path>, listed: seq<Path>, ghost original: Tree, ghost a: Disk)
      returns (r: Outcome, directories: seq<Path>)
      requires request.relative != [] && Kept(a, State(), original, request.Target())
      requires Lists(listed, journals.Keys, request.Target(), |request.Target()| - 1) && Increasing(listed)
      requires Accounted(a, original, request.Target()) ==> Settled(State(), original, request.Target(), |request.root|)
      requires MissingAhead(tree, request.Target(), missing, |request.root| + 1)
      modifies this`tree, this`journals
      ensures Kept(a, State(), original, request.Target())
      ensures old(SameRequest(journals, request)) ==> SameRequest(journals, request)
      ensures r.Proceed? ==>
        Lists(directories, journals.Keys, request.Target(), |request.Target()| - 1) && Distinct(directories)
      ensures r.Proceed? && Accounted(a, original, request.Target()) ==>
        Increasing(directories) && Settled(State(), original, request.Target(), |request.Target()| - 1)
      ensures Clear(a, original, request.Target())
              && old(Clear(State(), original, request.Target()) && IsDir(tree, request.root)) ==>
        !r.Raised? && (r.Proceed? ==>
          Clear(State(), original, request.Target()) && IsDir(tree, Parent(request.Target())))
      ensures SameLinkJournal(old(journals), journals, request.Target())
      ensures RaisedFor(r, old(State()), State(), old(ParentStop(State(), request.Target(), |request.root| + 1)))
      ensures old(ParentsPass(State(), request.Target(), |request.root| + 1)) ==> r.Proceed? && State() == old(State())
      ensures !mayDie ==> !r.Crashed?
    {
      hide ParentStop, ParentsPass, BelowObstacle, Quiet, Moved;
      hide Kept, Accounted, Settled, Lists, Increasing, Distinct, MissingAhead, GrowsBy, Clear, SameRequest, Fitting;
      hide SameLinkJournal;
      var target := request.Target();
      ghost var free := Clear(a, original, target) && Clear(State(), original, target) && IsDir(tree, request.root);
      ghost var same := SameRequest(journals, request);
      IncreasingIsDistinct(listed);
      LinkJournalFirst(journals, target);
      assert target[..|request.root|] == request.root;
      ghost var stop := ParentStop(State(), target, |request.root| + 1);
      ghost var passes := ParentsPass(State(), target, |request.root| + 1);
      r, directories := Proceed, listed;
      var n := |request.root| + 1;
      while n < |target|
        invariant |request.root| < n <= |target| && r == Proceed
        invariant Kept(a, State(), original, target)
        invariant Lists(directories, journals.Keys, target, |target| - 1) && Distinct(directories)
        invariant Accounted(a, original, target) ==>
          Increasing(directories) && Settled(State(), original, target, n - 1)
        invariant MissingAhead(tree, target, missing, n) && (same ==> SameRequest(journals, request))
        invariant free ==>
          Clear(a, original, target) && Clear(State(), original, target) && IsDir(tree, request.root)
            && IsDir(tree, target[..n - 1])
        invariant SameLinkJournal(old(journals), journals, target)
        invariant stop.Some? ==> State() == old(State()) && ParentStop(State(), target, n) == stop
        invariant passes ==> State() == old(State()) && ParentsPass(State(), target, n)
      {
        ghost var d := State();
        ParentStopStep(d, target, n);
        MissingNow(tree, target, missing, n);
        if free {
          assert ParentIsNext(a, d, original, request, missing, n);
        }
        r, directories := CreateParent(request, n, missing, directories, original, a);
        if same {
          SameRequestGrows(d, State(), request, n);
        }
        DirsStay(d, State(), target[..n]);
        LinkJournalStays(old(journals), d, State(), target, n);
        MissingStep(d, State(), target, missing, n);
        if !r.Proceed? {
          return;
        }
        n := n + 1;
      }
      ParentStopEnds(State(), target, n);
      assert target[..|target| - 1] == Parent(target);
    }

    method LinkTemporary(request: Request, stamp: nat, ghost original: Tree, ghost a: Disk)
      requires request.relative != [] && Kept(a, State(), original, request.Target())
      requires Key(Hardlink, request.Target()) in journals && SameLink(request, Key(Hardlink, request.Target()))
      requires request.SourceMatches(tree) && IsDir(tree, Parent(request.Target()))
      requires request.Target() !in tree && TemporaryFor(request.Target()) !in tree
      requires Accounted(a, original, request.Target()) ==>
        Settled(State(), original, request.Target(), |request.Target()| - 1)
      modifies this`tree
      ensures Kept(a, State(), original, request.Target())
      ensures request.SourceMatches(tree) && request.Target() !in tree
      ensures LinkIsAt(old(tree), tree, request, TemporaryFor(request.Target()))
    {
      hide Kept, Accounted, WellFormed, Settled, WithEntry, SameEntry, Fitting;
      var target := request.Target();
      var temporary := TemporaryFor(target);
      WhatKeptSays(a, State(), original, target, Key(Hardlink, target));
      TemporaryIsElsewhere(target);
      if Accounted(a, original, target) {
        assert target[..|target|] == target;
        ClearAhead(State(), original, target, |target|);
      }
      MadeKept(a, State(), original, target, temporary, request.expected, stamp);
      AddedEntry(tree, temporary, request.expected, stamp);
      FilesStay(tree, WithEntry(tree, temporary, request.expected, stamp), request);
      tree := WithEntry(tree, temporary, request.expected, stamp);
    }

    /** Links the source under a temporary name, then moves the link to the target, which must
        be free.  A temporary link left by a crash is used again if it is still the source's and
        its directory is the one the intent saw; then the directory's times do not matter. */
    method CreateHardlinkAtomic(request: Request, expectedParent: Entry, ghost original: Tree, ghost a: Disk)
      returns (r: Outcome)
      requires request.relative != [] && Kept(a, State(), original, request.Target())
      requires Key(Hardlink, request.Target()) in journals && SameLink(request, Key(Hardlink, request.Target()))
      requires Accounted(a, original, request.Target()) ==>
        Settled(State(), original, request.Target(), |request.Target()| - 1)
      modifies this`tree
      ensures Kept(a, State(), original, request.Target())
      ensures r.Raised? <==> old(LinkIsRefused(tree, request, expectedParent))
      ensures r.Raised? ==> tree == old(tree)
      ensures r.Raised? ==> r.code == old(RefusalCode(tree, request, expectedParent))
      ensures !mayDie ==> !r.Crashed?
      ensures r.Proceed? ==> LinkIsAt(old(tree), tree, request, request.Target()) && request.expected.File?
      ensures r.Crashed? ==>
        || LinkIsAt(old(tree), tree, request, request.Target())
        || LinkIsAt(old(tree), tree, request, TemporaryFor(request.Target()))
      ensures r.Proceed? && request.source != TemporaryFor(request.Target()) ==> request.SourceMatches(tree)
      ensures r.Proceed? ==> request.Target() !in a.tree
      ensures r.Proceed? && Accounted(a, original, request.Target()) ==> forall p :: Stray(State(), original, p) ==>
        p == request.Target()
    {
      hide Kept, Accounted, WellFormed, Settled, Stray, NoStray, Fitting, SameEntry, LinkIsAt;
      var target := request.Target();
      var temporary := TemporaryFor(target);
      var key := Key(Hardlink, target);
      WhatKeptSays(a, State(), original, target, key);
      TemporaryIsElsewhere(target);
      if !IsDir(tree, Parent(target)) || !request.SourceMatches(tree) {
        return Raised(if IsDir(tree, Parent(target)) then SourceChanged else PathMappingInvalid);
      }
      if target in tree {
        return Raised(TargetConflict);
      }
      if temporary !in tree {
        if tree[Parent(target)] != expectedParent {
          return Raised(SourceChanged);
        }
        var stamp: nat := *;
        LinkTemporary(request, stamp, original, a);
        TemporaryIsThere(old(tree), tree, request);
        var dies: bool := *;
        if mayDie && dies {
          return Crashed;
        }
      } else if !SameEntry(tree[Parent(target)], expectedParent) {
        return Raised(SourceChanged);
      }
      if tree[temporary] != request.expected {
        return Raised(TargetConflict);
      }
      ghost var linked := tree;
      LinkedOver(old(tree), linked, request);
      RenameTemporary(request, original, a);
      LinkMoves(old(tree), linked, tree, request);
      var dies: bool := *;
      r := if mayDie && dies then Crashed else Proceed;
    }

    /** The temporary link takes the target's place. */
    method RenameTemporary(request: Request, ghost original: Tree, ghost a: Disk)
      requires request.relative != [] && Kept(a, State(), original, request.Target())
      requires Key(Hardlink, request.Target()) in journals && request.SourceMatches(tree) && request.Target() !in tree
      requires TemporaryFor(request.Target()) in tree && tree[TemporaryFor(request.Target())] == request.expected
      modifies this`tree
      ensures Kept(a, State(), original, request.Target())
      ensures LinkIsAt(old(tree), tree, request, request.Target())
      ensures request.source != TemporaryFor(request.Target()) ==> request.SourceMatches(tree)
      ensures Accounted(a, original, request.Target()) ==> forall p :: Stray(State(), original, p) ==>
        p == request.Target()
    {
      hide Kept, Accounted, WellFormed, Renamed, Stray, NoStray, SameEntry, Fitting;
      var target := request.Target();
      var stamp: nat := *;
      WhatKeptSays(a, State(), original, target, Key(Hardlink, target));
      RenamedKept(a, State(), original, target, stamp);
      RenamedTree(State(), target, stamp);
      RenamedJournals(State(), target, stamp);
      var next := Renamed(State(), target, stamp).tree;
      assert State().(tree := next) == Renamed(State(), target, stamp);
      if request.source != TemporaryFor(target) {
        FilesStay(tree, next, request);
      }
      tree := next;
    }

    /** Whether the journal of the link stands for this very request. */
    predicate SameLink(request: Request, key: Key)
      requires key in journals
      reads this
    {
      journals[key].intent == HardlinkIntent(request.root, request.relative, request.source, request.expected)
    }

    /** An APPLIED link is answered from its journal, as long as it is still there. */
    method AnswerApplied(request: Request, ghost original: Tree, ghost a: Disk) returns (r: Outcome)
      requires request.relative != [] && Kept(a, State(), original, request.Target())
      requires IsApplied(journals, Key(Hardlink, request.Target()))
               && SameLink(request, Key(Hardlink, request.Target()))
      modifies this`journals
      ensures Kept(a, State(), original, request.Target()) && tree == old(tree)
      ensures r.Proceed? <==> Proved(old(State()), Key(Hardlink, request.Target()))
      ensures r.Proceed? || (r == Raised(SourceChanged)
                             && State() == Moved(old(State()), Key(Hardlink, request.Target()), ReconcileRequired,
                                  None))
      ensures journals.Keys == old(journals).Keys && forall key :: key in journals ==>
        journals[key].intent == old(journals)[key].intent
      ensures r.Proceed? ==> journals == old(journals)
      ensures r.Proceed? ==> request.Target() in tree && tree[request.Target()] == request.expected
      ensures r.Proceed? && Accounted(a, original, request.Target()) ==> NoStray(State(), original)
    {
      hide Kept, Accounted, WellFormed, NoStray;
      var key := Key(Hardlink, request.Target());
      WhatKeptSays(a, State(), original, request.Target(), key);
      if !Proved(State(), key) {
        Quarantine(key, request.Target(), original, a);
        return Raised(SourceChanged);
      }
      if Accounted(a, original, request.Target()) {
        LinkedMeansNoStray(State(), original, request.Target());
      }
      r := Proceed;
    }

    /** A request whose link is APPLIED already has to be the same one, with its source intact. */
    method ReplayApplied(request: Request, ghost original: Tree, ghost a: Disk) returns (r: Outcome)
      requires request.relative != [] && Kept(a, State(), original, request.Target())
      requires IsApplied(journals, Key(Hardlink, request.Target()))
      modifies this`journals
      ensures Kept(a, State(), original, request.Target()) && tree == old(tree) && !r.Crashed?
      ensures RaisedFor(r, old(State()), State(), old(ReplayStop(State(), request)))
      ensures journals.Keys == old(journals).Keys && forall key :: key in journals ==>
        journals[key].intent == old(journals)[key].intent
      ensures r.Proceed? <==>
        old(SameLink(request, Key(Hardlink, request.Target())) && Proved(State(), Key(Hardlink, request.Target())))
        && request.SourceMatches(tree)
      ensures r.Proceed? ==>
        journals == old(journals) && request.Target() in tree && tree[request.Target()] == request.expected
      ensures r.Proceed? && Accounted(a, original, request.Target()) ==> NoStray(State(), original)
    {
      hide Kept, Accounted, NoStray, Proved;
      if !SameLink(request, Key(Hardlink, request.Target())) {
        return Raised(IdempotencyConflict);
      }
      if !request.SourceMatches(tree) {
        return Raised(SourceChanged);
      }
      r := AnswerApplied(request, original, a);
    }

    /** The link itself, once its directories are there. */
    method PlaceLink(request: Request, ghost original: Tree, ghost a: Disk) returns (r: Outcome, replayed: bool)
      requires request.relative != [] && Kept(a, State(), original, request.Target()) && request.SourceMatches(tree)
      requires request.Target() !in tree && IsDir(tree, Parent(request.Target()))
      requires Accounted(a, original, request.Target()) ==>
        Settled(State(), original, request.Target(), |request.Target()| - 1)
      modifies this`tree, this`journals
      ensures Kept(a, State(), original, request.Target())
      ensures old(journals).Keys <= journals.Keys <= old(journals).Keys + {Key(Hardlink, request.Target())}
      ensures old(SameRequest(journals, request)) ==> SameRequest(journals, request)
      ensures r.Proceed? ==> IsApplied(journals, Key(Hardlink, request.Target()))
      ensures r.Proceed? ==> request.Target() in tree && tree[request.Target()] == request.expected
      ensures r.Proceed? && request.source != TemporaryFor(request.Target()) ==> request.SourceMatches(tree)
      ensures r.Proceed? && Accounted(a, original, request.Target()) ==> NoStray(State(), original)
      ensures old(Key(Hardlink, request.Target()) !in journals && TemporaryFor(request.Target()) !in tree) ==>
        !r.Raised?
      ensures Accounted(a, original, request.Target()) && Fitting(a, request.Target())
              && old(SameRequest(journals, request)) ==>
        !r.Raised?
      ensures replayed <==> Key(Hardlink, request.Target()) in old(journals)
      ensures PlacedAs(r, old(State()), State(), request)
      ensures !mayDie ==> !r.Crashed?
    {
      var target := request.Target();
      var key := Key(Hardlink, target);
      var parent: Entry;
      hide Kept, Accounted, NoStray, Settled, Proved, Stray, Fitting, SameEntry, LinkIsAt, Canonical, WellFormed;
      hide SameRequest, KeepsEntries, AdoptsNothing, LinkIsRefused, RefusalCode;
      WhatKeptSays(a, State(), original, target, key);
      KeptMeans(a, State(), original, target);
      SameRequestLinks(journals, request);
      ghost var fits := Accounted(a, original, target) && Fitting(a, target);
      if fits {
        LinkIsReady(State(), original, target);
      }
      if key in journals {
        if !SameLink(request, key) {
          return Raised(IdempotencyConflict), true;
        }
        if journals[key].status.Applied? {
          r := AnswerApplied(request, original, a);
          SameIntentsIf(old(journals), journals, request);
          return r, true;
        }
        if !journals[key].status.IntentRecorded? {
          return Raised(InvalidStateTransition), true;
        }
        parent, replayed := journals[key].parent, true;
      } else {
        var intent := HardlinkIntent(request.root, request.relative, request.source, request.expected);
        if Accounted(a, original, target) {
          RecordedSettles(State(), original, target, key, intent, tree[Parent(target)], |target| - 1);
        }
        RecordIntent(key, intent, target, original, a);
        SameRequestRecorded(old(State()), request, tree[Parent(target)]);
        parent, replayed := tree[Parent(target)], false;
      }
      var dies: bool := *;
      if mayDie && dies {
        return Crashed, replayed;
      }
      LinkIsFree(tree, request, parent);
      ghost var recorded := journals;
      r := ResumeLink(request, parent, original, a);
      SameIntentsIf(recorded, journals, request);
    }

    /** From the recorded intent on. */
    method ResumeLink(request: Request, parent: Entry, ghost original: Tree, ghost a: Disk) returns (r: Outcome)
      requires request.relative != [] && Kept(a, State(), original, request.Target())
      requires Key(Hardlink, request.Target()) in journals && SameLink(request, Key(Hardlink, request.Target()))
      requires journals[Key(Hardlink, request.Target())].status.IntentRecorded? && request.Target() !in tree
      requires Accounted(a, original, request.Target()) ==>
        Settled(State(), original, request.Target(), |request.Target()| - 1)
      requires Accounted(a, original, request.Target()) && Fitting(a, request.Target())
               && TemporaryFor(request.Target()) in tree ==>
        tree[TemporaryFor(request.Target())] == request.expected
      modifies this`tree, this`journals
      ensures Kept(a, State(), original, request.Target())
      ensures journals.Keys == old(journals).Keys && forall key :: key in journals ==>
        journals[key].intent == old(journals)[key].intent
      ensures r.Proceed? ==> IsApplied(journals, Key(Hardlink, request.Target()))
      ensures r.Proceed? ==> request.Target() in tree && tree[request.Target()] == request.expected
      ensures r.Proceed? && request.source != TemporaryFor(request.Target()) ==> request.SourceMatches(tree)
      ensures r.Proceed? && Accounted(a, original, request.Target()) ==> NoStray(State(), original)
      ensures r.Raised? <==> old(LinkIsRefused(tree, request, parent))
      ensures r.Raised? ==> r.code == old(RefusalCode(tree, request, parent))
      ensures r.Raised? ==>
        State() == if r.code.TargetConflict? then
          Moved(old(State()), Key(Hardlink, request.Target()), ReconcileRequired, None)
                   else old(State())
      ensures r.Crashed? ==> journals == old(journals)
      ensures r.Proceed? ==>
        var link := Key(Hardlink, request.Target());
        journals == old(journals)[link := old(journals)[link].(status := Applied, after := Some(request.expected))]
      ensures !mayDie ==> !r.Crashed?
    {
      var target := request.Target();
      var key := Key(Hardlink, target);
      hide Kept, Accounted, NoStray, Settled, Proved, Stray, Fitting, SameEntry, LinkIsAt, LinkIsRefused;
      RefusedForTemporary(tree, request, parent);
      r := CreateHardlinkAtomic(request, parent, original, a);
      if r == Raised(TargetConflict) {
        Quarantine(key, target, original, a);
      }
      if r.Proceed? {
        LinkIsThere(old(tree), tree, request);
        WhatKeptSays(a, State(), original, target, key);
        AppliedKept(a, State(), original, target, key);
        NothingElseAstray(State(), original, key);
        journals := journals[key := journals[key].(status := Applied, after := Some(tree[target]))];
      }
    }

    /** The part of an execution that follows the check for an APPLIED link: the directories
        below the root, then the link. */
    method CreateLink(request: Request, listed: seq<Path>, ghost original: Tree, ghost a: Disk) returns (r: Result)
      requires request.relative != [] && Kept(a, State(), original, request.Target())
      requires Lists(listed, journals.Keys, request.Target(), |request.Target()| - 1) && Increasing(listed)
      requires Accounted(a, original, request.Target()) ==> Settled(State(), original, request.Target(), |request.root|)
      modifies this`tree, this`journals
      ensures Kept(a, State(), original, request.Target())
      ensures old(SameRequest(journals, request)) ==> SameRequest(journals, request)
      ensures r.Done? ==> IsApplied(journals, Key(Hardlink, request.Target()))
      ensures r.Done? ==> request.Target() in tree && tree[request.Target()] == request.expected
      ensures r.Done? && request.source != TemporaryFor(request.Target()) ==> request.SourceMatches(tree)
      ensures r.Done? ==>
        Distinct(r.directories) && Lists(r.directories, journals.Keys, request.Target(), |request.Target()| - 1)
      ensures r.Done? && Accounted(a, original, request.Target()) ==>
        Increasing(r.directories) && NoStray(State(), original)
      ensures ClearRetry(a, original, request)
              && old(Clear(State(), original, request.Target()) && SameRequest(journals, request))
              && old(IsDir(tree, request.root) && !IsApplied(journals, Key(Hardlink, request.Target()))) ==>
        !r.Failed?
      ensures FailedFor(r, old(State()), State(), old(LinkStop(State(), request)))
      ensures old(ReachesPlacing(State(), request)) ==> EndsAtPlacing(r, old(State()), State(), request)
      ensures r.Done? ==> (r.replayed <==> Key(Hardlink, request.Target()) in old(journals))
      ensures LinkJournalLeft(r, old(State()), State(), request.Target())
      ensures !mayDie ==> !r.Died?
    {
      var target := request.Target();
      var key := Key(Hardlink, target);
      hide Kept, Accounted, NoStray, Settled, Proved, Lists, Increasing, Distinct, WellFormed, Canonical;
      hide Clear, MissingAhead, KeepsEntries, AdoptsNothing, SameRequest, Fitting, ClearRetry, SameLinkJournal, Moved;
      KeptMeans(a, State(), original, target);
      ghost var free := && ClearRetry(a, original, request) && Clear(State(), original, target)
                                      && SameRequest(journals, request)
                        && IsDir(tree, request.root) && !IsApplied(journals, key);
      if free {
        ReadyForInspection(a, State(), original, request);
      }
      var code, missing := InspectHardlink(request);
      if code.Some? {
        if key in journals && journals[key].status.IntentRecorded? && code == Some(TargetConflict) {
          ghost var before := State();
          Quarantine(key, target, original, a);
          MovedIntents(before, key, request);
          QuarantineLeaves(before, target);
        }
        return Failed(code.value);
      }
      MissingAtFirst(State(), request, missing);
      ghost var before := journals;
      var outcome, directories := CreateParents(request, missing, listed, original, a);
      SameLinkJournalMeans(before, journals, target);
      LeftAlone(Ended(outcome), Disk(old(tree), before), State(), target);
      if !outcome.Proceed? {
        return Ended(outcome);
      }
      if free {
        StillUnlinked(before, journals, target);
      }
      ghost var d := State();
      r := LinkInPlace(request, directories, original, a);
      LeftOver(r, old(State()), d, State(), target);
    }

    /** Once the directories are there: another look, and then the link itself. */
    method LinkInPlace(request: Request, directories: seq<Path>, ghost original: Tree, ghost a: Disk)
      returns (r: Result)
      requires request.relative != [] && Kept(a, State(), original, request.Target())
      requires Lists(directories, journals.Keys, request.Target(), |request.Target()| - 1) && Distinct(directories)
      requires Accounted(a, original, request.Target()) ==>
        Increasing(directories) && Settled(State(), original, request.Target(), |request.Target()| - 1)
      modifies this`tree, this`journals
      ensures Kept(a, State(), original, request.Target())
      ensures old(SameRequest(journals, request)) ==> SameRequest(journals, request)
      ensures r.Done? ==> IsApplied(journals, Key(Hardlink, request.Target()))
      ensures r.Done? ==> request.Target() in tree && tree[request.Target()] == request.expected
      ensures r.Done? && request.source != TemporaryFor(request.Target()) ==> request.SourceMatches(tree)
      ensures r.Done? ==>
        Distinct(r.directories) && Lists(r.directories, journals.Keys, request.Target(), |request.Target()| - 1)
      ensures r.Done? && Accounted(a, original, request.Target()) ==>
        Increasing(r.directories) && NoStray(State(), original)
      ensures ClearRetry(a, original, request)
              && old(Clear(State(), original, request.Target()) && SameRequest(journals, request))
              && old(IsDir(tree, Parent(request.Target())) && !IsApplied(journals, Key(Hardlink, request.Target()))) ==>
        !r.Failed?
      ensures old(PlacingIsNext(State(), request)) ==> EndsAtPlacing(r, old(State()), State(), request)
      ensures r.Done? ==> (r.replayed <==> Key(Hardlink, request.Target()) in old(journals))
      ensures LinkJournalLeft(r, old(State()), State(), request.Target())
      ensures !mayDie ==> !r.Died?
    {
      hide Kept, Accounted, NoStray, Settled, Proved, Lists, Increasing, Distinct, WellFormed, Canonical;
      hide Clear, KeepsEntries, AdoptsNothing, SameRequest, Fitting, ClearRetry, PlacingObstacle, LinkJournalLeft;
      var target := request.Target();
      var key := Key(Hardlink, target);
      KeptMeans(a, State(), original, target);
      BelowRoot(tree, request);
      WhatClearRetrySays(a, original, request);
      if ClearRetry(a, original, request) && Clear(State(), original, target) && !IsApplied(journals, key)
         && IsDir(tree, Parent(target)) {
        ReadyForLink(a, State(), original, request);
      }
      var code, missing := InspectHardlink(request);
      if code.Some? {
        Untouched(Failed(code.value), State(), target);
        return Failed(code.value);
      }
      if missing != {} {
        Untouched(Failed(PathMappingInvalid), State(), target);
        return Failed(PathMappingInvalid);
      }
      NothingMissing(tree, request);
      var outcome, replayed := PlaceLink(request, original, a);
      SameListed(directories, old(journals).Keys, journals.Keys, target);
      if !outcome.Proceed? {
        PlacedLeaves(outcome, old(State()), State(), request);
        return Ended(outcome);
      }
      DoneLeaves(Done(directories, replayed), old(State()), State(), target);
      r := Done(directories, replayed);
    }

    /** One execution of a request: the directories of the root, those below it, the link.  Tried
        again, it goes through unless something other than the temporary link is astray. */
    method ExecuteHardlink(request: Request, ghost original: Tree) returns (r: Result)
      requires Valid() && request.relative != []
      modifies this`tree, this`journals
      ensures Valid()
      ensures KeepsEntries(old(State()), State(), request.Target())
              && AdoptsNothing(old(State()), State(), request.Target())
      ensures old(Accounted(State(), original, request.Target())) ==> Accounted(State(), original, request.Target())
      ensures r.Done? ==> IsApplied(journals, Key(Hardlink, request.Target()))
      ensures r.Done? ==> request.Target() in tree && tree[request.Target()] == request.expected
      ensures r.Done? && request.source != TemporaryFor(request.Target()) ==> request.SourceMatches(tree)
      ensures r.Done? ==>
        Distinct(r.directories) && Lists(r.directories, journals.Keys, request.Target(), |request.Target()| - 1)
      ensures r.Done? && old(Accounted(State(), original, request.Target())) ==>
        Increasing(r.directories) && NoStray(State(), original)
      ensures old(Retryable(State(), original, request)) ==> Retryable(State(), original, request)
      ensures old(Retryable(State(), original, request)) ==>
        if old(OnlyTemporaryAstray(State(), original, request.Target())) then !r.Failed? else !r.Done?
      ensures old(!OnlyTemporaryAstray(State(), original, request.Target())) ==>
        !OnlyTemporaryAstray(State(), original, request.Target())
      ensures old(Accounted(State(), original, request.Target()) && Completed(State(), request)) ==>
        r.Done? && r.replayed && State() == old(State())
      ensures FailedFor(r, old(State()), State(), old(Refusal(State(), request)))
      ensures old(LinkStands(State(), request)) ==>
        r == Failed(TargetConflict)
        && State() == Moved(old(State()), Key(Hardlink, request.Target()), ReconcileRequired, None)
      ensures old(LinkLost(State(), request)) ==>
        r == Failed(SourceChanged)
        && State() == Moved(old(State()), Key(Hardlink, request.Target()), ReconcileRequired, None)
      ensures forall n: nat :: old(DirectoryStands(State(), request, n)) ==>
        r == Failed(TargetConflict)
        && State() == Moved(old(State()), Key(Directory, request.Target()[..n]), ReconcileRequired, None)
      ensures forall n: nat :: old(DirectoryLost(State(), request, n)) ==>
        r == Failed(SourceChanged)
        && State() == Moved(old(State()), Key(Directory, request.Target()[..n]), ReconcileRequired, None)
      ensures old(OnlyLinkMissing(State(), request)) ==> !r.Failed?
      ensures old(RootPasses(State(), request.root, 1) && BelowReaches(State(), request)) ==>
        EndsAtPlacing(r, old(State()), State(), request)
      ensures LinkJournalLeft(r, old(State()), State(), request.Target())
      ensures r.Done? ==> (r.replayed <==> Key(Hardlink, request.Target()) in old(journals))
      ensures !mayDie ==> !r.Died?
    {
      hide RootPasses, BelowReaches, EndsAtPlacing, LinkJournalLeft, LinkStands, LinkLost, DirectoryStands;
      hide DirectoryLost;
      hide OnlyLinkMissing, Refusal, Moved;
      hide Kept, Accounted, NoStray, Proved, Lists, Increasing, Distinct, KeepsEntries, AdoptsNothing, WellFormed;
      hide Canonical;
      hide ClearRetry, SameRequest, Completed, Fitting, Retryable, OnlyTemporaryAstray;
      ghost var a := State();
      KeptAtFirst(a, original, request.Target());
      RefusedFor(a, request);
      r := ExecuteFrom(request, original, a);
      KeptMeans(a, State(), original, request.Target());
      if !OnlyTemporaryAstray(a, original, request.Target()) {
        SomethingStaysAstray(a, State(), original, request.Target());
      }
      if Retryable(a, original, request) {
        WhatRetryableSays(a, original, request);
        RetryableStays(a, State(), original, request);
        if OnlyTemporaryAstray(a, original, request.Target()) {
          ClearToRetry(a, original, request);
        }
      }
    }

    method ExecuteFrom(request: Request, ghost original: Tree, ghost a: Disk) returns (r: Result)
      requires request.relative != [] && Kept(a, State(), original, request.Target()) && a == State()
      modifies this`tree, this`journals
      ensures Kept(a, State(), original, request.Target())
      ensures SameRequest(a.journals, request) ==> SameRequest(journals, request)
      ensures r.Done? ==> IsApplied(journals, Key(Hardlink, request.Target()))
      ensures r.Done? ==> request.Target() in tree && tree[request.Target()] == request.expected
      ensures r.Done? && request.source != TemporaryFor(request.Target()) ==> request.SourceMatches(tree)
      ensures r.Done? ==>
        Distinct(r.directories) && Lists(r.directories, journals.Keys, request.Target(), |request.Target()| - 1)
      ensures r.Done? && Accounted(a, original, request.Target()) ==>
        Increasing(r.directories) && NoStray(State(), original)
      ensures ClearRetry(a, original, request) ==> !r.Failed?
      ensures Accounted(a, original, request.Target()) && Completed(a, request) ==>
        r.Done? && r.replayed && State() == a
      ensures FailedFor(r, a, State(), Refusal(a, request))
      ensures RootPasses(a, request.root, 1) && BelowReaches(a, request) ==> EndsAtPlacing(r, a, State(), request)
      ensures r.Done? ==> (r.replayed <==> Key(Hardlink, request.Target()) in a.journals)
      ensures LinkJournalLeft(r, a, State(), request.Target())
      ensures !mayDie ==> !r.Died?
    {
      hide RootStop, RootPasses, BelowStop, BelowReaches, EndsAtPlacing, LinkJournalLeft, SameLinkJournal, KeepsEntries;
      hide AdoptsNothing, Proved;
      hide Kept, Accounted, NoStray, Settled, Lists, Increasing, Distinct, Clear, ClearRetry, SameRequest, SameBelow;
      hide Completed;
      var target := request.Target();
      WhatClearRetrySays(a, original, request);
      CompletedMeansIf(a, original, request);
      var outcome, directories := EnsureTargetRoot(request.root, target, original, a);
      SameRequestBelowIf(a.journals, journals, request);
      LinkIsBelow(a.journals, journals, request);
      KeptMeans(a, State(), original, target);
      ghost var d := State();
      if !outcome.Proceed? {
        LeftAlone(Ended(outcome), a, d, target);
        return Ended(outcome);
      }
      r := ExecuteBelow(request, directories, original, a);
      LeftOver(r, a, d, State(), target);
    }

    /** What follows once the root is there. */
    method ExecuteBelow(request: Request, listed: seq<Path>, ghost original: Tree, ghost a: Disk) returns (r: Result)
      requires request.relative != [] && Kept(a, State(), original, request.Target())
      requires Lists(listed, journals.Keys, request.Target(), |request.root|) && Increasing(listed)
      requires Accounted(a, original, request.Target()) ==> Settled(State(), original, request.Target(), |request.root|)
      modifies this`tree, this`journals
      ensures Kept(a, State(), original, request.Target())
      ensures old(SameRequest(journals, request)) ==> SameRequest(journals, request)
      ensures r.Done? ==> IsApplied(journals, Key(Hardlink, request.Target()))
      ensures r.Done? ==> request.Target() in tree && tree[request.Target()] == request.expected
      ensures r.Done? && request.source != TemporaryFor(request.Target()) ==> request.SourceMatches(tree)
      ensures r.Done? ==>
        Distinct(r.directories) && Lists(r.directories, journals.Keys, request.Target(), |request.Target()| - 1)
      ensures r.Done? && Accounted(a, original, request.Target()) ==>
        Increasing(r.directories) && NoStray(State(), original)
      ensures ClearRetry(a, original, request)
              && old(Clear(State(), original, request.Target()) && SameRequest(journals, request))
              && old(IsDir(tree, request.root)) ==>
        !r.Failed?
      ensures Accounted(a, original, request.Target()) && Completed(a, request) && old(State()) == a ==>
        r.Done? && r.replayed && State() == a
      ensures FailedFor(r, old(State()), State(), old(BelowStop(State(), request)))
      ensures old(BelowReaches(State(), request)) ==> EndsAtPlacing(r, old(State()), State(), request)
      ensures r.Done? ==> (r.replayed <==> Key(Hardlink, request.Target()) in old(journals))
      ensures LinkJournalLeft(r, old(State()), State(), request.Target())
      ensures !mayDie ==> !r.Died?
    {
      hide FiledStop, LinkStop, Refusal, EndsAtPlacing, PlacingObstacle;
      hide Kept, Accounted, NoStray, Settled, Proved, Lists, Increasing, Distinct, KeepsEntries, AdoptsNothing;
      hide WellFormed, Canonical;
      hide Clear, ClearRetry, SameRequest, Filed, SameLinkAs, Fitting, Completed;
      var target := request.Target();
      var key := Key(Hardlink, target);
      CompletedMeansIf(a, original, request);
      if ClearRetry(a, original, request) && Clear(State(), original, target) && SameRequest(journals, request) {
        ReadyToValidate(a, State(), original, request);
      }
      var outcome, directories := ValidateExisting(request, listed, original, a);
      SameIntentsIf(old(journals), journals, request);
      if !outcome.Proceed? {
        FiledStopIsDirectory(old(State()), request, 1);
        MetIsLeft(old(State()), FiledStop(old(State()), request, 1).value, target);
        LeftAlone(Ended(outcome), old(State()), State(), target);
        return Ended(outcome);
      }
      if key in journals && journals[key].status.Applied? {
        outcome := ReplayApplied(request, original, a);
        SameIntentsIf(old(journals), journals, request);
        IncreasingIsDistinct(directories);
        return if outcome.Proceed? then Done(directories, true) else Ended(outcome);
      }
      r := CreateLink(request, directories, original, a);
    }

    /** The part of a rollback that touches the disk: removes the entry when it is the one the
        journal recorded (and, for a directory, empty). */
    method RemoveIfMatches(key: Key) returns (r: Outcome)
      requires Valid() && key in journals && key.path != [] && journals[key].after.Some?
      modifies this`tree
      ensures Valid()
      ensures r.Proceed? ==> Gone(old(tree), tree, key.path)
      ensures r.Proceed? && key.path in old(tree) ==> Removable(old(tree), key, old(journals)[key].after)
      ensures !r.Proceed? ==> tree == old(tree)
      ensures r.Proceed? || r == Raised(PathMappingInvalid) || r == Raised(BlockedRollback)
      ensures r == Raised(PathMappingInvalid) <==> !IsDir(old(tree), Parent(key.path))
      ensures r == Raised(BlockedRollback) <==>
        IsDir(old(tree), Parent(key.path)) && key.path in old(tree) && !Removable(old(tree), key, journals[key].after)
    {
      hide WellFormed, Canonical, WithoutEntry;
      if !IsDir(tree, Parent(key.path)) {
        return Raised(PathMappingInvalid);
      }
      if key.path !in tree {
        return Proceed;
      }
      if !Proved(State(), key) || (exists q :: q in tree && q != [] && Parent(q) == key.path) {
        return Raised(BlockedRollback);
      }
      var stamp: nat := *;
      RemovedEntry(tree, key.path, stamp);
      tree := WithoutEntry(tree, key.path, stamp);
      r := Proceed;
    }

    /** Rolls one journal back, from wherever an earlier attempt may have died. */
    method RollbackJournal(key: Key, ghost target: Path, ghost original: Tree) returns (r: Outcome)
      requires Valid() && key in journals && key.path != []
      requires journals[key].status.Applied? || journals[key].status.RollbackPending? ==> journals[key].after.Some?
      modifies this`tree, this`journals
      ensures Valid() && journals.Keys == old(journals).Keys
      ensures forall k :: k in journals && k != key ==> journals[k] == old(journals)[k]
      ensures r.Proceed? <==> journals[key].status.RolledBack?
      ensures r.Proceed? && !old(journals)[key].status.RolledBack? ==> Gone(old(tree), tree, key.path)
      ensures r.Raised? || old(journals)[key].status.RolledBack? ==> tree == old(tree)
      ensures key.path in old(tree) && key.path !in tree ==> Removable(old(tree), key, old(journals)[key].after)
      ensures r == Raised(BlockedRollback) <==> old(Blocks(State(), key)) && journals[key].status.RollbackBlocked?
      ensures old(Restoring(State(), original, target) && DeeperDone(journals, key)) ==>
        Restoring(State(), original, target) && !r.Raised?
      ensures RolledBackAs(r, old(State()), State(), key)
      ensures r.Crashed? ==> tree == old(tree) || Gone(old(tree), tree, key.path)
      ensures !mayDie ==> !r.Crashed?
    {
      hide WellFormed, Canonical, Restoring, DeeperDone, Matches;
      ghost var good := Restoring(State(), original, target) && DeeperDone(journals, key);
      var dies: bool;
      if good {
        RestoringSays(State(), original, target, key);
      }
      if journals[key].status.RolledBack? {
        return Proceed;
      }
      if !journals[key].status.Applied? && !journals[key].status.RollbackPending? {
        return Raised(InvalidStateTransition);
      }
      if journals[key].status.Applied? {
        if good {
          MarkedRestores(State(), original, target, key, RollbackPending);
          DeeperDoneKept(journals, key, RollbackPending);
        }
        Mark(key, RollbackPending);
        dies := *;
        if mayDie && dies {
          return Crashed;
        }
      }
      label marked:
      r := RemoveIfMatches(key);
      if r == Raised(BlockedRollback) {
        Mark(key, RollbackBlocked);
      }
      if r.Proceed? {
        if good {
          GoneRestores(old@marked(State()), State(), original, target, key);
        }
        dies := *;
        if mayDie && dies {
          return Crashed;
        }
        if good {
          MarkedRestores(State(), original, target, key, RolledBack);
        }
        Mark(key, RolledBack);
      }
    }

    method Mark(key: Key, to: Status)
      requires key in journals && Canonical(journals)
      modifies this`journals
      ensures State() == Moved(old(State()), key, to, None) && Canonical(journals)
              && journals.Keys == old(journals).Keys
    {
      journals := journals[key := journals[key].(status := to)];
    }

    /** What a cancelled task does with the resources of its request: the link first, then the
        directories, deepest first.  It may die and be repeated; once it completes, the tree is
        the one the request found. */
    method RollbackAll(target: Path, directories: seq<Path>, ghost original: Tree) returns (r: Outcome)
      requires Valid() && target != [] && Key(Hardlink, target) in journals
      requires Lists(directories, journals.Keys, target, |target| - 1) && Increasing(directories)
      requires Restoring(State(), original, target)
      modifies this`tree, this`journals
      ensures Valid() && Restoring(State(), original, target)
      ensures journals.Keys == old(journals).Keys && !r.Raised?
      ensures r.Proceed? ==> SameTree(tree, original)
      ensures !mayDie ==> r.Proceed?
    {
      hide WellFormed, Canonical, Restoring, Removable, Gone, Lists, Increasing, SameTree, DeeperDone;
      var link := Key(Hardlink, target);
      RestoringSays(State(), original, target, link);
      LinkIsDeepest(State(), original, target);
      r := RollbackJournal(link, target, original);
      if !r.Proceed? {
        return;
      }
      var i := |directories|;
      while i > 0
        invariant 0 <= i <= |directories| && r == Proceed
        invariant Valid() && Restoring(State(), original, target) && journals.Keys == old(journals).Keys
        invariant journals[link].status.RolledBack?
        invariant forall j :: i <= j < |directories| ==> RolledBackAt(journals, directories[j])
      {
        i := i - 1;
        var key := Key(Directory, directories[i]);
        ListedKey(directories, journals, target, i);
        RestoringSays(State(), original, target, key);
        DeeperAreDone(State(), original, target, directories, i);
        r := RollbackJournal(key, target, original);
        if !r.Proceed? {
          return;
        }
      }
      EverythingDone(State(), original, target, directories);
    }

    /** Restores a quarantined journal exactly when it was APPLIED once and what it recorded is
        there now; where the caller allows it, an APPLIED journal is checked in the same way and
        left as it is.  Nothing on the disk is touched. */
    method ReconcileJournal(key: Key, replayAllowed: bool) returns (r: Outcome, replayed: bool)
      requires Valid() && key in journals
      modifies this`journals
      ensures Valid() && journals.Keys == old(journals).Keys
      ensures forall k :: k in journals && k != key ==> journals[k] == old(journals)[k]
      ensures r.Proceed? <==>
        old(Proved(State(), key))
        && (old(journals)[key].status.ReconcileRequired? || (old(journals)[key].status.Applied? && replayAllowed))
      ensures replayed <==> r.Proceed? && old(journals)[key].status.Applied?
      ensures r.Proceed? ==> journals[key].status.Applied?
      ensures r.Proceed? && !replayed ==>
        journals[key] == old(journals)[key].(status := Applied, after := Some(tree[key.path]))
      ensures !r.Proceed? || replayed ==> journals == old(journals)
      ensures forall original, target :: target != [] && old(Accounted(State(), original, target)) ==>
        Accounted(State(), original, target)
      ensures forall target :: target != [] && old(Fitting(State(), target)) ==> Fitting(State(), target)
    {
      hide WellFormed, Accounted, Fitting;
      if journals[key].status.Applied? {
        if !replayAllowed {
          return Raised(InvalidStateTransition), false;
        }
        return if Proved(State(), key) then Proceed else Raised(SourceChanged), Proved(State(), key);
      }
      if !journals[key].status.ReconcileRequired? {
        return Raised(InvalidStateTransition), false;
      }
      if !Proved(State(), key) {
        return Raised(SourceChanged), false;
      }
      ghost var d := State();
      journals := journals[key := journals[key].(status := Applied, after := Some(tree[key.path]))];
      forall original, target | target != [] && Accounted(d, original, target)
        ensures Accounted(State(), original, target)
      {
        WhatAccountedSays(d, original, target, key);
        JournalStepAccounted(d, State(), original, target, key, journals[key]);
      }
      forall target | target != [] && Fitting(d, target) ensures Fitting(State(), target) {
        JournalStepFits(d, State(), target, key, journals[key]);
      }
      return Proceed, false;
    }

    /** Any number of executions of a request, each of which may die anywhere, and then any
        number of attempts to release what it made. */
    method RetryAndRelease(request: Request, executions: nat, releases: nat, ghost original: Tree)
      returns (done: bool, released: bool)
      requires Valid() && request.relative != [] && Accounted(State(), original, request.Target())
      modifies this`tree, this`journals
      ensures Valid()
      ensures !done ==> Accounted(State(), original, request.Target())
      ensures !done && old(Retryable(State(), original, request)) ==> Retryable(State(), original, request)
      ensures done ==> old(OnlyTemporaryAstray(State(), original, request.Target()))
      ensures !mayDie && executions > 0 && old(Retryable(State(), original, request)) ==>
        (done <==> old(OnlyTemporaryAstray(State(), original, request.Target())))
      ensures !mayDie && done && releases > 0 ==> released
      ensures released ==> SameTree(tree, original)
    {
      hide WellFormed, Canonical, Accounted, KeepsEntries, AdoptsNothing, Lists, Increasing, Distinct, NoStray;
      hide Restoring, SameTree, Retryable, OnlyTemporaryAstray;
      var result: Result := Died;
      done, released := false, false;
      var n := 0;
      while n < executions && !done
        invariant Valid() && Accounted(State(), original, request.Target()) && (done <==> result.Done?)
        invariant old(Retryable(State(), original, request)) ==> Retryable(State(), original, request)
        invariant old(!OnlyTemporaryAstray(State(), original, request.Target())) ==>
          !done && !OnlyTemporaryAstray(State(), original, request.Target())
        invariant n == 0 ==> State() == old(State())
        invariant !mayDie && old(Retryable(State(), original, request)) && n > 0
                  && old(OnlyTemporaryAstray(State(), original, request.Target())) ==>
          done
        invariant done ==> IsApplied(journals, Key(Hardlink, request.Target())) && NoStray(State(), original)
        invariant done ==>
          && Lists(result.directories, journals.Keys, request.Target(), |request.Target()| - 1)
          && Increasing(result.directories)
      {
        result := ExecuteHardlink(request, original);
        NoStrayAtAll(State(), original, request.Target());
        done := result.Done?;
        n := n + 1;
      }
      if !done {
        return;
      }
      CompletedIsRestoring(State(), original, request.Target());
      n := 0;
      while n < releases && !released
        invariant Valid() && Restoring(State(), original, request.Target())
                  && Key(Hardlink, request.Target()) in journals
        invariant Lists(result.directories, journals.Keys, request.Target(), |request.Target()| - 1)
        invariant released ==> SameTree(tree, original)
        invariant !mayDie && n > 0 ==> released
      {
        var outcome := RollbackAll(request.Target(), result.directories, original);
        released := outcome.Proceed?;
        n := n + 1;
      }
    }
  }

  /** An execution that dies between its temporary link and the renaming leaves an entry that no
      APPLIED journal vouches for, and the replay takes just that entry for its own: left alone it
      gets done, and the temporary link has become the target. */
  method ReplayTakesUpTemporary(found: Tree, request: Request) returns (left: Tree, r: Result, end: Tree)
    requires WellFormed(found) && request.relative != [] && request.SourceMatches(found)
    requires IsDir(found, Parent(request.Target())) && request.Target() !in found
    requires TemporaryFor(request.Target()) !in found
    ensures left.Keys == found.Keys + {TemporaryFor(request.Target())}
    ensures left[TemporaryFor(request.Target())] == request.expected
    ensures r.Done?
    ensures TemporaryFor(request.Target()) !in end && request.Target() in end
            && end[request.Target()] == left[TemporaryFor(request.Target())]
  {
    hide Accounted, Retryable, OnlyTemporaryAstray, NoStray, Fitting;
    var service := LeaveTemporary(found, request);
    left := service.tree;
    r := service.ExecuteHardlink(request, found);
    end := service.tree;
    TemporaryIsGone(service.State(), found, request.Target());
  }

  /** The part of an execution up to its temporary link. */
  method LeaveTemporary(found: Tree, request: Request) returns (service: Service)
    requires WellFormed(found) && request.relative != [] && request.SourceMatches(found)
    requires IsDir(found, Parent(request.Target())) && request.Target() !in found
    requires TemporaryFor(request.Target()) !in found
    ensures fresh(service) && service.Valid() && !service.mayDie
    ensures service.tree.Keys == found.Keys + {TemporaryFor(request.Target())}
    ensures service.tree[TemporaryFor(request.Target())] == request.expected
    ensures Accounted(service.State(), found, request.Target()) && Retryable(service.State(), found, request)
    ensures OnlyTemporaryAstray(service.State(), found, request.Target())
  {
    hide Accounted, Kept, Fitting, Canonical, SameRequest, OnlyTemporaryAstray, WayIsOpen, Settled, NoStray;
    hide Recorded, KeepsEntries, AdoptsNothing, WellFormed, Stray, SameEntry;
    var target, link := request.Target(), Key(Hardlink, request.Target());
    service := new Service(found, false);
    ghost var a := service.State();
    KeptAtFirst(a, found, target);
    NothingAstrayAtFirst(found);
    NoStraySettles(a, found, target, |target| - 1);
    var intent := HardlinkIntent(request.root, request.relative, request.source, request.expected);
    RecordedSettles(a, found, target, link, intent, found[Parent(target)], |target| - 1);
    OnlyTheLink(found, request);
    ParentOpensWay(found, target);
    service.RecordIntent(link, intent, target, found, a);
    service.LinkTemporary(request, 0, found, a);
    KeptMeans(a, service.State(), found, target);
    TemporaryIsThere(found, service.tree, request);
    TemporaryIsStray(service.State(), found, target);
    OnlyTemporary(service.State(), found, target);
  }

  lemma NothingAstrayAtFirst(found: Tree)
    ensures NoStray(Disk(found, map[]), found)
  {
  }

  lemma OnlyTheLink(found: Tree, request: Request)
    requires request.relative != [] && IsDir(found, Parent(request.Target()))
    ensures var intent := HardlinkIntent(request.root, request.relative, request.source, request.expected);
            var d := Recorded(Disk(found, map[]), Key(Hardlink, request.Target()), intent,
              found[Parent(request.Target())]);
            && d.tree == found && d.journals.Keys == {Key(Hardlink, request.Target())}
            && d.journals[Key(Hardlink, request.Target())].intent == intent && SameRequest(d.journals, request)
  {
  }

  lemma ParentOpensWay(found: Tree, target: Path)
    requires WellFormed(found) && target != [] && IsDir(found, Parent(target)) && target !in found
    ensures WayIsOpen(found, target)
  {
    forall n | 0 <= n < |target| ensures IsDir(found, target[..n]) {
      assert target[..n] <= Parent(target);
      PrefixIsDir(found, Parent(target), target[..n]);
    }
  }

  lemma OnlyTemporary(d: Disk, original: Tree, target: Path)
    requires target != [] && forall q :: Stray(d, original, q) ==> q == TemporaryFor(target)
    ensures OnlyTemporaryAstray(d, original, target)
  {
  }

  lemma TemporaryIsGone(d: Disk, original: Tree, target: Path)
    requires target != [] && Accounted(d, original, target) && NoStray(d, original)
    ensures TemporaryFor(target) !in d.tree
  {
    hide Accounted;
    if TemporaryFor(target) in d.tree {
      TemporaryIsStray(d, original, target);
    }
  }

  /** Before the first request everything is accounted for. */
  lemma InitiallyAccounted(found: Tree, target: Path)
    requires WellFormed(found) && target != [] && TemporaryFor(target) !in found
    ensures Accounted(Disk(found, map[]), found, target) && Fitting(Disk(found, map[]), target)
  {
  }

  // ----- rollback -------------------------------------------------------------------------

  /** The entry is the one its journal recorded, and nothing depends on it. */
  ghost predicate Removable(tree: Tree, key: Key, recorded: Option<Entry>) {
    Matches(tree, key, recorded) && forall q :: q in tree && q != [] ==> Parent(q) != key.path
  }

  /** A rollback that is due finds something else in the entry's place, or something in it. */
  ghost predicate Blocks(d: Disk, key: Key)
    requires key.path != []
  {
    && key in d.journals && (d.journals[key].status.Applied? || d.journals[key].status.RollbackPending?)
    && IsDir(d.tree, Parent(key.path)) && key.path in d.tree && !Removable(d.tree, key, d.journals[key].after)
  }

  /** The rollback is marked before anything is removed, and how it ends depends on what is there. */
  ghost predicate RolledBackAs(r: Outcome, d: Disk, next: Disk, key: Key)
    requires key in d.journals && key in next.journals && key.path != []
  {
    var j, end := d.journals[key], next.journals[key];
    if j.status.RolledBack? then r.Proceed? && next == d
    else if !j.status.Applied? && !j.status.RollbackPending? then r == Raised(InvalidStateTransition) && next == d
    else if r.Crashed? then end == j.(status := RollbackPending)
    else if !IsDir(d.tree, Parent(key.path)) then
      r == Raised(PathMappingInvalid) && end == j.(status := RollbackPending)
    else if Blocks(d, key) then r == Raised(BlockedRollback) && end == j.(status := RollbackBlocked)
    else r.Proceed? && end == j.(status := RolledBack)
  }

  /** The path is gone and everything else is as it was. */
  ghost predicate Gone(a: Tree, b: Tree, p: Path) {
    b.Keys == a.Keys - {p} && forall q :: q in b ==> SameEntry(b[q], a[q])
  }

  predicate UnderRollback(status: Status) {
    status.Applied? || status.RollbackPending? || status.RolledBack?
  }

  function KeyFor(p: Path, target: Path): Key {
    Key(if p == target then Hardlink else Directory, p)
  }

  /** What holds from the end of an execution to the end of its rollback: each extra entry has a
      journal, each journal that is not rolled back yet has its directory and, if its entry is
      there, is proved by it, and each that is has left nothing. */
  ghost predicate Restoring(d: Disk, original: Tree, target: Path) {
    && WellFormed(original) && Keeps(d.tree, original)
    && (forall p :: Extra(d, original, p) ==> KeyFor(p, target) in d.journals)
    && (forall key :: key in d.journals ==>
          && KeyOnChain(key, target) && key.path !in original && UnderRollback(d.journals[key].status)
          && d.journals[key].after.Some?
          && (if d.journals[key].status.RolledBack? then key.path !in d.tree
              else key.path != [] && IsDir(d.tree, Parent(key.path)) && (key.path in d.tree ==> Proved(d, key))))
  }

  /** All journals of deeper entries are rolled back. */
  ghost predicate DeeperDone(journals: map<Key, Journal>, key: Key) {
    forall k :: k in journals && |k.path| > |key.path| ==> journals[k].status.RolledBack?
  }

  predicate RolledBackAt(journals: map<Key, Journal>, p: Path) {
    Key(Directory, p) in journals && journals[Key(Directory, p)].status.RolledBack?
  }

  lemma RestoringSays(d: Disk, original: Tree, target: Path, key: Key)
    requires Restoring(d, original, target) && key in d.journals
    ensures UnderRollback(d.journals[key].status) && d.journals[key].after.Some? && key.path != []
    ensures DeeperDone(d.journals, key) && !d.journals[key].status.RolledBack? ==>
      IsDir(d.tree, Parent(key.path)) && (key.path in d.tree ==> Removable(d.tree, key, d.journals[key].after))
  {
    if DeeperDone(d.journals, key) && !d.journals[key].status.RolledBack? {
      forall q | q in d.tree && q != [] ensures Parent(q) != key.path {
        if q in original {
          assert Parent(q) in original;
        } else {
          assert Extra(d, original, q);
          assert !d.journals[KeyFor(q, target)].status.RolledBack?;
          assert |q| <= |key.path|;
        }
      }
    }
  }

  lemma MarkedRestores(d: Disk, original: Tree, target: Path, key: Key, to: Status)
    requires Restoring(d, original, target) && key in d.journals && !d.journals[key].status.RolledBack?
    requires to.RollbackPending? || (to.RolledBack? && key.path !in d.tree)
    ensures Restoring(Moved(d, key, to, None), original, target)
  {
    hide WellFormed, Keeps;
    var next := Moved(d, key, to, None);
    forall p | Extra(next, original, p) ensures KeyFor(p, target) in next.journals {
      assert Extra(d, original, p);
    }
  }

  lemma DeeperDoneKept(journals: map<Key, Journal>, key: Key, to: Status)
    requires key in journals && DeeperDone(journals, key)
    ensures DeeperDone(journals[key := journals[key].(status := to)], key)
  {
  }

  lemma GoneRestores(a: Disk, b: Disk, original: Tree, target: Path, key: Key)
    requires Restoring(a, original, target) && DeeperDone(a.journals, key) && key in a.journals
    requires Gone(a.tree, b.tree, key.path) && b.journals == a.journals
    ensures Restoring(b, original, target)
  {
    hide WellFormed, SameEntry;
    forall p | Extra(b, original, p) ensures KeyFor(p, target) in b.journals {
      assert Extra(a, original, p);
    }
    forall p | p in original ensures p in b.tree && SameEntry(b.tree[p], original[p]) {
      SameEntryTransitive(b.tree[p], a.tree[p], original[p]);
    }
    forall k | k in b.journals && !b.journals[k].status.RolledBack?
      ensures IsDir(b.tree, Parent(k.path)) && (k.path in b.tree ==> Proved(b, k))
    {
      assert |k.path| <= |key.path|;
      SameKind(b.tree[Parent(k.path)], a.tree[Parent(k.path)]);
      if k.path in b.tree {
        SameEntryTransitive(b.tree[k.path], a.tree[k.path], a.journals[k].after.value);
        SameKind(b.tree[k.path], a.tree[k.path]);
      }
    }
  }

  lemma LinkIsDeepest(d: Disk, original: Tree, target: Path)
    requires Restoring(d, original, target)
    ensures DeeperDone(d.journals, Key(Hardlink, target))
  {
  }

  lemma ListedKey(directories: seq<Path>, journals: map<Key, Journal>, target: Path, i: nat)
    requires target != [] && Lists(directories, journals.Keys, target, |target| - 1) && i < |directories|
    ensures Key(Directory, directories[i]) in journals
  {
    assert directories[i] in directories;
  }

  lemma DeeperAreDone(d: Disk, original: Tree, target: Path, directories: seq<Path>, i: nat)
    requires Restoring(d, original, target) && target != [] && i < |directories|
    requires Lists(directories, d.journals.Keys, target, |target| - 1) && Increasing(directories)
    requires Key(Hardlink, target) in d.journals && d.journals[Key(Hardlink, target)].status.RolledBack?
    requires forall j :: i < j < |directories| ==> RolledBackAt(d.journals, directories[j])
    ensures DeeperDone(d.journals, Key(Directory, directories[i]))
  {
    forall k | k in d.journals && |k.path| > |directories[i]| ensures d.journals[k].status.RolledBack? {
      assert KeyOnChain(k, target);
      if k.kind.Directory? {
        assert k.path in directories;
        var j :| 0 <= j < |directories| && directories[j] == k.path;
        assert RolledBackAt(d.journals, directories[j]) by {
          assert j > i;
        }
      }
    }
  }

  lemma EverythingDone(d: Disk, original: Tree, target: Path, directories: seq<Path>)
    requires Restoring(d, original, target) && target != []
    requires Lists(directories, d.journals.Keys, target, |target| - 1)
    requires Key(Hardlink, target) in d.journals && d.journals[Key(Hardlink, target)].status.RolledBack?
    requires forall j :: 0 <= j < |directories| ==> RolledBackAt(d.journals, directories[j])
    ensures SameTree(d.tree, original)
  {
    forall k | k in d.journals ensures d.journals[k].status.RolledBack? {
      assert KeyOnChain(k, target);
      if k.kind.Directory? {
        assert k.path in directories;
        assert RolledBackAt(d.journals, k.path);
      }
    }
    assert forall p :: Extra(d, original, p) ==> KeyFor(p, target) in d.journals;
    assert forall p :: p in d.tree ==> !Extra(d, original, p);
  }

  /** A completed execution is ready to be rolled back. */
  lemma CompletedIsRestoring(d: Disk, original: Tree, target: Path)
    requires target != [] && WellFormed(d.tree) && Accounted(d, original, target) && NoStray(d, original)
    requires IsApplied(d.journals, Key(Hardlink, target))
    ensures Restoring(d, original, target)
  {
    hide WellFormed, Keeps, StraysAreLast, Proved, OnChain, KeyOnChain, Vouched;
    forall p | Extra(d, original, p) ensures KeyFor(p, target) in d.journals {
      assert !Stray(d, original, p);
      VouchedByKey(d, original, target, p);
    }
    forall key | key in d.journals
      ensures d.journals[key].status.Applied? && Proved(d, key) && d.journals[key].after.Some? && key.path != []
    {
      AllApplied(d, original, target, key);
    }
  }

  lemma VouchedByKey(d: Disk, original: Tree, target: Path, p: Path)
    requires target != [] && JournalsOnChain(d, original, target) && Vouched(d.journals, p)
    ensures KeyFor(p, target) in d.journals
  {
  }

  lemma AllApplied(d: Disk, original: Tree, target: Path, key: Key)
    requires target != [] && WellFormed(d.tree) && Accounted(d, original, target) && NoStray(d, original)
    requires IsApplied(d.journals, Key(Hardlink, target)) && key in d.journals
    ensures d.journals[key].status.Applied? && Proved(d, key) && d.journals[key].after.Some? && key.path != []
  {
    hide WellFormed, Keeps, StraysAreLast, ExtrasExplained;
    WhatAccountedSays(d, original, target, key);
    WhatAccountedSays(d, original, target, Key(Hardlink, target));
    if key.kind.Directory? {
      assert key.path == target[..|key.path|];
      AncestorsAreDirs(d.tree, target, |key.path|);
      assert !Stray(d, original, key.path);
      assert Key(Hardlink, key.path) !in d.journals by {
        assert forall k :: k in d.journals ==> KeyOnChain(k, target);
      }
    }
  }

  function Ended(outcome: Outcome): Result {
    if outcome.Raised? then Failed(outcome.code) else Died
  }

  lemma KeptMeans(a: Disk, d: Disk, original: Tree, target: Path)
    requires target != [] && Kept(a, d, original, target)
    ensures WellFormed(d.tree) && Canonical(d.journals) && KeepsEntries(a, d, target) && AdoptsNothing(a, d, target)
    ensures Accounted(a, original, target) ==> Accounted(d, original, target)
    ensures Accounted(a, original, target) && Fitting(a, target) ==> Fitting(d, target)
  {
    hide WellFormed, Canonical, KeepsEntries, AdoptsNothing, Accounted, Fitting;
  }

  lemma NothingMissing(tree: Tree, request: Request)
    requires request.relative != [] && WellFormed(tree) && IsDir(tree, request.root)
    requires forall p :: request.Needs(p) ==> p in tree && tree[p].Dir?
    ensures IsDir(tree, Parent(request.Target()))
  {
    var target := request.Target();
    assert target[..|target|] == target;
    if |request.relative| == 1 {
      assert Parent(target) == request.root;
    } else {
      assert request.root <= Parent(target);
      assert request.Needs(Parent(target));
    }
  }

  lemma SameListed(directories: seq<Path>, keys: set<Key>, next: set<Key>, target: Path)
    requires target != [] && keys <= next <= keys + {Key(Hardlink, target)}
    requires Lists(directories, keys, target, |target| - 1)
    ensures Lists(directories, next, target, |target| - 1)
  {
    forall p ensures Key(Directory, p) in keys <==> Key(Directory, p) in next {}
  }

  lemma NeededAt(request: Request, depth: nat)
    requires 1 <= depth < |request.relative|
    ensures var full := request.root + request.relative[..depth];
            request.Needs(full) && forall p :: request.Needs(p) && |p| == |request.root| + depth ==> p == full
  {
    var full := request.root + request.relative[..depth];
    forall p | request.Needs(p) && |p| == |request.root| + depth ensures p == full {
      assert p == request.Target()[..|p|];
    }
  }

  /** What lies below a missing directory is missing. */
  lemma MissingBelow(tree: Tree, request: Request, missing: set<Path>, depth: nat)
    requires request.relative != [] && WellFormed(tree) && 1 <= depth <= |request.relative|
    requires forall p :: p in missing ==> request.Needs(p) && |p| < |request.root| + depth && p !in tree
    ensures missing != {} ==> request.root + request.relative[..depth] !in tree
  {
    if missing != {} {
      var p :| p in missing;
      var full := request.root + request.relative[..depth];
      assert p == request.Target()[..|p|] && full[..|p|] == p;
      AbsentBelow(tree, full, |p|);
    }
  }

  /** A target that is there has its directories. */
  lemma BelowRoot(tree: Tree, request: Request)
    requires request.relative != [] && WellFormed(tree)
    ensures request.Target() in tree || IsDir(tree, Parent(request.Target())) ==>
      IsDir(tree, request.root) && forall p :: request.Needs(p) ==> IsDir(tree, p)
    ensures request.Target() in tree ==> IsDir(tree, Parent(request.Target()))
  {
    var target := request.Target();
    if target in tree || IsDir(tree, Parent(target)) {
      forall p | p < target && request.root <= p ensures IsDir(tree, p) {
        assert p == target[..|p|];
        if target in tree {
          AncestorsAreDirs(tree, target, |p|);
        } else if p != Parent(target) {
          assert p == Parent(target)[..|p|];
          AncestorsAreDirs(tree, Parent(target), |p|);
        }
      }
      assert request.root < target;
    }
  }
}
