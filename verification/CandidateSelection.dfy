/** The greedy choice of the candidates that an analysis verifies: one pass over the ranking
    under a cap per site and a global cap. */
module CandidateSelection {
  import opened Wrappers

  type SiteId = string

  /** One ranked candidate. */
  datatype Ranked = Ranked(site: SiteId, torrentId: string, rejected: bool)

  /** Caps: a site may declare its own limit; otherwise the global one serves for it too. */
  datatype Caps = Caps(bySite: map<SiteId, Option<nat>>, global: nat) {
    function Limit(site: SiteId): nat {
      if site in bySite && bySite[site].Some? then bySite[site].value else global
    }
  }

  /** A selection is the increasing list of the ranks it takes. */
  type Selection = seq<nat>

  ghost predicate Within(s: Selection, n: nat) {
    forall i :: 0 <= i < |s| ==> s[i] < n
  }

  ghost predicate Increasing(s: Selection) {
    forall i, j :: 0 <= i < j < |s| ==> s[i] < s[j]
  }

  /** How many elements of `s` rank below `n` and satisfy `p` on their candidate's site. */
  ghost function CountSite(ranked: seq<Ranked>, s: Selection, site: SiteId, n: nat): nat
    requires Within(s, |ranked|)
  {
    if s == [] then 0
    else
      var last := s[|s| - 1];
      CountSite(ranked, s[..|s| - 1], site, n) + (if last < n && ranked[last].site == site then 1 else 0)
  }

  ghost function Count(s: Selection, n: nat): nat {
    if s == [] then 0 else Count(s[..|s| - 1], n) + (if s[|s| - 1] < n then 1 else 0)
  }

  /** What any selection must respect. */
  ghost predicate Feasible(ranked: seq<Ranked>, caps: Caps, s: Selection) {
    && Increasing(s)
    && Within(s, |ranked|)
    && (forall i :: 0 <= i < |s| ==> !ranked[s[i]].rejected)
    && (forall site :: CountSite(ranked, s, site, |ranked|) <= caps.Limit(site))
    && |s| <= caps.global
  }

  /** The picks of one site. */
  ghost function OfSite(ranked: seq<Ranked>, s: Selection, site: SiteId): set<nat>
    requires Within(s, |ranked|)
  {
    set i | 0 <= i < |s| && ranked[s[i]].site == site :: s[i]
  }

  /** The same said without counting along the ranking: no rejected candidate, no more picks of a
      site than it declares, and no more in all than the global cap, which also serves a site that
      declares nothing. */
  ghost predicate Respects(ranked: seq<Ranked>, caps: Caps, s: Selection) {
    && Increasing(s) && Within(s, |ranked|) && |s| <= caps.global
    && (forall i :: 0 <= i < |s| ==> !ranked[s[i]].rejected)
    && forall site :: site in caps.bySite && caps.bySite[site].Some? ==>
         |OfSite(ranked, s, site)| <= caps.bySite[site].value
  }

  lemma {:induction false} SiteIsCounted(ranked: seq<Ranked>, s: Selection, site: SiteId)
    requires Increasing(s) && Within(s, |ranked|)
    ensures |OfSite(ranked, s, site)| == CountSite(ranked, s, site, |ranked|) <= |s|
  {
    if s != [] {
      var front, last := s[..|s| - 1], s[|s| - 1];
      SiteIsCounted(ranked, front, site);
      var picks := if ranked[last].site == site then {last} else {};
      assert OfSite(ranked, s, site) == OfSite(ranked, front, site) + picks by {
        SiteOfLast(ranked, front, last, site);
        assert front + [last] == s;
      }
      assert last !in OfSite(ranked, front, site);
    }
  }

  lemma SiteOfLast(ranked: seq<Ranked>, front: Selection, last: nat, site: SiteId)
    requires Within(front, |ranked|) && last < |ranked|
    ensures Within(front + [last], |ranked|)
    ensures OfSite(ranked, front + [last], site)
         == OfSite(ranked, front, site) + (if ranked[last].site == site then {last} else {})
  {
    var s := front + [last];
    forall k ensures k in OfSite(ranked, s, site) <==>
      k in OfSite(ranked, front, site) || (k == last && ranked[last].site == site)
    {
      if k in OfSite(ranked, front, site) {
        var i :| 0 <= i < |front| && front[i] == k && ranked[front[i]].site == site;
        assert s[i] == k;
      }
      if k == last && ranked[last].site == site {
        assert s[|front|] == k;
      }
    }
  }

  lemma RespectsIffFeasible(ranked: seq<Ranked>, caps: Caps, s: Selection)
    ensures Respects(ranked, caps, s) <==> Feasible(ranked, caps, s)
  {
    if Increasing(s) && Within(s, |ranked|) {
      forall site ensures |OfSite(ranked, s, site)| == CountSite(ranked, s, site, |ranked|) <= |s| {
        SiteIsCounted(ranked, s, site);
      }
    }
    hide CountSite, OfSite, Increasing, Within;
  }

  /** `a` is at least as good as `b`: no smaller on any prefix of the ranking, and pick by pick
      no worse ranked. */
  ghost predicate Dominates(a: Selection, b: Selection) {
    && (forall n: nat :: Count(b, n) <= Count(a, n))
    && |b| <= |a|
    && (forall k :: 0 <= k < |b| ==> a[k] <= b[k])
  }

  // ----- counting -------------------------------------------------------------------------

  lemma {:induction false} CountAppend(ranked: seq<Ranked>, s: Selection, r: nat, site: SiteId, n: nat)
    requires r < |ranked| && Within(s, |ranked|)
    ensures Count(s + [r], n) == Count(s, n) + (if r < n then 1 else 0)
    ensures CountSite(ranked, s + [r], site, n)
         == CountSite(ranked, s, site, n) + (if r < n && ranked[r].site == site then 1 else 0)
  {
    assert (s + [r])[..|s|] == s;
  }

  lemma {:induction false} CountWhole(ranked: seq<Ranked>, s: Selection, site: SiteId, n: nat)
    requires Within(s, n) && Within(s, |ranked|)
    ensures Count(s, n) == |s|
    ensures n <= |ranked| ==> CountSite(ranked, s, site, n) == CountSite(ranked, s, site, |ranked|)
  {
    if s != [] {
      CountWhole(ranked, s[..|s| - 1], site, n);
    }
  }

  lemma {:induction false} CountBounds(ranked: seq<Ranked>, s: Selection, site: SiteId, n: nat)
    requires Within(s, |ranked|)
    ensures Count(s, n) <= |s|
    ensures CountSite(ranked, s, site, n) <= CountSite(ranked, s, site, |ranked|)
    ensures CountSite(ranked, s, site, n) <= Count(s, n)
  {
    if s != [] {
      CountBounds(ranked, s[..|s| - 1], site, n);
    }
  }

  /** An increasing selection has at most one element at rank `n`. */
  lemma {:induction false} CountNext(ranked: seq<Ranked>, s: Selection, site: SiteId, n: nat)
    requires Increasing(s) && Within(s, |ranked|)
    ensures Count(s, n + 1) == Count(s, n) + (if n in s then 1 else 0)
    ensures CountSite(ranked, s, site, n + 1)
         == CountSite(ranked, s, site, n) + (if n in s && ranked[n].site == site then 1 else 0)
  {
    if s != [] {
      var front := s[..|s| - 1];
      assert s == front + [s[|s| - 1]];
      CountNext(ranked, front, site, n);
    }
  }

  /** The first `k + 1` elements of an increasing selection are those up to rank `s[k]`. */
  lemma {:induction false} CountUpTo(s: Selection, k: nat)
    requires Increasing(s) && k < |s|
    ensures Count(s, s[k]) == k && Count(s, s[k] + 1) == k + 1
  {
    var front := s[..|s| - 1];
    if k < |front| {
      CountUpTo(front, k);
    } else {
      CountAll(front, s[k]);
      CountAll(front, s[k] + 1);
    }
  }

  lemma {:induction false} CountAll(s: Selection, n: nat)
    requires Within(s, n)
    ensures Count(s, n) == |s|
  {
    if s != [] {
      CountAll(s[..|s| - 1], n);
    }
  }

  /** If `a` holds no more than `b` of every site, it holds no more in all. */
  lemma {:induction false} SitewiseBoundsTotal(ranked: seq<Ranked>, a: Selection, b: Selection, n: nat)
    requires Within(a, |ranked|)
    requires Within(b, |ranked|)
    requires forall site :: CountSite(ranked, a, site, n) <= CountSite(ranked, b, site, n)
    ensures Count(a, n) <= Count(b, n)
  {
    var sites := set r | r in ranked :: r.site;
    TotalBySites(ranked, a, sites, n);
    TotalBySites(ranked, b, sites, n);
    SumMonotone(ranked, a, b, sites, n);
  }

  ghost function PickSite(sites: set<SiteId>): SiteId
    requires sites != {}
  {
    var site :| site in sites; site
  }

  ghost function SumOverSites(ranked: seq<Ranked>, s: Selection, sites: set<SiteId>, n: nat): nat
    requires Within(s, |ranked|)
  {
    if sites == {} then 0
    else
      var site := PickSite(sites);
      CountSite(ranked, s, site, n) + SumOverSites(ranked, s, sites - {site}, n)
  }

  lemma {:induction false} SumMonotone(ranked: seq<Ranked>, a: Selection, b: Selection, sites: set<SiteId>, n: nat)
    requires Within(a, |ranked|)
    requires Within(b, |ranked|)
    requires forall site :: CountSite(ranked, a, site, n) <= CountSite(ranked, b, site, n)
    ensures SumOverSites(ranked, a, sites, n) <= SumOverSites(ranked, b, sites, n)
  {
    if sites != {} {
      SumMonotone(ranked, a, b, sites - {PickSite(sites)}, n);
    }
  }

  lemma {:induction false} TotalBySites(ranked: seq<Ranked>, s: Selection, sites: set<SiteId>, n: nat)
    requires Within(s, |ranked|) && forall i :: 0 <= i < |s| ==> ranked[s[i]].site in sites
    ensures Count(s, n) == SumOverSites(ranked, s, sites, n)
  {
    if s == [] {
      EmptySum(ranked, sites, n);
    } else {
      var last := s[|s| - 1];
      TotalBySites(ranked, s[..|s| - 1], sites, n);
      SumAppend(ranked, s[..|s| - 1], last, sites, n);
      assert s == s[..|s| - 1] + [last];
    }
  }

  lemma {:induction false} EmptySum(ranked: seq<Ranked>, sites: set<SiteId>, n: nat)
    ensures SumOverSites(ranked, [], sites, n) == 0
  {
    if sites != {} {
      EmptySum(ranked, sites - {PickSite(sites)}, n);
    }
  }

  lemma {:induction false} SumAppend(ranked: seq<Ranked>, s: Selection, r: nat, sites: set<SiteId>, n: nat)
    requires r < |ranked| && Within(s, |ranked|)
    ensures SumOverSites(ranked, s + [r], sites, n)
         == SumOverSites(ranked, s, sites, n) + (if r < n && ranked[r].site in sites then 1 else 0)
  {
    if sites != {} {
      var site := PickSite(sites);
      CountAppend(ranked, s, r, site, n);
      SumAppend(ranked, s, r, sites - {site}, n);
    }
  }

  // ----- the loop -------------------------------------------------------------------------

  /** Every acceptable candidate of the first `n` ranks was taken, unless its site already had
      as many better-ranked ones as its limit allows. */
  ghost predicate Saturated(ranked: seq<Ranked>, caps: Caps, s: Selection, n: nat)
    requires n <= |ranked| && Within(s, |ranked|)
  {
    forall r: nat :: r < n && !ranked[r].rejected ==>
      r in s || caps.Limit(ranked[r].site) <= CountSite(ranked, s, ranked[r].site, r)
  }

  /** The selection loop; `bySite` counts what is taken of each site. */
  method SelectForVerification(ranked: seq<Ranked>, caps: Caps) returns (selected: Selection)
    requires caps.global >= 1
    ensures Respects(ranked, caps, selected)
    ensures forall other :: Respects(ranked, caps, other) ==> Dominates(selected, other)
  {
    hide Count, CountSite, Feasible, Saturated, Dominates, Respects;
    NothingTaken(ranked, caps);
    selected := [];
    var bySite: map<SiteId, nat> := map[];
    var n := 0;
    while n < |ranked|
      invariant n <= |ranked| && Within(selected, n) && |selected| < caps.global
      invariant Feasible(ranked, caps, selected)
      invariant forall site ::
        CountSite(ranked, selected, site, |ranked|) == (if site in bySite then bySite[site] else 0)
      invariant Saturated(ranked, caps, selected, n)
    {
      var item := ranked[n];
      var taken := if item.site in bySite then bySite[item.site] else 0;
      if !item.rejected && taken < caps.Limit(item.site) {
        TakeKeepsFeasible(ranked, caps, selected, n);
        selected := selected + [n];
        bySite := bySite[item.site := taken + 1];
        if |selected| >= caps.global {
          n := n + 1;
          break;
        }
      } else {
        SkipKeepsSaturated(ranked, caps, selected, n);
      }
      n := n + 1;
    }
    RespectsIffFeasible(ranked, caps, selected);
    forall other | Respects(ranked, caps, other) ensures Dominates(selected, other) {
      RespectsIffFeasible(ranked, caps, other);
      SaturatedDominates(ranked, caps, selected, n, other);
    }
  }

  lemma NothingTaken(ranked: seq<Ranked>, caps: Caps)
    ensures Feasible(ranked, caps, []) && Saturated(ranked, caps, [], 0)
    ensures forall site :: CountSite(ranked, [], site, |ranked|) == 0
  {
  }

  lemma SkipKeepsSaturated(ranked: seq<Ranked>, caps: Caps, s: Selection, n: nat)
    requires n < |ranked| && Within(s, n) && Saturated(ranked, caps, s, n)
    requires ranked[n].rejected || caps.Limit(ranked[n].site) <= CountSite(ranked, s, ranked[n].site, |ranked|)
    ensures Saturated(ranked, caps, s, n + 1)
  {
    CountWhole(ranked, s, ranked[n].site, n);
  }

  lemma TakeKeepsFeasible(ranked: seq<Ranked>, caps: Caps, s: Selection, n: nat)
    requires Feasible(ranked, caps, s) && |s| < caps.global
    requires n < |ranked| && Within(s, n) && !ranked[n].rejected
    requires CountSite(ranked, s, ranked[n].site, |ranked|) < caps.Limit(ranked[n].site)
    requires Saturated(ranked, caps, s, n)
    ensures Feasible(ranked, caps, s + [n]) && Saturated(ranked, caps, s + [n], n + 1)
    ensures forall site ::
      CountSite(ranked, s + [n], site, |ranked|)
      == CountSite(ranked, s, site, |ranked|) + (if ranked[n].site == site then 1 else 0)
  {
    hide Count, CountSite, Saturated;
    forall site ensures CountSite(ranked, s + [n], site, |ranked|)
      == CountSite(ranked, s, site, |ranked|) + (if ranked[n].site == site then 1 else 0)
    {
      CountAppend(ranked, s, n, site, |ranked|);
    }
    TakeKeepsSaturated(ranked, caps, s, n);
  }

  lemma TakeKeepsSaturated(ranked: seq<Ranked>, caps: Caps, s: Selection, n: nat)
    requires n < |ranked| && Within(s, n) && Saturated(ranked, caps, s, n)
    ensures Saturated(ranked, caps, s + [n], n + 1)
  {
    hide Count, CountSite;
    forall r: nat | r < n && !ranked[r].rejected
      ensures r in s + [n] || caps.Limit(ranked[r].site) <= CountSite(ranked, s + [n], ranked[r].site, r)
    {
      CountAppend(ranked, s, n, ranked[r].site, r);
    }
  }

  /** Why the loop's outcome is optimal: it stopped full, or it saturated the whole ranking. */
  lemma SaturatedDominates(ranked: seq<Ranked>, caps: Caps, s: Selection, n: nat, other: Selection)
    requires Feasible(ranked, caps, s) && Feasible(ranked, caps, other)
    requires n <= |ranked| && Within(s, n) && Saturated(ranked, caps, s, n)
    requires |s| < caps.global ==> n == |ranked|
    ensures Dominates(s, other)
  {
    forall m: nat ensures Count(other, m) <= Count(s, m) {
      if m <= n {
        PrefixDominates(ranked, caps, s, n, other, m);
      } else {
        CountAll(s, m);
        CountBounds(ranked, other, "", m);
        if n == |ranked| {
          PrefixDominates(ranked, caps, s, n, other, n);
          CountAll(other, m);
          CountAll(other, n);
          CountAll(s, n);
        }
      }
    }
    CountAll(s, |ranked|);
    CountAll(other, |ranked|);
    assert Count(other, |ranked|) <= Count(s, |ranked|);
    forall k | 0 <= k < |other| ensures s[k] <= other[k] {
      CountUpTo(other, k);
      CountUpTo(s, k);
      if other[k] < s[k] {
        CountMonotone(s, other[k] + 1, s[k]);
      }
    }
  }

  lemma PrefixDominates(ranked: seq<Ranked>, caps: Caps, s: Selection, n: nat, other: Selection, m: nat)
    requires Feasible(ranked, caps, s) && Feasible(ranked, caps, other)
    requires m <= n <= |ranked| && Saturated(ranked, caps, s, n)
    ensures Count(other, m) <= Count(s, m)
  {
    forall site ensures CountSite(ranked, other, site, m) <= CountSite(ranked, s, site, m) {
      SitePrefix(ranked, caps, s, n, other, site, m);
    }
    SitewiseBoundsTotal(ranked, other, s, m);
  }

  lemma {:induction false} CountMonotone(s: Selection, m: nat, n: nat)
    requires m <= n
    ensures Count(s, m) <= Count(s, n)
  {
    if s != [] {
      CountMonotone(s[..|s| - 1], m, n);
    }
  }

  /** Site by site, the greedy choice never falls behind. */
  lemma {:induction false} SitePrefix(ranked: seq<Ranked>, caps: Caps, s: Selection, n: nat, other: Selection,
                                      site: SiteId, m: nat)
    requires Feasible(ranked, caps, s) && Feasible(ranked, caps, other)
    requires m <= n <= |ranked| && Saturated(ranked, caps, s, n)
    ensures CountSite(ranked, other, site, m) <= CountSite(ranked, s, site, m)
  {
    if m == 0 {
      NoneBelowZero(ranked, other, site);
    } else {
      SitePrefix(ranked, caps, s, n, other, site, m - 1);
      CountNext(ranked, s, site, m - 1);
      CountNext(ranked, other, site, m - 1);
      if m - 1 in other && m - 1 !in s && ranked[m - 1].site == site {
        CountBounds(ranked, other, site, m);
      }
    }
  }

  lemma {:induction false} NoneBelowZero(ranked: seq<Ranked>, s: Selection, site: SiteId)
    requires Within(s, |ranked|)
    ensures CountSite(ranked, s, site, 0) == 0
  {
    if s != [] {
      NoneBelowZero(ranked, s[..|s| - 1], site);
    }
  }

  // ----- candidate keys -------------------------------------------------------------------

  const SEPARATOR := '\U{1f}'

  function CandidateKey(site: SiteId, torrentId: string): string {
    site + [SEPARATOR] + torrentId
  }

  function FirstSeparator(value: string): (k: nat)
    requires SEPARATOR in value
    ensures k < |value| && value[k] == SEPARATOR && SEPARATOR !in value[..k]
  {
    if value[0] == SEPARATOR then 0 else 1 + FirstSeparator(value[1..])
  }

  function SplitCandidateKey(value: string): (SiteId, string)
    requires SEPARATOR in value
  {
    var k := FirstSeparator(value);
    (value[..k], value[k + 1..])
  }

  lemma {:induction false} FirstSeparatorBound(value: string, i: nat)
    requires i < |value| && value[i] == SEPARATOR
    ensures FirstSeparator(value) <= i
  {
    if value[0] != SEPARATOR {
      FirstSeparatorBound(value[1..], i - 1);
    }
  }

  /** Splitting at the first separator recovers the pair exactly when the site id holds none. */
  lemma KeyRoundTripIff(site: SiteId, torrentId: string)
    ensures SplitCandidateKey(CandidateKey(site, torrentId)) == (site, torrentId) <==> SEPARATOR !in site
  {
    var key := CandidateKey(site, torrentId);
    var k := FirstSeparator(key);
    FirstSeparatorBound(key, |site|);
    if i: nat :| i < |site| && site[i] == SEPARATOR {
      FirstSeparatorBound(key, i);
      assert |SplitCandidateKey(key).0| < |site|;
    } else {
      assert forall i :: 0 <= i < |site| ==> key[i] == site[i];
      assert key[..|site|] == site && key[|site| + 1..] == torrentId;
    }
  }
}
