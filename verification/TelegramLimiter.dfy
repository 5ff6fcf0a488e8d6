/** The per-conversation message window of the Telegram driver. */
module TelegramLimiter {
  import opened SlidingWindow

  const WINDOW := 60.0
  const MAX_MESSAGES := 10

  function Get(m: map<string, Instants>, key: string): Instants {
    if key in m then m[key] else []
  }

  /** The verdict computed from every message ever admitted under the key: refused exactly when
      ten of them lie in the closed last minute. */
  predicate Refused(admitted: Instants, now: real) {
    |From(admitted, now - WINDOW)| >= MAX_MESSAGES
  }

  /** The admitted messages of a whole run of arrivals, judged on full history. */
  function Admitted(arrivals: Instants): Instants {
    if arrivals == [] then []
    else
      var earlier, now := Admitted(arrivals[..|arrivals| - 1]), arrivals[|arrivals| - 1];
      if Refused(earlier, now) then earlier else earlier + [now]
  }

  ghost predicate Remembers(history: Instants, window: Instants, arrivals: Instants) {
    && |window| <= |history|
    && window == history[|history| - |window|..]
    && (|window| < |history| ==> arrivals != [])
    && forall i :: 0 <= i < |history| - |window| ==> history[i] < arrivals[|arrivals| - 1] - WINDOW
  }

  ghost predicate KeyValid(arrivals: Instants, window: Instants) {
    Ascending(arrivals) && Remembers(Admitted(arrivals), window, arrivals)
  }

  /** The loop that pops from the left while the oldest message has left the window. */
  method PopOld(window: Instants, cutoff: real) returns (kept: Instants, ghost popped: Instants)
    requires Ascending(window)
    ensures window == popped + kept
    ensures forall i :: 0 <= i < |popped| ==> popped[i] < cutoff
    ensures forall i :: 0 <= i < |kept| ==> kept[i] >= cutoff
  {
    hide Ascending;
    kept, popped := window, [];
    while kept != [] && kept[0] < cutoff
      invariant window == popped + kept
      invariant forall i :: 0 <= i < |popped| ==> popped[i] < cutoff
    {
      kept, popped := kept[1..], popped + [kept[0]];
    }
    SplitAscends(popped, kept);
  }

  lemma PoppedIsOld(history: Instants, popped: Instants, kept: Instants, arrivals: Instants, now: real)
    requires Remembers(history, popped + kept, arrivals) && Ascending(arrivals + [now])
    requires forall i :: 0 <= i < |popped| ==> popped[i] < now - WINDOW
    ensures history == history[..|history| - |kept|] + kept
    ensures forall i :: 0 <= i < |history| - |kept| ==> history[i] < now - WINDOW
  {
    var older := |history| - |popped + kept|;
    if older > 0 {
      assert (arrivals + [now])[|arrivals| - 1] <= (arrivals + [now])[|arrivals|];
    }
    forall i | older <= i < |history| - |kept| ensures history[i] < now - WINDOW {
      assert history[older..][i - older] == popped[i - older];
    }
  }

  lemma PopKeepsHistory(history: Instants, popped: Instants, kept: Instants, arrivals: Instants, now: real)
    requires Remembers(history, popped + kept, arrivals) && Ascending(arrivals + [now])
    requires forall i :: 0 <= i < |popped| ==> popped[i] < now - WINDOW
    requires forall i :: 0 <= i < |kept| ==> kept[i] >= now - WINDOW
    ensures From(history, now - WINDOW) == kept
    ensures Remembers(history, kept, arrivals + [now]) && Remembers(history + [now], kept + [now], arrivals + [now])
  {
    PoppedIsOld(history, popped, kept, arrivals, now);
    hide Ascending, From;
    FromForgets(history[..|history| - |kept|], kept, now - WINDOW);
  }

  class RateWindows {
    var windows: map<string, Instants>
    /** Per key, every arrival so far. */
    ghost var arrivals: map<string, Instants>

    ghost function History(key: string): Instants
      reads this
    {
      Admitted(Get(arrivals, key))
    }

    /** Each deque is a suffix of the admitted messages; what it dropped is older than the
        window of the latest arrival. */
    ghost predicate Valid()
      reads this
    {
      AllValid(arrivals, windows)
    }

    constructor ()
      ensures Valid() && arrivals == map[]
    {
      windows, arrivals := map[], map[];
    }

    method IsRateLimited(key: string, now: real) returns (limited: bool)
      requires Valid() && Ascending(Get(arrivals, key) + [now])
      modifies this
      ensures Valid() && arrivals == old(arrivals)[key := old(Get(arrivals, key)) + [now]]
      ensures limited == Refused(old(History(key)), now)
      ensures limited <==> old(|History(key)| >= 10 && History(key)[|History(key)| - 10] >= now - 60.0)
      ensures History(key) == if limited then old(History(key)) else old(History(key)) + [now]
    {
      hide Remembers, Ascending, Admitted, From, KeyValid, Refused, AllValid, Get;
      ghost var before := Get(arrivals, key);
      ValidAt(arrivals, windows, key);
      WindowAscending(before, Get(windows, key));
      RefusedIff(before, now);
      var window, popped := PopOld(Get(windows, key), now - WINDOW);
      limited := |window| >= MAX_MESSAGES;
      ArrivalKeepsValid(before, popped, window, now);
      ghost var kept := if limited then window else window + [now];
      ValidWith(arrivals, windows, key, before + [now], kept);
      windows := windows[key := if limited then window else window + [now]];
      arrivals := arrivals[key := before + [now]];
    }
  }

  ghost predicate AllValid(arrivals: map<string, Instants>, windows: map<string, Instants>) {
    forall key :: KeyValid(Get(arrivals, key), Get(windows, key))
  }

  lemma ValidAt(arrivals: map<string, Instants>, windows: map<string, Instants>, key: string)
    requires AllValid(arrivals, windows)
    ensures KeyValid(Get(arrivals, key), Get(windows, key))
  {
  }

  lemma ValidWith(arrivals: map<string, Instants>, windows: map<string, Instants>, key: string, a: Instants,
                  w: Instants)
    requires AllValid(arrivals, windows) && KeyValid(a, w)
    ensures AllValid(arrivals[key := a], windows[key := w])
    ensures Get(arrivals[key := a], key) == a
  {
    hide KeyValid;
    var arrived, kept := arrivals[key := a], windows[key := w];
    forall k ensures KeyValid(Get(arrived, k), Get(kept, k)) {
      assert k != key ==> KeyValid(Get(arrivals, k), Get(windows, k));
    }
  }

  lemma WindowAscending(arrivals: Instants, window: Instants)
    requires KeyValid(arrivals, window)
    ensures Ascending(window) && Ascending(arrivals)
  {
    var history := Admitted(arrivals);
    AdmittedAscending(arrivals);
    forall i, j | 0 <= i < j < |window| ensures window[i] <= window[j] {
      assert history[|history| - |window| + i] <= history[|history| - |window| + j];
    }
  }

  /** One arrival: what the popped deque says is what the full history says. */
  lemma ArrivalKeepsValid(arrivals: Instants, popped: Instants, kept: Instants, now: real)
    requires KeyValid(arrivals, popped + kept) && Ascending(arrivals + [now])
    requires forall i :: 0 <= i < |popped| ==> popped[i] < now - WINDOW
    requires forall i :: 0 <= i < |kept| ==> kept[i] >= now - WINDOW
    ensures |kept| >= MAX_MESSAGES <==> Refused(Admitted(arrivals), now)
    ensures Admitted(arrivals + [now])
         == if |kept| >= MAX_MESSAGES then Admitted(arrivals) else Admitted(arrivals) + [now]
    ensures KeyValid(arrivals + [now], if |kept| >= MAX_MESSAGES then kept else kept + [now])
  {
    PopKeepsHistory(Admitted(arrivals), popped, kept, arrivals, now);
    assert (arrivals + [now])[..|arrivals|] == arrivals;
  }

  lemma {:induction false} AdmittedAscending(arrivals: Instants)
    requires Ascending(arrivals)
    ensures Ascending(Admitted(arrivals))
    ensures forall i :: 0 <= i < |Admitted(arrivals)| ==>
      arrivals != [] && Admitted(arrivals)[i] <= arrivals[|arrivals| - 1]
  {
    if arrivals != [] {
      AdmittedAscending(arrivals[..|arrivals| - 1]);
    }
  }

  /** Over every run, any eleven admitted messages span strictly more than a minute. */
  lemma {:induction false} ElevenSpanMoreThanAMinute(arrivals: Instants, i: nat)
    requires Ascending(arrivals) && i + 10 < |Admitted(arrivals)|
    ensures Admitted(arrivals)[i + 10] - Admitted(arrivals)[i] > 60.0
  {
    var front, now := arrivals[..|arrivals| - 1], arrivals[|arrivals| - 1];
    var earlier := Admitted(front);
    if i + MAX_MESSAGES < |earlier| {
      ElevenSpanMoreThanAMinute(front, i);
    } else {
      AdmittedAscending(front);
      if earlier[i] >= now - WINDOW {
        AtLeast(earlier, now - WINDOW, i);
      }
    }
  }

  /** On full history: refused exactly when the tenth last admitted message lies in the closed
      last minute. */
  lemma RefusedIff(arrivals: Instants, now: real)
    requires Ascending(arrivals)
    ensures var h := Admitted(arrivals);
            Refused(h, now) <==> |h| >= 10 && h[|h| - 10] >= now - 60.0
  {
    var h := Admitted(arrivals);
    AdmittedAscending(arrivals);
    FromIsSuffix(h, now - WINDOW);
    hide Ascending, From, Admitted;
  }

  lemma {:induction false} AtLeast(h: Instants, t: real, i: nat)
    requires Ascending(h) && i <= |h| && forall j :: i <= j < |h| ==> h[j] >= t
    ensures |From(h, t)| >= |h| - i
  {
    if i < |h| {
      AtLeast(h[..|h| - 1], t, i);
    }
  }
}
