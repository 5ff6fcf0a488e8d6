/** Ascending sequences of instants, and the part of them that a window still sees. */
module SlidingWindow {
  type Instants = seq<real>

  ghost predicate Ascending(h: Instants) {
    forall i, j :: 0 <= i < j < |h| ==> h[i] <= h[j]
  }

  lemma Later(h: Instants, clock: real, now: real)
    requires Ascending(h + [clock]) && clock <= now
    ensures Ascending(h) && Ascending(h + [now])
  {
    forall i, j | 0 <= i < j < |h| + 1 ensures (h + [now])[i] <= (h + [now])[j] && (j < |h| ==> h[i] <= h[j]) {
      assert (h + [clock])[i] <= (h + [clock])[j];
    }
  }

  lemma AscendingFront(h: Instants)
    requires Ascending(h) && h != []
    ensures Ascending(h[..|h| - 1]) && forall i :: 0 <= i < |h| ==> h[i] <= h[|h| - 1]
  {
    var front := h[..|h| - 1];
    forall i, j | 0 <= i < j < |front| ensures front[i] <= front[j] {
      assert h[i] <= h[j];
    }
    forall i | 0 <= i < |h| ensures h[i] <= h[|h| - 1] {
      assert i < |h| - 1 ==> h[i] <= h[|h| - 1];
    }
  }

  lemma SplitAscends(gone: Instants, kept: Instants)
    requires Ascending(gone + kept)
    ensures forall i :: 0 <= i < |kept| ==> kept[0] <= kept[i]
  {
    forall i | 0 <= i < |kept| ensures kept[0] <= kept[i] {
      assert (gone + kept)[|gone|] == kept[0] && (gone + kept)[|gone| + i] == kept[i];
    }
  }

  /** The instants later than `t`, in order: the reference against which a deque that forgets
      is measured. */
  function After(h: Instants, t: real): Instants {
    if h == [] then []
    else if h[|h| - 1] > t then After(h[..|h| - 1], t) + [h[|h| - 1]]
    else After(h[..|h| - 1], t)
  }

  /** The instants at or after `t`, in order. */
  function From(h: Instants, t: real): Instants {
    if h == [] then []
    else if h[|h| - 1] >= t then From(h[..|h| - 1], t) + [h[|h| - 1]]
    else From(h[..|h| - 1], t)
  }

  /** Old instants do not count: only the remembered suffix matters. */
  lemma {:induction false} AfterForgets(gone: Instants, kept: Instants, t: real)
    requires forall i :: 0 <= i < |gone| ==> gone[i] <= t
    requires forall i :: 0 <= i < |kept| ==> kept[i] > t
    ensures After(gone + kept, t) == kept
  {
    var all := gone + kept;
    if kept != [] {
      assert all[..|all| - 1] == gone + kept[..|kept| - 1];
      AfterForgets(gone, kept[..|kept| - 1], t);
    } else {
      assert all == gone;
      NoneAfter(gone, t);
    }
  }

  lemma {:induction false} NoneAfter(gone: Instants, t: real)
    requires forall i :: 0 <= i < |gone| ==> gone[i] <= t
    ensures After(gone, t) == []
  {
    if gone != [] {
      NoneAfter(gone[..|gone| - 1], t);
    }
  }

  lemma {:induction false} FromForgets(gone: Instants, kept: Instants, t: real)
    requires forall i :: 0 <= i < |gone| ==> gone[i] < t
    requires forall i :: 0 <= i < |kept| ==> kept[i] >= t
    ensures From(gone + kept, t) == kept
  {
    var all := gone + kept;
    if kept != [] {
      assert all[..|all| - 1] == gone + kept[..|kept| - 1];
      FromForgets(gone, kept[..|kept| - 1], t);
    } else {
      assert all == gone;
      NoneFrom(gone, t);
    }
  }

  lemma {:induction false} NoneFrom(gone: Instants, t: real)
    requires forall i :: 0 <= i < |gone| ==> gone[i] < t
    ensures From(gone, t) == []
  {
    if gone != [] {
      NoneFrom(gone[..|gone| - 1], t);
    }
  }

  /** `window` is the suffix of `h` that lies after `t`. */
  ghost predicate IsWindow(h: Instants, t: real, window: Instants) {
    && |window| <= |h| && window == h[|h| - |window|..]
    && forall i :: 0 <= i < |h| ==> (h[i] > t <==> |h| - |window| <= i)
  }

  /** On an ascending history the window is a suffix. */
  lemma {:induction false} AfterIsSuffix(h: Instants, t: real)
    requires Ascending(h)
    ensures IsWindow(h, t, After(h, t))
  {
    hide *;
    if h != [] {
      var front, last := h[..|h| - 1], h[|h| - 1];
      AscendingFront(h);
      AfterUnfolds(h, t);
      AfterIsSuffix(front, t);
      WindowGrows(front, last, t, After(front, t));
      assert h == front + [last];
    } else {
      EmptyWindow(t);
    }
  }

  lemma AfterUnfolds(h: Instants, t: real)
    requires h != []
    ensures var window := After(h[..|h| - 1], t);
            After(h, t) == if h[|h| - 1] > t then window + [h[|h| - 1]] else window
  {
  }

  lemma EmptyWindow(t: real)
    ensures IsWindow([], t, After([], t))
  {
  }

  lemma WindowGrows(front: Instants, last: real, t: real, window: Instants)
    requires IsWindow(front, t, window)
    requires forall i :: 0 <= i < |front| ==> front[i] <= last
    ensures IsWindow(front + [last], t, if last > t then window + [last] else window)
  {
    if last <= t && front != [] {
      assert front[|front| - 1] > t <==> |front| - |window| <= |front| - 1;
    }
  }

  /** The same for the closed window. */
  lemma {:induction false} FromIsSuffix(h: Instants, t: real)
    requires Ascending(h)
    ensures |From(h, t)| <= |h|
    ensures forall i :: 0 <= i < |h| ==> (h[i] >= t <==> |h| - |From(h, t)| <= i)
  {
    if h != [] {
      var front, last := h[..|h| - 1], h[|h| - 1];
      AscendingFront(h);
      FromIsSuffix(front, t);
      hide Ascending;
      if last < t {
        assert forall i :: 0 <= i < |front| ==> front[i] < t;
        assert front != [] ==> (front[|front| - 1] >= t <==> |front| - |From(front, t)| <= |front| - 1);
      }
    }
  }

  lemma {:induction false} AfterShrinks(h: Instants, t: real, u: real)
    requires t <= u
    ensures |After(h, u)| <= |After(h, t)|
  {
    if h != [] {
      AfterShrinks(h[..|h| - 1], t, u);
    }
  }
}
