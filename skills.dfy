/**
 * Skill-bar animation (`setupSkillAnimations` / `animateSkills`), run once
 * at setup and on every scroll: each bar that is in the viewport and not
 * yet marked `animated` is marked, its width is saved and set to `0%`, and
 * a 100 ms timer puts the saved width back. Bounding rectangles and the
 * viewport height are integer inputs; a firing restore timer is an
 * explicit event.
 */
module Skills {

  /** A bar's inline width and whether it carries the `animated` class. */
  datatype Bar = Bar(width: string, animated: bool)

  /** The vertical extent of a bar's bounding rectangle. */
  datatype Rect = Rect(top: int, bottom: int)

  /** A scheduled timer that will set bar `bar` back to `width`. */
  datatype Restore = Restore(bar: nat, width: string)

  const Collapsed: string := "0%"

  predicate Visible(r: Rect, innerHeight: int) {
    r.top < innerHeight && r.bottom > 0
  }

  /** The bar starts its animation on this pass. */
  predicate Starts(b: Bar, r: Rect, innerHeight: int) {
    Visible(r, innerHeight) && !b.animated
  }

  /**
   * The bar after this pass: a starting bar is marked and collapsed, any
   * other bar (in particular one marked before) is left exactly as it was.
   */
  function AnimateBar(b: Bar, r: Rect, innerHeight: int): (r': Bar)
    ensures Starts(b, r, innerHeight) ==> r' == Bar(Collapsed, true)
    ensures !Starts(b, r, innerHeight) ==> r' == b
  {
    if Starts(b, r, innerHeight) then Bar(Collapsed, true) else b
  }

  /** The restore timers one pass schedules among the first `n` bars, in bar order. */
  function Scheduled(bars: seq<Bar>, rects: seq<Rect>, innerHeight: int, n: nat): (r: seq<Restore>)
    requires |rects| == |bars| && n <= |bars|
    ensures forall k :: 0 <= k < |r| ==>
      r[k].bar < n && Starts(bars[r[k].bar], rects[r[k].bar], innerHeight) && r[k].width == bars[r[k].bar].width
    ensures forall k, l :: 0 <= k < l < |r| ==> r[k].bar < r[l].bar
    decreases n
  {
    if n == 0 then []
    else
      var before := Scheduled(bars, rects, innerHeight, n - 1);
      if Starts(bars[n - 1], rects[n - 1], innerHeight) then
        var r := before + [Restore(n - 1, bars[n - 1].width)];
        assert r[|before|].bar == n - 1;
        assert forall k :: 0 <= k < |before| ==> r[k] == before[k];
        r
      else before
  }

  /** Conversely, every bar among the first `n` that starts on this pass gets a restore timer with its width. */
  lemma {:induction false} ScheduledComplete(bars: seq<Bar>, rects: seq<Rect>, innerHeight: int, n: nat, i: nat)
    requires |rects| == |bars| && n <= |bars| && i < n && Starts(bars[i], rects[i], innerHeight)
    ensures Restore(i, bars[i].width) in Scheduled(bars, rects, innerHeight, n)
    decreases n
  {
    var before := Scheduled(bars, rects, innerHeight, n - 1);
    if i < n - 1 {
      ScheduledComplete(bars, rects, innerHeight, n - 1, i);
      if Starts(bars[n - 1], rects[n - 1], innerHeight) {
        assert Scheduled(bars, rects, innerHeight, n) == before + [Restore(n - 1, bars[n - 1].width)];
      }
    } else {
      assert Scheduled(bars, rects, innerHeight, n) == before + [Restore(i, bars[i].width)];
    }
  }

  /** Every bar of the page after one pass. */
  function Animated(bars: seq<Bar>, rects: seq<Rect>, innerHeight: int): (r: seq<Bar>)
    requires |rects| == |bars|
    ensures |r| == |bars|
    ensures forall i :: 0 <= i < |r| ==> r[i] == AnimateBar(bars[i], rects[i], innerHeight)
  {
    seq(|bars|, i requires 0 <= i < |bars| => AnimateBar(bars[i], rects[i], innerHeight))
  }

  /** The restore timers firing in the order they were scheduled. */
  function ApplyRestores(bars: seq<Bar>, restores: seq<Restore>): (r: seq<Bar>)
    requires forall k :: 0 <= k < |restores| ==> restores[k].bar < |bars|
    ensures |r| == |bars|
    decreases |restores|
  {
    if restores == [] then bars
    else
      var t := restores[|restores| - 1];
      var before := ApplyRestores(bars, restores[..|restores| - 1]);
      before[t.bar := before[t.bar].(width := t.width)]
  }

  /** Restore timers change widths only: every mark stays, and a bar no timer names is unchanged. */
  lemma {:induction false} ApplyRestoresKeepsMarks(bars: seq<Bar>, restores: seq<Restore>)
    requires forall k :: 0 <= k < |restores| ==> restores[k].bar < |bars|
    ensures var r := ApplyRestores(bars, restores);
      && (forall i :: 0 <= i < |r| ==> r[i].animated == bars[i].animated)
      && (forall i :: 0 <= i < |r| && (forall k :: 0 <= k < |restores| ==> restores[k].bar != i) ==> r[i] == bars[i])
    decreases |restores|
  {
    if restores != [] {
      ApplyRestoresKeepsMarks(bars, restores[..|restores| - 1]);
    }
  }

  /** The bars once the timers of a pass over the first `n` bars have fired. */
  function RestoredUpTo(bars: seq<Bar>, rects: seq<Rect>, innerHeight: int, n: nat): (r: seq<Bar>)
    requires |rects| == |bars|
    ensures |r| == |bars|
  {
    seq(|bars|, i requires 0 <= i < |bars| =>
      if i < n && Starts(bars[i], rects[i], innerHeight) then Bar(bars[i].width, true)
      else AnimateBar(bars[i], rects[i], innerHeight))
  }

  /**
   * Once the timers of a pass over the first `n` bars have fired, each of
   * those bars that started is back at its saved width and stays marked;
   * every other bar is as the pass left it.
   */
  lemma {:induction false} RestoresPrefix(bars: seq<Bar>, rects: seq<Rect>, innerHeight: int, n: nat)
    requires |rects| == |bars| && n <= |bars|
    ensures ApplyRestores(Animated(bars, rects, innerHeight), Scheduled(bars, rects, innerHeight, n))
      == RestoredUpTo(bars, rects, innerHeight, n)
    decreases n
  {
    var a := Animated(bars, rects, innerHeight);
    if n == 0 {
      assert a == RestoredUpTo(bars, rects, innerHeight, 0);
    } else {
      RestoresPrefix(bars, rects, innerHeight, n - 1);
      var before := Scheduled(bars, rects, innerHeight, n - 1);
      var prev := RestoredUpTo(bars, rects, innerHeight, n - 1);
      if Starts(bars[n - 1], rects[n - 1], innerHeight) {
        var t := Restore(n - 1, bars[n - 1].width);
        assert Scheduled(bars, rects, innerHeight, n) == before + [t];
        ApplyRestoresSnoc(a, before, t);
        RestoreLast(bars, rects, innerHeight, n, prev);
      } else {
        assert prev == RestoredUpTo(bars, rects, innerHeight, n);
      }
    }
  }

  /** Firing one more timer after a run of them. */
  lemma ApplyRestoresSnoc(bars: seq<Bar>, restores: seq<Restore>, t: Restore)
    requires forall k :: 0 <= k < |restores| ==> restores[k].bar < |bars|
    requires t.bar < |bars|
    ensures var before := ApplyRestores(bars, restores);
      ApplyRestores(bars, restores + [t]) == before[t.bar := before[t.bar].(width := t.width)]
  {
    assert (restores + [t])[..|restores|] == restores;
  }

  /** The step of `RestoresPrefix` for a bar that started: its timer puts its width back. */
  lemma RestoreLast(bars: seq<Bar>, rects: seq<Rect>, innerHeight: int, n: nat, prev: seq<Bar>)
    requires |rects| == |bars| && 0 < n <= |bars|
    requires Starts(bars[n - 1], rects[n - 1], innerHeight)
    requires prev == RestoredUpTo(bars, rects, innerHeight, n - 1)
    ensures prev[n - 1 := prev[n - 1].(width := bars[n - 1].width)] == RestoredUpTo(bars, rects, innerHeight, n)
  {
    assert prev[n - 1] == Bar(Collapsed, true);
  }

  /**
   * The round trip of one pass: after all its restore timers have fired,
   * every bar that started has its original width and the `animated` mark,
   * and every other bar is untouched.
   */
  lemma RestoreRoundTrip(bars: seq<Bar>, rects: seq<Rect>, innerHeight: int)
    requires |rects| == |bars|
    ensures var r := ApplyRestores(Animated(bars, rects, innerHeight), Scheduled(bars, rects, innerHeight, |bars|));
      forall i :: 0 <= i < |bars| ==>
        r[i] == if Starts(bars[i], rects[i], innerHeight) then bars[i].(animated := true) else bars[i]
  {
    RestoresPrefix(bars, rects, innerHeight, |bars|);
  }

  /** A marked bar is never animated again, however often the page scrolls. */
  lemma {:induction false} MarkedBarUntouched(b: Bar, rects: seq<Rect>, innerHeights: seq<int>)
    requires b.animated && |rects| == |innerHeights|
    ensures Repeat(b, rects, innerHeights) == b
    decreases |rects|
  {
    if rects != [] {
      assert AnimateBar(b, rects[0], innerHeights[0]) == b;
      MarkedBarUntouched(b, rects[1..], innerHeights[1..]);
    }
  }

  /** One bar through a series of passes, with its rectangle and viewport height at each. */
  function Repeat(b: Bar, rects: seq<Rect>, innerHeights: seq<int>): Bar
    requires |rects| == |innerHeights|
    decreases |rects|
  {
    if rects == [] then b else Repeat(AnimateBar(b, rects[0], innerHeights[0]), rects[1..], innerHeights[1..])
  }

  /** A bar is collapsed by at most one pass: after the first start every later pass leaves it alone. */
  lemma StartsAtMostOnce(b: Bar, r: Rect, h: int, rects: seq<Rect>, innerHeights: seq<int>)
    requires Starts(b, r, h) && |rects| == |innerHeights|
    ensures Repeat(AnimateBar(b, r, h), rects, innerHeights) == Bar(Collapsed, true)
  {
    MarkedBarUntouched(AnimateBar(b, r, h), rects, innerHeights);
  }

  /** The skill bars and the restore timers not yet fired. */
  class SkillBars {
    var bars: seq<Bar>
    var pending: seq<Restore>

    ghost predicate Valid()
      reads this
    {
      forall k :: 0 <= k < |pending| ==> pending[k].bar < |bars|
    }

    constructor (bars: seq<Bar>)
      ensures this.bars == bars && pending == [] && Valid()
    {
      this.bars := bars;
      pending := [];
    }

    /** `animateSkills()` with each bar's current rectangle. */
    method AnimateSkills(rects: seq<Rect>, innerHeight: int)
      requires Valid() && |rects| == |bars|
      modifies this
      ensures Valid() && |bars| == |old(bars)|
      ensures forall i :: 0 <= i < |bars| ==> bars[i] == AnimateBar(old(bars)[i], rects[i], innerHeight)
      ensures bars == Animated(old(bars), rects, innerHeight)
      ensures pending == old(pending) + Scheduled(old(bars), rects, innerHeight, |bars|)
    {
      var i := 0;
      while i < |bars|
        invariant 0 <= i <= |bars| == |old(bars)|
        invariant forall k :: 0 <= k < i ==> bars[k] == AnimateBar(old(bars)[k], rects[k], innerHeight)
        invariant forall k :: i <= k < |bars| ==> bars[k] == old(bars)[k]
        invariant pending == old(pending) + Scheduled(old(bars), rects, innerHeight, i)
        invariant Valid()
      {
        var rect := rects[i];
        var isVisible := rect.top < innerHeight && rect.bottom > 0;
        if isVisible && !bars[i].animated {
          var width := bars[i].width;
          bars := bars[i := Bar(Collapsed, true)];
          pending := pending + [Restore(i, width)];
        }
        i := i + 1;
      }
      assert bars == Animated(old(bars), rects, innerHeight);
    }

    /** The `k`-th pending restore timer fires. */
    method OnRestoreTimer(k: nat)
      requires Valid() && k < |pending|
      modifies this
      ensures Valid()
      ensures var t := old(pending)[k];
        bars == old(bars)[t.bar := old(bars)[t.bar].(width := t.width)]
      ensures pending == old(pending)[..k] + old(pending)[k + 1..]
    {
      var t := pending[k];
      bars := bars[t.bar := bars[t.bar].(width := t.width)];
      pending := pending[..k] + pending[k + 1..];
      assert forall j :: 0 <= j < |pending| ==> pending[j] == if j < k then old(pending)[j] else old(pending)[j + 1];
    }
  }
}
