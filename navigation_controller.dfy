/**
 * NavigationController: moves the stacked widget's current index one screen
 * forwards or backwards, or to a given screen, firing the callback registered
 * for the screen being left and then the one for the screen being entered.
 * Callbacks are recorded in an event trace; the index change itself is the
 * last event of a move.
 */
module Navigation {

  /** A screen widget, by identity. */
  type Widget = nat

  /** A registered callback, by identity. */
  type Callback = nat

  datatype Event =
    | BeforeLeaving(screen: int, callback: Callback)
    | AfterEntering(screen: int, callback: Callback)
    | Shown(screen: int)

  /** The indexes a stacked widget can show: -1 exactly when it has no screens. */
  predicate InRange(current: int, count: nat) {
    (count == 0 && current == -1) || (0 <= current < count)
  }

  /** `QStackedWidget.indexOf`: the position of the widget, or -1. */
  function IndexOf(widgets: seq<Widget>, w: Widget): (r: int)
    ensures -1 <= r < |widgets|
    ensures r >= 0 ==> widgets[r] == w && forall i :: 0 <= i < r ==> widgets[i] != w
    ensures r == -1 <==> w !in widgets
    decreases |widgets|
  {
    if widgets == [] then -1
    else if widgets[0] == w then 0
    else
      var k := IndexOf(widgets[1..], w);
      if k == -1 then -1 else k + 1
  }

  /** The callback registered for the screen being left, fired if there is one. */
  function BeforeEvents(before: map<int, Callback>, index: int): seq<Event> {
    if index in before then [BeforeLeaving(index, before[index])] else []
  }

  /** The callback registered for the screen being entered, fired if there is one. */
  function AfterEvents(after: map<int, Callback>, index: int): seq<Event> {
    if index in after then [AfterEntering(index, after[index])] else []
  }

  /** The index `next_screen` leaves the widget on. */
  function NextIndex(current: int, count: nat): int {
    if current < count - 1 then current + 1 else current
  }

  /** The index `previous_screen` leaves the widget on. */
  function PreviousIndex(current: int): int {
    if current > 0 then current - 1 else current
  }

  /** What `next_screen` fires: before(current) always, then after(next) and the move when there is a next screen. */
  function NextEvents(before: map<int, Callback>, after: map<int, Callback>, current: int, count: nat): seq<Event> {
    BeforeEvents(before, current)
    + if current < count - 1 then AfterEvents(after, current + 1) + [Shown(current + 1)] else []
  }

  function PreviousEvents(before: map<int, Callback>, after: map<int, Callback>, current: int): seq<Event> {
    BeforeEvents(before, current)
    + if current > 0 then AfterEvents(after, current - 1) + [Shown(current - 1)] else []
  }

  /** What `go_to_screen` fires: nothing for a widget not in the stack or already shown. */
  function GoToEvents(before: map<int, Callback>, after: map<int, Callback>, current: int, target: int): seq<Event> {
    if target == -1 || target == current then []
    else BeforeEvents(before, current) + AfterEvents(after, target) + [Shown(target)]
  }

  function Rank(e: Event): nat {
    match e
    case BeforeLeaving(_, _) => 0
    case AfterEntering(_, _) => 1
    case Shown(_) => 2
  }

  /** Leaving comes before entering, and entering before the index change; each at most once. */
  predicate Ordered(events: seq<Event>) {
    forall i, j :: 0 <= i < j < |events| ==> Rank(events[i]) < Rank(events[j])
  }

  class NavigationController {
    /** The stacked widget's screens. */
    const widgets: seq<Widget>
    /** The stacked widget's current index. */
    var current: int
    var before: map<int, Callback>
    var after: map<int, Callback>
    /** The callbacks fired and the screens shown, oldest first. */
    var trace: seq<Event>

    predicate Valid()
      reads this
    {
      InRange(current, |widgets|)
    }

    constructor (widgets: seq<Widget>, current: int)
      requires InRange(current, |widgets|)
      ensures Valid()
      ensures this.widgets == widgets && this.current == current
      ensures before == map[] && after == map[] && trace == []
    {
      this.widgets := widgets;
      this.current := current;
      before := map[];
      after := map[];
      trace := [];
    }

    /** `register_before_navigation`: a later registration for the same screen replaces the earlier one. */
    method RegisterBeforeNavigation(screen: int, callback: Callback)
      modifies this
      ensures before == old(before)[screen := callback]
      ensures after == old(after) && current == old(current) && trace == old(trace)
    {
      before := before[screen := callback];
    }

    method RegisterAfterNavigation(screen: int, callback: Callback)
      modifies this
      ensures after == old(after)[screen := callback]
      ensures before == old(before) && current == old(current) && trace == old(trace)
    {
      after := after[screen := callback];
    }

    method FireBefore(index: int)
      modifies this
      ensures trace == old(trace) + BeforeEvents(before, index)
      ensures before == old(before) && after == old(after) && current == old(current)
    {
      if index in before {
        trace := trace + [BeforeLeaving(index, before[index])];
      }
    }

    method FireAfter(index: int)
      modifies this
      ensures trace == old(trace) + AfterEvents(after, index)
      ensures before == old(before) && after == old(after) && current == old(current)
    {
      if index in after {
        trace := trace + [AfterEntering(index, after[index])];
      }
    }

    method SetCurrentIndex(index: int)
      modifies this
      ensures current == index && trace == old(trace) + [Shown(index)]
      ensures before == old(before) && after == old(after)
    {
      current := index;
      trace := trace + [Shown(index)];
    }

    /** `next_screen` */
    method NextScreen()
      modifies this
      ensures current == NextIndex(old(current), |widgets|)
      ensures trace == old(trace) + NextEvents(before, after, old(current), |widgets|)
      ensures before == old(before) && after == old(after)
      ensures old(Valid()) ==> Valid()
    {
      var currentIndex := current;
      ghost var start := trace;
      FireBefore(currentIndex);
      if currentIndex < |widgets| - 1 {
        var nextIndex := currentIndex + 1;
        FireAfter(nextIndex);
        SetCurrentIndex(nextIndex);
      }
      assert trace == start + NextEvents(before, after, currentIndex, |widgets|);
    }

    /** `previous_screen` */
    method PreviousScreen()
      modifies this
      ensures current == PreviousIndex(old(current))
      ensures trace == old(trace) + PreviousEvents(before, after, old(current))
      ensures before == old(before) && after == old(after)
      ensures old(Valid()) ==> Valid()
    {
      var currentIndex := current;
      ghost var start := trace;
      FireBefore(currentIndex);
      if currentIndex > 0 {
        var prevIndex := currentIndex - 1;
        FireAfter(prevIndex);
        SetCurrentIndex(prevIndex);
      }
      assert trace == start + PreviousEvents(before, after, currentIndex);
    }

    /** `go_to_screen` */
    method GoToScreen(widget: Widget)
      modifies this
      ensures var target := IndexOf(widgets, widget);
        current == (if target == -1 then old(current) else target)
        && trace == old(trace) + GoToEvents(before, after, old(current), target)
      ensures before == old(before) && after == old(after)
      ensures old(Valid()) ==> Valid()
    {
      var currentIndex := current;
      var targetIndex := IndexOf(widgets, widget);
      if targetIndex == -1 || targetIndex == currentIndex {
        return;
      }
      ghost var start := trace;
      FireBefore(currentIndex);
      FireAfter(targetIndex);
      SetCurrentIndex(targetIndex);
      assert trace == start + GoToEvents(before, after, currentIndex, targetIndex);
    }
  }

  /** Moving forwards or backwards keeps the index one the stacked widget can show. */
  lemma {:induction false} MovesStayInRange(current: int, count: nat)
    requires InRange(current, count)
    ensures InRange(NextIndex(current, count), count)
    ensures InRange(PreviousIndex(current), count)
  {
  }

  /** Forwards then backwards returns to the same screen, unless already on the last one. */
  lemma {:induction false} NextThenPrevious(current: int, count: nat)
    requires 0 <= current < count - 1
    ensures PreviousIndex(NextIndex(current, count)) == current
  {
  }

  /** Backwards then forwards returns to the same screen, unless already on the first one. */
  lemma {:induction false} PreviousThenNext(current: int, count: nat)
    requires 0 < current < count
    ensures NextIndex(PreviousIndex(current), count) == current
  {
  }

  /** Every move fires leaving before entering, and changes the index last. */
  lemma {:induction false} MovesAreOrdered(before: map<int, Callback>, after: map<int, Callback>, current: int, target: int, count: nat)
    ensures Ordered(NextEvents(before, after, current, count))
    ensures Ordered(PreviousEvents(before, after, current))
    ensures Ordered(GoToEvents(before, after, current, target))
  {
    var b := BeforeEvents(before, current);
    OrderedMove(b, AfterEvents(after, current + 1), current + 1);
    OrderedMove(b, AfterEvents(after, current - 1), current - 1);
    OrderedMove(b, AfterEvents(after, target), target);
  }

  lemma {:induction false} OrderedMove(b: seq<Event>, a: seq<Event>, target: int)
    requires |b| <= 1 && forall i :: 0 <= i < |b| ==> b[i].BeforeLeaving?
    requires |a| <= 1 && forall i :: 0 <= i < |a| ==> a[i].AfterEntering?
    ensures Ordered(b) && Ordered(b + a + [Shown(target)]) && Ordered(b + (a + [Shown(target)]))
  {
    var s := b + a + [Shown(target)];
    assert b + (a + [Shown(target)]) == s;
    forall i, j | 0 <= i < j < |s| ensures Rank(s[i]) < Rank(s[j]) {
      if j < |b| + |a| {
        assert i < |b| && j == |b|;
      }
    }
  }

  /**
   * The index changes exactly when a Shown event is fired; on the last screen
   * `next_screen` only fires the callback for leaving it.
   */
  lemma {:induction false} ShownIffMoved(before: map<int, Callback>, after: map<int, Callback>, current: int, count: nat)
    requires InRange(current, count)
    ensures (exists i :: 0 <= i < |NextEvents(before, after, current, count)| && NextEvents(before, after, current, count)[i].Shown?)
      <==> NextIndex(current, count) != current
    ensures (exists i :: 0 <= i < |PreviousEvents(before, after, current)| && PreviousEvents(before, after, current)[i].Shown?)
      <==> PreviousIndex(current) != current
  {
    var n := NextEvents(before, after, current, count);
    var p := PreviousEvents(before, after, current);
    if current < count - 1 {
      assert n[|n| - 1].Shown?;
    }
    if current > 0 {
      assert p[|p| - 1].Shown?;
    }
  }

  /** `go_to_screen` on a widget not in the stack, or on the one shown, fires nothing. */
  lemma {:induction false} GoToShownDoesNothing(before: map<int, Callback>, after: map<int, Callback>, widgets: seq<Widget>, current: int, w: Widget)
    requires w !in widgets || (0 <= current < |widgets| && IndexOf(widgets, w) == current)
    ensures GoToEvents(before, after, current, IndexOf(widgets, w)) == []
  {
  }
}
