/** `CustomTabView`, a horizontally paged view. Its state is the selected tab, the horizontal
    offset that shows it, the extra "bounce" offset of a drag in progress and the direction in
    which taps on the page indicator move. Every navigation path goes through
    `transition(to:)`, which ignores targets outside the tabs. */
module CustomTab {
  import opened Outcomes
  import opened Geometry
  import SwiftInts

  /** Whether `i` names one of `count` tabs. */
  predicate InRange(i: int, count: int)
  {
    0 <= i < count
  }

  /** Swift's `%` on `Int`: the remainder takes the dividend's sign, whatever the divisor's. */
  function SwiftRem(a: int, b: int): (r: int)
    requires b != 0
    ensures 0 <= a < b ==> r == a
    ensures 0 <= a && 0 < b ==> r == a % b
  {
    if b > 0 then SwiftInts.TruncMod(a, b) else SwiftInts.TruncMod(a, -b)
  }

  // ----- Offsets and thresholds -----

  /** `offset(for:)`: how far the row of tabs is shifted to show tab `item`, or 0 before the
      item width is known. */
  function OffsetFor(item: int, itemWidth: Option<real>): (o: real)
    ensures itemWidth.None? ==> o == 0.0
  {
    match itemWidth
    case None => 0.0
    case Some(w) => -(item as real) * w
  }

  /** The first tab needs no shift, neighbouring tabs are one item width apart, and with a
      positive width a later tab is shifted further left. */
  lemma OffsetSpacing(i: int, j: int, w: real)
    ensures OffsetFor(0, Some(w)) == 0.0
    ensures OffsetFor(i + 1, Some(w)) == OffsetFor(i, Some(w)) - w
    ensures w > 0.0 && i < j ==> OffsetFor(j, Some(w)) < OffsetFor(i, Some(w))
  {
    if w > 0.0 && i < j {
      assert OffsetFor(i, Some(w)) - OffsetFor(j, Some(w)) == (j - i) as real * w;
      assert (j - i) as real * w > 0.0;
    }
  }

  /** `scrollThreshold`: a third of the item width, or 0 before it is known. */
  function ScrollThreshold(itemWidth: Option<real>): (t: real)
    ensures itemWidth.None? ==> t == 0.0
    ensures itemWidth.Some? ==> 3.0 * t == itemWidth.value
  {
    match itemWidth
    case None => 0.0
    case Some(w) => w / 3.0
  }

  /** The bounce offset while dragging with horizontal translation `translation`: on the last
      tab it may not go further left than 0.3 item widths, on the first (when it is not also
      the last) not further right; elsewhere it follows the finger. */
  function Bounce(count: int, index: int, itemWidth: real, translation: real): (b: real)
    ensures index == count - 1 ==>
              b >= -itemWidth * 0.3 && b >= translation && (b == translation || b == -itemWidth * 0.3)
    ensures index != count - 1 && index == 0 ==>
              b <= itemWidth * 0.3 && b <= translation && (b == translation || b == itemWidth * 0.3)
    ensures index != count - 1 && index != 0 ==> b == translation
  {
    if index == count - 1 then Max(-itemWidth * 0.3, translation)
    else if index == 0 then Min(itemWidth * 0.3, translation)
    else translation
  }

  /** At the ends the clamped bounce stays short of the scroll threshold in the blocked
      direction, so the page visibly resists a drag that could not change tabs. */
  lemma EdgeBounceWithinThreshold(count: int, index: int, w: real, translation: real)
    requires w > 0.0
    ensures index == count - 1 ==> Bounce(count, index, w, translation) > -ScrollThreshold(Some(w))
    ensures index != count - 1 && index == 0 ==> Bounce(count, index, w, translation) < ScrollThreshold(Some(w))
  {
  }

  /** `updateScreenParams`: the tabs share the content width equally, and the initial offset
      centres the first one. Each tab's offset then mirrors the item counted from the other
      end, so the last tab is shifted as far left as the first is right, and every tab's offset
      lies between the two. */
  lemma ScreenParamsSymmetric(contentWidth: real, count: int, i: int)
    requires count > 0
    ensures var w := contentWidth / count as real;
            && count as real * w == contentWidth
            && (contentWidth / 2.0 - w / 2.0) + OffsetFor(count - 1, Some(w)) == -(contentWidth / 2.0 - w / 2.0)
    ensures var w := contentWidth / count as real;
            contentWidth >= 0.0 && InRange(i, count) ==>
              OffsetFor(count - 1, Some(w)) <= OffsetFor(i, Some(w)) <= OffsetFor(0, Some(w))
  {
    var w := contentWidth / count as real;
    assert count as real * w == contentWidth;
    assert OffsetFor(count - 1, Some(w)) == -(count as real) * w + w;
    if contentWidth >= 0.0 && InRange(i, count) {
      assert w >= 0.0;
      assert (count - 1 - i) as real * w >= 0.0;
      assert i as real * w >= 0.0;
    }
  }

  // ----- Navigation, as a specification -----

  /** The selected tab and the direction taps on the page indicator move in. */
  datatype Nav = Nav(index: int, forward: bool)

  /** The tab selected after `transition(to: newIndex)` from `index`. */
  function TransitionTarget(count: int, index: int, newIndex: int): (r: int)
    ensures InRange(newIndex, count) ==> r == newIndex
    ensures !InRange(newIndex, count) ==> r == index
  {
    if InRange(newIndex, count) then newIndex else index
  }

  /** What `switchToNextTab` asks `transition(to:)` for, and the direction it leaves behind.
      Moving on without `moveBackwards` wraps round to the first tab. Otherwise it ping-pongs:
      one tab in the current direction, turning round at the last tab going forward and at
      the first going back. */
  function NextTabAim(count: int, nav: Nav, moveBackwards: bool): (aim: Nav)
    requires moveBackwards || count != 0
    ensures !moveBackwards ==> aim.forward == nav.forward
    ensures !moveBackwards && InRange(nav.index, count) ==> aim.index == (nav.index + 1) % count
    ensures moveBackwards ==> (aim.index == nav.index + 1 || aim.index == nav.index - 1)
    ensures moveBackwards ==> (aim.forward <==> aim.index == nav.index + 1)
    ensures moveBackwards ==>
              (aim.forward != nav.forward <==>
                 (nav.forward && nav.index == count - 1) || (!nav.forward && nav.index == 0))
  {
    if !moveBackwards then Nav(SwiftRem(nav.index + 1, count), nav.forward)
    else if nav.forward then
      if nav.index == count - 1 then Nav(nav.index - 1, false) else Nav(nav.index + 1, true)
    else
      if nav.index == 0 then Nav(nav.index + 1, true) else Nav(nav.index - 1, false)
  }

  /** The state after `switchToNextTab`. */
  function NextTab(count: int, nav: Nav, moveBackwards: bool): (next: Nav)
    requires moveBackwards || count != 0
  {
    var aim := NextTabAim(count, nav, moveBackwards);
    Nav(TransitionTarget(count, nav.index, aim.index), aim.forward)
  }

  /** What `onDragEnded` asks `transition(to:)` for, with the direction it sets: back one tab
      after a drag right past the threshold, forward one after a drag left past it, and nothing
      (the bounce just settles) otherwise or when the gesture was cancelled. */
  function DragEndAim(count: int, index: int, threshold: real, translation: Option<real>): (aim: Option<Nav>)
    ensures aim.Some? ==> translation.Some?
    ensures aim.Some? && !aim.value.forward ==>
              aim.value.index == index - 1 && index > 0 && translation.value > threshold
    ensures aim.Some? && aim.value.forward ==>
              && aim.value.index == index + 1 && index < count - 1 && translation.value < -threshold
              && !(index > 0 && translation.value > threshold)
    ensures aim.None? && translation.Some? ==>
              && !(index > 0 && translation.value > threshold)
              && !(index < count - 1 && translation.value < -threshold)
  {
    match translation
    case None => None
    case Some(t) =>
      if index > 0 && t > threshold then Some(Nav(index - 1, false))
      else if index < count - 1 && t < -threshold then Some(Nav(index + 1, true))
      else None
  }

  /** The state after `onDragEnded`. */
  function DragEnd(count: int, nav: Nav, threshold: real, translation: Option<real>): (next: Nav)
  {
    match DragEndAim(count, nav.index, threshold, translation)
    case None => nav
    case Some(aim) => Nav(TransitionTarget(count, nav.index, aim.index), aim.forward)
  }

  /** No navigation path takes a valid selection out of range, and from a valid selection a
      drag past the threshold always lands on the tab it aims at. */
  lemma NavigationKeepsIndexInRange(count: int, nav: Nav, threshold: real, translation: Option<real>, moveBackwards: bool)
    requires InRange(nav.index, count)
    ensures InRange(NextTab(count, nav, moveBackwards).index, count)
    ensures InRange(DragEnd(count, nav, threshold, translation).index, count)
    ensures DragEndAim(count, nav.index, threshold, translation).Some? ==>
              DragEnd(count, nav, threshold, translation) == DragEndAim(count, nav.index, threshold, translation).value
  {
  }

  /** The state after `k` taps on the page indicator. */
  function PingPong(count: int, nav: Nav, k: nat): (n: Nav)
    decreases k
  {
    if k == 0 then nav else PingPong(count, NextTab(count, nav, true), k - 1)
  }

  lemma {:induction false} PingPongAdd(count: int, nav: Nav, a: nat, b: nat)
    ensures PingPong(count, nav, a + b) == PingPong(count, PingPong(count, nav, a), b)
    decreases a
  {
    if a > 0 {
      PingPongAdd(count, NextTab(count, nav, true), a - 1, b);
    }
  }

  /** Moving forward from tab `i`, `k` taps reach tab `i + k` while it is not the last. */
  lemma {:induction false} ForwardRun(count: int, i: int, k: nat)
    requires 0 <= i && i + k <= count - 1
    ensures PingPong(count, Nav(i, true), k) == Nav(i + k, true)
    decreases k
  {
    if k > 0 {
      assert NextTab(count, Nav(i, true), true) == Nav(i + 1, true);
      ForwardRun(count, i + 1, k - 1);
    }
  }

  /** Moving back from tab `i`, `k` taps reach tab `i - k` while it is not before the first. */
  lemma {:induction false} BackwardRun(count: int, i: int, k: nat)
    requires i - k >= 0 && i < count
    ensures PingPong(count, Nav(i, false), k) == Nav(i - k, false)
    decreases k
  {
    if k > 0 {
      assert NextTab(count, Nav(i, false), true) == Nav(i - 1, false);
      BackwardRun(count, i - 1, k - 1);
    }
  }

  /** With two or more tabs, tapping from the second tab going forward reaches the last tab,
      turns, reaches the first tab, and after `2 * count - 2` taps is back where it started. */
  lemma PingPongCycle(count: int)
    requires count >= 2
    ensures PingPong(count, Nav(1, true), count - 2) == Nav(count - 1, true)
    ensures PingPong(count, Nav(1, true), 2 * count - 3) == Nav(0, false)
    ensures PingPong(count, Nav(1, true), 2 * count - 2) == Nav(1, true)
  {
    ForwardRun(count, 1, count - 2);
    var turnBack := NextTab(count, Nav(count - 1, true), true);
    assert turnBack == Nav(count - 2, false);
    assert PingPong(count, Nav(count - 1, true), 1) == turnBack;
    BackwardRun(count, count - 2, count - 2);
    PingPongAdd(count, Nav(1, true), count - 2, 1);
    PingPongAdd(count, Nav(1, true), count - 1, count - 2);
    var turnForward := NextTab(count, Nav(0, false), true);
    assert turnForward == Nav(1, true);
    assert PingPong(count, Nav(0, false), 1) == turnForward;
    PingPongAdd(count, Nav(1, true), 2 * count - 3, 1);
  }

  /** The state after `k` calls of `switchToNextTab(moveBackwards: false)`. */
  function Cycle(count: int, nav: Nav, k: nat): (n: Nav)
    requires count != 0
    decreases k
  {
    if k == 0 then nav else Cycle(count, NextTab(count, nav, false), k - 1)
  }

  lemma {:induction false} CycleAdd(count: int, nav: Nav, a: nat, b: nat)
    requires count != 0
    ensures Cycle(count, nav, a + b) == Cycle(count, Cycle(count, nav, a), b)
    decreases a
  {
    if a > 0 {
      CycleAdd(count, NextTab(count, nav, false), a - 1, b);
    }
  }

  /** Without `moveBackwards`, `k` calls from tab `i` select tab `i + k` while that is a tab. */
  lemma {:induction false} CycleForward(count: int, i: int, forward: bool, k: nat)
    requires 0 <= i && i + k < count
    ensures Cycle(count, Nav(i, forward), k) == Nav(i + k, forward)
    decreases k
  {
    if k > 0 {
      assert NextTab(count, Nav(i, forward), false) == Nav(i + 1, forward);
      CycleForward(count, i + 1, forward, k - 1);
    }
  }

  /** Without `moveBackwards`, the last tab is followed by the first, and `count` calls from any
      valid tab come back to it. */
  lemma CycleReturns(count: int, nav: Nav)
    requires InRange(nav.index, count)
    ensures NextTab(count, Nav(count - 1, nav.forward), false) == Nav(0, nav.forward)
    ensures Cycle(count, nav, count) == nav
  {
    var i := nav.index;
    var first, last := Nav(0, nav.forward), Nav(count - 1, nav.forward);
    assert SwiftRem(count, count) == 0;
    assert NextTab(count, last, false) == first;
    assert Cycle(count, last, 1) == first by {
      assert Cycle(count, last, 1) == Cycle(count, NextTab(count, last, false), 0);
    }
    CycleForward(count, i, nav.forward, count - 1 - i);
    assert Cycle(count, nav, count - 1 - i) == last;
    CycleAdd(count, nav, count - 1 - i, 1);
    assert Cycle(count, nav, count - i) == first;
    CycleAdd(count, nav, count - i, i);
    CycleForward(count, 0, nav.forward, i);
    assert Cycle(count, first, i) == nav;
  }

  // ----- The view's state -----

  /** The `@State` and `@Binding` properties of `CustomTabView` that navigation changes. */
  class TabView {
    const itemCount: int
    var externalIndex: int
    var index: int
    var offset: real
    var tapDirectionForward: bool
    var itemWidth: Option<real>
    var contentRect: Option<Rect>
    var initialOffset: real
    var bounceOffset: real

    /** `init`: the selected tab starts as the binding's value, unchecked. */
    constructor(itemCount: int, binding: int)
      ensures this.itemCount == itemCount && externalIndex == binding && index == binding
      ensures offset == 0.0 && tapDirectionForward && itemWidth == None && contentRect == None
      ensures initialOffset == 0.0 && bounceOffset == 0.0
    {
      this.itemCount := itemCount;
      externalIndex := binding;
      index := binding;
      offset := 0.0;
      tapDirectionForward := true;
      itemWidth := None;
      contentRect := None;
      initialOffset := 0.0;
      bounceOffset := 0.0;
    }

    predicate IndexInRange()
      reads this
    {
      InRange(index, itemCount)
    }

    /** `updateScreenParams`: divides the content width among the tabs, centres the first and
        shows the selected one. */
    method UpdateScreenParams(rect: Rect)
      requires itemCount != 0
      modifies this`itemWidth, this`contentRect, this`initialOffset, this`offset
      ensures itemWidth == Some(Width(rect) / itemCount as real)
      ensures contentRect == Some(rect)
      ensures initialOffset == Width(rect) / 2.0 - itemWidth.value / 2.0
      ensures offset == OffsetFor(index, itemWidth)
    {
      var contentWidth := Width(rect);
      var w := contentWidth / itemCount as real;
      itemWidth := Some(w);
      contentRect := Some(rect);
      initialOffset := contentWidth / 2.0 - w / 2.0;
      offset := OffsetFor(index, itemWidth);
    }

    /** `transition(to:)`: a target outside the tabs changes nothing; otherwise both indices
        move to it, the offset shows it and the bounce is cleared. */
    method Transition(newIndex: int)
      modifies this`index, this`externalIndex, this`offset, this`bounceOffset
      ensures index == TransitionTarget(itemCount, old(index), newIndex)
      ensures InRange(newIndex, itemCount) ==>
                externalIndex == newIndex && offset == OffsetFor(newIndex, itemWidth) && bounceOffset == 0.0
      ensures !InRange(newIndex, itemCount) ==> unchanged(this)
      ensures IndexInRange() <==> old(IndexInRange()) || InRange(newIndex, itemCount)
    {
      if !(newIndex >= 0 && newIndex < itemCount) {
        return;
      }
      index := newIndex;
      externalIndex := newIndex;
      offset := OffsetFor(newIndex, itemWidth);
      bounceOffset := 0.0;
    }

    /** `onDragEnded`: `translation` is the gesture's horizontal translation, `None` when the
        gesture was cancelled. */
    method OnDragEnded(translation: Option<real>)
      modifies this`index, this`externalIndex, this`offset, this`bounceOffset, this`tapDirectionForward
      ensures Nav(index, tapDirectionForward) ==
                DragEnd(itemCount, Nav(old(index), old(tapDirectionForward)), ScrollThreshold(itemWidth), translation)
      ensures DragEndAim(itemCount, old(index), ScrollThreshold(itemWidth), translation).None? ==>
                && bounceOffset == 0.0 && externalIndex == old(externalIndex) && offset == old(offset)
      ensures var aim := DragEndAim(itemCount, old(index), ScrollThreshold(itemWidth), translation);
              aim.Some? && InRange(aim.value.index, itemCount) ==>
                externalIndex == index && offset == OffsetFor(index, itemWidth) && bounceOffset == 0.0
      ensures old(IndexInRange()) ==> IndexInRange()
    {
      var threshold := ScrollThreshold(itemWidth);
      if translation.None? {
        bounceOffset := 0.0;
        return;
      }
      var t := translation.value;
      if index > 0 && t > threshold {
        tapDirectionForward := false;
        Transition(index - 1);
      } else if index < itemCount - 1 && t < -threshold {
        tapDirectionForward := true;
        Transition(index + 1);
      } else {
        bounceOffset := 0.0;
      }
    }

    /** The drag gesture's `onChanged`: nothing before the item width is known, otherwise the
        bounce follows the translation, clamped at the ends. */
    method DragChanged(translation: real)
      modifies this`bounceOffset
      ensures itemWidth.None? ==> bounceOffset == old(bounceOffset)
      ensures itemWidth.Some? ==> bounceOffset == Bounce(itemCount, index, itemWidth.value, translation)
    {
      if itemWidth.None? {
        return;
      }
      var w := itemWidth.value;
      if index == itemCount - 1 {
        bounceOffset := Max(-w * 0.3, translation);
      } else if index == 0 {
        bounceOffset := Min(w * 0.3, translation);
      } else {
        bounceOffset := translation;
      }
    }

    /** `switchToNextTab(moveBackwards:)`; the modulo traps on zero tabs. */
    method SwitchToNextTab(moveBackwards: bool)
      requires moveBackwards || itemCount != 0
      modifies this`index, this`externalIndex, this`offset, this`bounceOffset, this`tapDirectionForward
      ensures Nav(index, tapDirectionForward) ==
                NextTab(itemCount, Nav(old(index), old(tapDirectionForward)), moveBackwards)
      ensures var aim := NextTabAim(itemCount, Nav(old(index), old(tapDirectionForward)), moveBackwards);
              InRange(aim.index, itemCount) ==>
                externalIndex == index && offset == OffsetFor(index, itemWidth) && bounceOffset == 0.0
      ensures var aim := NextTabAim(itemCount, Nav(old(index), old(tapDirectionForward)), moveBackwards);
              !InRange(aim.index, itemCount) ==>
                externalIndex == old(externalIndex) && offset == old(offset) && bounceOffset == old(bounceOffset)
      ensures old(IndexInRange()) ==> IndexInRange()
    {
      if !moveBackwards {
        Transition(SwiftRem(index + 1, itemCount));
        return;
      }
      if tapDirectionForward {
        if index == itemCount - 1 {
          tapDirectionForward := false;
          Transition(index - 1);
        } else {
          Transition(index + 1);
        }
      } else {
        if index == 0 {
          tapDirectionForward := true;
          Transition(index + 1);
        } else {
          Transition(index - 1);
        }
      }
    }
  }
}
