/** The onboarding pager: a row of slides with a "Skip" button that advances
    one slide at a time and, on the last slide, persists the onboarding flag
    and opens the home screen. */
module Onboarding {
  import opened Js
  import Device

  /** The number of entries of the slide data. */
  const SLIDE_COUNT: nat := 3

  /** The value persisted under the onboarding key when the last slide is skipped. */
  const FINISHED_VALUE := "true"

  /** The route pushed when onboarding finishes. */
  const HOME_INDEX_ROUTE := "/home/index"

  const OPAQUE: real := 1.0
  const DIMMED: real := 0.5

  /** What one press of "Skip" does from slide `activeIndex` of `slideCount`. */
  datatype Skip = Advance(next: int) | Finish

  function SkipFrom(activeIndex: int, slideCount: nat): (skip: Skip)
    ensures skip == Finish <==> activeIndex + 1 >= slideCount
    ensures skip.Advance? ==> skip.next == activeIndex + 1
  {
    if activeIndex + 1 < slideCount then Advance(activeIndex + 1) else Finish
  }

  /** From a slide in range, a skip either moves to the next slide, still in
      range, or finishes exactly on the last slide. */
  lemma SkipStaysInRange(activeIndex: int, slideCount: nat)
    requires 0 <= activeIndex < slideCount
    ensures SkipFrom(activeIndex, slideCount).Advance? ==>
      0 <= SkipFrom(activeIndex, slideCount).next < slideCount
    ensures SkipFrom(activeIndex, slideCount) == Finish <==> activeIndex == slideCount - 1
  {
  }

  /** Where `presses` skips from `activeIndex` end, and how many of them
      wrote the flag. */
  datatype Progress = Progress(activeIndex: int, flagWrites: nat)

  function SkipMany(activeIndex: int, slideCount: nat, presses: nat): (p: Progress)
    ensures activeIndex <= p.activeIndex && p.flagWrites <= presses
    ensures activeIndex < slideCount ==> p.activeIndex < slideCount
    decreases presses
  {
    if presses == 0 then Progress(activeIndex, 0)
    else
      match SkipFrom(activeIndex, slideCount)
      case Advance(next) => SkipMany(next, slideCount, presses - 1)
      case Finish =>
        var rest := SkipMany(activeIndex, slideCount, presses - 1);
        Progress(rest.activeIndex, rest.flagWrites + 1)
  }

  /** From slide `i` of `n`, `presses` skips reach slide min(i + presses, n - 1),
      and every press beyond the last slide writes the flag once. */
  lemma {:induction false} SkipManyClosedForm(i: int, n: nat, presses: nat)
    requires 0 <= i < n
    ensures SkipMany(i, n, presses).activeIndex == if i + presses < n then i + presses else n - 1
    ensures SkipMany(i, n, presses).flagWrites == if i + presses < n then 0 else i + presses - (n - 1)
    decreases presses
  {
    if presses > 0 {
      SkipManyClosedForm(if i + 1 < n then i + 1 else i, n, presses - 1);
    }
  }

  /** One more skip after `presses` from slide `i` is one `SkipFrom` step. */
  lemma SkipManyStep(i: int, n: nat, presses: nat)
    requires 0 <= i < n
    ensures var p := SkipMany(i, n, presses);
      SkipMany(i, n, presses + 1)
        == match SkipFrom(p.activeIndex, n)
           case Advance(next) => Progress(next, p.flagWrites)
           case Finish => Progress(p.activeIndex, p.flagWrites + 1)
  {
    SkipManyClosedForm(i, n, presses);
    SkipManyClosedForm(i, n, presses + 1);
  }

  /** The routes pushed by `writes` finishing skips. */
  function HomePushes(writes: nat): (routes: seq<string>)
    ensures |routes| == writes
    ensures forall k :: 0 <= k < writes ==> routes[k] == HOME_INDEX_ROUTE
  {
    seq(writes, _ => HOME_INDEX_ROUTE)
  }

  /** Starting on the first slide, skips never leave the slide range, and the
      flag is first written by skip number `n`. */
  lemma SkipsFromFirstSlide(n: nat, presses: nat)
    requires n > 0
    ensures 0 <= SkipMany(0, n, presses).activeIndex < n
    ensures SkipMany(0, n, presses).flagWrites > 0 <==> presses >= n
  {
    SkipManyClosedForm(0, n, presses);
  }

  /** With the three slides of the app, two skips only advance and the third
      writes the flag. */
  lemma ThirdSkipFinishes()
    ensures SkipMany(0, SLIDE_COUNT, 2) == Progress(2, 0)
    ensures SkipMany(0, SLIDE_COUNT, 3) == Progress(2, 1)
  {
    SkipManyClosedForm(0, SLIDE_COUNT, 2);
    SkipManyClosedForm(0, SLIDE_COUNT, 3);
  }

  /** The opacity of each pagination dot. */
  function DotOpacities(activeIndex: int, slideCount: nat): (dots: seq<real>)
    ensures |dots| == slideCount
  {
    seq(slideCount, k => if k == activeIndex then OPAQUE else DIMMED)
  }

  function CountOpaque(dots: seq<real>): nat {
    if dots == [] then 0 else (if dots[0] == OPAQUE then 1 else 0) + CountOpaque(dots[1..])
  }

  /** A row of dots in which only position `a` is opaque has one opaque dot when
      `a` is a position of the row, and none otherwise. */
  lemma {:induction false} CountOpaqueAt(dots: seq<real>, a: int)
    requires forall k :: 0 <= k < |dots| ==> (dots[k] == OPAQUE <==> k == a)
    ensures CountOpaque(dots) == if 0 <= a < |dots| then 1 else 0
    decreases |dots|
  {
    if dots != [] {
      CountOpaqueAt(dots[1..], a - 1);
    }
  }

  /** Dot `k` is fully opaque exactly when it is the active slide, and an
      in-range active slide gives exactly one opaque dot. */
  lemma ExactlyOneOpaqueDot(activeIndex: int, slideCount: nat)
    ensures forall k :: 0 <= k < slideCount ==>
      (DotOpacities(activeIndex, slideCount)[k] == OPAQUE <==> k == activeIndex)
    ensures forall k :: 0 <= k < slideCount ==>
      (DotOpacities(activeIndex, slideCount)[k] == DIMMED <==> k != activeIndex)
    ensures CountOpaque(DotOpacities(activeIndex, slideCount))
         == if 0 <= activeIndex < slideCount then 1 else 0
  {
    CountOpaqueAt(DotOpacities(activeIndex, slideCount), activeIndex);
  }

  class OnboardingScreen {
    var activeIndex: int

    constructor ()
      ensures activeIndex == 0
    {
      activeIndex := 0;
    }

    /** `handleSkip()`. `stored` says whether `AsyncStorage.setItem` resolved;
        when it rejects, the awaiting handler stops before navigating. */
    method HandleSkip(host: Device.Host, stored: bool)
      modifies this, host
      ensures SkipFrom(old(activeIndex), SLIDE_COUNT).Advance? ==>
        activeIndex == old(activeIndex) + 1
        && host.storage == old(host.storage) && host.navigation == old(host.navigation)
      ensures SkipFrom(old(activeIndex), SLIDE_COUNT) == Finish ==>
        activeIndex == old(activeIndex)
        && host.storage == (if stored then old(host.storage)[Device.ONBOARDING_KEY := FINISHED_VALUE]
                            else old(host.storage))
        && host.navigation == old(host.navigation) + (if stored then [HOME_INDEX_ROUTE] else [])
    {
      var nextIndex := activeIndex + 1;
      if nextIndex < SLIDE_COUNT {
        activeIndex := nextIndex;
      } else if stored {
        host.SetItem(Device.ONBOARDING_KEY, FINISHED_VALUE);
        host.Push(HOME_INDEX_ROUTE);
      }
    }

    /** `presses` taps on "Skip", each of whose flag writes resolves: the pager
        ends where `SkipMany` says, the flag is stored once the last slide has
        been skipped, and home is pushed once per skip past the last slide. */
    method PressSkip(host: Device.Host, presses: nat)
      requires 0 <= activeIndex < SLIDE_COUNT
      modifies this, host
      ensures activeIndex == SkipMany(old(activeIndex), SLIDE_COUNT, presses).activeIndex
      ensures var writes := SkipMany(old(activeIndex), SLIDE_COUNT, presses).flagWrites;
        && host.storage == (if writes == 0 then old(host.storage)
                            else old(host.storage)[Device.ONBOARDING_KEY := FINISHED_VALUE])
        && host.navigation == old(host.navigation) + HomePushes(writes)
      ensures CountOpaque(DotOpacities(activeIndex, SLIDE_COUNT)) == 1
    {
      ghost var start := activeIndex;
      var k := 0;
      while k < presses
        invariant k <= presses
        invariant activeIndex == SkipMany(start, SLIDE_COUNT, k).activeIndex
        invariant 0 <= activeIndex < SLIDE_COUNT
        invariant var writes := SkipMany(start, SLIDE_COUNT, k).flagWrites;
          && host.storage == (if writes == 0 then old(host.storage)
                              else old(host.storage)[Device.ONBOARDING_KEY := FINISHED_VALUE])
          && host.navigation == old(host.navigation) + HomePushes(writes)
      {
        ghost var p := SkipMany(start, SLIDE_COUNT, k);
        ghost var before := host.navigation;
        SkipManyStep(start, SLIDE_COUNT, k);
        SkipStaysInRange(activeIndex, SLIDE_COUNT);
        HandleSkip(host, true);
        if SkipFrom(p.activeIndex, SLIDE_COUNT) == Finish {
          assert HomePushes(p.flagWrites + 1) == HomePushes(p.flagWrites) + [HOME_INDEX_ROUTE];
          assert before + [HOME_INDEX_ROUTE] == old(host.navigation) + HomePushes(p.flagWrites + 1);
        }
        k := k + 1;
      }
      ExactlyOneOpaqueDot(activeIndex, SLIDE_COUNT);
    }
  }
}
