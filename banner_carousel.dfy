/** The banner slider of `desawisata/src/components/BannerCarousel.js`: the index of the
    banner shown, the previous and next buttons, the auto-advance timer, and what is
    drawn. The `setTimeout` of the effect is a one-slot timer on abstract ticks. */
module BannerCarousel {
  import opened Js
  import Debounce

  /** Ticks between two automatic slides. */
  const AUTO_ADVANCE: nat := 5000
  const FALLBACK_LINK: string := "/jelajah"

  /** A banner record, with the fields the component reads. */
  datatype Banner = Banner(gambar: string, judul: Option<string>, link: Option<string>)

  /** `prevSlide`'s new index: the first slide wraps round to the last. */
  function PrevIndex(current: int, length: int): (r: int)
    ensures 0 <= current < length ==> 0 <= r < length
  {
    if current == 0 then length - 1 else current - 1
  }

  /** `nextSlide`'s new index: the last slide wraps round to the first. */
  function NextIndex(current: int, length: int): (r: int)
    ensures 0 <= current < length ==> 0 <= r < length
  {
    if current == length - 1 then 0 else current + 1
  }

  /** On a non-empty list both buttons keep the index on a banner; they step round the
      list, one place forward or back modulo its length, and undo each other. */
  lemma SlidesStayInRange(current: int, length: int)
    requires 0 <= current < length
    ensures 0 <= NextIndex(current, length) < length
    ensures 0 <= PrevIndex(current, length) < length
    ensures NextIndex(current, length) == (current + 1) % length
    ensures PrevIndex(current, length) == (current + length - 1) % length
    ensures PrevIndex(NextIndex(current, length), length) == current
    ensures NextIndex(PrevIndex(current, length), length) == current
  {
    if current == length - 1 {
      ModSelf(length);
    } else {
      ModSmall(current + 1, length);
    }
    if current == 0 {
      ModSmall(length - 1, length);
    } else {
      ModShift(current - 1, length);
    }
  }

  lemma ModSmall(r: int, m: int)
    requires 0 <= r < m
    ensures r % m == r
  {
  }

  lemma ModShift(r: int, m: int)
    requires 0 <= r < m
    ensures (r + m) % m == r
  {
  }

  lemma ModSelf(m: int)
    requires 0 < m
    ensures m % m == 0
  {
  }

  /** `k` presses of the next button, or `k` automatic slides. */
  function NextTimes(current: int, length: int, k: nat): int
    decreases k
  {
    if k == 0 then current else NextIndex(NextTimes(current, length, k - 1), length)
  }

  /** `a` slides and then `b` more are `a + b` slides. */
  lemma {:induction false} NextTimesCompose(current: int, length: int, a: nat, b: nat)
    ensures NextTimes(current, length, a + b) == NextTimes(NextTimes(current, length, a), length, b)
    decreases b
  {
    if b > 0 {
      NextTimesCompose(current, length, a, b - 1);
    }
  }

  /** Below the last banner the slides climb one index at a time. */
  lemma {:induction false} NextTimesClimbs(current: int, length: int, k: nat)
    requires 0 <= current && current + k < length
    ensures NextTimes(current, length, k) == current + k
    decreases k
  {
    if k > 0 {
      NextTimesClimbs(current, length, k - 1);
    }
  }

  /** Hence every banner is shown in turn, starting from the first, and after as many
      slides as there are banners the slide shown is back where it started. */
  lemma FullRoundReturns(current: int, length: int)
    requires 0 <= current < length
    ensures NextTimes(current, length, length) == current
    ensures forall j :: 0 <= j < length ==> NextTimes(0, length, j) == j
  {
    var toLast := length - 1 - current;
    NextTimesClimbs(current, length, toLast);
    assert NextTimes(current, length, toLast + 1) == 0;
    NextTimesCompose(current, length, toLast + 1, current);
    NextTimesClimbs(0, length, current);
    forall j | 0 <= j < length
      ensures NextTimes(0, length, j) == j
    {
      NextTimesClimbs(0, length, j);
    }
  }

  /** What the component draws. */
  datatype View =
    | Placeholder
    | Slide(href: string, image: string, caption: Option<string>, showNav: bool, dots: seq<bool>)

  /** The render: the grey placeholder for an empty list; otherwise the current banner
      linking to its `link` or `/jelajah`, its caption when it has a title, the arrow
      buttons only for more than one banner, and one dot per banner with only the
      current one lit. */
  function Render(banners: seq<Banner>, currentIndex: int): (v: View)
    requires |banners| > 0 ==> 0 <= currentIndex < |banners|
    ensures v.Placeholder? <==> |banners| == 0
    ensures v.Slide? ==>
              && v.href == Or(banners[currentIndex].link, FALLBACK_LINK)
              && v.image == banners[currentIndex].gambar
              && (v.caption.Some? <==> Truthy(banners[currentIndex].judul))
              && (v.showNav <==> |banners| > 1)
              && |v.dots| == |banners|
              && (forall i :: 0 <= i < |v.dots| ==> (v.dots[i] <==> i == currentIndex))
  {
    if |banners| == 0 then Placeholder
    else
      var b := banners[currentIndex];
      Slide(Or(b.link, FALLBACK_LINK), b.gambar,
            if Truthy(b.judul) then b.judul else None,
            |banners| > 1,
            seq(|banners|, i => i == currentIndex))
  }

  /** The mounted component: `banners` is its prop, `currentIndex` its state, and
      `timer` the one `setTimeout(nextSlide, 5000)` the effect keeps armed. */
  class Carousel {
    const banners: seq<Banner>
    var currentIndex: int
    var timer: Debounce.Timer<()>

    /** The index points at a banner whenever there is one, and a slide is armed
        exactly when there is more than one. */
    ghost predicate Valid()
      reads this
    {
      && IndexValid()
      && (timer.pending.Some? <==> |banners| > 1)
      && (timer.pending.Some? ==> timer.pending.value.due > timer.now)
    }

    ghost predicate IndexValid()
      reads this
    {
      && (|banners| > 0 ==> 0 <= currentIndex < |banners|)
      && (|banners| == 0 ==> currentIndex == 0)
    }

    /** First render at tick `now`, then the effect. */
    constructor (banners: seq<Banner>, now: nat)
      ensures this.banners == banners && currentIndex == 0 && Valid()
      ensures timer == if |banners| > 1 then Debounce.Timer(now, Some(Debounce.Pending((), now + AUTO_ADVANCE)))
                       else Debounce.Timer(now, None)
    {
      this.banners := banners;
      currentIndex := 0;
      timer := Debounce.Timer(now, None);
      new;
      Effect();
    }

    /** The effect on `[currentIndex, banners.length]`: the cleanup clears the old
        timer, and a new one is set only when there is more than one banner. */
    method Effect()
      modifies this`timer
      ensures timer == if |banners| > 1 then Debounce.Schedule(old(timer), (), AUTO_ADVANCE)
                       else Debounce.Timer(old(timer).now, None)
    {
      if |banners| <= 1 {
        timer := Debounce.Timer(timer.now, None);
        return;
      }
      timer := Debounce.Schedule(timer, (), AUTO_ADVANCE);
    }

    /** `setCurrentIndex(newIndex)`: a new value re-renders and re-runs the effect. */
    method SetCurrentIndex(newIndex: int)
      modifies this`currentIndex, this`timer
      ensures currentIndex == newIndex
      ensures timer == if newIndex == old(currentIndex) then old(timer)
                       else if |banners| > 1 then Debounce.Schedule(old(timer), (), AUTO_ADVANCE)
                       else Debounce.Timer(old(timer).now, None)
    {
      var changed := newIndex != currentIndex;
      currentIndex := newIndex;
      if changed {
        Effect();
      }
    }

    /** The left arrow, which exists only for more than one banner. The slide moves
        back one place and the automatic slide starts its five seconds over. */
    method PrevSlide()
      requires IndexValid() && |banners| > 1
      modifies this`currentIndex, this`timer
      ensures Valid()
      ensures currentIndex == PrevIndex(old(currentIndex), |banners|)
      ensures timer == Debounce.Schedule(old(timer), (), AUTO_ADVANCE)
    {
      var isFirstSlide := currentIndex == 0;
      var newIndex := if isFirstSlide then |banners| - 1 else currentIndex - 1;
      SlidesStayInRange(currentIndex, |banners|);
      SetCurrentIndex(newIndex);
    }

    /** The right arrow, and the automatic slide. */
    method NextSlide()
      requires IndexValid() && |banners| > 1
      modifies this`currentIndex, this`timer
      ensures Valid()
      ensures currentIndex == NextIndex(old(currentIndex), |banners|)
      ensures timer == Debounce.Schedule(old(timer), (), AUTO_ADVANCE)
    {
      var isLastSlide := currentIndex == |banners| - 1;
      var newIndex := if isLastSlide then 0 else currentIndex + 1;
      SlidesStayInRange(currentIndex, |banners|);
      SetCurrentIndex(newIndex);
    }

    /** One tick of the clock: when the armed timer expires the next slide is shown
        and a new timer is armed; a single banner or none never moves. */
    method Tick()
      requires Valid()
      modifies this`currentIndex, this`timer
      ensures Valid()
      ensures var s := Debounce.Advance(old(timer));
              if s.fired.Some? then
                currentIndex == NextIndex(old(currentIndex), |banners|) &&
                timer == Debounce.Schedule(s.timer, (), AUTO_ADVANCE)
              else
                currentIndex == old(currentIndex) && timer == s.timer
      ensures |banners| <= 1 ==> currentIndex == old(currentIndex)
    {
      var s := Debounce.Advance(timer);
      timer := s.timer;
      if s.fired.Some? {
        NextSlide();
      }
    }

    /** What is drawn now. */
    function View(): (v: View)
      requires Valid()
      reads this
      ensures v == Render(banners, currentIndex)
    {
      Render(banners, currentIndex)
    }
  }
}
