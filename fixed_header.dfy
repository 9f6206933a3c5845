/**
 * The scroll-synchronised logo swap of the fixed-header demo.
 *
 * A fixed header shows two variants of one logo, a white one and a black one,
 * each split into an outer and an inner clip element.  On every scroll event
 * the page decides which section currently governs the header (the last
 * section, in document order, whose bottom edge lies inside the header) and
 * then slides the four clip elements vertically so that the two variants
 * together always cover the full logo height.
 *
 * Layout is input data here: the sections' black tags are fixed when the page
 * loads, and each scroll event supplies the bottom edge of every section,
 * measured from the top of the viewport.
 */
module FixedHeader {

  datatype Option<T> = None | Some(value: T)

  // ---------------------------------------------------------------------------
  // Section selection
  // ---------------------------------------------------------------------------

  /** A section's bottom edge has entered the header but not yet left it upward. */
  predicate InHeader(bottom: real, headerHeight: real) {
    bottom < headerHeight && bottom > 0.0
  }

  /** The index of the last section whose bottom edge is inside the header, if any. */
  function LastInHeader(bottoms: seq<real>, headerHeight: real): (r: Option<nat>)
    ensures r.None? <==> forall j :: 0 <= j < |bottoms| ==> !InHeader(bottoms[j], headerHeight)
    ensures r.Some? ==> r.value < |bottoms| && InHeader(bottoms[r.value], headerHeight)
    ensures r.Some? ==> forall j :: r.value < j < |bottoms| ==> !InHeader(bottoms[j], headerHeight)
  {
    if |bottoms| == 0 then None
    else if InHeader(bottoms[|bottoms| - 1], headerHeight) then Some(|bottoms| - 1)
    else LastInHeader(bottoms[..|bottoms| - 1], headerHeight)
  }

  /**
   * The current section after one scan of the page: the last qualifying
   * section wins, and when none qualifies the previous choice sticks.
   */
  function NextSection(bottoms: seq<real>, headerHeight: real, current: Option<nat>): (r: Option<nat>)
    ensures (forall j :: 0 <= j < |bottoms| ==> !InHeader(bottoms[j], headerHeight)) ==> r == current
    ensures (exists j :: 0 <= j < |bottoms| && InHeader(bottoms[j], headerHeight)) ==>
              r.Some? && r.value < |bottoms| && InHeader(bottoms[r.value], headerHeight) &&
              forall j :: r.value < j < |bottoms| ==> !InHeader(bottoms[j], headerHeight)
    ensures r == current || (r.Some? && r.value < |bottoms| && InHeader(bottoms[r.value], headerHeight))
  {
    var last := LastInHeader(bottoms, headerHeight);
    if last.Some? then last else current
  }

  /**
   * Scanning one more section: a qualifying section overwrites the choice made
   * so far, any other section leaves it alone.
   */
  lemma {:induction false} NextSectionExtend(bottoms: seq<real>, headerHeight: real, current: Option<nat>, i: nat)
    requires i < |bottoms|
    ensures NextSection(bottoms[..i + 1], headerHeight, current) ==
            if InHeader(bottoms[i], headerHeight) then Some(i)
            else NextSection(bottoms[..i], headerHeight, current)
  {
    assert bottoms[..i + 1][..i] == bottoms[..i];
  }

  /** A second scan over the same layout chooses the same section. */
  lemma NextSectionIdempotent(bottoms: seq<real>, headerHeight: real, current: Option<nat>)
    ensures NextSection(bottoms, headerHeight, NextSection(bottoms, headerHeight, current)) ==
            NextSection(bottoms, headerHeight, current)
  {
  }

  // ---------------------------------------------------------------------------
  // Visibility percentage
  // ---------------------------------------------------------------------------

  function Min(a: real, b: real): real { if a <= b then a else b }

  function Max(a: real, b: real): real { if a >= b then a else b }

  /** `value` limited to the closed range from `min` to `max`. */
  function Clamp(min: real, value: real, max: real): (r: real)
    ensures min <= max ==> min <= r <= max
    ensures min <= value <= max ==> r == value
    ensures min <= max && value < min ==> r == min
    ensures min <= max && value > max ==> r == max
  {
    Min(max, Max(min, value))
  }

  /**
   * How much of the logo, in percent of the header height, already lies in
   * the area of the new section.  Never 0, so that the logo is never shown
   * in a fully collapsed state.
   */
  function Percent(bottom: real, headerHeight: real): (p: real)
    requires headerHeight > 0.0
    ensures 1.0 <= p <= 100.0
    ensures headerHeight / 100.0 <= bottom <= headerHeight ==> p * headerHeight == bottom * 100.0
    ensures bottom <= headerHeight / 100.0 ==> p == 1.0
    ensures bottom >= headerHeight ==> p == 100.0
  {
    var ratio := bottom / headerHeight * 100.0;
    PercentRatio(bottom, headerHeight);
    Clamp(1.0, ratio, 100.0)
  }

  /** The unclamped ratio is monotone in the bottom edge, with 1 and 100 at the two thresholds. */
  lemma PercentRatio(bottom: real, headerHeight: real)
    requires headerHeight > 0.0
    ensures bottom / headerHeight * 100.0 * headerHeight == bottom * 100.0
    ensures bottom <= headerHeight / 100.0 <==> bottom / headerHeight * 100.0 <= 1.0
    ensures bottom >= headerHeight <==> bottom / headerHeight * 100.0 >= 100.0
  {
    var q := bottom / headerHeight;
    assert q * headerHeight == bottom;
    assert bottom <= headerHeight / 100.0 <==> q * 100.0 <= 1.0 by {
      assert (headerHeight / 100.0) * 100.0 == headerHeight;
      assert bottom <= headerHeight / 100.0 <==> bottom * 100.0 <= headerHeight;
      assert q * 100.0 * headerHeight == bottom * 100.0;
    }
    assert bottom >= headerHeight <==> q >= 1.0 by {
      if q < 1.0 { assert q * headerHeight < 1.0 * headerHeight; }
      if bottom < headerHeight { assert q * headerHeight < 1.0 * headerHeight; }
    }
  }

  // ---------------------------------------------------------------------------
  // Logo offsets
  // ---------------------------------------------------------------------------

  /** The vertical translations, in percent, of the four clip elements. */
  datatype Offsets = Offsets(whiteOuter: real, whiteInner: real, blackOuter: real, blackInner: real)

  function Abs(x: real): real { if x < 0.0 then -x else x }

  /**
   * The offsets for a given percentage: over a black section the white logo
   * slides in by `percent` while the black one slides out, over a light
   * section the other way round.
   */
  function LogoOffsets(percent: real, isBlack: bool): (o: Offsets)
    ensures o.whiteInner == -o.whiteOuter && o.blackInner == -o.blackOuter
    ensures isBlack ==> o.whiteOuter == percent
    ensures !isBlack ==> o.blackOuter == percent
    ensures o.whiteOuter - o.blackOuter == if isBlack then 100.0 else -100.0
    ensures 0.0 <= percent <= 100.0 ==> Abs(o.whiteOuter) + Abs(o.blackOuter) == 100.0
  {
    if isBlack then Offsets(percent, -percent, -(100.0 - percent), 100.0 - percent)
    else Offsets(-(100.0 - percent), 100.0 - percent, percent, -percent)
  }

  // ---------------------------------------------------------------------------
  // One scroll event
  // ---------------------------------------------------------------------------

  /** What the effect holds between two scroll events. */
  datatype View = View(current: Option<nat>, styles: Offsets)

  /**
   * One scroll event: choose the current section, then place the logos from
   * that section's tag and bottom edge.  On a page without sections there is
   * no current section and the offsets are not touched.
   */
  function Step(headerHeight: real, black: seq<bool>, bottoms: seq<real>, v: View): (w: View)
    requires headerHeight > 0.0
    requires |bottoms| == |black|
    requires v.current.Some? ==> v.current.value < |black|
    ensures w.current.Some? ==> w.current.value < |black|
    ensures v.current.Some? ==> w.current.Some?
    ensures w.current.None? ==> w.styles == v.styles
    ensures w.current.Some? ==>
              var o := w.styles;
              o.whiteInner == -o.whiteOuter && o.blackInner == -o.blackOuter &&
              Abs(o.whiteOuter) + Abs(o.blackOuter) == 100.0 &&
              1.0 <= (if black[w.current.value] then o.whiteOuter else o.blackOuter) <= 100.0
  {
    var current := NextSection(bottoms, headerHeight, v.current);
    if current.None? then View(current, v.styles)
    else View(current, LogoOffsets(Percent(bottoms[current.value], headerHeight), black[current.value]))
  }

  /** A second scroll event over an unchanged layout changes nothing. */
  lemma {:induction false} StepIdempotent(headerHeight: real, black: seq<bool>, bottoms: seq<real>, v: View)
    requires headerHeight > 0.0
    requires |bottoms| == |black|
    requires v.current.Some? ==> v.current.value < |black|
    ensures Step(headerHeight, black, bottoms, Step(headerHeight, black, bottoms, v)) ==
            Step(headerHeight, black, bottoms, v)
  {
    NextSectionIdempotent(bottoms, headerHeight, v.current);
  }

  // ---------------------------------------------------------------------------
  // The page's state, updated in place
  // ---------------------------------------------------------------------------

  class HeaderEffect {
    const headerHeight: real
    /** The `black` tag of each section, in document order. */
    const black: seq<bool>
    /** The index of the current section; none only on a page without sections. */
    var current: Option<nat>
    var whiteOuter: real
    var whiteInner: real
    var blackOuter: real
    var blackInner: real

    ghost predicate Valid()
      reads this
    {
      headerHeight > 0.0 &&
      (current.None? <==> |black| == 0) &&
      (current.Some? ==> current.value < |black|)
    }

    function Styles(): Offsets
      reads this
    {
      Offsets(whiteOuter, whiteInner, blackOuter, blackInner)
    }

    function State(): View
      reads this
    {
      View(current, Styles())
    }

    /** Page load: the first section is current and no transform is set yet. */
    constructor (headerHeight: real, black: seq<bool>)
      requires headerHeight > 0.0
      ensures Valid()
      ensures this.headerHeight == headerHeight && this.black == black
      ensures current == if |black| == 0 then None else Some(0)
      ensures Styles() == Offsets(0.0, 0.0, 0.0, 0.0)
    {
      this.headerHeight := headerHeight;
      this.black := black;
      current := if |black| == 0 then None else Some(0);
      whiteOuter, whiteInner, blackOuter, blackInner := 0.0, 0.0, 0.0, 0.0;
    }

    /** Scan the sections in document order; each qualifying one becomes current. */
    method FindCurrentSection(bottoms: seq<real>)
      requires Valid() && |bottoms| == |black|
      modifies this`current
      ensures Valid()
      ensures current == NextSection(bottoms, headerHeight, old(current))
    {
      var i := 0;
      while i < |bottoms|
        invariant 0 <= i <= |bottoms|
        invariant current == NextSection(bottoms[..i], headerHeight, old(current))
      {
        var position := bottoms[i];
        if position < headerHeight && position > 0.0 {
          current := Some(i);
        }
        NextSectionExtend(bottoms, headerHeight, old(current), i);
        i := i + 1;
      }
      assert bottoms[..i] == bottoms;
    }

    /** Write the four transforms for `percent` and the current section's tag. */
    method OffsetLogo(percent: real, isBlack: bool)
      modifies this`whiteOuter, this`whiteInner, this`blackOuter, this`blackInner
      ensures Styles() == LogoOffsets(percent, isBlack)
    {
      if isBlack {
        whiteOuter := percent;
        whiteInner := -percent;
        blackOuter := -(100.0 - percent);
        blackInner := 100.0 - percent;
      } else {
        whiteOuter := -(100.0 - percent);
        whiteInner := 100.0 - percent;
        blackOuter := percent;
        blackInner := -percent;
      }
    }

    /**
     * Place the logos from the current section.  Without a current section
     * (a page with no sections) the tag lookup fails: `ok` is false and the
     * transforms are left as they were.
     */
    method MoveLogos(bottoms: seq<real>) returns (ok: bool)
      requires Valid() && |bottoms| == |black|
      modifies this`whiteOuter, this`whiteInner, this`blackOuter, this`blackInner
      ensures ok <==> current.Some?
      ensures ok ==> Styles() == LogoOffsets(Percent(bottoms[current.value], headerHeight), black[current.value])
      ensures !ok ==> Styles() == old(Styles())
    {
      if current.None? {
        return false;
      }
      var isBlack := black[current.value];
      var percent := Clamp(1.0, bottoms[current.value] / headerHeight * 100.0, 100.0);
      OffsetLogo(percent, isBlack);
      ok := true;
    }

    /** One scroll event. */
    method HandleScroll(bottoms: seq<real>) returns (ok: bool)
      requires Valid() && |bottoms| == |black|
      modifies this`current, this`whiteOuter, this`whiteInner, this`blackOuter, this`blackInner
      ensures Valid()
      ensures State() == Step(headerHeight, black, bottoms, old(State()))
      ensures ok <==> |black| > 0
    {
      FindCurrentSection(bottoms);
      ok := MoveLogos(bottoms);
    }
  }

  // ---------------------------------------------------------------------------
  // Worked scenarios
  // ---------------------------------------------------------------------------

  /** Header 100 high, a black section ending at 50: the white logo is half in. */
  lemma HalfwayOverBlackSection()
    ensures Percent(50.0, 100.0) == 50.0
    ensures LogoOffsets(Percent(50.0, 100.0), true) == Offsets(50.0, -50.0, -50.0, 50.0)
  {
  }

  /** A bottom edge at the very top of the viewport still counts as 1 percent. */
  lemma BottomAtTop(headerHeight: real)
    requires headerHeight > 0.0
    ensures Percent(0.0, headerHeight) == 1.0
  {
  }

  /** Two sections inside the header in the same event: the later one wins. */
  lemma LaterSectionWins()
    ensures NextSection([200.0, 30.0, 60.0, 300.0], 100.0, Some(0)) == Some(2)
  {
  }
}
