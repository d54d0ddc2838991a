/**
 * The responsive layout figures: which of the three layouts a window width
 * selects, and how wide and how padded the content column is.
 */
module Responsive {
  import opened JsMath

  /** `BREAKPOINTS.sm`: narrower windows get the mobile layout. */
  const Small: real := 640.0
  /** `BREAKPOINTS.lg`: windows at least this wide get the desktop layout. */
  const Large: real := 1024.0

  /** The widest the content column gets. */
  const MaxContentWidth: real := 720.0
  /** The smallest horizontal padding. */
  const MinPadding: real := 20.0

  /** What `useResponsive()` returns for one window size. */
  datatype Layout = Layout(
    width: real,
    height: real,
    isMobile: bool,
    isTablet: bool,
    isDesktop: bool,
    containerWidth: real,
    containerPadding: real)

  /** `useResponsive()` for a window of `width` by `height`. */
  function UseResponsive(width: real, height: real): (l: Layout)
    ensures l.width == width && l.height == height
    ensures l.isMobile <==> width < Small
    ensures l.isTablet <==> Small <= width < Large
    ensures l.isDesktop <==> width >= Large
    ensures l.containerWidth <= MaxContentWidth
    ensures l.containerWidth == width - 2.0 * MinPadding || l.containerWidth == MaxContentWidth
    ensures l.containerPadding >= MinPadding
    ensures width < Large ==> l.containerPadding == MinPadding
  {
    Layout(
      width,
      height,
      width < Small,
      width >= Small && width < Large,
      width >= Large,
      Min(width - 40.0, 720.0),
      if width >= Large then Max(20.0, (width - 720.0) / 2.0) else 20.0)
  }

  /** Exactly one of the three layouts applies to any width. */
  lemma ExactlyOneLayout(width: real, height: real)
    ensures var l := UseResponsive(width, height);
      (if l.isMobile then 1 else 0) + (if l.isTablet then 1 else 0) + (if l.isDesktop then 1 else 0) == 1
  {
  }

  /** Wider windows never move to a smaller layout. */
  lemma LayoutMonotone(w1: real, w2: real, h: real)
    requires w1 <= w2
    ensures UseResponsive(w2, h).isMobile ==> UseResponsive(w1, h).isMobile
    ensures UseResponsive(w1, h).isDesktop ==> UseResponsive(w2, h).isDesktop
    ensures UseResponsive(w1, h).containerWidth <= UseResponsive(w2, h).containerWidth
    ensures UseResponsive(w1, h).containerPadding <= UseResponsive(w2, h).containerPadding
  {
  }

  /**
   * On a desktop the column is 720 wide and centred: the padding on both
   * sides and the column add up to the window width.
   */
  lemma DesktopCentred(width: real, height: real)
    requires width >= Large
    ensures var l := UseResponsive(width, height);
      l.containerWidth == MaxContentWidth && 2.0 * l.containerPadding + l.containerWidth == width
  {
  }

  /** Up to 760 wide the column fills the window between two 20-pixel paddings. */
  lemma NarrowFilled(width: real, height: real)
    requires width <= MaxContentWidth + 2.0 * MinPadding
    ensures var l := UseResponsive(width, height);
      l.containerPadding == MinPadding && 2.0 * l.containerPadding + l.containerWidth == width
  {
  }
}
