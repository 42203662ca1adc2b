/**
 * The size of the book fitted to the window: as wide as 90% of the usable
 * width allows, at most 1000 pixels, and no taller than the usable height,
 * at the aspect ratio of the first page.
 */
module Layout {
  import opened Zoom

  /** A box in CSS pixels before rounding. */
  datatype Box = Box(width: real, height: real)

  /** The book size handed to the page-flip widget, in whole pixels. */
  datatype Size = Size(width: int, height: int)

  /** Height left for the book: the window less the header and 32 pixels of margin, at least 200. */
  function AvailableHeight(vh: int, headerHeight: int): (h: int)
    ensures h >= 200 && h >= vh - headerHeight - 32
    ensures h == 200 || h == vh - headerHeight - 32
  {
    if vh - headerHeight - 32 >= 200 then vh - headerHeight - 32 else 200
  }

  /** Width left for the book: the window less 32 pixels of margin, at least 200. */
  function AvailableWidth(vw: int): (w: int)
    ensures w >= 200 && w >= vw - 32
    ensures w == 200 || w == vw - 32
  {
    if vw - 32 >= 200 then vw - 32 else 200
  }

  /** The widest width the book may take: 90% of the available width, at most 1000. */
  function WidthCap(vw: int): real {
    Min(AvailableWidth(vw) as real * 0.9, 1000.0)
  }

  /**
   * The box before rounding: start from the width cap and the height the
   * ratio gives; if that is too tall, take the available height and the
   * width the ratio gives for it. `ratio` is the first page's width over its
   * height.
   */
  function FitBox(vh: int, vw: int, headerHeight: int, ratio: real): (b: Box)
    requires ratio > 0.0
    ensures b.width <= WidthCap(vw) && b.width <= 1000.0
    ensures b.height <= AvailableHeight(vh, headerHeight) as real
    ensures b.height > 0.0 && b.width == b.height * ratio
  {
    var availableHeight := AvailableHeight(vh, headerHeight) as real;
    var width := WidthCap(vw);
    var height := width / ratio;
    if height > availableHeight then
      assert availableHeight * ratio < width by {
        assert height * ratio == width;
      }
      Box(availableHeight * ratio, availableHeight)
    else
      Box(width, height)
  }

  /** `computeBookSize`: the fitted box rounded down to whole pixels. */
  function ComputeBookSize(vh: int, vw: int, headerHeight: int, ratio: real): (s: Size)
    requires ratio > 0.0
    ensures var b := FitBox(vh, vw, headerHeight, ratio);
      && s.width as real <= b.width < s.width as real + 1.0
      && s.height as real <= b.height < s.height as real + 1.0
    ensures 0 <= s.width <= 1000 && 0 <= s.height <= AvailableHeight(vh, headerHeight)
  {
    var b := FitBox(vh, vw, headerHeight, ratio);
    Size(b.width.Floor, b.height.Floor)
  }

  /**
   * The fitted box is the largest box of the page's ratio within both
   * limits: any box of that ratio no wider than the cap and no taller than
   * the available height is no larger, and one of the two limits is reached.
   */
  lemma FitBoxIsLargest(vh: int, vw: int, headerHeight: int, ratio: real, w: real, h: real)
    requires ratio > 0.0 && h >= 0.0 && w == h * ratio
    requires w <= WidthCap(vw) && h <= AvailableHeight(vh, headerHeight) as real
    ensures w <= FitBox(vh, vw, headerHeight, ratio).width
    ensures h <= FitBox(vh, vw, headerHeight, ratio).height
    ensures var b := FitBox(vh, vw, headerHeight, ratio);
      b.width == WidthCap(vw) || b.height == AvailableHeight(vh, headerHeight) as real
  {
    var availableHeight := AvailableHeight(vh, headerHeight) as real;
    var width := WidthCap(vw);
    var b := FitBox(vh, vw, headerHeight, ratio);
    if width / ratio > availableHeight {
      assert w <= availableHeight * ratio by {
        assert h * ratio <= availableHeight * ratio;
      }
    } else {
      assert h * ratio <= width;
      assert h <= width / ratio;
    }
  }
}
