/**
 * The geometry of a GUI widget and its reaction to changed size hints
 * (src/widget.cpp).
 *
 * The size hints are virtual getters in the program; here they are the
 * values they return, passed in. `on_resize` is a virtual hook; here every
 * widget counts how many times it was invoked on it.
 */
module WidgetGeometry {

  /** What the virtual size-hint getters answer. */
  datatype SizeHints = SizeHints(minWidth: int, minHeight: int, maxWidth: int, maxHeight: int)

  /**
   * One dimension's clamping rule: a value below the minimum becomes the
   * minimum; otherwise a value above the maximum becomes the maximum; any
   * other value is kept. The minimum is tested first, so with inconsistent
   * hints (minimum above maximum) a small value ends up at the minimum and
   * a large one at the maximum.
   */
  function Clamp(v: int, lo: int, hi: int): (r: int)
    ensures r == v <==> lo <= v <= hi
    ensures r != v ==> r == lo || r == hi
    ensures lo <= hi ==> lo <= r <= hi
    ensures v < lo ==> r == lo
    ensures lo <= v && hi < v ==> r == hi
  {
    if v < lo then lo else if v > hi then hi else v
  }

  /** With consistent hints, clamping a clamped value changes nothing. */
  lemma {:induction false} ClampIdempotent(v: int, lo: int, hi: int)
    requires lo <= hi
    ensures Clamp(Clamp(v, lo, hi), lo, hi) == Clamp(v, lo, hi)
  {
    var r := Clamp(v, lo, hi);
    assert lo <= r <= hi;
  }

  /**
   * With inconsistent hints the rule is not idempotent: 5 against
   * minimum 10 and maximum 0 becomes 10, and 10 then becomes 0.
   */
  lemma {:induction false} InconsistentHintsOscillate()
    ensures Clamp(5, 10, 0) == 10 && Clamp(Clamp(5, 10, 0), 10, 0) == 0
  {
  }

  class Widget {
    var parent: Widget?
    var left: int
    var top: int
    var width: int
    var height: int
    var setIndex: int
    var isVisible: bool
    /** How many times `on_resize` was invoked on this widget. */
    var resizeCount: nat

    /** A fresh top-level widget: at the origin, 100x100, visible, not in any set. */
    constructor ()
      ensures parent == null
      ensures left == 0 && top == 0 && width == 100 && height == 100
      ensures setIndex == -1 && isVisible
      ensures resizeCount == 0
    {
      parent := null;
      left := 0;
      top := 0;
      width := 100;
      height := 100;
      setIndex := -1;
      isVisible := true;
      resizeCount := 0;
    }

    /**
     * Reacts to changed size hints. A widget with a parent leaves its size
     * to the parent and asks it to resize. A top-level widget clamps its
     * width and its height, each independently, into the hinted range and
     * resizes itself exactly when one of them changed. Position and
     * visibility are never touched.
     */
    method OnSizeHintsChanged(hints: SizeHints)
      modifies this`width, this`height, this`resizeCount, {parent}`resizeCount
      ensures parent == old(parent)
      ensures left == old(left) && top == old(top) && isVisible == old(isVisible)
      ensures parent != null ==>
        parent.resizeCount == old(parent.resizeCount) + 1 &&
        width == old(width) && height == old(height)
      ensures parent != null && parent != this ==>
        resizeCount == old(resizeCount) &&
        parent.left == old(parent.left) && parent.top == old(parent.top) &&
        parent.width == old(parent.width) && parent.height == old(parent.height) &&
        parent.isVisible == old(parent.isVisible) && parent.parent == old(parent.parent)
      ensures parent == null ==>
        width == Clamp(old(width), hints.minWidth, hints.maxWidth) &&
        height == Clamp(old(height), hints.minHeight, hints.maxHeight) &&
        resizeCount == old(resizeCount) + (if width != old(width) || height != old(height) then 1 else 0)
    {
      if parent != null {
        parent.resizeCount := parent.resizeCount + 1;
      } else {
        var changed := false;
        var minW := hints.minWidth;
        var minH := hints.minHeight;
        var maxW := hints.maxWidth;
        var maxH := hints.maxHeight;
        if width < minW {
          width := minW;
          changed := true;
        } else if width > maxW {
          width := maxW;
          changed := true;
        }
        if height < minH {
          height := minH;
          changed := true;
        } else if height > maxH {
          height := maxH;
          changed := true;
        }
        if changed {
          resizeCount := resizeCount + 1;
        }
      }
    }
  }

  /**
   * With consistent hints a second notification to a top-level widget
   * changes nothing: its size is already inside the range and it is not
   * resized again.
   */
  method NotifyTwice(w: Widget, hints: SizeHints) returns (firstChanged: bool, secondChanged: bool)
    requires w.parent == null
    requires hints.minWidth <= hints.maxWidth && hints.minHeight <= hints.maxHeight
    modifies w
    ensures hints.minWidth <= w.width <= hints.maxWidth && hints.minHeight <= w.height <= hints.maxHeight
    ensures firstChanged <==> w.resizeCount == old(w.resizeCount) + 1
    ensures !secondChanged
  {
    var count0 := w.resizeCount;
    w.OnSizeHintsChanged(hints);
    var count1 := w.resizeCount;
    ClampIdempotent(old(w.width), hints.minWidth, hints.maxWidth);
    ClampIdempotent(old(w.height), hints.minHeight, hints.maxHeight);
    w.OnSizeHintsChanged(hints);
    firstChanged := count1 != count0;
    secondChanged := w.resizeCount != count1;
  }
}
