/** The guarded crop of vehicle_detection.py:26: a frame loses its top 120 rows
    and its last 20 columns when both dimensions allow it, and is returned as it
    is otherwise. */
module Crop {

  /** Rows dropped from the top of a frame. */
  const TopRows: nat := 120
  /** Columns dropped from the right of a frame. */
  const RightColumns: nat := 20

  /** A frame of `height` rows of `width` pixels each (`shape[0]` and `shape[1]`
      of the image array); a pixel's channels are part of `P`. */
  datatype Frame<P> = Frame(height: nat, width: nat, pixels: seq<seq<P>>)
  {
    ghost predicate Valid() {
      |pixels| == height && forall i :: 0 <= i < height ==> |pixels[i]| == width
    }
  }

  /** The guard of the crop: `shape[0] > 120 and shape[1] > 20`. */
  predicate Croppable<P>(f: Frame<P>) {
    f.height > TopRows && f.width > RightColumns
  }

  /** `frame[120:, :-20]` when the guard holds, `frame` otherwise. */
  function CropSafely<P>(f: Frame<P>): (r: Frame<P>)
    requires f.Valid()
    ensures r.Valid()
    ensures Croppable(f) ==> r.height == f.height - TopRows && r.width == f.width - RightColumns
    ensures Croppable(f) ==>
      forall i, j :: 0 <= i < r.height && 0 <= j < r.width ==> r.pixels[i][j] == f.pixels[i + TopRows][j]
    ensures !Croppable(f) ==> r == f
  {
    if Croppable(f) then
      var rows := f.pixels[TopRows..];
      var w := f.width - RightColumns;
      Frame(f.height - TopRows, w, seq(|rows|, i requires 0 <= i < |rows| => rows[i][..w]))
    else f
  }

  /** The crop changes the frame exactly when the guard holds. */
  lemma CropAppliedIffCroppable<P>(f: Frame<P>)
    requires f.Valid()
    ensures CropSafely(f) != f <==> Croppable(f)
  {
  }

  /** A cropped frame is never empty: it keeps at least one row and one column. */
  lemma CroppedFrameNotEmpty<P>(f: Frame<P>)
    requires f.Valid() && Croppable(f)
    ensures CropSafely(f).height >= 1 && CropSafely(f).width >= 1
    ensures |CropSafely(f).pixels| >= 1 && |CropSafely(f).pixels[0]| >= 1
  {
  }
}
