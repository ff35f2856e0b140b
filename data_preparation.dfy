/**
 * Pixel-to-axis rescaling of digitised plot points (data_preparation.py): a pixel x in
 * [0, width] maps affinely onto [x_axis_left, x_axis_right], and a pixel y, counted
 * downwards from the top of the image, maps onto [y_axis_bottom, y_axis_top] upwards.
 */
module DataPreparation {
  import opened Vectors

  /** resize_x: the left and right image edges land on the ends of the x-axis. The source
      divides by width, which fails for width 0. */
  function ResizeX(x: real, width: real, xAxisLeft: real, xAxisRight: real): (r: real)
    requires width != 0.0
    ensures x == 0.0 ==> r == xAxisLeft
    ensures x == width ==> r == xAxisRight
  {
    var fullXAxisLength := xAxisRight - xAxisLeft;
    var xResize := fullXAxisLength / width;
    assert width * xResize == fullXAxisLength;
    x * xResize + xAxisLeft
  }

  /** resize_y: the y-axis is flipped first (y becomes height - y), so the top image edge
      (y = 0) lands on the top of the y-axis and the bottom edge on its bottom. Fails for
      height 0. */
  function ResizeY(y: real, height: real, yAxisBottom: real, yAxisTop: real): (r: real)
    requires height != 0.0
    ensures y == height ==> r == yAxisBottom
    ensures y == 0.0 ==> r == yAxisTop
  {
    var flipped := height - y;
    var fullYAxisLength := yAxisTop - yAxisBottom;
    var yResize := fullYAxisLength / height;
    assert height * yResize == fullYAxisLength;
    flipped * yResize + yAxisBottom
  }

  /** resize_x is affine: a pixel step of d moves the axis value by d times the axis length
      over the width, wherever it starts. */
  lemma ResizeXAffine(x1: real, x2: real, width: real, xAxisLeft: real, xAxisRight: real)
    requires width != 0.0
    ensures ResizeX(x2, width, xAxisLeft, xAxisRight) - ResizeX(x1, width, xAxisLeft, xAxisRight)
            == (x2 - x1) * ((xAxisRight - xAxisLeft) / width)
  {
    var k := (xAxisRight - xAxisLeft) / width;
    assert x2 * k - x1 * k == (x2 - x1) * k;
  }

  /** resize_y is affine with the opposite sign: moving down the image moves down the axis. */
  lemma ResizeYAffine(y1: real, y2: real, height: real, yAxisBottom: real, yAxisTop: real)
    requires height != 0.0
    ensures ResizeY(y2, height, yAxisBottom, yAxisTop) - ResizeY(y1, height, yAxisBottom, yAxisTop)
            == (y1 - y2) * ((yAxisTop - yAxisBottom) / height)
  {
    var k := (yAxisTop - yAxisBottom) / height;
    assert (height - y2) * k - (height - y1) * k == (y1 - y2) * k;
  }

  /** On an image of positive width, resize_x increases when the axis runs left to right
      (right > left) and decreases on a reversed axis (right < left). */
  lemma ResizeXMonotone(x1: real, x2: real, width: real, xAxisLeft: real, xAxisRight: real)
    requires 0.0 < width && x1 < x2
    ensures xAxisRight > xAxisLeft ==>
              ResizeX(x1, width, xAxisLeft, xAxisRight) < ResizeX(x2, width, xAxisLeft, xAxisRight)
    ensures xAxisRight < xAxisLeft ==>
              ResizeX(x1, width, xAxisLeft, xAxisRight) > ResizeX(x2, width, xAxisLeft, xAxisRight)
  {
    var k := (xAxisRight - xAxisLeft) / width;
    var d := ResizeX(x2, width, xAxisLeft, xAxisRight) - ResizeX(x1, width, xAxisLeft, xAxisRight);
    assert d == Mul(x2 - x1, k) by { ResizeXAffine(x1, x2, width, xAxisLeft, xAxisRight); }
    if xAxisRight > xAxisLeft {
      assert 0.0 < k by { QuotientSign(xAxisRight - xAxisLeft, width); }
      assert 0.0 < d by { ProductSign(x2 - x1, k); }
    } else if xAxisRight < xAxisLeft {
      assert k < 0.0 by { QuotientSign(xAxisRight - xAxisLeft, width); }
      assert d < 0.0 by { ProductSign(x2 - x1, k); }
    }
  }

  /** On an image of positive height, a point lower in the image (larger pixel y) gets a
      smaller axis value when the axis points up (top > bottom). */
  lemma ResizeYFlips(y1: real, y2: real, height: real, yAxisBottom: real, yAxisTop: real)
    requires 0.0 < height && y1 < y2 && yAxisBottom < yAxisTop
    ensures ResizeY(y1, height, yAxisBottom, yAxisTop) > ResizeY(y2, height, yAxisBottom, yAxisTop)
  {
    var k := (yAxisTop - yAxisBottom) / height;
    var d := ResizeY(y2, height, yAxisBottom, yAxisTop) - ResizeY(y1, height, yAxisBottom, yAxisTop);
    assert d == Mul(y1 - y2, k) by { ResizeYAffine(y1, y2, height, yAxisBottom, yAxisTop); }
    assert 0.0 < k by { QuotientSign(yAxisTop - yAxisBottom, height); }
    assert d < 0.0 by { ProductSign(y1 - y2, k); }
  }

  /** What reformat_data returns: the rescaled points with their two columns, or the error
      it raises. */
  datatype Reformatted =
    | Reformatted(newPoints: seq<(real, real)>, xx: seq<real>, yy: seq<real>)
      /** a zero width or height: resize_x or resize_y divides by zero */
    | DivisionByZero
      /** no points: taking a column of an empty array fails */
    | NoPoints

  /**
   * reformat_data: rescale every point, then split the result into its x and y columns.
   * The parameters come in the source's order, x_axis_right before x_axis_left.
   */
  method ReformatData(points: seq<(real, real)>, width: real, height: real, xAxisRight: real, xAxisLeft: real,
                      yAxisBottom: real, yAxisTop: real)
    returns (result: Reformatted)
    ensures result.NoPoints? <==> |points| == 0
    ensures result.DivisionByZero? <==> |points| > 0 && (width == 0.0 || height == 0.0)
    ensures result.Reformatted? ==>
              && width != 0.0 && height != 0.0
              && |result.newPoints| == |points| == |result.xx| == |result.yy|
              && forall i :: 0 <= i < |points| ==>
                   && result.newPoints[i] == (ResizeX(points[i].0, width, xAxisLeft, xAxisRight),
                                              ResizeY(points[i].1, height, yAxisBottom, yAxisTop))
                   && result.xx[i] == result.newPoints[i].0
                   && result.yy[i] == result.newPoints[i].1
  {
    var newPoints: seq<(real, real)> := [];
    for i := 0 to |points|
      invariant (width != 0.0 && height != 0.0) || i == 0
      invariant |newPoints| == i
      invariant forall j :: 0 <= j < i ==>
                  newPoints[j] == (ResizeX(points[j].0, width, xAxisLeft, xAxisRight),
                                   ResizeY(points[j].1, height, yAxisBottom, yAxisTop))
    {
      if width == 0.0 || height == 0.0 {
        return DivisionByZero;
      }
      var newX := ResizeX(points[i].0, width, xAxisLeft, xAxisRight);
      var newY := ResizeY(points[i].1, height, yAxisBottom, yAxisTop);
      newPoints := newPoints + [(newX, newY)];
    }
    if |newPoints| == 0 {
      return NoPoints;
    }
    var xx := seq(|newPoints|, j requires 0 <= j < |newPoints| => newPoints[j].0);
    var yy := seq(|newPoints|, j requires 0 <= j < |newPoints| => newPoints[j].1);
    return Reformatted(newPoints, xx, yy);
  }
}
