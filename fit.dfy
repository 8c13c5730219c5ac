/**
 * The image-fit calculation of the meme generator: an uploaded image is scaled
 * so that it fills one axis of the canvas, keeps its aspect ratio, and is
 * centred on the other axis.  Dimensions are exact reals; the browser computes
 * them in IEEE-754 doubles, and no claim is made about rounding.
 */
module Fit {

  /** Where and how large the image is drawn; (startX, startY) is its top-left corner. */
  datatype Dimensions = Dimensions(width: real, height: real, startX: real, startY: real)

  /** The drawn image lies entirely inside a canvas of the given size. */
  predicate Inside(d: Dimensions, canvasWidth: real, canvasHeight: real)
  {
    && 0.0 <= d.startX && d.startX + d.width <= canvasWidth
    && 0.0 <= d.startY && d.startY + d.height <= canvasHeight
  }

  /**
   * getDimensions: portrait images (width/height < 1) take the full canvas
   * height, landscape and square images the full canvas width; the other axis
   * is centred.  The source does not guard against zero or non-positive sizes,
   * so they are excluded here.
   */
  function GetDimensions(canvasWidth: real, canvasHeight: real, imageWidth: real, imageHeight: real): (d: Dimensions)
    requires canvasWidth > 0.0 && canvasHeight > 0.0
    requires imageWidth > 0.0 && imageHeight > 0.0
    // the image keeps its aspect ratio and has a positive size
    ensures d.width > 0.0 && d.height > 0.0
    ensures d.width * imageHeight == d.height * imageWidth
    // a portrait image spans the canvas height from the top edge
    ensures imageWidth < imageHeight ==> d.height == canvasHeight && d.startY == 0.0
    // a landscape or square image spans the canvas width from the left edge
    ensures imageWidth >= imageHeight ==> d.width == canvasWidth && d.startX == 0.0
    // centred on both axes
    ensures 2.0 * d.startX + d.width == canvasWidth
    ensures 2.0 * d.startY + d.height == canvasHeight
  {
    var aspectRatio := imageWidth / imageHeight;
    RatioFacts(imageWidth, imageHeight);
    if aspectRatio < 1.0 then
      var height := canvasHeight;
      var width := canvasHeight * aspectRatio;
      ScaledByRatio(canvasHeight, imageWidth, imageHeight);
      Dimensions(width, height, (canvasWidth - width) / 2.0, 0.0)
    else
      var width := canvasWidth;
      var height := canvasWidth / aspectRatio;
      DividedByRatio(canvasWidth, imageWidth, imageHeight);
      Dimensions(width, height, 0.0, (canvasHeight - height) / 2.0)
  }

  /** The aspect ratio is positive, and below 1 exactly for a portrait image. */
  lemma RatioFacts(imageWidth: real, imageHeight: real)
    requires imageWidth > 0.0 && imageHeight > 0.0
    ensures imageWidth / imageHeight > 0.0
    ensures imageWidth / imageHeight < 1.0 <==> imageWidth < imageHeight
  {
    var aspectRatio := imageWidth / imageHeight;
    assert aspectRatio * imageHeight == imageWidth;
    ScaleLe(1.0, aspectRatio, imageHeight);
  }

  /** Scaling a side by the aspect ratio gives a positive length in proportion to the image. */
  lemma ScaledByRatio(side: real, imageWidth: real, imageHeight: real)
    requires side > 0.0 && imageWidth > 0.0 && imageHeight > 0.0
    ensures side * (imageWidth / imageHeight) > 0.0
    ensures side * (imageWidth / imageHeight) * imageHeight == side * imageWidth
  {
    var aspectRatio := imageWidth / imageHeight;
    assert aspectRatio * imageHeight == imageWidth;
    assert side * aspectRatio * imageHeight == side * (aspectRatio * imageHeight);
  }

  /** Dividing a side by the aspect ratio gives a positive length in proportion to the image. */
  lemma DividedByRatio(side: real, imageWidth: real, imageHeight: real)
    requires side > 0.0 && imageWidth > 0.0 && imageHeight > 0.0
    ensures side / (imageWidth / imageHeight) > 0.0
    ensures side * imageHeight == side / (imageWidth / imageHeight) * imageWidth
  {
    var aspectRatio := imageWidth / imageHeight;
    var height := side / aspectRatio;
    assert aspectRatio * imageHeight == imageWidth;
    assert height * aspectRatio == side;
    calc {
      height * imageWidth;
      height * (aspectRatio * imageHeight);
      (height * aspectRatio) * imageHeight;
      side * imageHeight;
    }
  }

  /**
   * Exactly when the fitted image stays inside the canvas: a portrait image
   * fits when it is no wider, relative to its height, than the canvas is; a
   * landscape or square image fits when it is no taller, relative to its width.
   */
  lemma InsideExactly(canvasWidth: real, canvasHeight: real, imageWidth: real, imageHeight: real)
    requires canvasWidth > 0.0 && canvasHeight > 0.0
    requires imageWidth > 0.0 && imageHeight > 0.0
    ensures Inside(GetDimensions(canvasWidth, canvasHeight, imageWidth, imageHeight), canvasWidth, canvasHeight)
        <==> if imageWidth < imageHeight then canvasHeight * imageWidth <= canvasWidth * imageHeight
             else canvasWidth * imageHeight <= canvasHeight * imageWidth
  {
    var d := GetDimensions(canvasWidth, canvasHeight, imageWidth, imageHeight);
    if imageWidth < imageHeight {
      // width * imageHeight == canvasHeight * imageWidth, so width <= canvasWidth iff the ratio test holds
      assert d.width * imageHeight == canvasHeight * imageWidth;
      ScaleLe(d.width, canvasWidth, imageHeight);
    } else {
      assert d.height * imageWidth == canvasWidth * imageHeight;
      ScaleLe(d.height, canvasHeight, imageWidth);
    }
  }

  /** Multiplying both sides by a positive factor keeps the order, in both directions. */
  lemma ScaleLe(x: real, y: real, k: real)
    requires k > 0.0
    ensures x <= y <==> x * k <= y * k
  {
    if x <= y {
      assert (y - x) * k >= 0.0;
    } else {
      assert (x - y) * k > 0.0;
    }
  }

  /** The promise of the doc comment, "fits perfectly into the canvas", holds for a square canvas. */
  lemma InsideSquareCanvas(side: real, imageWidth: real, imageHeight: real)
    requires side > 0.0 && imageWidth > 0.0 && imageHeight > 0.0
    ensures Inside(GetDimensions(side, side, imageWidth, imageHeight), side, side)
  {
    InsideExactly(side, side, imageWidth, imageHeight);
    if imageWidth < imageHeight {
      ScaleLe(imageWidth, imageHeight, side);
    } else {
      ScaleLe(imageHeight, imageWidth, side);
    }
  }

  /**
   * On a canvas that is not square the image can overflow: a 300x400 image
   * on a 100x400 canvas is drawn 300 wide, starting 100 left of the canvas.
   */
  lemma OverflowOnTallCanvas()
    ensures GetDimensions(100.0, 400.0, 300.0, 400.0) == Dimensions(300.0, 400.0, -100.0, 0.0)
    ensures !Inside(GetDimensions(100.0, 400.0, 300.0, 400.0), 100.0, 400.0)
  {
    var d := GetDimensions(100.0, 400.0, 300.0, 400.0);
    assert d.height == 400.0;
    assert d.width * 400.0 == 400.0 * 300.0;
  }

  /** Worked cases: portrait, landscape and square images on square canvases, and a wide image on a tall canvas. */
  lemma WorkedCases()
    ensures GetDimensions(500.0, 500.0, 100.0, 200.0) == Dimensions(250.0, 500.0, 125.0, 0.0)
    ensures GetDimensions(500.0, 500.0, 200.0, 100.0) == Dimensions(500.0, 250.0, 0.0, 125.0)
    ensures GetDimensions(400.0, 400.0, 50.0, 50.0) == Dimensions(400.0, 400.0, 0.0, 0.0)
    ensures GetDimensions(300.0, 600.0, 900.0, 300.0) == Dimensions(300.0, 100.0, 0.0, 250.0)
  {
    var a := GetDimensions(500.0, 500.0, 100.0, 200.0);
    assert a.width * 200.0 == 500.0 * 100.0;
    var b := GetDimensions(500.0, 500.0, 200.0, 100.0);
    assert b.height * 200.0 == 500.0 * 100.0;
    var d := GetDimensions(300.0, 600.0, 900.0, 300.0);
    assert d.height * 900.0 == 300.0 * 300.0;
  }
}
