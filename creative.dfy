/**
 * The creative compositor `create_ad_image`: the photo is stretched to the
 * requested size, then a dark band, the wrapped headline, an orange button
 * and the call-to-action label are drawn on it, in that order. Only the
 * draw calls and the coordinates passed to them are kept; rasterising is
 * the imaging library's business.
 */
module Creative {

  /** A requested pixel size `(width, height)`. */
  datatype Size = Size(width: nat, height: nat)

  /** The uploaded photo after decoding; only its dimensions are kept. */
  datatype Photo = Photo(width: nat, height: nat)

  datatype Point = Point(x: int, y: int)

  /** A rectangle given by two corners, as the drawing calls take it. */
  datatype Box = Box(lo: Point, hi: Point) {
    function Width(): int { hi.x - lo.x }
    function Height(): int { hi.y - lo.y }
    predicate Contains(p: Point) { lo.x <= p.x <= hi.x && lo.y <= p.y <= hi.y }
    predicate Encloses(b: Box) { Contains(b.lo) && Contains(b.hi) }
  }

  datatype Paint = Rgb(red: nat, green: nat, blue: nat) | Named(name: string)

  /** A font request: a font file at a point size. */
  datatype Font = Truetype(file: string, points: nat)

  /**
   * Text handed to a draw call. `Wrapped(s, n)` stands for the library's
   * `textwrap.fill(s, width=n)`, kept symbolic because its line breaking
   * is not part of this model.
   */
  datatype Label = Wrapped(text: string, width: nat) | Plain(text: string)

  datatype DrawOp =
    | FillBox(box: Box, fill: Paint)
    | DrawText(origin: Point, content: Label, fill: Paint, font: Font)

  /** A rendered creative: which photo, stretched to which size, with which draw calls in order. */
  datatype Picture = Picture(photo: Photo, size: Size, ops: seq<DrawOp>)

  const TitleFont: Font := Truetype("arial.ttf", 36)
  const CtaFont: Font := Truetype("arial.ttf", 28)
  const WrapWidth: nat := 20

  const BandFill: Paint := Rgb(0, 0, 0)
  const ButtonFill: Paint := Rgb(255, 165, 0)
  const HeadlineFill: Paint := Named("white")
  const CtaFill: Paint := Named("black")

  /** The band at the bottom of a `w` by `h` image. */
  function BandBox(w: int, h: int): (b: Box) {
    Box(Point(0, h - 180), Point(w, h))
  }

  function HeadlineOrigin(h: int): (p: Point) {
    Point(20, h - 160)
  }

  function ButtonBox(h: int): (b: Box) {
    Box(Point(20, h - 60), Point(200, h - 20))
  }

  function CtaOrigin(h: int): (p: Point) {
    Point(40, h - 55)
  }

  /** What `create_ad_image(photo, headline, cta, size)` draws, as a value. */
  function AdLayout(photo: Photo, headline: string, cta: string, size: Size): (p: Picture) {
    var w, h := size.width, size.height;
    Picture(photo, size, [
      FillBox(BandBox(w, h), BandFill),
      DrawText(HeadlineOrigin(h), Wrapped(headline, WrapWidth), HeadlineFill, TitleFont),
      FillBox(ButtonBox(h), ButtonFill),
      DrawText(CtaOrigin(h), Plain(cta), CtaFill, CtaFont)
    ])
  }

  /** An image being drawn on: its size never changes, each draw call appends one operation. */
  class Canvas {
    const photo: Photo
    const width: nat
    const height: nat
    var ops: seq<DrawOp>

    /** `photo.resize(size)`: a new image of exactly `size`, whatever the photo's own proportions. */
    constructor Resize(photo: Photo, size: Size)
      ensures this.photo == photo && width == size.width && height == size.height
      ensures ops == []
    {
      this.photo := photo;
      width := size.width;
      height := size.height;
      ops := [];
    }

    method Rectangle(box: Box, fill: Paint)
      modifies this
      ensures ops == old(ops) + [FillBox(box, fill)]
    {
      ops := ops + [FillBox(box, fill)];
    }

    method Text(origin: Point, content: Label, fill: Paint, font: Font)
      modifies this
      ensures ops == old(ops) + [DrawText(origin, content, fill, font)]
    {
      ops := ops + [DrawText(origin, content, fill, font)];
    }

    function Snapshot(): Picture
      reads this
    {
      Picture(photo, Size(width, height), ops)
    }
  }

  /** `create_ad_image`: resize, then the four draw calls on the new image. */
  method CreateAdImage(photo: Photo, headline: string, cta: string, size: Size) returns (img: Canvas)
    ensures fresh(img)
    ensures img.Snapshot() == AdLayout(photo, headline, cta, size)
  {
    img := new Canvas.Resize(photo, size);
    var wrapped := Wrapped(headline, WrapWidth);
    img.Rectangle(Box(Point(0, img.height - 180), Point(img.width, img.height)), Rgb(0, 0, 0));
    img.Text(Point(20, img.height - 160), wrapped, Named("white"), TitleFont);
    img.Rectangle(Box(Point(20, img.height - 60), Point(200, img.height - 20)), Rgb(255, 165, 0));
    img.Text(Point(40, img.height - 55), Plain(cta), Named("black"), CtaFont);
  }

  // ----- properties of the layout -----

  /**
   * The creative has exactly the requested size, and what is drawn does not
   * depend on the photo's dimensions: the photo is stretched, not cropped.
   */
  lemma Stretched(photo1: Photo, photo2: Photo, headline: string, cta: string, size: Size)
    ensures AdLayout(photo1, headline, cta, size).size == size
    ensures AdLayout(photo1, headline, cta, size).ops == AdLayout(photo2, headline, cta, size).ops
  {
  }

  /** The band is drawn first, spans the full width, is 180 pixels tall and ends at the bottom edge. */
  lemma BandSpansBottom(photo: Photo, headline: string, cta: string, size: Size)
    ensures var op := AdLayout(photo, headline, cta, size).ops[0];
      && op.FillBox?
      && op.box.lo.x == 0 && op.box.Width() == size.width
      && op.box.hi.y == size.height && op.box.Height() == 180
  {
  }

  /** The button is 180 by 40 pixels, 20 pixels from the left and 20 from the bottom. */
  lemma ButtonGeometry(photo: Photo, headline: string, cta: string, size: Size)
    ensures var op := AdLayout(photo, headline, cta, size).ops[2];
      && op.FillBox?
      && op.box.Width() == 180 && op.box.Height() == 40
      && op.box.lo.x == 20 && op.box.hi.y == size.height - 20
  {
  }

  /**
   * The button lies vertically inside the band for every height, and wholly
   * inside it exactly when the image is at least 200 pixels wide.
   */
  lemma ButtonInsideBand(photo: Photo, headline: string, cta: string, size: Size)
    ensures var p := AdLayout(photo, headline, cta, size);
      && p.ops[0].box.lo.y <= p.ops[2].box.lo.y && p.ops[2].box.hi.y <= p.ops[0].box.hi.y
      && (p.ops[0].box.Encloses(p.ops[2].box) <==> size.width >= 200)
  {
  }

  /** The call-to-action label starts inside the button. */
  lemma CtaLabelInsideButton(photo: Photo, headline: string, cta: string, size: Size)
    ensures var p := AdLayout(photo, headline, cta, size);
      && p.ops[3].DrawText? && p.ops[3].content == Plain(cta)
      && p.ops[2].box.Contains(p.ops[3].origin)
  {
  }

  /**
   * The headline, wrapped at 20 columns, starts 20 pixels below the band's
   * top; that origin is inside the band exactly when the image is at least
   * 20 pixels wide.
   */
  lemma HeadlineInsideBand(photo: Photo, headline: string, cta: string, size: Size)
    ensures var p := AdLayout(photo, headline, cta, size);
      && p.ops[1].DrawText? && p.ops[1].content == Wrapped(headline, WrapWidth)
      && p.ops[1].origin.y == p.ops[0].box.lo.y + 20
      && (p.ops[0].box.Contains(p.ops[1].origin) <==> size.width >= 20)
  {
  }

  /**
   * Coordinates are not clamped: the band starts above the image exactly
   * when the image is under 180 pixels tall, and the headline origin exactly
   * when it is under 160.
   */
  lemma Unclamped(photo: Photo, headline: string, cta: string, size: Size)
    ensures var p := AdLayout(photo, headline, cta, size);
      && (p.ops[0].box.lo.y < 0 <==> size.height < 180)
      && (p.ops[1].origin.y < 0 <==> size.height < 160)
  {
  }
}
