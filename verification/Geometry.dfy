/**
 From a point in the widget to a point on the device, over exact reals: the letterbox rectangle the
 video is drawn in, the video pixel under the pointer, and the server's scaling to the device. And
 the size the server encodes at.
 */
module Geometry {
  import opened Sockets

  // ---- One axis

  /** Where t falls when [x, x + w] is stretched to [0, v]. */
  function Stretch(t: real, x: real, w: real, v: real): real
    requires w > 0.0
  {
    (t - x) / w * v
  }

  lemma StretchOrder(t: real, u: real, x: real, w: real, v: real)
    requires w > 0.0 && v > 0.0
    ensures t <= u <==> Stretch(t, x, w, v) <= Stretch(u, x, w, v)
  {
    var a, b := (t - x) / w, (u - x) / w;
    assert a * w == t - x && b * w == u - x;
    if t <= u {
      assert a <= b;
      assert a * v <= b * v;
    } else {
      assert a > b;
      assert a * v > b * v;
    }
  }

  lemma StretchEnds(x: real, w: real, v: real)
    requires w > 0.0
    ensures Stretch(x, x, w, v) == 0.0 && Stretch(x + w, x, w, v) == v
  {
    assert w / w == 1.0;
  }

  /** The part of w that d is of v. */
  function Part(d: real, v: real, w: real): real
    requires v > 0.0
  {
    d / v * w
  }

  /** Pixel d of v is drawn at x + d / v * w, and that is where it is found again. */
  lemma StretchBack(d: real, x: real, w: real, v: real)
    requires w > 0.0 && v > 0.0
    ensures Stretch(x + Part(d, v, w), x, w, v) == d
  {
    var q := d / v;
    assert q * v == d;
    assert (q * w) / w == q;
  }

  // ---- The letterbox

  datatype Rect = Rect(x: real, y: real, w: real, h: real)

  /** The rectangle the video is drawn in. */
  function Letterbox(ww: int, wh: int, vw: int, vh: int): Rect
    requires ww > 0 && wh > 0 && vw > 0 && vh > 0
  {
    var winA, vidA := ww as real / wh as real, vw as real / vh as real;
    var (w, h) := if winA > vidA then (wh as real * vidA, wh as real) else (ww as real, ww as real / vidA);
    Rect((ww as real - w) / 2.0, (wh as real - h) / 2.0, w, h)
  }

  lemma Quotient(a: real, b: real)
    requires b > 0.0
    ensures a / b * b == a
    ensures a > 0.0 ==> a / b > 0.0
  {
  }

  lemma ProductPositive(a: real, b: real)
    requires a > 0.0 && b > 0.0
    ensures a * b > 0.0
  {
  }

  lemma ProductOrder(a: real, b: real, c: real)
    requires a <= b && c >= 0.0
    ensures a * c <= b * c
  {
  }

  /** The letterbox lies centred inside the widget, has the video's aspect ratio, and touches two opposite sides. */
  lemma LetterboxFits(ww: int, wh: int, vw: int, vh: int)
    requires ww > 0 && wh > 0 && vw > 0 && vh > 0
    ensures var r := Letterbox(ww, wh, vw, vh);
      && r.w > 0.0 && r.h > 0.0
      && r.x >= 0.0 && r.y >= 0.0 && r.x + r.w + r.x == ww as real && r.y + r.h + r.y == wh as real
      && r.w * vh as real == r.h * vw as real
      && (r.w == ww as real || r.h == wh as real)
  {
    var a, b, c, d := ww as real, wh as real, vw as real, vh as real;
    var win, vid := a / b, c / d;
    Quotient(a, b);
    Quotient(c, d);
    var r := Letterbox(ww, wh, vw, vh);
    if win > vid {
      ProductPositive(b, vid);
      ProductOrder(vid, win, b);
      assert r.w * d == b * (vid * d);
    } else {
      Quotient(a, vid);
      var h := a / vid;
      assert h * vid == a && a == win * b;
      LessByFactor(h, b, vid, win);
      assert h * c == h * (vid * d) == (h * vid) * d;
    }
  }

  /** If h * v is the larger b's product with a larger factor, h is no larger than b. */
  lemma LessByFactor(h: real, b: real, v: real, w: real)
    requires v > 0.0 && b > 0.0 && v >= w && h * v == w * b
    ensures h <= b
  {
    if h > b {
      ProductStrict(b, h, v);
      ProductOrder(w, v, b);
      assert false;
    }
  }

  lemma ProductStrict(a: real, b: real, c: real)
    requires a < b && c > 0.0
    ensures a * c < b * c
  {
  }

  // ---- Widget to video

  /** `render_widget_to_device`. */
  function WidgetToVideo(ww: int, wh: int, vw: int, vh: int, wx: real, wy: real): Option<(real, real)>
  {
    if vw <= 0 || vh <= 0 || ww <= 0 || wh <= 0 then None else
    var r := Letterbox(ww, wh, vw, vh);
    LetterboxFits(ww, wh, vw, vh);
    if wx < r.x || wx > r.x + r.w || wy < r.y || wy > r.y + r.h then None
    else Some((Stretch(wx, r.x, r.w, vw as real), Stretch(wy, r.y, r.h, vh as real)))
  }

  /** A point is accepted exactly inside the letterbox, and lands inside the video. */
  lemma AcceptedIff(ww: int, wh: int, vw: int, vh: int, wx: real, wy: real)
    requires ww > 0 && wh > 0 && vw > 0 && vh > 0
    ensures var r := Letterbox(ww, wh, vw, vh);
      WidgetToVideo(ww, wh, vw, vh, wx, wy).Some? <==> r.x <= wx <= r.x + r.w && r.y <= wy <= r.y + r.h
    ensures var p := WidgetToVideo(ww, wh, vw, vh, wx, wy);
      p.Some? ==> 0.0 <= p.value.0 <= vw as real && 0.0 <= p.value.1 <= vh as real
  {
    hide Stretch, Letterbox;
    LetterboxFits(ww, wh, vw, vh);
    var r := Letterbox(ww, wh, vw, vh);
    var c, d := vw as real, vh as real;
    StretchEnds(r.x, r.w, c);
    StretchEnds(r.y, r.h, d);
    StretchOrder(r.x, wx, r.x, r.w, c);
    StretchOrder(wx, r.x + r.w, r.x, r.w, c);
    StretchOrder(r.y, wy, r.y, r.h, d);
    StretchOrder(wy, r.y + r.h, r.y, r.h, d);
  }

  /** Further right in the widget is further right in the video, and likewise down. */
  lemma VideoMonotone(ww: int, wh: int, vw: int, vh: int, ax: real, ay: real, bx: real, by_: real)
    requires WidgetToVideo(ww, wh, vw, vh, ax, ay).Some? && WidgetToVideo(ww, wh, vw, vh, bx, by_).Some?
    ensures var a, b := WidgetToVideo(ww, wh, vw, vh, ax, ay).value, WidgetToVideo(ww, wh, vw, vh, bx, by_).value;
      (ax <= bx <==> a.0 <= b.0) && (ay <= by_ <==> a.1 <= b.1)
  {
    hide Stretch, Letterbox;
    LetterboxFits(ww, wh, vw, vh);
    var r := Letterbox(ww, wh, vw, vh);
    StretchOrder(ax, bx, r.x, r.w, vw as real);
    StretchOrder(ay, by_, r.y, r.h, vh as real);
  }

  /** Where the letterbox shows pixel (dx, dy) of the video. */
  function DrawnAt(ww: int, wh: int, vw: int, vh: int, dx: real, dy: real): (real, real)
    requires ww > 0 && wh > 0 && vw > 0 && vh > 0
  {
    var r := Letterbox(ww, wh, vw, vh);
    (r.x + Part(dx, vw as real, r.w), r.y + Part(dy, vh as real, r.h))
  }

  lemma Fraction(d: real, v: real, w: real)
    requires 0.0 <= d <= v && v > 0.0 && w > 0.0
    ensures 0.0 <= Part(d, v, w) <= w
  {
    var q := d / v;
    assert q * v == d;
    assert 0.0 <= q <= 1.0;
    ProductOrder(0.0, q, w);
    ProductOrder(q, 1.0, w);
  }

  /** Pointing at the place where a pixel is drawn gives that pixel. */
  lemma PointingRoundTrip(ww: int, wh: int, vw: int, vh: int, dx: real, dy: real)
    requires ww > 0 && wh > 0 && vw > 0 && vh > 0 && 0.0 <= dx <= vw as real && 0.0 <= dy <= vh as real
    ensures var p := DrawnAt(ww, wh, vw, vh, dx, dy);
      WidgetToVideo(ww, wh, vw, vh, p.0, p.1) == Some((dx, dy))
  {
    hide Stretch, Letterbox, Part;
    LetterboxFits(ww, wh, vw, vh);
    var r := Letterbox(ww, wh, vw, vh);
    StretchBack(dx, r.x, r.w, vw as real);
    StretchBack(dy, r.y, r.h, vh as real);
    Fraction(dx, vw as real, r.w);
    Fraction(dy, vh as real, r.h);
  }

  // ---- Video to device

  function Max(a: real, b: real): real { if a >= b then a else b }

  function Min(a: real, b: real): real { if a <= b then a else b }

  /** A coordinate at the device's size, before clamping. */
  function Ratio(x: real, device: int, encoded: int): real
    requires encoded > 0
  {
    x * device as real / encoded as real
  }

  lemma RatioOrder(x: real, y: real, device: int, encoded: int)
    requires x <= y && device > 0 && encoded > 0
    ensures Ratio(x, device, encoded) <= Ratio(y, device, encoded)
  {
    var d, e := device as real, encoded as real;
    ProductOrder(x, y, d);
    DivideOrder(x * d, y * d, e);
  }

  lemma DivideOrder(a: real, b: real, c: real)
    requires a <= b && c > 0.0
    ensures a / c <= b / c
  {
  }

  /** The ratio lies between 0 and the last pixel exactly when the coordinate does, scaled. */
  lemma RatioExact(x: real, device: int, encoded: int)
    requires device > 0 && encoded > 0 && x >= 0.0 && x * device as real <= (device - 1) as real * encoded as real
    ensures Ratio(x, device, encoded) * encoded as real == x * device as real
    ensures 0.0 <= Ratio(x, device, encoded) <= (device - 1) as real
  {
    var d, e, last := device as real, encoded as real, (device - 1) as real;
    Quotient(x * d, e);
    ProductOrder(0.0, x, d);
    DivideOrder(0.0, x * d, e);
    DivideOrder(x * d, last * e, e);
    Cancel(last, e);
  }

  lemma Cancel(a: real, b: real)
    requires b > 0.0
    ensures a * b / b == a && 0.0 / b == 0.0
  {
  }

  /** `scaleX` and `scaleY`: from an encoded size to the device's, clamped to its last pixel. */
  function Scale(x: real, device: int, encoded: int): real
    requires encoded > 0
  {
    Max(0.0, Min(Ratio(x, device, encoded), (device - 1) as real))
  }

  /** The result is on the device, in the order of the arguments. */
  lemma ScaleOnDevice(x: real, y: real, device: int, encoded: int)
    requires device > 0 && encoded > 0
    ensures 0.0 <= Scale(x, device, encoded) <= (device - 1) as real
    ensures x <= y ==> Scale(x, device, encoded) <= Scale(y, device, encoded)
  {
    hide Ratio;
    if x <= y {
      RatioOrder(x, y, device, encoded);
    }
  }

  /** Without clamping, the relative position on the screen is kept. */
  lemma ScaleExact(x: real, device: int, encoded: int)
    requires device > 0 && encoded > 0 && x >= 0.0 && x * device as real <= (device - 1) as real * encoded as real
    ensures Scale(x, device, encoded) * encoded as real == x * device as real
  {
    hide Ratio;
    RatioExact(x, device, encoded);
  }

  /** The whole chain: an accepted pointer position becomes a point on the device, monotonically. */
  lemma ChainOnDevice(ww: int, wh: int, vw: int, vh: int, dw: int, dh: int, ax: real, ay: real, bx: real, by_: real)
    requires vw > 0 && vh > 0 && dw > 0 && dh > 0
    requires WidgetToVideo(ww, wh, vw, vh, ax, ay).Some? && WidgetToVideo(ww, wh, vw, vh, bx, by_).Some?
    ensures var a, b := WidgetToVideo(ww, wh, vw, vh, ax, ay).value, WidgetToVideo(ww, wh, vw, vh, bx, by_).value;
      && 0.0 <= Scale(a.0, dw, vw) <= (dw - 1) as real && 0.0 <= Scale(a.1, dh, vh) <= (dh - 1) as real
      && (ax <= bx ==> Scale(a.0, dw, vw) <= Scale(b.0, dw, vw))
      && (ay <= by_ ==> Scale(a.1, dh, vh) <= Scale(b.1, dh, vh))
  {
    hide Scale, WidgetToVideo;
    VideoMonotone(ww, wh, vw, vh, ax, ay, bx, by_);
    var a, b := WidgetToVideo(ww, wh, vw, vh, ax, ay).value, WidgetToVideo(ww, wh, vw, vh, bx, by_).value;
    ScaleOnDevice(a.0, b.0, dw, vw);
    ScaleOnDevice(a.1, b.1, dh, vh);
  }

  // ---- The size encoded at

  /** Java's 32-bit product. */
  function Times(a: int, b: int): int
  {
    (a * b + 0x8000_0000) % 0x1_0000_0000 - 0x8000_0000
  }

  /** Java's division, for a positive divisor. */
  function Over(a: int, b: int): int
    requires b > 0
  {
    if a >= 0 then a / b else -((-a) / b)
  }

  /** `x & ~7`. */
  function Floor8(x: int): (r: int)
    ensures r % 8 == 0 && r <= x < r + 8
  {
    x - x % 8
  }

  /** `computeVideoSize`. */
  function VideoSize(w: int, h: int, maxSize: int): (int, int)
    requires w > 0 && h > 0
  {
    var major, minor := if w >= h then w else h, if w <= h then w else h;
    if maxSize > 0 && major > maxSize then
      var scaled := Over(Times(minor, maxSize), major);
      if w > h then (Floor8(maxSize), Floor8(scaled)) else (Floor8(scaled), Floor8(maxSize))
    else (Floor8(w), Floor8(h))
  }

  /** a is less than 8 below n/d, and not above it. */
  predicate JustBelow(a: int, n: int, d: int)
  {
    a * d <= n < (a + 8) * d
  }

  lemma ScaledFloor(m: int, s: int, d: int)
    requires 0 < m <= d && s > 0
    ensures var q := m * s / d; 0 <= q <= s && JustBelow(Floor8(q), m * s, d)
  {
    hide Floor8;
    var n := m * s;
    ProductBelow(m, s, d);
    var q := DivBounds(n, d);
    var r := Floor8(q);
    MulOrder(r, q, d);
    MulOrder(q + 1, r + 8, d);
    CancelRight(q, s, d);
  }

  lemma DivBounds(n: int, d: int) returns (q: int)
    requires n >= 0 && d > 0
    ensures q == n / d && q >= 0 && q * d <= n < (q + 1) * d
  {
    q := n / d;
    assert n == q * d + n % d;
  }

  lemma MulOrder(a: int, b: int, d: int)
    requires a <= b && d > 0
    ensures a * d <= b * d
  {
  }

  lemma CancelRight(a: int, b: int, d: int)
    requires a * d <= b * d && d > 0
    ensures a <= b
  {
    assert (a - b) * d <= 0;
  }

  lemma ProductBelow(m: int, s: int, d: int)
    requires 0 < m <= d && s > 0
    ensures 0 < m * s <= d * s
  {
  }

  lemma TimesExact(a: int, b: int)
    requires 0 <= a * b < 0x8000_0000
    ensures Times(a, b) == a * b
  {
  }

  /**
   What an encoded size promises: multiples of 8, no larger than the device and than maxSize, and less
   than 8 pixels below exact aspect scaling.
   */
  ghost predicate SizeOk(w: int, h: int, maxSize: int, vw: int, vh: int)
  {
    && vw % 8 == 0 && vh % 8 == 0 && 0 <= vw <= w && 0 <= vh <= h
    && (maxSize > 0 ==> vw <= maxSize && vh <= maxSize)
    && var major := if w >= h then w else h;
       if maxSize > 0 && major > maxSize
       then JustBelow(vw, w * maxSize, major) && JustBelow(vh, h * maxSize, major)
       else JustBelow(vw, w, 1) && JustBelow(vh, h, 1)
  }

  /** The size is kept as it is, or the product of the shorter side and maxSize fits an int. */
  predicate Fits(w: int, h: int, maxSize: int)
  {
    var major, minor := if w >= h then w else h, if w <= h then w else h;
    maxSize > 0 && major > maxSize ==> minor * maxSize < 0x8000_0000
  }

  /** The promise holds whenever the product fits, whatever the size. */
  lemma VideoSizeOk(w: int, h: int, maxSize: int)
    requires w > 0 && h > 0 && Fits(w, h, maxSize)
    ensures var (vw, vh) := VideoSize(w, h, maxSize); SizeOk(w, h, maxSize, vw, vh)
  {
    hide JustBelow, Times, Over;
    JustBelowOne(w);
    JustBelowOne(h);
    var major, minor := if w >= h then w else h, if w <= h then w else h;
    if maxSize > 0 && major > maxSize {
      MinorSide(minor, maxSize, major);
      MajorJustBelow(maxSize, major);
    }
  }

  /** For sides up to 2^28 it holds exactly then: a wrapped product always loses the size. */
  lemma VideoSizeIff(w: int, h: int, maxSize: int)
    requires 0 < w <= 0x1000_0000 && 0 < h <= 0x1000_0000
    ensures var (vw, vh) := VideoSize(w, h, maxSize); SizeOk(w, h, maxSize, vw, vh) <==> Fits(w, h, maxSize)
  {
    hide JustBelow, Times, Over;
    if Fits(w, h, maxSize) {
      VideoSizeOk(w, h, maxSize);
    } else {
      var major, minor := if w >= h then w else h, if w <= h then w else h;
      WrappedSide(minor, maxSize, major);
    }
  }

  lemma WrappedSide(m: int, s: int, d: int)
    requires 0 < m <= d <= 0x1000_0000 && 0 < s < d && m * s >= 0x8000_0000
    ensures !JustBelow(Floor8(Over(Times(m, s), d)), m * s, d)
  {
    hide Times, Over;
    var n, t := m * s, Times(m, s);
    TimesWraps(m, s);
    var q := Over(t, d);
    OverAbove(t, d);
    var r := Floor8(q);
    MulOrder(r + 8, q + 8, d);
    assert (q + 8) * d == q * d + 8 * d;
  }

  /** A product beyond the int range comes out at least 2^32 too small. */
  lemma TimesWraps(a: int, b: int)
    requires a * b >= 0x8000_0000
    ensures Times(a, b) <= a * b - 0x1_0000_0000
  {
    var x := a * b + 0x8000_0000;
    assert x == x / 0x1_0000_0000 * 0x1_0000_0000 + x % 0x1_0000_0000;
  }

  /** Division towards zero is less than one above the exact quotient. */
  lemma OverAbove(a: int, b: int)
    requires b > 0
    ensures Over(a, b) * b < a + b
  {
    if a >= 0 {
      var q := DivBounds(a, b);
    } else {
      var q := DivBounds(-a, b);
      assert (-q) * b == -(q * b);
    }
  }

  lemma MinorSide(m: int, s: int, d: int)
    requires 0 < m <= d && 0 < s < d && m * s < 0x8000_0000
    ensures var r := Floor8(Over(Times(m, s), d));
      0 <= r <= m && r <= s && JustBelow(r, m * s, d)
  {
    hide JustBelow, Times;
    ProductBelow(m, s, d);
    TimesExact(m, s);
    ScaledFloor(m, s, d);
    QuotientBelow(m, s, d);
  }

  lemma JustBelowOne(x: int)
    ensures JustBelow(Floor8(x), x, 1)
  {
  }

  lemma MajorJustBelow(s: int, d: int)
    requires s > 0 && d > 0
    ensures JustBelow(Floor8(s), d * s, d)
  {
    var r := Floor8(s);
    MulOrder(r, s, d);
    MulOrder(s + 1, r + 8, d);
  }

  lemma QuotientBelow(m: int, s: int, d: int)
    requires m > 0 && s > 0 && d > s
    ensures m * s / d <= m
  {
    ProductBelow(s, m, d);
    var q := DivBounds(m * s, d);
    CancelRight(q, m, d);
  }

  /** The bound on the sides is needed: here the product wraps, and rounding to 8 hides it. */
  lemma WrapHidden()
    ensures var (w, h) := (0x7FFF_FFFF, 0x4000_0000);
      var (vw, vh) := VideoSize(w, h, 4); !Fits(w, h, 4) && SizeOk(w, h, 4, vw, vh)
  {
    assert Times(0x4000_0000, 4) == 0;
    assert Floor8(4) == 0 && Floor8(Over(0, 0x7FFF_FFFF)) == 0;
  }

  /** Beyond that the product wraps around and the size is lost. */
  lemma VideoSizeOverflows()
    ensures var (vw, vh) := VideoSize(46342, 46341, 46341); vh < 0
  {
    assert Times(46341, 46341) < -46342;
  }
}
