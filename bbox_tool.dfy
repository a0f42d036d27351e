/**
 * The box-drawing widget (src/components/common/BBoxTool.tsx): coordinate
 * conversions between the pointer, the rendered image and the image's natural
 * pixels; the press/drag/release state machine; what one redraw paints; and the
 * colour parser used for the box fill.
 *
 * The image element's layout is an input (`ImageLayout`): its bounding
 * rectangle as the browser reports it and its natural size. `None` stands for
 * the image element not being mounted.
 */
module BoxDrawing {
  import opened Wrappers
  import opened Numbers
  import opened Geometry
  import Strings

  datatype Point = Point(x: real, y: real)

  /** `getBoundingClientRect()` of the rendered image. */
  datatype ClientRect = ClientRect(left: real, top: real, width: real, height: real)

  datatype ImageLayout = ImageLayout(rect: ClientRect, naturalWidth: real, naturalHeight: real)

  /** A committed box of one finding slot, in natural pixels. */
  datatype ColoredBox = ColoredBox(id: string, box: Box, color: string, caption: Option<string>)

  /** One rectangle painted on the canvas, in display pixels: outline colour, fill colour, optional caption. */
  datatype DrawCmd = DrawCmd(box: Box, color: string, fill: string, caption: Option<string>)

  /** The command `drawBox` issues for one rectangle: fill at alpha 0.2, caption only when non-empty. */
  function BoxCommand(box: Box, color: string, caption: Option<string>): (c: DrawCmd)
    ensures c.box == box && c.color == color
    ensures c.fill == HexToRgba(color, "0.2")
    ensures c.caption.Some? <==> caption.Some? && caption.value != ""
    ensures c.caption.Some? ==> c.caption == caption
  {
    DrawCmd(box, color, HexToRgba(color, "0.2"), if caption.Some? && caption.value != "" then caption else None)
  }

  /** What the widget reports upward through `onChange(id, box)`. */
  datatype BoxChange = BoxChange(id: string, box: Box)

  // ---------------------------------------------------------------------------
  // Coordinate conversions

  /** `Math.max(lo, Math.min(hi, v))`. */
  function Clamp(lo: real, hi: real, v: real): (r: real)
    ensures lo <= hi ==> lo <= r <= hi
    ensures lo <= v <= hi ==> r == v
  {
    Max(lo, Min(hi, v))
  }

  /** `clientToDisplay`: the pointer position relative to the image, clamped into the image. */
  function ClientToDisplay(img: Option<ImageLayout>, clientX: real, clientY: real): (p: Option<Point>)
    ensures p.Some? <==> img.Some?
    ensures p.Some? && img.value.rect.width >= 0.0 ==> 0.0 <= p.value.x <= img.value.rect.width
    ensures p.Some? && img.value.rect.height >= 0.0 ==> 0.0 <= p.value.y <= img.value.rect.height
    ensures p.Some? && 0.0 <= clientX - img.value.rect.left <= img.value.rect.width ==>
              p.value.x == clientX - img.value.rect.left
    ensures p.Some? && 0.0 <= clientY - img.value.rect.top <= img.value.rect.height ==>
              p.value.y == clientY - img.value.rect.top
  {
    match img
    case None => None
    case Some(i) =>
      Some(Point(Clamp(0.0, i.rect.width, clientX - i.rect.left),
                 Clamp(0.0, i.rect.height, clientY - i.rect.top)))
  }

  /** Horizontal and vertical factors from one pixel grid to the other. */
  datatype Scale = Scale(sx: real, sy: real)

  /** Factors from display to natural pixels; none while the image is rendered with zero size. */
  function ToNatural(i: ImageLayout): (s: Option<Scale>)
    ensures s.Some? <==> i.rect.width != 0.0 && i.rect.height != 0.0
    ensures s.Some? ==> s.value.sx * i.rect.width == i.naturalWidth && s.value.sy * i.rect.height == i.naturalHeight
  {
    if i.rect.width == 0.0 || i.rect.height == 0.0 then None
    else Some(Scale(i.naturalWidth / i.rect.width, i.naturalHeight / i.rect.height))
  }

  /** Factors from natural to display pixels; none before the image has a natural size. */
  function ToDisplay(i: ImageLayout): (s: Option<Scale>)
    ensures s.Some? <==> i.naturalWidth != 0.0 && i.naturalHeight != 0.0
    ensures s.Some? ==> s.value.sx * i.naturalWidth == i.rect.width && s.value.sy * i.naturalHeight == i.rect.height
  {
    if i.naturalWidth == 0.0 || i.naturalHeight == 0.0 then None
    else Some(Scale(i.rect.width / i.naturalWidth, i.rect.height / i.naturalHeight))
  }

  /** `Math.round(c * f)`: one coordinate carried to the other grid and rounded to a whole pixel. */
  function RoundScaled(c: real, f: real): (r: real)
    ensures IsInteger(r) && Abs(r - c * f) <= 0.5
  {
    Round(c * f) as real
  }

  /** Every field scaled and rounded to a whole pixel. */
  function ScaleRounded(b: Box, s: Scale): Box {
    Box(RoundScaled(b.x, s.sx), RoundScaled(b.y, s.sy), RoundScaled(b.width, s.sx), RoundScaled(b.height, s.sy))
  }

  function Scaled(b: Box, s: Scale): Box {
    Box(b.x * s.sx, b.y * s.sy, b.width * s.sx, b.height * s.sy)
  }

  /** `displayToNatural`: scale by natural/rendered size and round every field. */
  function DisplayToNatural(img: Option<ImageLayout>, box: Option<Box>): (r: Option<Box>)
    ensures r.None? <==> img.None? || box.None? || ToNatural(img.value).None?
    ensures r.Some? ==> r.value == ScaleRounded(box.value, ToNatural(img.value).value)
  {
    if img.None? || box.None? then None
    else
      match ToNatural(img.value)
      case None => None
      case Some(s) => Some(ScaleRounded(box.value, s))
  }

  /** `naturalToDisplay`: scale by rendered/natural size, without rounding. */
  function NaturalToDisplay(img: Option<ImageLayout>, box: Option<Box>): (r: Option<Box>)
    ensures r.None? <==> img.None? || box.None? || ToDisplay(img.value).None?
    ensures r.Some? ==> r.value == Scaled(box.value, ToDisplay(img.value).value)
  {
    if img.None? || box.None? then None
    else
      match ToDisplay(img.value)
      case None => None
      case Some(s) => Some(Scaled(box.value, s))
  }

  /** Both sizes are known and positive: the image has loaded and been laid out. */
  predicate LaidOut(i: ImageLayout) {
    i.rect.width > 0.0 && i.rect.height > 0.0 && i.naturalWidth > 0.0 && i.naturalHeight > 0.0
  }

  /** A value within half a step of `c * s`, scaled back by `t = 1/s`, is within `t/2` of `c`. */
  lemma HalfStepBack(c: real, s: real, t: real, k: real)
    requires s > 0.0 && t > 0.0 && s * t == 1.0
    requires Abs(k - c * s) <= 0.5
    ensures Abs(k * t - c) <= t / 2.0
  {
    var e := k - c * s;
    assert k * t == c * s * t + e * t;
    assert c * s * t == c;
    assert -0.5 * t <= e * t <= 0.5 * t;
  }

  /** Scaling by `s`, rounding, and scaling back by `t = 1/s` moves a value by at most `t/2`. */
  lemma RoundScaledBack(c: real, s: real, t: real)
    requires s > 0.0 && t > 0.0 && s * t == 1.0
    ensures Abs(RoundScaled(c, s) * t - c) <= t / 2.0
  {
    HalfStepBack(c, s, t, RoundScaled(c, s));
  }

  /** Scaling a whole value by `t`, then by `s = 1/t` and rounding gives it back unchanged. */
  lemma RoundScaledExact(k: real, t: real, s: real, v: real)
    requires t * s == 1.0 && IsInteger(k)
    requires v == k * t
    ensures RoundScaled(v, s) == k
  {
    var r := RoundScaled(v, s);
    assert v * s == k * (t * s);
    assert Abs(r - k) <= 0.5;
    IntegersApart(r, k);
  }

  /** Two whole numbers less than one apart are equal. */
  lemma IntegersApart(a: real, b: real)
    requires IsInteger(a) && IsInteger(b) && Abs(a - b) < 1.0
    ensures a == b
  {
    assert -1 < a.Floor - b.Floor < 1;
  }

  /** The two factors of a laid-out image are each other's inverse. */
  lemma ScalesInverse(i: ImageLayout)
    requires LaidOut(i)
    ensures ToNatural(i).Some? && ToDisplay(i).Some?
    ensures ToNatural(i).value.sx * ToDisplay(i).value.sx == 1.0
    ensures ToNatural(i).value.sy * ToDisplay(i).value.sy == 1.0
    ensures ToNatural(i).value.sx > 0.0 && ToDisplay(i).value.sx > 0.0
    ensures ToNatural(i).value.sy > 0.0 && ToDisplay(i).value.sy > 0.0
  {
    var s, t := ToNatural(i).value, ToDisplay(i).value;
    assert s.sx * t.sx * i.naturalWidth == s.sx * i.rect.width;
    assert s.sy * t.sy * i.naturalHeight == s.sy * i.rect.height;
  }

  /**
   * Display to natural and back lands within half a natural pixel, measured in
   * display pixels (`t.sx * naturalWidth == rect.width`), of where it started.
   */
  lemma DisplayNaturalRoundTrip(i: ImageLayout, b: Box)
    requires LaidOut(i)
    ensures NaturalToDisplay(Some(i), DisplayToNatural(Some(i), Some(b))).Some?
    ensures var d := NaturalToDisplay(Some(i), DisplayToNatural(Some(i), Some(b))).value;
            var t := ToDisplay(i).value;
            && Abs(d.x - b.x) <= t.sx / 2.0 && Abs(d.y - b.y) <= t.sy / 2.0
            && Abs(d.width - b.width) <= t.sx / 2.0 && Abs(d.height - b.height) <= t.sy / 2.0
  {
    ScalesInverse(i);
    var s, t := ToNatural(i).value, ToDisplay(i).value;
    BackToDisplay(b, s, t);
  }

  /** `ScaleRounded` by `s` and then `Scaled` by its inverse `t` moves each field by at most `t/2`. */
  lemma BackToDisplay(b: Box, s: Scale, t: Scale)
    requires s.sx > 0.0 && t.sx > 0.0 && s.sx * t.sx == 1.0
    requires s.sy > 0.0 && t.sy > 0.0 && s.sy * t.sy == 1.0
    ensures var d := Scaled(ScaleRounded(b, s), t);
            && Abs(d.x - b.x) <= t.sx / 2.0 && Abs(d.y - b.y) <= t.sy / 2.0
            && Abs(d.width - b.width) <= t.sx / 2.0 && Abs(d.height - b.height) <= t.sy / 2.0
  {
    BackX(b, s, t);
    BackY(b, s, t);
    BackWidth(b, s, t);
    BackHeight(b, s, t);
  }

  lemma BackX(b: Box, s: Scale, t: Scale)
    requires s.sx > 0.0 && t.sx > 0.0 && s.sx * t.sx == 1.0
    ensures Abs(Scaled(ScaleRounded(b, s), t).x - b.x) <= t.sx / 2.0
  {
    RoundScaledBack(b.x, s.sx, t.sx);
  }

  lemma BackY(b: Box, s: Scale, t: Scale)
    requires s.sy > 0.0 && t.sy > 0.0 && s.sy * t.sy == 1.0
    ensures Abs(Scaled(ScaleRounded(b, s), t).y - b.y) <= t.sy / 2.0
  {
    RoundScaledBack(b.y, s.sy, t.sy);
  }

  lemma BackWidth(b: Box, s: Scale, t: Scale)
    requires s.sx > 0.0 && t.sx > 0.0 && s.sx * t.sx == 1.0
    ensures Abs(Scaled(ScaleRounded(b, s), t).width - b.width) <= t.sx / 2.0
  {
    RoundScaledBack(b.width, s.sx, t.sx);
  }

  lemma BackHeight(b: Box, s: Scale, t: Scale)
    requires s.sy > 0.0 && t.sy > 0.0 && s.sy * t.sy == 1.0
    ensures Abs(Scaled(ScaleRounded(b, s), t).height - b.height) <= t.sy / 2.0
  {
    RoundScaledBack(b.height, s.sy, t.sy);
  }

  /** A box on whole natural pixels survives natural to display and back exactly. */
  lemma NaturalDisplayRoundTrip(i: ImageLayout, b: Box)
    requires LaidOut(i)
    requires IsInteger(b.x) && IsInteger(b.y) && IsInteger(b.width) && IsInteger(b.height)
    ensures DisplayToNatural(Some(i), NaturalToDisplay(Some(i), Some(b))) == Some(b)
  {
    ScalesInverse(i);
    var s, t := ToNatural(i).value, ToDisplay(i).value;
    var d := Scaled(b, t);
    assert d == Box(b.x * t.sx, b.y * t.sy, b.width * t.sx, b.height * t.sy);
    RoundScaledExact(b.x, t.sx, s.sx, d.x);
    RoundScaledExact(b.y, t.sy, s.sy, d.y);
    RoundScaledExact(b.width, t.sx, s.sx, d.width);
    RoundScaledExact(b.height, t.sy, s.sy, d.height);
    assert ScaleRounded(d, s) == b;
  }

  /** The drag rectangle: the smallest box with the press point and the current point as corners. */
  function DragBox(s: Point, p: Point): (b: Box)
    ensures NonNegative(b)
    ensures b.x == Min(s.x, p.x) && b.x + b.width == Max(s.x, p.x)
    ensures b.y == Min(s.y, p.y) && b.y + b.height == Max(s.y, p.y)
  {
    Box(Min(s.x, p.x), Min(s.y, p.y), Abs(p.x - s.x), Abs(p.y - s.y))
  }

  // ---------------------------------------------------------------------------
  // Redraw

  /** The committed boxes a redraw paints: all but the active slot's while it is being redrawn. */
  function VisibleBoxes(boxes: seq<ColoredBox>, drawing: bool, activeBoxId: Option<string>): (r: seq<ColoredBox>)
    ensures |r| <= |boxes|
    ensures forall b :: b in r <==> b in boxes && !(drawing && activeBoxId == Some(b.id))
    ensures !drawing ==> r == boxes
  {
    if boxes == [] then []
    else
      var rest := VisibleBoxes(boxes[1..], drawing, activeBoxId);
      assert forall b :: b in boxes <==> b == boxes[0] || b in boxes[1..];
      if drawing && activeBoxId == Some(boxes[0].id) then rest else [boxes[0]] + rest
  }

  /** Paint commands for committed boxes: each projected to display pixels; skipped if that fails. */
  function StaticCommands(boxes: seq<ColoredBox>, img: Option<ImageLayout>): (r: seq<DrawCmd>)
    ensures |r| <= |boxes|
    ensures img.Some? && img.value.naturalWidth != 0.0 && img.value.naturalHeight != 0.0 ==> |r| == |boxes|
    ensures img.None? || img.value.naturalWidth == 0.0 || img.value.naturalHeight == 0.0 ==> r == []
    ensures img.Some? && img.value.naturalWidth != 0.0 && img.value.naturalHeight != 0.0 ==>
              forall i :: 0 <= i < |boxes| ==>
                r[i] == BoxCommand(NaturalToDisplay(img, Some(boxes[i].box)).value, boxes[i].color, boxes[i].caption)
  {
    if boxes == [] then []
    else
      var rest := StaticCommands(boxes[1..], img);
      match NaturalToDisplay(img, Some(boxes[0].box))
      case None => rest
      case Some(d) => [BoxCommand(d, boxes[0].color, boxes[0].caption)] + rest
  }

  /** Colour of the first box with the given id, or green when there is none (or it is empty). */
  function ActiveColor(boxes: seq<ColoredBox>, id: string): (c: string)
    ensures c != ""
    ensures (forall b :: b in boxes ==> b.id != id) ==> c == "#00FF00"
    ensures forall i :: 0 <= i < |boxes| && boxes[i].id == id && (forall j :: 0 <= j < i ==> boxes[j].id != id) ==>
              c == (if boxes[i].color != "" then boxes[i].color else "#00FF00")
  {
    if boxes == [] then "#00FF00"
    else if boxes[0].id == id then (if boxes[0].color != "" then boxes[0].color else "#00FF00")
    else ActiveColor(boxes[1..], id)
  }

  // ---------------------------------------------------------------------------
  // Fill colour

  predicate IsHexDigit(c: char) { '0' <= c <= '9' || 'a' <= c <= 'f' || 'A' <= c <= 'F' }

  function HexDigitValue(c: char): (v: nat)
    requires IsHexDigit(c)
    ensures v < 16
  {
    if '0' <= c <= '9' then (c as int - '0' as int) as nat
    else if 'a' <= c <= 'f' then (c as int - 'a' as int + 10) as nat
    else (c as int - 'A' as int + 10) as nat
  }

  /** The test `/^#([A-Fa-f0-9]{3}){1,2}$/`: a `#` and then three or six hex digits. */
  predicate IsHexColor(hex: string) {
    (|hex| == 4 || |hex| == 7) && hex[0] == '#'
    && forall i :: 1 <= i < |hex| ==> IsHexDigit(hex[i])
  }

  /** The six digits after `#`, each digit of a three-digit colour written twice. */
  function SixDigits(hex: string): (ds: string)
    requires IsHexColor(hex)
    ensures |ds| == 6 && forall i :: 0 <= i < 6 ==> IsHexDigit(ds[i])
    ensures |hex| == 7 ==> ds == hex[1..]
    ensures |hex| == 4 ==> forall i :: 0 <= i < 6 ==> ds[i] == hex[1 + i / 2]
  {
    if |hex| == 4 then [hex[1], hex[1], hex[2], hex[2], hex[3], hex[3]] else hex[1..]
  }

  /** Value of the digits read as a hexadecimal number (the `'0x' + …` conversion). */
  function HexValue(ds: string): nat
    requires forall i :: 0 <= i < |ds| ==> IsHexDigit(ds[i])
  {
    if ds == [] then 0 else 16 * HexValue(ds[..|ds| - 1]) + HexDigitValue(ds[|ds| - 1])
  }

  /** The red, green and blue bytes `(c >> 16) & 255`, `(c >> 8) & 255`, `c & 255`. */
  function Channels(hex: string): (rgb: (nat, nat, nat))
    requires IsHexColor(hex)
    ensures rgb.0 < 256 && rgb.1 < 256 && rgb.2 < 256
  {
    var c := HexValue(SixDigits(hex));
    ((c / 65536) % 256, (c / 256) % 256, c % 256)
  }

  /** `hexToRgba`: the fill colour for a `#rgb`/`#rrggbb` colour, a fixed translucent black otherwise. */
  function HexToRgba(hex: string, alpha: string): (r: string)
    ensures !IsHexColor(hex) ==> r == "rgba(0,0,0,0.2)"
    ensures IsHexColor(hex) ==>
              var rgb := Channels(hex);
              r == "rgba(" + Strings.NatToString(rgb.0) + "," + Strings.NatToString(rgb.1) + ","
                   + Strings.NatToString(rgb.2) + "," + alpha + ")"
  {
    if IsHexColor(hex) then
      var rgb := Channels(hex);
      "rgba(" + Strings.NatToString(rgb.0) + "," + Strings.NatToString(rgb.1) + ","
      + Strings.NatToString(rgb.2) + "," + alpha + ")"
    else "rgba(0,0,0,0.2)"
  }

  /** Reading one more digit multiplies what was read so far by 16 and adds the digit. */
  lemma HexValueStep(ds: string, k: nat)
    requires 0 < k <= |ds| && forall i :: 0 <= i < |ds| ==> IsHexDigit(ds[i])
    ensures HexValue(ds[..k]) == 16 * HexValue(ds[..k - 1]) + HexDigitValue(ds[k - 1])
  {
    assert ds[..k][..k - 1] == ds[..k - 1];
  }

  /** Six hex digits read as a number, written out place by place. */
  lemma HexValueSix(ds: string)
    requires |ds| == 6 && forall i :: 0 <= i < 6 ==> IsHexDigit(ds[i])
    ensures HexValue(ds) == 65536 * (16 * HexDigitValue(ds[0]) + HexDigitValue(ds[1]))
                          + 256 * (16 * HexDigitValue(ds[2]) + HexDigitValue(ds[3]))
                          + (16 * HexDigitValue(ds[4]) + HexDigitValue(ds[5]))
  {
    assert ds[..0] == [];
    HexValueStep(ds, 1);
    HexValueStep(ds, 2);
    HexValueStep(ds, 3);
    HexValueStep(ds, 4);
    HexValueStep(ds, 5);
    HexValueStep(ds, 6);
    assert ds[..6] == ds;
  }

  /** Splitting a 24-bit value built from three bytes gives the bytes back. */
  lemma ByteSplit(r: nat, g: nat, b: nat)
    requires r < 256 && g < 256 && b < 256
    ensures var c := 65536 * r + 256 * g + b;
            (c / 65536) % 256 == r && (c / 256) % 256 == g && c % 256 == b
  {
    var c := 65536 * r + 256 * g + b;
    assert c / 65536 == r;
    assert c / 256 == 256 * r + g;
  }

  /** Each channel is the two-digit hex number of its pair of digits. */
  lemma ChannelsArePairs(hex: string)
    requires IsHexColor(hex)
    ensures var ds := SixDigits(hex);
            Channels(hex) == (16 * HexDigitValue(ds[0]) + HexDigitValue(ds[1]),
                              16 * HexDigitValue(ds[2]) + HexDigitValue(ds[3]),
                              16 * HexDigitValue(ds[4]) + HexDigitValue(ds[5]))
  {
    var ds := SixDigits(hex);
    HexValueSix(ds);
    ByteSplit(16 * HexDigitValue(ds[0]) + HexDigitValue(ds[1]),
              16 * HexDigitValue(ds[2]) + HexDigitValue(ds[3]),
              16 * HexDigitValue(ds[4]) + HexDigitValue(ds[5]));
  }

  /** A three-digit colour means the same as the six-digit colour with every digit doubled. */
  lemma ShortHexDoubles(a: char, b: char, c: char, alpha: string)
    requires IsHexDigit(a) && IsHexDigit(b) && IsHexDigit(c)
    ensures IsHexColor(['#', a, b, c]) && IsHexColor(['#', a, a, b, b, c, c])
    ensures HexToRgba(['#', a, b, c], alpha) == HexToRgba(['#', a, a, b, b, c, c], alpha)
    ensures Channels(['#', a, b, c]) == (17 * HexDigitValue(a), 17 * HexDigitValue(b), 17 * HexDigitValue(c))
  {
    var short, long := ['#', a, b, c], ['#', a, a, b, b, c, c];
    assert SixDigits(short) == SixDigits(long);
    ChannelsArePairs(short);
  }

  // ---------------------------------------------------------------------------
  // The widget

  class BBoxTool {
    // Props, replaced on every render of the parent.
    var boxes: seq<ColoredBox>
    var activeBoxId: Option<string>
    var enabled: bool

    // Component state.
    var drawing: bool
    var startPoint: Option<Point>
    var currentDragBox: Option<Box>

    /** Drawing exactly while a press point is recorded; a drag box only while drawing, never inverted. */
    ghost predicate Valid()
      reads this
    {
      && (drawing <==> startPoint.Some?)
      && (currentDragBox.Some? ==> drawing && NonNegative(currentDragBox.value))
    }

    /** `enabled && activeBoxId`: pointer input is live (an empty id is falsy). */
    predicate Armed()
      reads this
    {
      enabled && activeBoxId.Some? && activeBoxId.value != ""
    }

    constructor (boxes: seq<ColoredBox>, activeBoxId: Option<string>, enabled: bool)
      ensures Valid()
      ensures this.boxes == boxes && this.activeBoxId == activeBoxId && this.enabled == enabled
      ensures !drawing && startPoint.None? && currentDragBox.None?
    {
      this.boxes := boxes;
      this.activeBoxId := activeBoxId;
      this.enabled := enabled;
      drawing := false;
      startPoint := None;
      currentDragBox := None;
    }

    /** The parent re-renders with new props; the drawing state is kept. */
    method Render(boxes: seq<ColoredBox>, activeBoxId: Option<string>, enabled: bool)
      requires Valid()
      modifies this
      ensures Valid()
      ensures this.boxes == boxes && this.activeBoxId == activeBoxId && this.enabled == enabled
      ensures drawing == old(drawing) && startPoint == old(startPoint) && currentDragBox == old(currentDragBox)
    {
      this.boxes := boxes;
      this.activeBoxId := activeBoxId;
      this.enabled := enabled;
    }

    /**
     * `handlePointerDown`: ignored unless armed, the event carries a position
     * and the image is mounted; otherwise start drawing at the clamped point.
     */
    method PointerDown(img: Option<ImageLayout>, client: Option<Point>)
      requires Valid()
      modifies this
      ensures Valid()
      ensures boxes == old(boxes) && activeBoxId == old(activeBoxId) && enabled == old(enabled)
      ensures var accepted := old(Armed()) && client.Some? && img.Some?;
              && (accepted ==>
                    && drawing
                    && startPoint == ClientToDisplay(img, client.value.x, client.value.y)
                    && currentDragBox.None?)
              && (!accepted ==>
                    drawing == old(drawing) && startPoint == old(startPoint) && currentDragBox == old(currentDragBox))
    {
      if !Armed() || client.None? {
        return;
      }
      var p := ClientToDisplay(img, client.value.x, client.value.y);
      if p.None? {
        return;
      }
      startPoint := p;
      drawing := true;
      currentDragBox := None;
    }

    /** `handlePointerMove`: while drawing, the drag box spans the press point and the current point. */
    method PointerMove(img: Option<ImageLayout>, client: Option<Point>)
      requires Valid()
      modifies this
      ensures Valid()
      ensures boxes == old(boxes) && activeBoxId == old(activeBoxId) && enabled == old(enabled)
      ensures drawing == old(drawing) && startPoint == old(startPoint)
      ensures var accepted := old(Armed()) && old(drawing) && client.Some? && img.Some?;
              && (accepted ==>
                    currentDragBox == Some(DragBox(old(startPoint).value,
                                                   ClientToDisplay(img, client.value.x, client.value.y).value)))
              && (!accepted ==> currentDragBox == old(currentDragBox))
    {
      if !enabled || !drawing || startPoint.None? || !Armed() || client.None? {
        return;
      }
      var p := ClientToDisplay(img, client.value.x, client.value.y);
      if p.None? {
        return;
      }
      currentDragBox := Some(DragBox(startPoint.value, p.value));
    }

    /**
     * `handlePointerUp` (also pointer-leave): a no-op unless drawing; otherwise
     * drawing ends, and the drag box, converted to natural pixels, is reported
     * for the active slot. There is no minimum size: a zero-area box is reported.
     */
    method PointerUp(img: Option<ImageLayout>) returns (change: Option<BoxChange>)
      requires Valid()
      modifies this
      ensures Valid()
      ensures boxes == old(boxes) && activeBoxId == old(activeBoxId) && enabled == old(enabled)
      ensures !old(drawing) ==>
                change.None? && !drawing && startPoint == old(startPoint) && currentDragBox == old(currentDragBox)
      ensures old(drawing) ==> !drawing && startPoint.None? && currentDragBox.None?
      ensures change.Some? <==>
                old(drawing) && old(currentDragBox).Some? && activeBoxId.Some? && activeBoxId.value != ""
                && DisplayToNatural(img, old(currentDragBox)).Some?
      ensures change.Some? ==>
                change.value == BoxChange(activeBoxId.value, DisplayToNatural(img, old(currentDragBox)).value)
    {
      if !drawing {
        return None;
      }
      drawing := false;
      startPoint := None;
      change := None;
      if currentDragBox.Some? && activeBoxId.Some? && activeBoxId.value != "" {
        var natural := DisplayToNatural(img, currentDragBox);
        if natural.Some? {
          change := Some(BoxChange(activeBoxId.value, natural.value));
        }
      }
      currentDragBox := None;
    }

    /** `draw`: the committed boxes not being redrawn, then the drag box of the active slot. */
    function Draw(img: Option<ImageLayout>): (cmds: seq<DrawCmd>)
      reads this
      ensures img.None? ==> cmds == []
      ensures |cmds| <= |boxes| + 1
      ensures img.Some? && !drawing ==> cmds == StaticCommands(boxes, img)
      ensures img.Some? && drawing && currentDragBox.Some? && activeBoxId.Some? && activeBoxId.value != "" ==>
                |cmds| >= 1 && cmds[|cmds| - 1].caption == Some("Rajzolás...")
    {
      if img.None? then []
      else
        StaticCommands(VisibleBoxes(boxes, drawing, activeBoxId), img)
        + (if drawing && currentDragBox.Some? && activeBoxId.Some? && activeBoxId.value != ""
           then [BoxCommand(currentDragBox.value, ActiveColor(boxes, activeBoxId.value), Some("Rajzolás..."))]
           else [])
    }
  }

  /**
   * While a slot is being redrawn its committed box is not painted; the drag
   * box is painted last, in the slot's colour, with the "drawing" label.
   */
  lemma DrawWhileDrawing(t: BBoxTool, img: ImageLayout)
    requires t.drawing && t.currentDragBox.Some? && t.activeBoxId.Some? && t.activeBoxId.value != ""
    ensures var cmds := t.Draw(Some(img));
            && |cmds| >= 1
            && cmds[|cmds| - 1] == BoxCommand(t.currentDragBox.value, ActiveColor(t.boxes, t.activeBoxId.value), Some("Rajzolás..."))
            && |cmds| - 1 <= |t.boxes|
    ensures forall b :: b in VisibleBoxes(t.boxes, t.drawing, t.activeBoxId) ==> b.id != t.activeBoxId.value
    ensures var cmds := t.Draw(Some(img));
            cmds[..|cmds| - 1] == StaticCommands(VisibleBoxes(t.boxes, t.drawing, t.activeBoxId), Some(img))
    ensures img.naturalWidth != 0.0 && img.naturalHeight != 0.0 ==>
              var cmds := t.Draw(Some(img));
              var visible := VisibleBoxes(t.boxes, t.drawing, t.activeBoxId);
              |cmds| - 1 == |visible| &&
              forall i :: 0 <= i < |visible| ==>
                visible[i] in t.boxes && visible[i].id != t.activeBoxId.value &&
                cmds[i] == BoxCommand(NaturalToDisplay(Some(img), Some(visible[i].box)).value, visible[i].color, visible[i].caption)
  {
    var cmds := t.Draw(Some(img));
    var visible := VisibleBoxes(t.boxes, t.drawing, t.activeBoxId);
    assert cmds[..|cmds| - 1] == StaticCommands(visible, Some(img));
  }

  /** Without a drag in progress every committed box is painted (once the image has a natural size). */
  lemma DrawIdle(t: BBoxTool, img: ImageLayout)
    requires !t.drawing
    requires img.naturalWidth != 0.0 && img.naturalHeight != 0.0
    ensures t.Draw(Some(img)) == StaticCommands(t.boxes, Some(img))
    ensures |t.Draw(Some(img))| == |t.boxes|
  {
  }
}
