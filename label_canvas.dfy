/** What the label designer draws and what it draws on: the canvas fields
    as the store holds them once their barcode images are resolved, the
    effects a draw pass has (canvas operations and dispatched actions), and
    the rendering context that records them. */
module LabelCanvas {

  /** A JavaScript property that may be undefined. */
  datatype Option<+T> = None | Some(value: T)

  /** A loaded barcode image; the draw pass uses only its pixel size. */
  datatype Image = Image(src: string, width: int, height: int)

  /** A field of the label: an inline text, or a barcode whose image handle
      is present once its image has loaded. Positions are canvas pixels and
      rotations radians; 0 means not rotated. */
  datatype CanvasField =
    | CanvasTextField(value: string, canvasFont: string, drawnHeight: int,
                      canvasX: real, canvasY: real, canvasRotation: real)
    | CanvasBarcodeField(barcodeType: string, value: string, img: Option<Image>,
                         canvasX: real, canvasY: real, canvasRotation: real)

  /** The text state of the 2D context that fillText paints with. */
  datatype TextStyle = TextStyle(textAlign: string, fillStyle: string, textBaseline: string, font: string)

  /** One paint operation, at coordinates of the current coordinate system. */
  datatype Draw =
    | FillText(text: string, x: real, y: real, style: TextStyle)
    | DrawImage(img: Image, x: real, y: real)

  /** The store action the draw pass dispatches. */
  datatype Action = UpdateBarcodeFieldDrawnDimensions(canvasField: CanvasField, width: int, height: int)

  /** What a draw pass does, in order: clear the surface, paint directly in
      canvas coordinates, paint inside a rotation scope (translated to
      (x, y) and rotated by angle, restored afterwards), or dispatch. */
  datatype Effect =
    | Clear(width: real, height: real)
    | Paint(draw: Draw)
    | PaintRotated(x: real, y: real, angle: real, draw: Draw)
    | Dispatch(action: Action)

  /** True for an effect that paints text. */
  predicate DrawsText(e: Effect) {
    (e.Paint? || e.PaintRotated?) && e.draw.FillText?
  }

  /** True for an effect that paints an image. */
  predicate DrawsImage(e: Effect) {
    (e.Paint? || e.PaintRotated?) && e.draw.DrawImage?
  }

  /** The decimal digit for d. */
  function Digit(d: nat): (c: char)
    requires d < 10
    ensures '0' <= c <= '9'
    ensures c as int - '0' as int == d
  {
    ('0' as int + d) as char
  }

  /** The decimal notation of n without leading zeros. */
  function NatToDecimal(n: nat): (s: string)
    ensures |s| >= 1
    ensures forall i :: 0 <= i < |s| ==> '0' <= s[i] <= '9'
    ensures s[0] == '0' ==> n == 0 && |s| == 1
  {
    if n < 10 then [Digit(n)] else NatToDecimal(n / 10) + [Digit(n % 10)]
  }

  /** The number a string of decimal digits denotes. */
  function DecimalValue(s: string): int {
    if s == [] then 0 else 10 * DecimalValue(s[..|s| - 1]) + (s[|s| - 1] as int - '0' as int)
  }

  /** Reading back the decimal notation gives the number. */
  lemma {:induction false} DecimalRoundTrip(n: nat)
    ensures DecimalValue(NatToDecimal(n)) == n
  {
    var s := NatToDecimal(n);
    if n < 10 {
      assert s[..|s| - 1] == [];
    } else {
      var p := NatToDecimal(n / 10);
      assert s == p + [Digit(n % 10)];
      assert s[..|s| - 1] == p;
      DecimalRoundTrip(n / 10);
      assert DecimalValue(s) == 10 * (n / 10) + n % 10;
    }
  }

  /** The magnitude of n. */
  function Abs(n: int): nat {
    if n < 0 then -n else n
  }

  /** How a template literal renders an integral JavaScript number: a minus
      sign exactly when it is negative, then the decimal digits of its
      magnitude. */
  function NumberToString(n: int): (s: string)
    ensures |s| >= 1 && (s[0] == '-' <==> n < 0)
    ensures var digits := s[if n < 0 then 1 else 0..];
            |digits| >= 1 && (forall i :: 0 <= i < |digits| ==> '0' <= digits[i] <= '9')
            && DecimalValue(digits) == Abs(n) && (digits[0] == '0' ==> |digits| == 1)
  {
    DecimalRoundTrip(Abs(n));
    var digits := NatToDecimal(Abs(n));
    if n < 0 then
      assert ("-" + digits)[1..] == digits;
      "-" + digits
    else digits
  }

  /** The 2D rendering context of the label canvas, reduced to the text
      state the draw pass sets and a log of what happens through it. The
      store's dispatch channel writes to the same log, so that the order of
      paints and dispatches is kept. */
  class Canvas {
    var textAlign: string
    var fillStyle: string
    var textBaseline: string
    var font: string
    var log: seq<Effect>

    /** The text state fillText would paint with now. */
    function Style(): TextStyle
      reads this
    {
      TextStyle(textAlign, fillStyle, textBaseline, font)
    }

    /** A context in the Canvas2D default text state (which reports its fill
        as "#000000"). It exists only so that a context can be built; the
        designer itself obtains its context from getContext("2d"). */
    constructor ()
      ensures log == []
      ensures Style() == TextStyle("start", "#000000", "alphabetic", "10px sans-serif")
    {
      textAlign, fillStyle, textBaseline, font := "start", "#000000", "alphabetic", "10px sans-serif";
      log := [];
    }

    /** The fillText paint of text at (x, y) with the current text state. */
    function TextAt(text: string, x: real, y: real): (d: Draw)
      reads this
      ensures d.FillText? && d.text == text && d.x == x && d.y == y && d.style == Style()
    {
      FillText(text, x, y, Style())
    }

    /** clearCanvas(ctx, width, height). */
    method ClearCanvas(width: real, height: real)
      modifies this`log
      ensures log == old(log) + [Clear(width, height)]
    {
      log := log + [Clear(width, height)];
    }

    /** ctx.fillText(text, x, y). */
    method FillTextAt(text: string, x: real, y: real)
      modifies this`log
      ensures log == old(log) + [Paint(TextAt(text, x, y))]
    {
      log := log + [Paint(TextAt(text, x, y))];
    }

    /** ctx.drawImage(img, x, y). */
    method DrawImageAt(img: Image, x: real, y: real)
      modifies this`log
      ensures log == old(log) + [Paint(DrawImage(img, x, y))]
    {
      log := log + [Paint(DrawImage(img, x, y))];
    }

    /** withCanvasRotation(ctx, x, y, angle, draw): the draw happens in a
        coordinate system translated to (x, y) and rotated by angle, and the
        transform is restored afterwards. */
    method WithCanvasRotation(x: real, y: real, angle: real, draw: Draw)
      modifies this`log
      ensures log == old(log) + [PaintRotated(x, y, angle, draw)]
    {
      log := log + [PaintRotated(x, y, angle, draw)];
    }

    /** dispatch(action). */
    method Dispatch(action: Action)
      modifies this`log
      ensures log == old(log) + [Effect.Dispatch(action)]
    {
      log := log + [Effect.Dispatch(action)];
    }
  }
}
