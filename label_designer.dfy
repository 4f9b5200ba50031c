/** The label designer's draw pass and its canvas height rule. Once every
    barcode image is resolved, the pass clears the canvas, draws every text
    field in list order, then draws every barcode field that has an image
    in list order, each inside a rotation scope exactly when its rotation
    is non-zero, and reports each drawn image's size to the store. */
module LabelDesigner {
  import opened LabelCanvas

  /** The fixed text state every text field is drawn with. */
  const TextAlign: string := "start"
  const TextFill: string := "#000"
  const TextBaseline: string := "bottom"

  function Init<T>(s: seq<T>): seq<T>
    requires s != []
  {
    s[..|s| - 1]
  }

  function Last<T>(s: seq<T>): T
    requires s != []
  {
    s[|s| - 1]
  }

  /** Each element's images under f, concatenated in the order of xs. */
  function FlatMap<A, B>(xs: seq<A>, f: A -> seq<B>): seq<B> {
    if xs == [] then [] else FlatMap(Init(xs), f) + f(Last(xs))
  }

  lemma {:induction false} FlatMapAppend<A, B>(xs: seq<A>, ys: seq<A>, f: A -> seq<B>)
    ensures FlatMap(xs + ys, f) == FlatMap(xs, f) + FlatMap(ys, f)
  {
    if ys == [] {
      assert xs + ys == xs;
    } else {
      FlatMapAppend(xs, Init(ys), f);
      assert Init(xs + ys) == xs + Init(ys);
      assert Last(xs + ys) == Last(ys);
    }
  }

  /** A property every image element has holds of every element of the result. */
  lemma {:induction false} FlatMapKeeps<A, B>(xs: seq<A>, f: A -> seq<B>, p: B -> bool)
    requires forall x, y :: x in xs && y in f(x) ==> p(y)
    ensures forall y :: y in FlatMap(xs, f) ==> p(y)
  {
    if xs != [] {
      assert forall x :: x in Init(xs) ==> x in xs;
      FlatMapKeeps(Init(xs), f, p);
      assert Last(xs) in xs;
    }
  }

  lemma {:induction false} FlatMapNil<A, B>(xs: seq<A>, f: A -> seq<B>)
    requires forall x :: x in xs ==> f(x) == []
    ensures FlatMap(xs, f) == []
  {
    if xs != [] {
      assert forall x :: x in Init(xs) ==> x in xs;
      FlatMapNil(Init(xs), f);
      assert Last(xs) in xs;
    }
  }

  /** Mapping g over the result of mapping f is one map whose images are h. */
  lemma {:induction false} FlatMapFuse<A, B, C>(xs: seq<A>, f: A -> seq<B>, g: B -> seq<C>, h: A -> seq<C>)
    requires forall x :: x in xs ==> FlatMap(f(x), g) == h(x)
    ensures FlatMap(FlatMap(xs, f), g) == FlatMap(xs, h)
  {
    if xs != [] {
      assert forall x :: x in Init(xs) ==> x in xs;
      FlatMapFuse(Init(xs), f, g, h);
      assert Last(xs) in xs;
      FlatMapAppend(FlatMap(Init(xs), f), f(Last(xs)), g);
    }
  }

  /** The font a text field is drawn with: its drawn height in pixels, then its font name. */
  function FontOf(f: CanvasField): string
    requires f.CanvasTextField?
  {
    NumberToString(f.drawnHeight) + "px " + f.canvasFont
  }

  function TextStyleOf(f: CanvasField): TextStyle
    requires f.CanvasTextField?
  {
    TextStyle(TextAlign, TextFill, TextBaseline, FontOf(f))
  }

  /** Drawing a text field: rotated about its position with the text at
      the local origin when its rotation is non-zero, at its position otherwise. */
  function TextPaint(f: CanvasField): (e: Effect)
    requires f.CanvasTextField?
    ensures DrawsText(e) && e.draw.text == f.value && e.draw.style == TextStyleOf(f)
    ensures e.PaintRotated? <==> f.canvasRotation != 0.0
    ensures e.PaintRotated? ==> e.x == f.canvasX && e.y == f.canvasY && e.angle == f.canvasRotation
    ensures e.PaintRotated? ==> e.draw.x == 0.0 && e.draw.y == 0.0
    ensures e.Paint? ==> e.draw.x == f.canvasX && e.draw.y == f.canvasY
  {
    var style := TextStyleOf(f);
    if f.canvasRotation != 0.0 then
      PaintRotated(f.canvasX, f.canvasY, f.canvasRotation, FillText(f.value, 0.0, 0.0, style))
    else
      Paint(FillText(f.value, f.canvasX, f.canvasY, style))
  }

  /** Drawing the image of a barcode field, by the same rotation rule. */
  function ImagePaint(f: CanvasField, img: Image): (e: Effect)
    ensures DrawsImage(e) && e.draw.img == img
    ensures e.PaintRotated? <==> f.canvasRotation != 0.0
    ensures e.PaintRotated? ==> e.x == f.canvasX && e.y == f.canvasY && e.angle == f.canvasRotation
    ensures e.PaintRotated? ==> e.draw.x == 0.0 && e.draw.y == 0.0
    ensures e.Paint? ==> e.draw.x == f.canvasX && e.draw.y == f.canvasY
  {
    if f.canvasRotation != 0.0 then
      PaintRotated(f.canvasX, f.canvasY, f.canvasRotation, DrawImage(img, 0.0, 0.0))
    else
      Paint(DrawImage(img, f.canvasX, f.canvasY))
  }

  /** A field's part of the text layer. */
  function TextEffects(f: CanvasField): seq<Effect> {
    if f.CanvasTextField? then [TextPaint(f)] else []
  }

  /** A field's part of the image layer: a barcode field with an image is
      drawn and its image's size dispatched; any other field adds nothing. */
  function ImageEffects(f: CanvasField): seq<Effect> {
    if f.CanvasBarcodeField? && f.img.Some? then
      var img := f.img.value;
      [ImagePaint(f, img), Dispatch(UpdateBarcodeFieldDrawnDimensions(f, img.width, img.height))]
    else []
  }

  /** Everything one draw pass over the resolved fields does, in order. */
  function Frame(fields: seq<CanvasField>, width: real, height: real): seq<Effect> {
    [Clear(width, height)] + FlatMap(fields, TextEffects) + FlatMap(fields, ImageEffects)
  }

  /** The text state the context is left with: that of the last text field
      drawn, or the one it had when there is none. */
  function StyleAfter(fields: seq<CanvasField>, initial: TextStyle): TextStyle {
    if fields == [] then initial
    else if Last(fields).CanvasTextField? then TextStyleOf(Last(fields))
    else StyleAfter(Init(fields), initial)
  }

  /** The text-layer callback for one field: set the fixed text state and
      paint a text field; a barcode field is filtered out. */
  method DrawTextField(ctx: Canvas, field: CanvasField)
    modifies ctx
    ensures ctx.log == old(ctx.log) + TextEffects(field)
    ensures ctx.Style() == if field.CanvasTextField? then TextStyleOf(field) else old(ctx.Style())
  {
    if field.CanvasTextField? {
      ctx.textAlign := TextAlign;
      ctx.fillStyle := TextFill;
      ctx.textBaseline := TextBaseline;
      ctx.font := FontOf(field);
      if field.canvasRotation != 0.0 {
        ctx.WithCanvasRotation(field.canvasX, field.canvasY, field.canvasRotation,
                               ctx.TextAt(field.value, 0.0, 0.0));
      } else {
        ctx.FillTextAt(field.value, field.canvasX, field.canvasY);
      }
    }
  }

  /** The image-layer callback for one field: a barcode field with an image
      is painted and its image's size dispatched; any other field returns. */
  method DrawImageField(ctx: Canvas, field: CanvasField)
    modifies ctx`log
    ensures ctx.log == old(ctx.log) + ImageEffects(field)
  {
    if field.CanvasBarcodeField? && field.img.Some? {
      var img := field.img.value;
      if field.canvasRotation != 0.0 {
        ctx.WithCanvasRotation(field.canvasX, field.canvasY, field.canvasRotation, DrawImage(img, 0.0, 0.0));
      } else {
        ctx.DrawImageAt(img, field.canvasX, field.canvasY);
      }
      ctx.Dispatch(UpdateBarcodeFieldDrawnDimensions(field, img.width, img.height));
    }
  }

  /** The text layer: every text field, in list order. */
  method DrawTextLayer(ctx: Canvas, fields: seq<CanvasField>)
    modifies ctx
    ensures ctx.log == old(ctx.log) + FlatMap(fields, TextEffects)
    ensures ctx.Style() == StyleAfter(fields, old(ctx.Style()))
  {
    var i := 0;
    while i < |fields|
      invariant 0 <= i <= |fields|
      invariant ctx.log == old(ctx.log) + FlatMap(fields[..i], TextEffects)
      invariant ctx.Style() == StyleAfter(fields[..i], old(ctx.Style()))
    {
      DrawTextField(ctx, fields[i]);
      assert Init(fields[..i + 1]) == fields[..i];
      i := i + 1;
    }
    assert fields[..i] == fields;
  }

  /** The image layer: every barcode field that has an image, in list order. */
  method DrawImageLayer(ctx: Canvas, fields: seq<CanvasField>)
    modifies ctx`log
    ensures ctx.log == old(ctx.log) + FlatMap(fields, ImageEffects)
  {
    var i := 0;
    while i < |fields|
      invariant 0 <= i <= |fields|
      invariant ctx.log == old(ctx.log) + FlatMap(fields[..i], ImageEffects)
    {
      DrawImageField(ctx, fields[i]);
      assert Init(fields[..i + 1]) == fields[..i];
      i := i + 1;
    }
    assert fields[..i] == fields;
  }

  /** The draw pass once every field is ready: clear, then the text layer,
      then the image layer. */
  method DrawPass(ctx: Canvas, fields: seq<CanvasField>, width: real, height: real)
    modifies ctx
    ensures ctx.log == old(ctx.log) + Frame(fields, width, height)
    ensures ctx.Style() == StyleAfter(fields, old(ctx.Style()))
  {
    ctx.ClearCanvas(width, height);
    DrawTextLayer(ctx, fields);
    DrawImageLayer(ctx, fields);
  }

  predicate NotClear(e: Effect) {
    !e.Clear?
  }

  /** The canvas is cleared exactly once, before anything is drawn. */
  lemma ClearedOnceFirst(fields: seq<CanvasField>, width: real, height: real)
    ensures Frame(fields, width, height)[0] == Clear(width, height)
    ensures forall j :: 0 < j < |Frame(fields, width, height)| ==> !Frame(fields, width, height)[j].Clear?
  {
    var t, m := FlatMap(fields, TextEffects), FlatMap(fields, ImageEffects);
    FlatMapKeeps(fields, TextEffects, NotClear);
    FlatMapKeeps(fields, ImageEffects, NotClear);
    var frame := Frame(fields, width, height);
    forall j | 0 < j < |frame| ensures !frame[j].Clear? {
      assert frame[j] == (t + m)[j - 1];
      assert frame[j] in t + m;
    }
  }

  predicate NotImage(e: Effect) {
    !DrawsImage(e)
  }

  predicate NotText(e: Effect) {
    !DrawsText(e)
  }

  /** In a log made of a part without image draws followed by a part
      without text draws, every text draw precedes every image draw. */
  lemma TextsBeforeImages(a: seq<Effect>, m: seq<Effect>)
    requires forall e :: e in a ==> !DrawsImage(e)
    requires forall e :: e in m ==> !DrawsText(e)
    ensures forall i, j :: 0 <= i < |a + m| && 0 <= j < |a + m| && DrawsText((a + m)[i]) && DrawsImage((a + m)[j])
              ==> i < j
  {
    var s := a + m;
    forall i | |a| <= i < |s| ensures !DrawsText(s[i]) {
      assert s[i] == m[i - |a|];
      assert s[i] in m;
    }
    forall j | 0 <= j < |a| ensures !DrawsImage(s[j]) {
      assert s[j] == a[j];
      assert s[j] in a;
    }
  }

  /** The text layer lies beneath the image layer: every text draw comes
      before every image draw, whatever the order of the fields. */
  lemma TextBeneathImages(fields: seq<CanvasField>, width: real, height: real)
    ensures var frame := Frame(fields, width, height);
            forall i, j :: 0 <= i < |frame| && 0 <= j < |frame| && DrawsText(frame[i]) && DrawsImage(frame[j])
              ==> i < j
  {
    var t := FlatMap(fields, TextEffects);
    FlatMapKeeps(fields, TextEffects, NotImage);
    FlatMapKeeps(fields, ImageEffects, NotText);
    TextsBeforeImages([Clear(width, height)] + t, FlatMap(fields, ImageEffects));
  }

  predicate RotatedAtOrigin(e: Effect) {
    e.PaintRotated? ==> e.angle != 0.0 && e.draw.x == 0.0 && e.draw.y == 0.0
  }

  /** Every rotation scope belongs to a rotated field and draws at its local origin. */
  lemma RotationScopes(fields: seq<CanvasField>, width: real, height: real)
    ensures forall e :: e in Frame(fields, width, height) ==> RotatedAtOrigin(e)
  {
    FlatMapKeeps(fields, TextEffects, RotatedAtOrigin);
    FlatMapKeeps(fields, ImageEffects, RotatedAtOrigin);
  }

  predicate StyledAsText(e: Effect) {
    DrawsText(e) ==> e.draw.style.textAlign == TextAlign && e.draw.style.fillStyle == TextFill
                     && e.draw.style.textBaseline == TextBaseline
  }

  /** Every text is drawn start-aligned, in solid black, on a bottom baseline. */
  lemma TextStyleFixed(fields: seq<CanvasField>, width: real, height: real)
    ensures forall e :: e in Frame(fields, width, height) ==> StyledAsText(e)
  {
    FlatMapKeeps(fields, TextEffects, StyledAsText);
    FlatMapKeeps(fields, ImageEffects, StyledAsText);
  }

  /** The (text, font) pair an effect paints, if it paints text. */
  function PaintedText(e: Effect): seq<(string, string)> {
    if DrawsText(e) then [(e.draw.text, e.draw.style.font)] else []
  }

  /** The (text, font) pair a field should be drawn with, if it is a text field. */
  function TextEntry(f: CanvasField): seq<(string, string)> {
    if f.CanvasTextField? then [(f.value, FontOf(f))] else []
  }

  /** The image an effect paints, if any. */
  function PaintedImage(e: Effect): seq<Image> {
    if DrawsImage(e) then [e.draw.img] else []
  }

  /** The image a field should be drawn with, if it is a barcode that has one. */
  function LoadedImage(f: CanvasField): seq<Image> {
    if f.CanvasBarcodeField? && f.img.Some? then [f.img.value] else []
  }

  /** The field an effect reports the drawn size of, if it is a dispatch. */
  function ReportedField(e: Effect): seq<CanvasField> {
    if e.Dispatch? then [e.action.canvasField] else []
  }

  /** The field itself, if it is a barcode that has an image. */
  function LoadedBarcode(f: CanvasField): seq<CanvasField> {
    if f.CanvasBarcodeField? && f.img.Some? then [f] else []
  }

  function Nothing<A, B>(a: A): seq<B> {
    []
  }

  lemma {:induction false} FlatMapSingleton<A, B>(x: A, f: A -> seq<B>)
    ensures FlatMap([x], f) == f(x)
  {
    assert Init([x]) == [];
  }

  /** Mapping g over a frame is mapping it over its three parts. */
  lemma FrameSplit<B>(fields: seq<CanvasField>, width: real, height: real, g: Effect -> seq<B>)
    requires g(Clear(width, height)) == []
    ensures FlatMap(Frame(fields, width, height), g)
            == FlatMap(FlatMap(fields, TextEffects), g) + FlatMap(FlatMap(fields, ImageEffects), g)
  {
    var head: seq<Effect> := [Clear(width, height)];
    var t, m := FlatMap(fields, TextEffects), FlatMap(fields, ImageEffects);
    calc {
      FlatMap(Frame(fields, width, height), g);
      FlatMap(head + t + m, g);
      { FlatMapAppend(head + t, m, g); }
      FlatMap(head + t, g) + FlatMap(m, g);
      { FlatMapAppend(head, t, g); FlatMapSingleton(Clear(width, height), g); }
      FlatMap(t, g) + FlatMap(m, g);
    }
  }

  /** The texts painted are exactly the text fields, in list order, each
      with its own font. */
  lemma TextLayerOrder(fields: seq<CanvasField>, width: real, height: real)
    ensures FlatMap(Frame(fields, width, height), PaintedText) == FlatMap(fields, TextEntry)
  {
    FrameSplit(fields, width, height, PaintedText);
    forall x | x in fields ensures FlatMap(TextEffects(x), PaintedText) == TextEntry(x) {
      if x.CanvasTextField? {
        FlatMapSingleton(TextPaint(x), PaintedText);
      }
    }
    FlatMapFuse(fields, TextEffects, PaintedText, TextEntry);
    forall x | x in fields ensures FlatMap(ImageEffects(x), PaintedText) == Nothing<CanvasField, (string, string)>(x) {
      if x.CanvasBarcodeField? && x.img.Some? {
        var img := x.img.value;
        var d := Dispatch(UpdateBarcodeFieldDrawnDimensions(x, img.width, img.height));
        FlatMapAppend([ImagePaint(x, img)], [d], PaintedText);
        FlatMapSingleton(ImagePaint(x, img), PaintedText);
        FlatMapSingleton(d, PaintedText);
      }
    }
    FlatMapFuse(fields, ImageEffects, PaintedText, Nothing);
    FlatMapNil(fields, Nothing<CanvasField, (string, string)>);
  }

  /** The images painted are exactly those of the barcode fields that have
      one, in list order; a barcode without an image is skipped. */
  lemma ImageLayerOrder(fields: seq<CanvasField>, width: real, height: real)
    ensures FlatMap(Frame(fields, width, height), PaintedImage) == FlatMap(fields, LoadedImage)
  {
    FrameSplit(fields, width, height, PaintedImage);
    FlatMapFuse(fields, TextEffects, PaintedImage, Nothing);
    FlatMapNil(fields, Nothing<CanvasField, Image>);
    FlatMapFuse(fields, ImageEffects, PaintedImage, LoadedImage);
  }

  /** The fields whose drawn size is reported are exactly the barcode
      fields that have an image, in list order. */
  lemma ReportedFieldsOrder(fields: seq<CanvasField>, width: real, height: real)
    ensures FlatMap(Frame(fields, width, height), ReportedField) == FlatMap(fields, LoadedBarcode)
  {
    FrameSplit(fields, width, height, ReportedField);
    FlatMapFuse(fields, TextEffects, ReportedField, Nothing);
    FlatMapNil(fields, Nothing<CanvasField, CanvasField>);
    FlatMapFuse(fields, ImageEffects, ReportedField, LoadedBarcode);
  }

  /** dispatch reports the drawn image's size for the field it came from. */
  predicate Reports(paint: Effect, dispatch: Effect) {
    DrawsImage(paint) && dispatch.Dispatch?
    && dispatch.action.canvasField.CanvasBarcodeField?
    && dispatch.action.canvasField.img == Some(paint.draw.img)
    && dispatch.action.width == paint.draw.img.width
    && dispatch.action.height == paint.draw.img.height
    && paint == ImagePaint(dispatch.action.canvasField, paint.draw.img)
  }

  /** Every image draw is immediately followed by the dispatch of its size,
      and every dispatch immediately follows the image draw it reports. */
  predicate DispatchesPaired(s: seq<Effect>) {
    (forall j :: 0 <= j < |s| && DrawsImage(s[j]) ==> j + 1 < |s| && Reports(s[j], s[j + 1]))
    && (forall j :: 0 <= j < |s| && s[j].Dispatch? ==> 0 < j && Reports(s[j - 1], s[j]))
  }

  lemma PairedAppend(a: seq<Effect>, b: seq<Effect>)
    requires DispatchesPaired(a) && DispatchesPaired(b)
    ensures DispatchesPaired(a + b)
  {
    var s := a + b;
    forall j | 0 <= j < |s| && DrawsImage(s[j]) ensures j + 1 < |s| && Reports(s[j], s[j + 1]) {
      if j < |a| {
        assert a[j] == s[j];
        assert s[j + 1] == a[j + 1];
      } else {
        assert b[j - |a|] == s[j];
        assert s[j + 1] == b[j + 1 - |a|];
      }
    }
    forall j | 0 <= j < |s| && s[j].Dispatch? ensures 0 < j && Reports(s[j - 1], s[j]) {
      if j < |a| {
        assert a[j] == s[j];
        assert s[j - 1] == a[j - 1];
      } else {
        assert b[j - |a|] == s[j];
        assert s[j - 1] == b[j - 1 - |a|];
      }
    }
  }

  lemma {:induction false} ImageLayerPaired(fields: seq<CanvasField>)
    ensures DispatchesPaired(FlatMap(fields, ImageEffects))
  {
    if fields != [] {
      ImageLayerPaired(Init(fields));
      PairedAppend(FlatMap(Init(fields), ImageEffects), ImageEffects(Last(fields)));
    }
  }

  /** In a whole frame each image draw is followed at once by the dispatch
      of that image's width and height, and no dispatch stands elsewhere. */
  lemma FrameDispatchesPaired(fields: seq<CanvasField>, width: real, height: real)
    ensures DispatchesPaired(Frame(fields, width, height))
  {
    var t := FlatMap(fields, TextEffects);
    FlatMapKeeps(fields, TextEffects, NotImage);
    FlatMapKeeps(fields, TextEffects, NotDispatch);
    assert DispatchesPaired([Clear(width, height)] + t) by {
      var s := [Clear(width, height)] + t;
      forall j | 0 < j < |s| ensures s[j] in t { assert s[j] == t[j - 1]; }
    }
    ImageLayerPaired(fields);
    PairedAppend([Clear(width, height)] + t, FlatMap(fields, ImageEffects));
  }

  predicate NotDispatch(e: Effect) {
    !e.Dispatch?
  }

  /** Removing an element whose image is empty does not change the result. */
  lemma FlatMapDrop<A, B>(before: seq<A>, x: A, after: seq<A>, g: A -> seq<B>)
    requires g(x) == []
    ensures FlatMap(before + [x] + after, g) == FlatMap(before + after, g)
  {
    FlatMapAppend(before + [x], after, g);
    FlatMapAppend(before, [x], g);
    FlatMapAppend(before, after, g);
    FlatMapSingleton(x, g);
  }

  /** Swapping two neighbours, one of which has an empty image, does not
      change the result. */
  lemma FlatMapSwap<A, B>(before: seq<A>, x: A, y: A, after: seq<A>, g: A -> seq<B>)
    requires g(x) == [] || g(y) == []
    ensures FlatMap(before + [x, y] + after, g) == FlatMap(before + [y, x] + after, g)
  {
    assert before + [x, y] + after == before + [x] + ([y] + after);
    assert before + [y, x] + after == (before + [y]) + [x] + after;
    if g(x) == [] {
      FlatMapDrop(before, x, [y] + after, g);
      FlatMapDrop(before + [y], x, after, g);
      assert before + ([y] + after) == before + [y] + after;
    } else {
      assert before + [x, y] + after == (before + [x]) + [y] + after;
      assert before + [y, x] + after == before + [y] + ([x] + after);
      FlatMapDrop(before + [x], y, after, g);
      FlatMapDrop(before, y, [x] + after, g);
      assert before + ([x] + after) == before + [x] + after;
    }
  }

  /** A barcode field without an image is skipped and the fields after it
      are still drawn: the frame is the one without that field. */
  lemma UnloadedBarcodeSkipped(before: seq<CanvasField>, f: CanvasField, after: seq<CanvasField>,
                               width: real, height: real)
    requires f.CanvasBarcodeField? && f.img.None?
    ensures Frame(before + [f] + after, width, height) == Frame(before + after, width, height)
  {
    FlatMapDrop(before, f, after, TextEffects);
    FlatMapDrop(before, f, after, ImageEffects);
  }

  /** Moving a text field past a barcode field does not change the frame:
      the input order of the two kinds is irrelevant to the result. */
  lemma TextAndBarcodeCommute(before: seq<CanvasField>, t: CanvasField, b: CanvasField,
                              after: seq<CanvasField>, width: real, height: real)
    requires t.CanvasTextField? && b.CanvasBarcodeField?
    ensures Frame(before + [t, b] + after, width, height) == Frame(before + [b, t] + after, width, height)
  {
    FlatMapSwap(before, t, b, after, TextEffects);
    FlatMapSwap(before, t, b, after, ImageEffects);
  }

  /** The size of a label type. */
  datatype LabelSize = LabelSize(width: real, height: real)

  /** A JavaScript number: a finite value, or Infinity or NaN. */
  datatype JsNumber = Finite(value: real) | NonFinite

  /** The canvas height for a canvas of the given width: the label type's
      aspect ratio when one is selected, half the width otherwise. A label
      type of width 0 makes the division yield Infinity or NaN. */
  function CanvasHeight(width: real, labelType: Option<LabelSize>): (h: JsNumber)
    ensures labelType.None? ==> h.Finite? && 2.0 * h.value == width
    ensures labelType.Some? && labelType.value.width != 0.0 ==>
              h.Finite? && h.value * labelType.value.width == width * labelType.value.height
    ensures labelType.Some? && labelType.value.width == 0.0 ==> h.NonFinite?
  {
    match labelType
    case None => Finite(width * 0.5)
    case Some(size) =>
      if size.width == 0.0 then NonFinite else Finite((size.height / size.width) * width)
  }

  /** Two worked sizing cases: a 200-pixel canvas for a 100 by 50 label is
      100 high; a 300-pixel canvas without a label type is 150 high. */
  lemma CanvasHeightExamples()
    ensures CanvasHeight(200.0, Some(LabelSize(100.0, 50.0))) == Finite(100.0)
    ensures CanvasHeight(300.0, None) == Finite(150.0)
  {
  }
}
