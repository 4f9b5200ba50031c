# SPrint label designer and printer model, in Dafny

This project models three small pieces of SPrint, a label-printing service with a browser-based label designer:

- **The printer record** (`PrinterModel`, in `printer.dfy`). A `Printer` is a mutable record of a hostname, a label type, a printer type and a file path. It has two constructors, a getter and a setter per field, the address rule of `getAddress`, field-wise `equals`, and a `hashCode` that uses the hostname alone. Java `null` is the `Null` case of `JavaLang.Nullable`. Dereferencing a null hostname in `getAddress` yields `NullPointerException`. Label type, printer type and path are abstract types that are only compared for equality.
- **The basic helpers** (`BasicUtils`, in `basic_utils.dfy`). `repr` checks for null first and then dispatches on the object's kind. Both `nullToEmpty` overloads replace null with an empty value. The string repr, char repr and `toString` that `repr` delegates to are not part of this model, so they are passed in as function parameters.
- **The label canvas draw pass** (`LabelCanvas` in `label_canvas.dfy`, `LabelDesigner` in `label_designer.dfy`). Its input is the field list with every barcode image already resolved. `DrawPass` is a method that loops over the fields twice and issues operations on a `Canvas` object. That object stands for the 2D rendering context. It holds the text state that the pass sets: `textAlign`, `fillStyle`, `textBaseline` and `font`. It also keeps a log of effects: clears, direct paints, paints inside a rotation scope, and store dispatches. The method is proved to append exactly `Frame(fields, width, height)` to that log. The lemmas then show, for every input list:
  - the frame starts with the one and only clear;
  - every text draw comes before every image draw;
  - each layer keeps the input's relative order;
  - a barcode field without an image is skipped;
  - moving a text field past a barcode field does not change the frame;
  - rotation scopes draw at their local origin;
  - text style is fixed;
  - every image draw is followed at once by the dispatch of its size.
  
  The canvas height rule is a function over `real`.

`JavaLang` (`java_lang.dfy`) holds the Java library behaviour the printer relies on: `Objects.equals`, `String.indexOf(char)`, and `String.hashCode()` with 32-bit two's-complement wrap-around. That hash is proved equal to the documented polynomial reduced to an `int`.

## Model

| member | source | states |
|---|---|---|
| `JavaLang.ObjectsEquals` | src/main/java/uk/ac/sanger/sprint/model/Printer.java:111-114 | `Objects.equals` on two nullable references holds exactly when they are equal (both null, or equal values) |
| `JavaLang.IndexOf` | src/main/java/uk/ac/sanger/sprint/model/Printer.java:85 | the result is -1 exactly when the char does not occur; otherwise it is a position holding the char, with no earlier occurrence |
| `JavaLang.StringHashCode` | src/main/java/uk/ac/sanger/sprint/model/Printer.java:119 | the string hash is always a 32-bit int |
| `JavaLang.StringHashCodeIsPolynomial` | src/main/java/uk/ac/sanger/sprint/model/Printer.java:119 | hashing step by step with truncation each step equals the polynomial s[0]·31^(n-1)+…+s[n-1] reduced to an int |
| `JavaLang.ToInt32Step` | src/main/java/uk/ac/sanger/sprint/model/Printer.java:119 | truncating to int before the 31·h+c step gives the same int as truncating after it |
| `PrinterModel.AddressOf` | src/main/java/uk/ac/sanger/sprint/model/Printer.java:85 | the address has the hostname as a prefix and always contains a dot; a hostname with a dot is returned as is; one without gets `.internal.sanger.ac.uk` appended |
| `PrinterModel.AddressIsFixpoint` | src/main/java/uk/ac/sanger/sprint/model/Printer.java:85 | applying the address rule to an address returns it unchanged |
| `PrinterModel.Printer.GetAddress` | src/main/java/uk/ac/sanger/sprint/model/Printer.java:84-86 | a null hostname throws a NullPointerException; otherwise the result is the hostname, qualified with the internal domain exactly when it has no dot |
| `PrinterModel.Printer.Default` | src/main/java/uk/ac/sanger/sprint/model/Printer.java:17-20 | the no-argument constructor leaves all four fields null |
| `PrinterModel.Printer.constructor` | src/main/java/uk/ac/sanger/sprint/model/Printer.java:29-34 | the four-argument constructor stores each argument in its own field; the printer type comes before the label type |
| `PrinterModel.Printer.GetHostname` | src/main/java/uk/ac/sanger/sprint/model/Printer.java:40-42 | returns the hostname field of the current state, null included |
| `PrinterModel.Printer.SetHostname` | src/main/java/uk/ac/sanger/sprint/model/Printer.java:48-50 | the getter then returns the new hostname, and the other three fields are unchanged |
| `PrinterModel.Printer.GetPrinterType` | src/main/java/uk/ac/sanger/sprint/model/Printer.java:56-58 | returns the printer type field of the current state, null included |
| `PrinterModel.Printer.SetPrinterType` | src/main/java/uk/ac/sanger/sprint/model/Printer.java:64-66 | the getter then returns the new printer type, and the other three fields are unchanged |
| `PrinterModel.Printer.GetLabelType` | src/main/java/uk/ac/sanger/sprint/model/Printer.java:72-74 | returns the label type field of the current state, null included |
| `PrinterModel.Printer.SetLabelType` | src/main/java/uk/ac/sanger/sprint/model/Printer.java:80-82 | the getter then returns the new label type, and the other three fields are unchanged |
| `PrinterModel.Printer.GetPath` | src/main/java/uk/ac/sanger/sprint/model/Printer.java:88-90 | returns the path field of the current state, null included |
| `PrinterModel.Printer.SetPath` | src/main/java/uk/ac/sanger/sprint/model/Printer.java:92-94 | the getter then returns the new path, and the other three fields are unchanged |
| `PrinterModel.Printer.Equals` | src/main/java/uk/ac/sanger/sprint/model/Printer.java:107-115 | equals holds exactly when the other object is a Printer whose four fields are all equal to this one's |
| `PrinterModel.EqualsReflexive` | src/main/java/uk/ac/sanger/sprint/model/Printer.java:108 | every printer equals itself |
| `PrinterModel.EqualsSymmetric` | src/main/java/uk/ac/sanger/sprint/model/Printer.java:107-115 | p equals q exactly when q equals p |
| `PrinterModel.EqualsTransitive` | src/main/java/uk/ac/sanger/sprint/model/Printer.java:107-115 | equality of printers is transitive |
| `PrinterModel.EqualsNullIsFalse` | src/main/java/uk/ac/sanger/sprint/model/Printer.java:109 | no printer equals null |
| `PrinterModel.Printer.HashCode` | src/main/java/uk/ac/sanger/sprint/model/Printer.java:118-120 | the hash is an int; it is 0 for a null hostname and otherwise the hostname's string hash |
| `PrinterModel.EqualsImpliesEqualHashCode` | src/main/java/uk/ac/sanger/sprint/model/Printer.java:107-120 | equal printers have equal hash codes |
| `PrinterModel.HashCodeDependsOnlyOnHostname` | src/main/java/uk/ac/sanger/sprint/model/Printer.java:118-120 | printers with the same hostname hash alike, whatever their other fields |
| `BasicUtils.Repr` | src/main/java/uk/ac/sanger/sprint/utils/BasicUtils.java:17-28 | null gives `"null"`; a CharSequence goes to the string repr, a Character to the char repr, any other object to its `toString` |
| `BasicUtils.ReprNullIgnoresDelegates` | src/main/java/uk/ac/sanger/sprint/utils/BasicUtils.java:18-20 | the null check comes before any dispatch: repr of null is `"null"` for any delegates |
| `BasicUtils.ReprUsesOnlySelectedDelegate` | src/main/java/uk/ac/sanger/sprint/utils/BasicUtils.java:21-27 | a non-null object's repr depends only on the one delegate its kind selects |
| `BasicUtils.NullToEmptyList` | src/main/java/uk/ac/sanger/sprint/utils/BasicUtils.java:30-32 | the result is never null; it is the empty list for null and the argument otherwise |
| `BasicUtils.NullToEmptyString` | src/main/java/uk/ac/sanger/sprint/utils/BasicUtils.java:34-36 | the result is never null; it is `""` for null and the argument otherwise |
| `BasicUtils.NullToEmptyListIdempotent` | src/main/java/uk/ac/sanger/sprint/utils/BasicUtils.java:31 | applying the list overload twice gives the same result as applying it once |
| `BasicUtils.NullToEmptyStringIdempotent` | src/main/java/uk/ac/sanger/sprint/utils/BasicUtils.java:35 | applying the string overload twice gives the same result as applying it once |
| `BasicUtils.NullToEmptyListFixesExactlyNonNull` | src/main/java/uk/ac/sanger/sprint/utils/BasicUtils.java:31 | the list overload returns its argument unchanged exactly when the argument is non-null |
| `BasicUtils.NullToEmptyStringFixesExactlyNonNull` | src/main/java/uk/ac/sanger/sprint/utils/BasicUtils.java:35 | the string overload returns its argument unchanged exactly when the argument is non-null |
| `LabelCanvas.NatToDecimal` | client/src/components/LabelDesigner.tsx:142 | the decimal rendering of a drawn height is non-empty, consists only of digits, and has no leading zero |
| `LabelCanvas.DecimalRoundTrip` | client/src/components/LabelDesigner.tsx:142 | reading the rendered digits back gives the height |
| `LabelCanvas.NumberToString` | client/src/components/LabelDesigner.tsx:142 | an integral number renders as a `-` exactly when it is negative, followed by a non-empty run of decimal digits, without a leading zero, that denotes its magnitude |
| `LabelCanvas.Canvas.TextAt` | client/src/components/LabelDesigner.tsx:139-142 | a text paint uses the context's current text state |
| `LabelCanvas.Canvas.ClearCanvas` | client/src/components/LabelDesigner.tsx:131-135 | clearing appends one clear of the given size to the log |
| `LabelCanvas.Canvas.FillTextAt` | client/src/components/LabelDesigner.tsx:153 | fillText appends a direct text paint with the current text state |
| `LabelCanvas.Canvas.DrawImageAt` | client/src/components/LabelDesigner.tsx:175 | drawImage appends a direct image paint |
| `LabelCanvas.Canvas.WithCanvasRotation` | client/src/components/LabelDesigner.tsx:145-151 | the draw is appended as one paint inside a rotation scope at (x, y) by angle; the scope is entered and left around that single draw |
| `LabelCanvas.Canvas.Dispatch` | client/src/components/LabelDesigner.tsx:178-182 | a dispatch appends the action to the same log, after everything drawn before it |
| `LabelDesigner.TextPaint` | client/src/components/LabelDesigner.tsx:144-154 | a text field is painted with its value and its style; it is in a rotation scope at its position with the text at (0, 0) exactly when its rotation is non-zero, and otherwise directly at its position |
| `LabelDesigner.ImagePaint` | client/src/components/LabelDesigner.tsx:166-176 | a barcode image is painted by the same rule: it is scoped at the field's position with the image at (0, 0) exactly when the rotation is non-zero |
| `LabelDesigner.DrawTextField` | client/src/components/LabelDesigner.tsx:137-155 | for a text field, sets the fixed text state and appends its one text paint; a barcode field adds nothing and leaves the text state alone |
| `LabelDesigner.DrawImageField` | client/src/components/LabelDesigner.tsx:162-183 | for a barcode field with an image, appends its image paint and then the dispatch of its size; any other field adds nothing |
| `LabelDesigner.DrawTextLayer` | client/src/components/LabelDesigner.tsx:137-155 | the loop appends the text effects of every field in list order |
| `LabelDesigner.DrawImageLayer` | client/src/components/LabelDesigner.tsx:161-184 | the loop appends the image effects of every field in list order and does not touch the text state |
| `LabelDesigner.DrawPass` | client/src/components/LabelDesigner.tsx:130-185 | the pass appends exactly the frame of the field list to the log; the context keeps the text state of the last text field drawn |
| `LabelDesigner.ClearedOnceFirst` | client/src/components/LabelDesigner.tsx:131-135 | the first effect of the frame is the clear of the canvas dimensions, and no later effect is a clear |
| `LabelDesigner.TextBeneathImages` | client/src/components/LabelDesigner.tsx:137-184 | every text draw in the frame comes before every image draw, whatever the order of the input list |
| `LabelDesigner.TextLayerOrder` | client/src/components/LabelDesigner.tsx:137-155 | the texts painted, with their fonts (drawn height, `px `, font name), are exactly the text fields in input order |
| `LabelDesigner.ImageLayerOrder` | client/src/components/LabelDesigner.tsx:161-184 | the images painted are exactly those of the barcode fields that have one, in input order |
| `LabelDesigner.ReportedFieldsOrder` | client/src/components/LabelDesigner.tsx:161-184 | the fields reported to the store are exactly the barcode fields that have an image, in input order |
| `LabelDesigner.FrameDispatchesPaired` | client/src/components/LabelDesigner.tsx:178-182 | every image draw is immediately followed by a dispatch carrying that image's width and height and the very field the draw was made for (the draw is that field's image paint), and every dispatch immediately follows its image draw |
| `LabelDesigner.UnloadedBarcodeSkipped` | client/src/components/LabelDesigner.tsx:164 | a barcode field without an image adds neither a draw nor a dispatch; the frame equals the one without that field, so later fields are still drawn |
| `LabelDesigner.TextAndBarcodeCommute` | client/src/components/LabelDesigner.tsx:137-184 | swapping an adjacent text field and barcode field in the input leaves the frame unchanged |
| `LabelDesigner.RotationScopes` | client/src/components/LabelDesigner.tsx:144-176 | every rotation scope in the frame has a non-zero angle and draws at its local origin (0, 0) |
| `LabelDesigner.TextStyleFixed` | client/src/components/LabelDesigner.tsx:139-142 | every text draw in the frame is start-aligned, filled `#000`, with a bottom baseline |
| `LabelDesigner.CanvasHeight` | client/src/components/LabelDesigner.tsx:40-42 | with a label type of non-zero width, the canvas has the label's aspect ratio; without a label type it is half as high as wide; a label type of width 0 gives a non-finite height |
| `LabelDesigner.CanvasHeightExamples` | client/src/components/LabelDesigner.tsx:40-42 | a 200-wide canvas for a 100×50 label is 100 high; a 300-wide canvas without a label type is 150 high |

## Left out

- The React scaffolding is not modelled: the hooks, effect dependency lists, refs and JSX markup (LabelDesigner.tsx lines 18-29 and 188-215). It is view wiring with no sequential behaviour of its own.
- The canvas event listeners, the `throttle` rate limiting of mouse moves and of the scale slider, and `getCanvasMousePosition` are not modelled. They depend on DOM events and wall-clock time.
- Barcode image resolution is not modelled. This covers `Promise.all`, `Image.onload`, the barcode generator, the assignment of `field.img` and the dimension dispatch made on load (lines 98-129). These are asynchronous browser and foreign calls; the draw pass takes the already-resolved field list as input. Two overlapping passes racing each other are a concurrency effect and are not modelled either.
- Reading the container width from the computed style and multiplying it by the scale (lines 34-39) is not modelled. The canvas width is an input to `CanvasHeight`.
- CanvasHeight: uses exact `real` arithmetic, so the IEEE rounding of `(height / width) * width` is not captured.
- NumberToString: covers only integral drawn heights. JavaScript's rendering of fractional numbers, `-0` and exponent forms is not modelled.
- `clearCanvas`, `withCanvasRotation` and the Canvas2D paint calls are abstract log entries. Pixels are not computed, and the transform save and restore inside `withCanvasRotation` is one scoped entry.
- DrawTextField, DrawPass, TextLayerOrder: the context's text properties are modelled as plain stores of the assigned string. A browser context normalises and validates them. It reads `fillStyle = "#000"` back as `"#000000"`, and it ignores a `font` it cannot parse, for example one with an empty font name or a negative drawn height, so the text is then painted with the previous font. The text state that `DrawPass` promises, and the fonts in `TextLayerOrder`, therefore match the browser only for fonts it accepts and up to colour normalisation.
- `StringRepr.repr` and `Object.toString` are function parameters of `Repr`, because their code is not part of this model.
- `Printer.toString`, built with Guava's `MoreObjects`, is library formatting and is not modelled.
- `LabelType`, `PrinterType` and `Path` are abstract types. Their own `equals` is taken to be value equality.
- Reference identity is only partly captured. The fast path `this == o` in `equals` is a reference test, as in Java. But `nullToEmpty` returning "the same list" and the `a == b` test inside `Objects.equals` are value equality in this model, and the immutability of `Collections.emptyList()` is not modelled.
- JavaLang.StringHashCode: uses each Dafny character's scalar value as a Java `char`. It therefore agrees with Java only for characters in the Basic Multilingual Plane, which Java stores as one UTF-16 unit each.
- JavaLang.IndexOf: counts positions in characters, not UTF-16 units. For a string with characters outside the Basic Multilingual Plane, the index can be smaller than Java's. `getAddress` reads only the sign of the index, so it is unaffected.
- The stub print-protocol adapter test has no logic to model.
