# shine.js in Dafny

shine.js gives text a dynamic shadow that follows a light. It first splits an element into one `<span>` per letter, grouped in word spans and spacer spans inside a wrapper `<div>` with a mask copy. It then attaches one Shadow per letter. Each Shadow computes a list of `text-shadow` layers from the letter's centre, a light and a shadow config, and writes them to its element's style. The Shine controller owns the Shadows. It rebuilds them on `update` / `updateContent` and switches the scroll, resize and load listeners of itself and its Shadows on and off. Around this sit a hex colour parser, a config object whose `applyValues` overwrites only the keys it owns, a stylesheet injector with a per-document registry, and `debounce` / `throttle` helpers.

The model covers the three generations of this engine in the repository:

- the modular sources under `lib/`;
- the newer bundle `app/js/shine.js`, where Shine takes a `ShadowConfig` and draws last-to-first;
- the older bundle `dist/shine.js`, where Shadows carry their own tuning, the layer count `min(5, round(distance / 8))` is capped at 5 and, because the distance is floored at 40, always 5, and the Splitter splits on construction.

Modules, one file each:

| file | module | models |
|---|---|---|
| wrappers.dfy | Wrappers | Option / Result |
| numerics.dfy | Numerics | numbers as `real`; `Math.pow`, `Math.sqrt` and number-to-string as a `MathLib` parameter; `Math.max/min/round`; NaN |
| text.dfy | Text | `\s` and `\w` character classes, `join`, decimal rendering |
| point.dfy | Geometry | lib/shine.point.js |
| light.dfy | Lights | lib/shine.light.js |
| color.dfy | Colors | lib/shine.color.js, with `parseInt(s, 16)` and ToInt32 written out |
| config.dfy | Configs | lib/shine.config.js and `ShadowConfig` of app/js/shine.js |
| dom.dfy | Dom | elements, child nodes, style maps, bounding boxes, event listeners, `getPrefixed`, the text-only test |
| style_injector.dfy | StyleInjection | lib/shine.style-injector.js (identical in both bundles) |
| timing.dfy | Timing | lib/shine.timing.js |
| shadow.dfy | Shadows | lib/shine.shadow.js and `Shadow` of app/js/shine.js (identical) |
| splitter.dfy | Splitters | lib/shine.splitter.js and `Splitter` of app/js/shine.js |
| shine.dfy | Shines | lib/shine.js |
| app_shine.dfy | AppShines | `Shine` of app/js/shine.js |
| dist.dfy | DistBundle | dist/shine.js: Shadow, Splitter, `isSeparatorCharacter`, Shine |

Objects that the source updates in place are classes: Color, Config, StyleInjector and its static slot, Shadow, Splitter, Shine, DOM elements, and the window/document listener host. Pure code is datatypes and functions: Point, the layer formulas, `getShadow`, `getPrefixed`, the text scan, `parseHex`, and the timing state machines. Each loop of the source is a method with invariants, proved against the function that specifies it. Examples are `draw` against `Layers`, `splitText` against `Scan`, and `applyValues` against `Apply`.

## Model

| member | source | states |
|---|---|---|
| Geometry.Point.Delta | lib/shine.point.js:26-28 | adding the delta to this point gives `p`: the result is `p - this` |
| Geometry.MakePoint | lib/shine.point.js:14-19 | a missing coordinate is 0, a given one is kept |
| Geometry.DeltaSelf | lib/shine.point.js:26-28 | `p.delta(p)` is (0, 0) |
| Geometry.DeltaAntisymmetric | lib/shine.point.js:26-28 | `a.delta(b)` is the negation of `b.delta(a)` |
| Geometry.PointRef.constructor | lib/shine.point.js:14-19 | a Point object holds the given coordinates |
| Geometry.PointRef.Delta | lib/shine.point.js:26-28 | `delta` returns a fresh Point equal to the value delta, and changes neither operand |
| Lights.Light.constructor | lib/shine.light.js:13-23 | a given position is stored by reference; without one, a fresh (0, 0) Point; intensity 1.0 |
| Lights.SharedPositionMoves | lib/shine.light.js:17 | moving the Point a light was built with moves the light |
| Lights.DefaultLightsDoNotShare | lib/shine.light.js:17 | two default lights own distinct position objects, both at (0, 0) |
| Numerics.Round | lib/shine.color.js:59-61 | `Math.round(x)` lies within half a unit of `x` |
| Text.Join | lib/shine.shadow.js:86-88 | `join(', ')` of n parts has the parts' length plus n - 1 separators, and is empty for no parts |
| Text.NatToStringRoundTrip | lib/shine.color.js:57-63 | the decimal rendering of a whole number reads back as that number |
| Colors.IndexOf | lib/shine.color.js:46 | the first occurrence of the character, or the length when there is none |
| Colors.RemoveFirst | lib/shine.color.js:46 | `replace('#', '')` removes only the first '#', and nothing when there is none |
| Colors.HexPrefix | lib/shine.color.js:47 | `parseInt` reads the longest run of hexadecimal digits, stopping at the first non-digit |
| Colors.ParseIntHex | lib/shine.color.js:47 | definition of `parseInt(hex, 16)`: white space, sign, optional 0x, the longest hex run, None for NaN; properties in ParseDigitsOnly, ParseHashDigits, ParseDoubleHash and HexRoundTrip |
| Colors.TrimLeft | lib/shine.color.js:47 | `parseInt` skips leading white space: the result is the suffix of `s` left after its leading white space, and does not itself start with white space |
| Colors.ToInt32 | lib/shine.color.js:48-50 | ToInt32 maps NaN to 0 and wraps every integer into the signed 32-bit range, congruent modulo 2^32 |
| Colors.ByteAt | lib/shine.color.js:48-50 | `(x >> s) & 0xff` is always a byte |
| Colors.HexComponents | lib/shine.color.js:45-51 | every component is in 0..255, and unparseable input gives black |
| Colors.Color.constructor | lib/shine.color.js:15-28 | each missing component defaults to 0 |
| Colors.Color.ParseHex | lib/shine.color.js:45-51 | r, g, b become bits 16-23, 8-15 and 0-7 of the parsed value, each in 0..255 |
| Colors.Color.RgbaString | lib/shine.color.js:57-63 | definition of `getRGBAString`; properties in RgbaOfBytes |
| Colors.ColorFromHex | lib/shine.color.js:35-39 | a fresh colour with `parseHex(hex)` applied |
| Colors.RgbaOfBytes | lib/shine.color.js:57-63 | for byte components the string is 'rgba(r,g,b, 1.0)': rounded decimal components, alpha always 1.0 |
| Colors.ParseRed | lib/shine.color.js:41-51 | '#ff0000' parses to (255, 0, 0), as the doc comments promise |
| Colors.ParseShortForm | lib/shine.color.js:45-51 | short forms are not expanded: '#fff' parses to (0, 15, 255) |
| Colors.ParseDoubleHash | lib/shine.color.js:46-47 | only the first '#' is removed: '##ff0000' reads no digits and gives black |
| Colors.HexRoundTrip | lib/shine.color.js:45-51 | every colour written as '#rrggbb' parses back to the same components |
| Colors.AllHexDigits | lib/shine.color.js:47 | a string of hexadecimal digits is read whole |
| Colors.ParseDigitsOnly | lib/shine.color.js:47 | a non-empty run of hexadecimal digits parses to its value |
| Colors.ParseHashDigits | lib/shine.color.js:46-47 | '#' then hexadecimal digits parse to the digits' value |
| Colors.PackedDigits | lib/shine.color.js:47 | the six digits of '#rrggbb' read as r * 2^16 + g * 2^8 + b |
| Colors.ByteOfPacked | lib/shine.color.js:48-50 | the three bytes of r * 2^16 + g * 2^8 + b are r, g and b, and the value fits in 31 bits |
| Colors.ComponentsOfParsed | lib/shine.color.js:47-50 | a parsed value below 2^31 is not changed by ToInt32 |
| Colors.HexValueConcat | lib/shine.color.js:47 | the value of concatenated digit strings is the first scaled by 16^length of the second, plus the second |
| Colors.HexByteValue | lib/shine.color.js:47 | two hexadecimal digits written for a byte read back as that byte |
| Configs.LibDefaults | lib/shine.config.js:27-47 | the lib defaults own no maxBlurRadius and use the new black colour |
| Configs.AppDefaults | app/js/shine.js:113-134 | the app defaults include maxBlurRadius 64 |
| Configs.Keys | lib/shine.config.js:61 | `for (var key in this)` visits exactly the keys the config owns |
| Configs.Get | lib/shine.config.js:61-65 | a key has a value exactly when the config owns it |
| Configs.Put | lib/shine.config.js:63 | `this[key] = value` changes that key only and never adds a key |
| Configs.ApplyKeys | lib/shine.config.js:61-65 | definition of the `for...in` loop body over the keys in order; properties in ApplyKeysGet |
| Configs.Apply | lib/shine.config.js:56-66 | definition of `applyValues`, a no-op without settings; properties in ApplyOverwrites, ApplyKeeps, ApplyIgnoresUnknown and ApplyIdempotent |
| Configs.ApplyKeysGet | lib/shine.config.js:61-65 | after the loop each key holds the setting if the loop reached it and the settings have it, else its old value |
| Configs.ApplyOverwrites | lib/shine.config.js:61-65 | an owned key present in the settings is overwritten with the setting |
| Configs.ApplyKeeps | lib/shine.config.js:57-65 | a key absent from the settings keeps its value |
| Configs.ApplyIgnoresUnknown | lib/shine.config.js:24-65 | keys the config does not own are ignored: a lib config never gains the documented maxBlurRadius |
| Configs.ApplyIdempotent | lib/shine.config.js:56-66 | `applyValues(s)` twice equals `applyValues(s)` once, including for a missing settings object |
| Configs.SameGets | lib/shine.config.js:61-65 | configs that agree on every key are equal |
| Configs.Config.Lib | lib/shine.config.js:27-50 | the lib defaults, then the settings applied |
| Configs.Config.App | app/js/shine.js:113-136 | the app defaults, then the settings applied |
| Configs.Config.Set | lib/shine.config.js:63 | one field assignment, as `Put` |
| Configs.Config.ApplyValues | lib/shine.config.js:56-66 | the new fields are `Apply` of the old ones; nothing happens without settings |
| StyleInjection.Record | lib/shine.style-injector.js:57 | the registry maps the css to the document; every other css keeps its entry |
| StyleInjection.RecordForgets | lib/shine.style-injector.js:43-57 | only the last document per css is remembered |
| StyleInjection.StyleInjector.constructor | lib/shine.style-injector.js:11-13 | the registry starts empty |
| StyleInjection.StyleInjector.Inject | lib/shine.style-injector.js:39-60 | the document defaults to window.document; a repeat of css and document returns undefined and changes nothing; otherwise a fresh style node holding the css becomes the head's first child and the registry records it |
| StyleInjection.InjectTwice | lib/shine.style-injector.js:42-45 | the same css into the same document twice inserts at most one node, and the second call returns undefined |
| StyleInjection.InjectAlternating | lib/shine.style-injector.js:43-57 | injecting into A, then B, then A inserts into A again |
| StyleInjection.InjectorSlot.constructor | lib/shine.style-injector.js:18 | the static instance starts as null |
| StyleInjection.InjectorSlot.GetInstance | lib/shine.style-injector.js:25-30 | the first call creates an empty injector, and later calls return the same one |
| StyleInjection.GetInstanceTwice | lib/shine.style-injector.js:25-30 | two calls return the same injector |
| Timing.DelayOrZero | lib/shine.timing.js:30 | a missing delay is 0 (the throttle does the same at line 64) |
| Timing.DueAt | lib/shine.timing.js:38-40 | a timeout comes due no earlier than `now + delay` |
| Timing.DebounceCall | lib/shine.timing.js:29-41 | a call runs nothing and leaves one pending timeout, with its own arguments, due `delay` later |
| Timing.DebounceFire | lib/shine.timing.js:38-40 | a due timeout runs the callback once with its arguments and clears the slot; otherwise nothing changes |
| Timing.DebounceLatest | lib/shine.timing.js:32-40 | after a burst of calls, nothing has run and the one pending timeout is the last call's |
| Timing.DebounceSettles | lib/shine.timing.js:38-40 | once the last call's delay has passed, the callback has run once, with the last call's arguments |
| Timing.ThrottleCall | lib/shine.timing.js:63-90 | inside the window the call replaces the pending timeout with one due `delay` later; outside it, the call cancels the pending one, records `now` and runs at once |
| Timing.ThrottleFire | lib/shine.timing.js:79-81 | a due deferred run records the timestamp of the call that scheduled it, then runs |
| Timing.ThrottleFirstRunsNow | lib/shine.timing.js:48-88 | the first call runs immediately, whatever the delay |
| Timing.ThrottleBurst | lib/shine.timing.js:71-82 | calls inside the window run nothing; the timestamp is kept and the last call's timeout is pending |
| Timing.ThrottleDeferredStamp | lib/shine.timing.js:79-81 | the deferred run uses the last call's arguments and records that call's time, not the time it runs |
| Timing.ThrottleRunCancels | lib/shine.timing.js:83-88 | an immediate run leaves no pending timeout and adds exactly one run |
| Timing.Debouncer.constructor | lib/shine.timing.js:25-27 | no timeout pending, nothing run |
| Timing.Debouncer.Invoke | lib/shine.timing.js:29-41 | the closure's new state is `DebounceCall` of the old |
| Timing.Debouncer.Elapse | lib/shine.timing.js:38-40 | the timer's new state is `DebounceFire` of the old |
| Timing.Throttler.constructor | lib/shine.timing.js:58-61 | no previous timestamp, no timeout pending, nothing run |
| Timing.Throttler.Invoke | lib/shine.timing.js:63-90 | the closure's new state is `ThrottleCall` of the old |
| Timing.Throttler.Elapse | lib/shine.timing.js:79-81 | the timer's new state is `ThrottleFire` of the old |
| Dom.Node.NodeType | lib/shine.splitter.js:92 | nodeType is 3 exactly for text nodes and 1 exactly for elements |
| Dom.Rect.Centre | lib/shine.shadow.js:130-134 | the centre is halfway across the box in both directions |
| Dom.DomElement.constructor | lib/shine.splitter.js:29-34 | a new element with no style written |
| Dom.HasTextOnly | lib/shine.js:202-216 | true exactly when there are no child nodes or every child has nodeType 3 |
| Dom.TextContent | lib/shine.splitter.js:137 | a single text child's content is its data |
| Dom.TextChildren | lib/shine.splitter.js:67-69 | after `textContent = t` the element is text-only and its text is `t` |
| Dom.Capitalised | lib/shine.js:185 | the first character upper-cased, the rest unchanged |
| Dom.GetPrefixed | lib/shine.js:176-195 | the property if supported; else the first supported of webkit, ms, Moz, Webkit, O followed by the capitalised name, with every earlier candidate unsupported; else the property unchanged |
| Dom.EventHost.constructor | lib/shine.shadow.js:100-103 | no listeners and no functions yet |
| Dom.EventHost.Bind | lib/shine.shadow.js:97-98 | `bind` makes a function distinct from every earlier one |
| Dom.EventHost.AddAll | lib/shine.shadow.js:100-103 | `addEventListener` adds; adding a registered listener again changes nothing |
| Dom.EventHost.RemoveAll | lib/shine.shadow.js:121-124 | `removeEventListener` removes; removing an absent listener changes nothing |
| Shadows.Distance | lib/shine.shadow.js:42-44 | `Math.max(32, sqrt(...))`: exactly the floor (32) when the true distance is below it, and the true distance from the floor up |
| Shadows.StepCount | lib/shine.shadow.js:48 | the loop makes passes exactly when numSteps is positive |
| Shadows.StepCountBound | lib/shine.shadow.js:48 | `i < numSteps` holds exactly for the first StepCount passes |
| Shadows.StepCountWhole | lib/shine.shadow.js:48 | a whole positive numSteps gives exactly numSteps layers |
| Shadows.LayerAt | lib/shine.shadow.js:49-59 | opacity is non-negative for a non-negative intensity; with a maxBlurRadius the blur is at most it, and without one the blur is NaN |
| Shadows.Layers | lib/shine.shadow.js:41-63 | one layer per loop pass |
| Shadows.LayerOf | lib/shine.shadow.js:48-63 | definition (unfolding of `Layers`): layer k is the k-th pass of the loop |
| Shadows.ShadowStrings | lib/shine.shadow.js:61-62 | definition (the closed form ComputeShadows is proved against): one `getShadow` string per layer, in layer order |
| Shadows.GetShadow | lib/shine.shadow.js:77-80 | definition of `getShadow`: 'rgba(r, g, b, opacity) xpx ypx blurpx'; properties in ShadowStrings and ComputeShadows |
| Shadows.LayersOpacityNonNegative | lib/shine.shadow.js:55 | every layer's opacity is non-negative when the intensity is |
| Shadows.LayersBlurBounded | lib/shine.shadow.js:58-59 | with a maxBlurRadius, no layer's blur exceeds it |
| Shadows.LibConfigBlurIsNaN | lib/shine.shadow.js:59 | with any config from lib/shine.config.js, every layer's blur is NaN |
| Shadows.AppConfigBlurBounded | app/js/shine.js:132 | with an app ShadowConfig, read by the blur clamp, every blur is a number at most its maxBlurRadius, which is 64 by default |
| Shadows.FirstLayer | lib/shine.shadow.js:48-57 | with positive exponents, layer 0 has offset (0, 0) and opacity intensity * config.opacity |
| Shadows.WorkedExample | lib/shine.shadow.js:41-63 | a concrete draw: 3 steps give opacities 0.3, 0.2, 0.1 and x offsets 0, 20/3, 40/3 |
| Shadows.ViewportListeners | lib/shine.shadow.js:100-103 | the four listeners all carry the one handler |
| Shadows.Disable | lib/shine.shadow.js:109-125 | definition of the registration after `disableAutoUpdates`; properties in DisableIdempotent |
| Shadows.Enable | lib/shine.shadow.js:93-104 | definition of the registration after `enableAutoUpdates`; properties in EnableReplaces and EnableTwiceKeepsOne |
| Shadows.DisableIdempotent | lib/shine.shadow.js:109-125 | disabling leaves no handler, and a second disable changes nothing |
| Shadows.EnableReplaces | lib/shine.shadow.js:93-104 | enabling removes the old handler's listeners, binds a new handler with its four listeners, and leaves every other function's listeners alone |
| Shadows.EnableTwiceKeepsOne | lib/shine.shadow.js:93-104 | after two enables only the second handler is registered |
| Shadows.ComputeShadows | lib/shine.shadow.js:46-63 | the loop pushes exactly the `getShadow` strings of `Layers`, in pass order |
| Shadows.Shadow.constructor | lib/shine.shadow.js:14-33 | 'textShadow', auto-updates enabled from no handler, and the position read from the layout |
| Shadows.Shadow.Draw | lib/shine.shadow.js:39-66 | only the element's style property changes, to the joined layers; without a config nothing is written and the call fails |
| Shadows.Shadow.DrawShadows | lib/shine.shadow.js:86-88 | the style property becomes the shadows joined with ', ' |
| Shadows.Shadow.EnableAutoUpdates | lib/shine.shadow.js:93-104 | the registration becomes `Enable` of the old |
| Shadows.Shadow.DisableAutoUpdates | lib/shine.shadow.js:109-125 | the registration becomes `Disable` of the old |
| Shadows.Shadow.HandleViewportUpdate | lib/shine.shadow.js:130-134 | the position becomes the centre of the element's box |
| Shadows.DrawWithoutConfig | lib/shine.js:94 | a Shadow built as lib/shine.js builds it cannot draw: nothing is written |
| Splitters.Step | lib/shine.splitter.js:141-172 | one loop pass keeps an open word as the last piece |
| Splitters.Scan | lib/shine.splitter.js:136-172 | the whole loop keeps an open word as the last piece |
| Splitters.StepText | lib/shine.splitter.js:141-172 | each pass adds its character to the displayed text, and to the letters unless it is white space |
| Splitters.ExtendLastWord | lib/shine.splitter.js:162-167 | a letter joining the open word joins the displayed text and the letters |
| Splitters.Snoc | lib/shine.splitter.js:148-157 | appending a piece appends its text, letters and word |
| Splitters.ScanFlatten | lib/shine.splitter.js:141-172 | words and spacers together spell the input text |
| Splitters.ScanStepFlatten | lib/shine.splitter.js:141-172 | the inductive step of that round trip |
| Splitters.ScanLetters | lib/shine.splitter.js:141-172 | one letter per non-white-space character, in text order; a character is a Unicode scalar value, not a UTF-16 code unit (see Left out) |
| Splitters.StepWellFormed | lib/shine.splitter.js:153-171 | each pass keeps every spacer white space and every word free of white space, with `\W` only as a word's last letter |
| Splitters.WellFormedSnoc | lib/shine.splitter.js:148-157 | one more well-formed piece keeps the pieces well formed |
| Splitters.GrowWord | lib/shine.splitter.js:167-171 | a word of `\w` letters may take any further non-white-space letter |
| Splitters.ScanWellFormed | lib/shine.splitter.js:153-171 | white space becomes a spacer and ends the word; a `\W` letter closes its word |
| Splitters.ElementChildren | lib/shine.splitter.js:110-119 | exactly the element children, in order |
| Splitters.LiveSplit | lib/shine.splitter.js:110-118 | definition of the live walk as written, which skips the node after a moved one; properties in LiveSplitSkips, LiveSplitSecond and LiveSplitSeparated |
| Splitters.LiveSplitSkips | lib/shine.splitter.js:110-118 | walking the live child list skips the second of three adjacent element children |
| Splitters.ElementChildrenThree | lib/shine.splitter.js:113 | three element nodes are three element children, in order |
| Splitters.LiveSplitSecond | lib/shine.splitter.js:110-118 | after a move, the walk's index points past the next node |
| Splitters.LiveSplitSeparated | lib/shine.splitter.js:110-118 | with no two element children adjacent, the live walk moves every element child in order |
| Splitters.ElementChildrenAppend | lib/shine.splitter.js:110-119 | the element children of two runs concatenate |
| Splitters.ElementChildrenDistinct | lib/shine.splitter.js:110-119 | each element child appears once |
| Splitters.ScanSnoc | lib/shine.splitter.js:141-172 | the scan of one more character is one more step |
| Splitters.LetterSpansSnoc | lib/shine.splitter.js:162-165 | a new span for one more letter keeps spans and letters in step |
| Splitters.ScanChar | lib/shine.splitter.js:144-171 | one pass with the `wordElement` cursor is `Step` |
| Splitters.AddLetter | lib/shine.splitter.js:162-165 | a fresh span classed '<prefix>letter' holding the letter is pushed |
| Splitters.SplitStep | lib/shine.splitter.js:141-172 | pass i extends the scan and the letter spans by character i |
| Splitters.SplitLetters | lib/shine.splitter.js:136-172 | the loop yields `Scan(text)` and one fresh letter span per non-white-space character, in order |
| Splitters.Splitter.constructor | lib/shine.splitter.js:16-50 | empty arrays and text, a fresh wrapper |
| Splitters.Splitter.Reset | lib/shine.splitter.js:58-69 | text becomes optText if non-empty; both arrays and the wrapper are emptied; the content is replaced only for a non-empty text |
| Splitters.Splitter.SplitText | lib/shine.splitter.js:136-180 | words and spacers of the text, then the mask's copy, in the wrapper; the letter spans are appended to `elements`; the wrapper replaces the content |
| Splitters.Splitter.Record | lib/shine.splitter.js:149-176 | words, letters and pieces are appended, and the mask's copy goes last |
| Splitters.Splitter.MoveChild | lib/shine.splitter.js:111-118 | one pass: other nodes are skipped; an element is marked and moved unless it is the wrapper |
| Splitters.Splitter.MoveElement | lib/shine.splitter.js:116-118 | the element gets ' <prefix>letter' appended and joins `elements`; moving the wrapper into itself fails |
| Splitters.Splitter.SplitChildren | lib/shine.splitter.js:107-127 | (corrected walk, second finding) every element child, in order, is marked and moved, then the mask; fails exactly when the wrapper is among the children. The source's live walk skips an element that directly follows a moved one, so with children `[A, wrapper]` it never reaches the wrapper and does not throw |
| Splitters.Splitter.MoveChildren | lib/shine.splitter.js:110-119 | the loop moves exactly the element children, in order, each marked once |
| Splitters.Splitter.SplitPreserving | app/js/shine.js:335-352 | (corrected walk, second finding) `split(optText, preserveChildren)`: children moved or text split on emptied arrays; fails only when moving the wrapper |
| Splitters.Splitter.ResplitChildren | app/js/shine.js:348-349 | (corrected walk, second finding) `splitChildren` on emptied arrays |
| Splitters.Splitter.ResplitText | app/js/shine.js:350-351 | `splitText` on emptied arrays |
| Splitters.Splitter.SplitAsWritten | lib/shine.splitter.js:56-76 | the text-only test is made before the new text replaces the content, and selects the branch, as written (third finding); children are moved by the corrected walk (second finding) |
| Splitters.Splitter.Split | lib/shine.splitter.js:56-76 | the same, with the test on the content as replaced: a new text is always split into letters |
| Splitters.ResplitAsWritten | lib/shine.splitter.js:65-75 | splitting, then splitting with a new text, makes no letters |
| Splitters.ResplitCorrected | lib/shine.splitter.js:65-75 | with the test after the replacement, the second split makes one letter per non-white-space character |
| Shines.DrawListeners | lib/shine.js:115-116 | definition: the draw handler's listeners are window scroll and resize |
| Shines.HandlersBelowAvoiding | lib/shine.js:108-121 | Shadow handlers that avoid the draw handler meet the controller's invariant |
| Shines.EnableAll | lib/shine.js:118-121 | every Shadow, last first, gets a handler; listeners of the kept functions are untouched |
| Shines.DisableAll | lib/shine.js:135-138 | no Shadow keeps a handler; listeners of the kept functions are untouched |
| Shines.DrawInOrder | lib/shine.js:63-68 | every Shadow shows the shadow `draw` computes for the light; every element keeps its class and content |
| Shines.DrawAt | lib/shine.js:65-66 | one Shadow draws; the others keep what they show; every element keeps its class and content |
| Shines.BuildShadows | lib/shine.js:92-97 | one new Shadow per element, in order, each with the same config and the prefixed property, each listening |
| Shines.Shine.constructor | lib/shine.js:21-44 | prefix 'shine-' by default; property 'textShadow' exactly for text-only content, else 'boxShadow'; a default light; auto-updates on; every Shadow drawn; for text-only content one Shadow per non-white-space character, whose elements are the letter spans of that text, in order; otherwise one Shadow per element child, on that child, in order |
| Shines.Shine.Destroy | lib/shine.js:50-58 | auto-updates off, every Shadow disabled; light, Shadows, splitter and handler dropped |
| Shines.Shine.Draw | lib/shine.js:63-68 | every Shadow drawn, first to last; after `destroy` the call fails |
| Shines.Shine.Update | lib/shine.js:80-103 | keeps the auto-update flag it found; one new Shadow per splitter element, in order, with the prefixed property, all drawn; for a text, the elements are the letter spans of its non-white-space characters, in order; otherwise the moved element children, in order; the light and the property are untouched |
| Shines.Shine.Teardown | lib/shine.js:81-86 | the flag is remembered, auto-updates are off, the stylesheet is injected, the Shadows are dropped |
| Shines.Shine.Rebuild | lib/shine.js:90-102 | the Shadows are rebuilt and drawn, the flag is restored, and letter spans stay letter spans |
| Shines.Shine.Respawn | lib/shine.js:90-101 | one Shadow per element with the prefixed property, and auto-updates back on if they were on |
| Shines.Shine.EnableAutoUpdates | lib/shine.js:108-122 | the flag is on, the draw handler listens, and every Shadow has a handler |
| Shines.Shine.DisableAutoUpdates | lib/shine.js:126-139 | the flag is always off, the draw handler is silent, and no Shadow has a handler |
| Shines.NewShine | lib/shine.js:24-26 | a missing element throws 'No valid DOM element passed as first parameter' |
| AppShines.DrawReversed | app/js/shine.js:547-551 | every Shadow drawn, last to first; every element keeps its class and content |
| AppShines.ConfigOrDefault | app/js/shine.js:519 | the given config, or a fresh ShadowConfig with the app defaults |
| AppShines.AppShine.constructor | app/js/shine.js:508-528 | as lib (one Shadow per letter span of a text-only content, else per element child, in order), plus: every Shadow shares the one config, which is a new default ShadowConfig when none is given |
| AppShines.AppShine.Destroy | app/js/shine.js:534-542 | auto-updates off; light, Shadows, splitter and handler dropped |
| AppShines.AppShine.Draw | app/js/shine.js:547-551 | every Shadow drawn; after `destroy` reading `shadows.length` fails |
| AppShines.AppShine.UpdateContent | app/js/shine.js:563-586 | keeps the flag it found; one Shadow per element with the shared config and the prefixed property, all drawn; for a text, the elements are its letter spans, otherwise the moved element children, in order; config and light unchanged |
| AppShines.AppShine.Teardown | app/js/shine.js:564-569 | the flag is remembered, auto-updates are off, the stylesheet is injected, the Shadows are dropped |
| AppShines.AppShine.Rebuild | app/js/shine.js:573-585 | the Shadows are rebuilt with the shared config and drawn, the flag is restored, and letter spans stay letter spans |
| AppShines.AppShine.Respawn | app/js/shine.js:573-584 | one Shadow per element with the shared config, and auto-updates back on if they were on |
| AppShines.AppShine.EnableAutoUpdates | app/js/shine.js:591-605 | a newly bound draw handler listens, the previous one is silent, and every Shadow has a handler |
| AppShines.AppShine.BindDrawHandler | app/js/shine.js:593-599 | the flag is on, and a fresh handler is bound with its two listeners |
| AppShines.AppShine.DisableAutoUpdates | app/js/shine.js:609-628 | the flag is always off; without a handler nothing else changes (the Shadows keep theirs); otherwise the handler is silent and no Shadow keeps one |
| AppShines.NewAppShine | app/js/shine.js:509-511 | a missing element throws |
| DistBundle.DistStepCount | dist/shine.js:123-124 | the layer count is `min(5, round(distance / 8))` |
| DistBundle.DistLayers | dist/shine.js:117-142 | definition of the dist layer loop: floor 40, `min(5, round(distance / 8))` passes; properties in FiveSteps and DistLayerShape |
| DistBundle.FiveSteps | dist/shine.js:75-128 | with the distance floored at 40, the count is always exactly 5 |
| DistBundle.DistLayerShape | dist/shine.js:117-146 | every draw has 5 layers, each with a blur of at most 64 and, for a non-negative intensity, a non-negative opacity |
| DistBundle.DistViewportListeners | dist/shine.js:175-178 | the four listeners, 'load' among them on the document, all carry the one handler |
| DistBundle.DistShadow.constructor | dist/shine.js:73-111 | black, 'textShadow', one handler bound for life, its four listeners added, the position read from the layout |
| DistBundle.DistShadow.Draw | dist/shine.js:117-146 | only the element's style property changes, to the joined layers |
| DistBundle.DistShadow.LayersFor | dist/shine.js:119-142 | definition of the layers `draw(light)` computes from the current position; properties in DistLayerShape |
| DistBundle.DistShadow.EnableAutoUpdates | dist/shine.js:173-179 | the handler's four listeners are registered |
| DistBundle.DistShadow.DisableAutoUpdates | dist/shine.js:184-189 | the handler's four listeners are removed |
| DistBundle.DistShadow.HandleViewportUpdate | dist/shine.js:194-198 | the position becomes the centre of the element's box |
| DistBundle.EnableTwice | dist/shine.js:173-179 | enabling twice registers the same listeners as once |
| DistBundle.EnableThenDisable | dist/shine.js:173-189 | disabling after enabling removes all of the handler's listeners |
| DistBundle.SeparatorCharacterMatches | dist/shine.js:293-296 | the pattern matches exactly when some character is a separator |
| DistBundle.IsSeparatorCharacter | dist/shine.js:293-296 | definition of `isSeparatorCharacter`; properties in SeparatorCharacterMatches, SeparatorSingle and SeparatorEndsWord |
| DistBundle.SeparatorSingle | dist/shine.js:293-296 | for one character: white space, '-', ',' or '.'; a missing argument matches nothing |
| DistBundle.SeparatorEndsWord | dist/shine.js:264-282 | a separator always closes the word the split loop has open |
| DistBundle.DistSplitter.constructor | dist/shine.js:209-291 | the text becomes words and spacers, then the mask's copy, in a '<prefix>wrapper' that replaces the content; one letter span per non-white-space character |
| DistBundle.DistSplitShowsText | dist/shine.js:245-291 | the wrapper shows the element's text, and its letters are the text without white space |
| DistBundle.DistElements | dist/shine.js:437-447 | definition (the closed form the dist Shine is proved against): the Shadows' elements, in order |
| DistBundle.DrawAll | dist/shine.js:424-429 | every Shadow draws for the light, first to last |
| DistBundle.DrawNext | dist/shine.js:425-427 | one Shadow draws; the others keep what they show |
| DistBundle.NewShadowWith | dist/shine.js:443-445 | a new Shadow with the property, listening with a fresh handler |
| DistBundle.BuildDistShadows | dist/shine.js:442-447 | one Shadow per letter, in order, with the property, each with a handler of its own that listens |
| DistBundle.PushShadow | dist/shine.js:443-446 | one more Shadow, bound after all the others |
| DistBundle.InjectStylesheet | dist/shine.js:438 | the shared injector has the stylesheet in the document |
| DistBundle.DisableCascade | dist/shine.js:411-419 | no listener of the Shine or its Shadows remains; other functions' listeners are untouched |
| DistBundle.EnableCascade | dist/shine.js:397-407 | every listener of the Shine and its Shadows is registered; other functions' listeners are untouched |
| DistBundle.InitShadows | dist/shine.js:440-449 | one listening Shadow per letter span, with the property |
| DistBundle.StartShine | dist/shine.js:387-450 | the draw handler bound once, the stylesheet injected, the element split, one listening Shadow per letter |
| DistBundle.SplitAndBuild | dist/shine.js:440-447 | one Shadow per letter span of the split, with the property |
| DistBundle.DistShine.constructor | dist/shine.js:368-392 | prefix 'shine-' and property 'textShadow' by default; one Shadow per letter; everything listening; nothing drawn |
| DistBundle.DistShine.EnableAutoUpdates | dist/shine.js:397-407 | everything listens; other functions' listeners are untouched |
| DistBundle.DistShine.DisableAutoUpdates | dist/shine.js:411-419 | nothing listens; other functions' listeners are untouched |
| DistBundle.DistShine.Draw | dist/shine.js:424-429 | every Shadow drawn for the light |
| DistBundle.NewDistShine | dist/shine.js:374-381 | a missing element throws; an element with element children throws the second error; otherwise the Shine is made and listens |

## Left out

- Floating point: numbers are reals. `Math.pow`, `Math.sqrt` and number-to-string are parameters of which only non-negativity, `pow(0, p) = 0` for `p > 0`, and nothing about rendering are known. So exact layer values and the text of `getShadow` are stated only up to those functions.
- Colors.ParseIntHex: `parseInt` keeps its exact integer, where JavaScript rounds it to a double, so above 2^53 the low bits (and hence the blue byte) can differ, and beyond 256 hex digits JavaScript gets Infinity and black where the model wraps the value modulo 2^32.
- The real DOM: `getBoundingClientRect` is a `bounds` field set by the caller. Inline HTML parsing (`innerHTML = letter`) is modelled as one text node. The mask's HTML copy is a value copy of the wrapper's pieces. The word and spacer spans are values, not objects, because nothing writes to them after the split. Style writes are stored as given, without CSS validation: a browser ignores an unparseable `textShadow` (one carrying `NaNpx`, see Shadows.LibConfigBlurIsNaN) and keeps the old value, whereas `Shadows.Shadow.Draw`, `Shadows.Shadow.DrawShadows` and the Shines' draws record the string.
- The event loop: `setTimeout`, `clearTimeout` and `performance.now()` are an explicit clock and one pending-timeout slot. The `context` / `this` binding of the timing helpers is not modelled. Listeners are a set, which is how the DOM treats repeated add and absent remove.
- Strings are sequences of Unicode scalar values, not UTF-16 code units: a character outside the Basic Multilingual Plane (an emoji, say) is one letter and one Shadow in Splitters.Scan, Splitters.ScanLetters, Splitters.SplitLetters, Splitters.Splitter.SplitText and DistBundle.DistSplitter, where the source's `charAt(i)` walk makes two letter spans, one per surrogate, and two Shadows.
- Text.ToUpper (used by Dom.Capitalised): upper-cases the ASCII letters only, where `toUpperCase` covers all of Unicode and can lengthen a string ('ß' becomes "SS"). The capitalised strings are CSS property names, which are ASCII, so nothing is lost there.
- `getCSS`, a constant string: it is a parameter of the Shine. The `console.log` in `hasTextOnly` is not modelled.
- A falsy but present argument: an empty string stands for a missing class prefix, property or text; `None` stands for a missing number or settings object.
- Configs.Put: a setting is assigned only when it is the kind of value the key holds (a number, or a Color for shadowRGB); JavaScript would assign any value. Prototype keys such as `applyValues`, which `for (var key in this)` also visits, are not modelled.
- Shadows.Shadow.Draw: the Shadow's `position` is its own Point value; the source's Point object is never shared, so nothing is lost.
- `Shadow.getShadow` and `drawShadows` are modelled (`GetShadow`, `DrawShadows`); the text of the numbers inside them is whatever `MathLib.show` returns.
- DistBundle.IsSeparatorCharacter: the source returns the match array or null; the model returns whether it matched.
- DistBundle.DistSplitter.constructor: requires an element without element children, which the bundle's Shine checks before splitting. The `textContent` of nested elements is not modelled.
- DistBundle.DistShadow: the tuning fields (`stepSize`, `maxSteps`, multipliers, exponents, `maxBlurRadius`) are constants, because nothing in the bundle changes them after construction.
- DistBundle.DistShine.constructor: the light is created after the element is split rather than before. In the split, the element's content is replaced before the letter spans are made. Only the allocation order differs; nothing in between reads the light or the old content.
- DistBundle.DistShadow.LayersFor: does not itself state the layer count; DistLayerShape proves the count is 5.
- Splitters.Splitter.SplitPreserving: splitting text requires text-only content or a new text, because the `textContent` of nested elements is not modelled. `lib/shine.js` and `app/js/shine.js` only reach `splitText` through `Split`, which meets that requirement.
- Shines.Shine.Update and AppShines.AppShine.UpdateContent: they split through the corrected `Split`, which walks a snapshot of the children (second finding below) and tests for text-only content after the new text is in place (third finding below, which app/js/shine.js:571 repeats by computing `!elememtHasTextOnly(...)` before `split` replaces the content); the promise that a new text is always split into letters rests on the third correction. They require the element's children to be distinct objects, which the DOM guarantees. When moving the wrapper into itself throws, the call stops with `ok` false, and the state left behind is not described.
- Shines.Shine.constructor and AppShines.AppShine.constructor: they update with no text, so their one-Shadow-per-element-child promise is that of the corrected walk (second finding below); the source's live walk skips every element child that directly follows a moved one.
- Shines.Shine.constructor and the other Shine members: every Shadow gets the Shine's config (first finding below). `lib/shine.js` itself passes none.
- A second `destroy` or calls after `destroy` (other than `draw`) require a live Shine: the source throws on the nulled fields, and that failure is not modelled.
- `app/js/shine-demo.js`, `app/js/main.js`, `js/main.js`, `mouse-follow.js`, `Gruntfile.js`, `lib/namespace.js` and the polyfills are demo, build and host glue; they are not part of this model.

## Findings

| source | as written | input that shows it | evidently intended | confidence | as-written member | corrected member |
|---|---|---|---|---|---|---|
| lib/shine.js:94 | `new exports.Shadow(element)` passes no config, but `draw` reads `config.numSteps` | any `update` with at least one letter: the first `draw` throws a TypeError | pass the Shine's config, as app/js/shine.js:577 does | high; not executed | Shadows.DrawWithoutConfig | Shines.BuildShadows |
| lib/shine.splitter.js:110-118 | walks the live `childNodes` by index while `appendChild` removes each moved child from it | children `<b>a</b><i>b</i><u>c</u>`: `<i>` is skipped, and then deleted by `innerHTML = ''` | move every element child, in order (walk a snapshot) | high; not executed | Splitters.LiveSplitSkips | Splitters.Splitter.MoveChildren |
| lib/shine.splitter.js:65-69 | the text-only test is made before a new text replaces the content | `update()` then `update('hi')`: the content is the wrapper, so the new text is searched for element children and no letter is made | test the content after the new text is in place | high; not executed | Splitters.ResplitAsWritten | Splitters.ResplitCorrected |
| lib/shine.config.js:27-47 | no `maxBlurRadius` field, although line 24 documents it and lib/shine.shadow.js:59 reads it | any lib config: `Math.min(undefined, blur)` is NaN, so every layer's blur is NaN and a browser rejects the resulting text-shadow value | a default of 64, as app/js/shine.js:132 has | high; not executed | Shadows.LibConfigBlurIsNaN | Shadows.AppConfigBlurBounded |

Two further source behaviours are kept as written, without a corrected counterpart:

- A second `update()` or `updateContent()` with no text finds the wrapper as the only child and moves it into itself at lib/shine.splitter.js:117, which throws a HierarchyRequestError. Both Splitters.Splitter.SplitAsWritten and Splitters.Splitter.Split return `ok` false for it, and Shines.Shine.Update and AppShines.AppShine.UpdateContent stop there.
- app/js/shine.js:615-617: `disableAutoUpdates` returns before disabling the Shadows when no draw handler is bound. After a disable, `updateContent` builds Shadows that listen (each Shadow enables itself on construction); a later `updateContent` then drops them with their listeners still registered. AppShines.AppShine.DisableAutoUpdates and AppShines.AppShine.Respawn state this behaviour.
