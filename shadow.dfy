/**
 * Shadow casters (lib/shine.shadow.js, and `Shadow` in app/js/shine.js): the
 * layers of one element's shadow, computed from the element's centre, a light
 * and a config, and the viewport listeners that keep the centre up to date.
 */
module Shadows {
  import opened Wrappers
  import opened Text
  import opened Numerics
  import opened Geometry
  import opened Dom
  import opened Configs
  import opened Lights
  import opened Colors

  /** The numbers the layer formulas use. No maxBlurRadius means the config has no such key. */
  datatype Tuning = Tuning(
    opacity: real, opacityPow: real,
    offset: real, offsetPow: real,
    blur: real, blurPow: real,
    maxBlurRadius: Option<real>)

  function TuningOf(v: Values): Tuning {
    Tuning(v.opacity, v.opacityPow, v.offset, v.offsetPow, v.blur, v.blurPow, v.maxBlurRadius)
  }

  /** One shadow layer. The blur is NaN when there is no maxBlurRadius (`Math.min(undefined, x)`). */
  datatype Layer = Layer(opacity: real, offsetX: real, offsetY: real, blur: Num)

  /** The smallest distance `draw` works with in lib/ and app/. */
  const MinDistance: real := 32.0

  /** The distance from the element to the light, never below `floor`. */
  function Distance(delta: Point, floor: real, math: MathLib): (d: real)
    ensures d >= floor
    ensures math.sqrt(delta.x * delta.x + delta.y * delta.y) < floor ==> d == floor
    ensures math.sqrt(delta.x * delta.x + delta.y * delta.y) >= floor ==> d == math.sqrt(delta.x * delta.x + delta.y * delta.y)
  {
    Max(floor, math.sqrt(delta.x * delta.x + delta.y * delta.y))
  }

  /** The number of passes of `for (i = 0; i < n; i++)`. */
  function StepCount(n: real): (c: nat)
    ensures c > 0 <==> n > 0.0
  {
    if n <= 0.0 then 0 else if n.Floor as real == n then n.Floor else n.Floor + 1
  }

  /** The loop test `i < n` holds exactly for the first StepCount(n) values of i. */
  lemma StepCountBound(n: real, i: nat)
    ensures i < StepCount(n) <==> (i as real) < n
  {
    if n > 0.0 && n.Floor as real != n {
      assert n.Floor as real < n < n.Floor as real + 1.0;
    }
  }

  /** A whole, positive numSteps gives exactly numSteps passes. */
  lemma StepCountWhole(k: nat)
    requires k > 0
    ensures StepCount(k as real) == k
  {
    assert (k as real).Floor == k;
  }

  /** Layer i of n: the formulas of `draw`, with `ratio = i / n`. */
  function LayerAt(i: nat, n: real, delta: Point, distance: real, intensity: real, t: Tuning, math: MathLib): (l: Layer)
    requires n > 0.0
    ensures intensity >= 0.0 ==> l.opacity >= 0.0
    ensures t.maxBlurRadius.Some? ==> l.blur.Real? && l.blur.v <= t.maxBlurRadius.value
    ensures t.maxBlurRadius.None? ==> l.blur == NaN
  {
    var ratio := (i as real) / n;
    var ratioOpacity := math.pow(ratio, t.opacityPow);
    var ratioOffset := math.pow(ratio, t.offsetPow);
    var ratioBlur := math.pow(ratio, t.blurPow);
    var opacity := intensity * Max(0.0, t.opacity * (1.0 - ratioOpacity));
    var blurRadius := t.blur * distance * ratioBlur;
    assert intensity >= 0.0 ==> opacity >= 0.0 by {
      if intensity >= 0.0 {
        MulNonNegative(intensity, Max(0.0, t.opacity * (1.0 - ratioOpacity)));
      }
    }
    Layer(
      opacity,
      - t.offset * delta.x * ratioOffset,
      - t.offset * delta.y * ratioOffset,
      match t.maxBlurRadius
      case Some(m) => Real(Min(m, blurRadius))
      case None => NaN)
  }

  lemma MulNonNegative(a: real, b: real)
    requires a >= 0.0 && b >= 0.0
    ensures a * b >= 0.0
  {
  }

  /** The layers `draw` computes for an element centred at `anchor`, nearest first. */
  function Layers(anchor: Point, light: Point, intensity: real, n: real, floor: real, t: Tuning, math: MathLib): (ls: seq<Layer>)
    ensures |ls| == StepCount(n)
  {
    var delta := anchor.Delta(light);
    var distance := Distance(delta, floor, math);
    seq(StepCount(n), k requires 0 <= k < StepCount(n) => LayerAt(k, n, delta, distance, intensity, t, math))
  }

  /** Layer k of `Layers` is the k-th pass of the loop. */
  lemma LayerOf(anchor: Point, light: Point, intensity: real, n: real, floor: real, t: Tuning, math: MathLib, k: nat)
    requires k < StepCount(n)
    ensures n > 0.0
    ensures Layers(anchor, light, intensity, n, floor, t, math)[k]
      == LayerAt(k, n, anchor.Delta(light), Distance(anchor.Delta(light), floor, math), intensity, t, math)
  {
  }

  /** A number as `'' + x` renders it; NaN is rendered as "NaN". */
  function ShowNum(x: Num, math: MathLib): string {
    match x
    case Real(v) => math.show(v)
    case NaN => "NaN"
  }

  /** The colour of the shadow, as `getShadow` reads it from `config.shadowRGB`. */
  datatype Paint = Paint(r: real, g: real, b: real)

  /** `getShadow`: one CSS shadow, 'rgba(r, g, b, opacity) xpx ypx blurpx'. */
  function GetShadow(c: Paint, l: Layer, math: MathLib): string {
    "rgba(" + math.show(c.r) + ", " + math.show(c.g) + ", " + math.show(c.b) + ", " + math.show(l.opacity) + ")"
      + " " + math.show(l.offsetX) + "px " + math.show(l.offsetY) + "px " + ShowNum(l.blur, math) + "px"
  }

  function ShadowStrings(c: Paint, ls: seq<Layer>, math: MathLib): (ss: seq<string>)
    ensures |ss| == |ls| && forall k :: 0 <= k < |ls| ==> ss[k] == GetShadow(c, ls[k], math)
  {
    seq(|ls|, k requires 0 <= k < |ls| => GetShadow(c, ls[k], math))
  }

  /** The value `drawShadows` writes: the layers' shadows joined with ', ', in layer order. */
  function ShadowStyle(c: Paint, ls: seq<Layer>, math: MathLib): string {
    Join(ShadowStrings(c, ls, math), ", ")
  }

  /** Every layer's opacity is non-negative under a non-negative intensity. */
  lemma LayersOpacityNonNegative(anchor: Point, light: Point, intensity: real, n: real, floor: real, t: Tuning, math: MathLib)
    requires intensity >= 0.0
    ensures forall k :: 0 <= k < StepCount(n) ==> Layers(anchor, light, intensity, n, floor, t, math)[k].opacity >= 0.0
  {
  }

  /** With a maxBlurRadius, no layer's blur exceeds it. */
  lemma LayersBlurBounded(anchor: Point, light: Point, intensity: real, n: real, floor: real, t: Tuning, math: MathLib)
    requires t.maxBlurRadius.Some?
    ensures forall k :: 0 <= k < StepCount(n) ==>
      var b := Layers(anchor, light, intensity, n, floor, t, math)[k].blur;
      b.Real? && b.v <= t.maxBlurRadius.value
  {
  }

  /**
   * A config made by lib/shine.config.js never owns a maxBlurRadius, whatever
   * the settings: every layer `draw` computes with it has a NaN blur, so the
   * text-shadow value carries 'NaNpx' where the blur radius should be. A
   * browser rejects that value, keeps the old one, and shows no new shadow.
   */
  lemma LibConfigBlurIsNaN(black: Color, settings: Option<Settings>, anchor: Point, light: Point, intensity: real, n: real, math: MathLib)
    ensures var t := TuningOf(Apply(LibDefaults(black), settings));
      forall k :: 0 <= k < StepCount(n) ==> Layers(anchor, light, intensity, n, MinDistance, t, math)[k].blur == NaN
  {
    ApplyIgnoresUnknown(LibDefaults(black), settings);
  }

  /**
   * The app's ShadowConfig owns a maxBlurRadius (64 unless the settings
   * override it): every layer's blur is a number no larger than it.
   */
  lemma AppConfigBlurBounded(black: Color, settings: Option<Settings>, anchor: Point, light: Point, intensity: real, n: real, math: MathLib)
    ensures var v := Apply(AppDefaults(black), settings);
      && v.maxBlurRadius.Some?
      && (settings.None? ==> v.maxBlurRadius == Some(64.0))
      && forall k :: 0 <= k < StepCount(n) ==>
           var b := Layers(anchor, light, intensity, n, MinDistance, TuningOf(v), math)[k].blur;
           b.Real? && b.v <= v.maxBlurRadius.value
  {
    var v := Apply(AppDefaults(black), settings);
    if settings.Some? {
      ApplyKeysGet(AppDefaults(black), settings.value, Keys(AppDefaults(black)), MaxBlurRadius);
    }
    assert Has(v, MaxBlurRadius);
    LayersBlurBounded(anchor, light, intensity, n, MinDistance, TuningOf(v), math);
  }

  /**
   * The nearest layer has ratio 0: with positive exponents it has no offset and
   * the full opacity intensity * config.opacity.
   */
  lemma FirstLayer(anchor: Point, light: Point, intensity: real, n: real, floor: real, t: Tuning, math: MathLib)
    requires math.Sound() && n > 0.0
    requires t.opacityPow > 0.0 && t.offsetPow > 0.0 && t.opacity >= 0.0
    ensures var l := Layers(anchor, light, intensity, n, floor, t, math)[0];
      l.offsetX == 0.0 && l.offsetY == 0.0 && l.opacity == intensity * t.opacity
  {
    var delta := anchor.Delta(light);
    var distance := Distance(delta, floor, math);
    var l := LayerAt(0, n, delta, distance, intensity, t, math);
    assert (0 as real) / n == 0.0;
    assert math.pow(0.0, t.opacityPow) == 0.0;
    assert math.pow(0.0, t.offsetPow) == 0.0;
    assert Layers(anchor, light, intensity, n, floor, t, math)[0] == l;
  }

  /**
   * A worked case: light at (0, 0), element at (100, 0), three steps, opacity
   * 0.3, offset 0.2, all exponents 1, intensity 1. Given that pow(x, 1) = x and
   * sqrt(10000) = 100, the layers have opacities 0.3, 0.2 and 0.1 and x offsets
   * 0, 20/3 and 40/3.
   */
  lemma WorkedExample(math: MathLib)
    requires math.sqrt(10000.0) == 100.0
    requires forall x :: math.pow(x, 1.0) == x
    ensures var ls := Layers(Point(100.0, 0.0), Origin, 1.0, 3.0, MinDistance, Tuning(0.3, 1.0, 0.2, 1.0, 0.0, 1.0, Some(64.0)), math);
      |ls| == 3
      && ls[0].opacity == 0.3 && ls[0].offsetX == 0.0
      && ls[1].opacity == 0.2 && ls[1].offsetX == 20.0 / 3.0
      && ls[2].opacity == 0.1 && ls[2].offsetX == 40.0 / 3.0
  {
    var t := Tuning(0.3, 1.0, 0.2, 1.0, 0.0, 1.0, Some(64.0));
    var ls := Layers(Point(100.0, 0.0), Origin, 1.0, 3.0, MinDistance, t, math);
    StepCountWhole(3);
    var delta := Point(100.0, 0.0).Delta(Origin);
    assert delta == Point(-100.0, 0.0);
    assert Distance(delta, MinDistance, math) == 100.0;
    assert ls[1] == LayerAt(1, 3.0, delta, 100.0, 1.0, t, math);
    assert ls[2] == LayerAt(2, 3.0, delta, 100.0, 1.0, t, math);
  }

  /** The viewport listeners of one Shadow handler (lib/ and app/). */
  function ViewportListeners(h: nat): (ls: set<Listener>)
    ensures forall l :: l in ls ==> l.handler == h
  {
    {Listener(Document, "resize", h), Listener(Window, "load", h), Listener(Window, "resize", h), Listener(Window, "scroll", h)}
  }

  /** A Shadow's handler slot together with the host's listeners and its next function identity. */
  datatype Registration = Registration(handler: Option<nat>, listeners: set<Listener>, next: nat)

  /** `disableAutoUpdates`: nothing without a handler; otherwise forget it and remove its listeners. */
  function Disable(r: Registration): Registration {
    match r.handler
    case None => r
    case Some(h) => Registration(None, r.listeners - ViewportListeners(h), r.next)
  }

  /** `enableAutoUpdates`: disable, then bind a new handler and add its four listeners. */
  function Enable(r: Registration): Registration {
    var d := Disable(r);
    Registration(Some(d.next), d.listeners + ViewportListeners(d.next), d.next + 1)
  }

  /** Handlers are bound before `next` is drawn: the handler slot holds an older identity. */
  predicate Issued(r: Registration) {
    r.handler.Some? ==> r.handler.value < r.next
  }

  /** Disabling leaves no handler, and a second disable changes nothing. */
  lemma DisableIdempotent(r: Registration)
    ensures Disable(r).handler.None?
    ensures Disable(Disable(r)) == Disable(r)
  {
  }

  /**
   * Enabling replaces the handler: the old handler's listeners are gone, the new
   * handler's four are present, and listeners of other functions are untouched.
   */
  lemma EnableReplaces(r: Registration)
    requires Issued(r)
    ensures var e := Enable(r);
      && Issued(e) && e.handler == Some(r.next) && ViewportListeners(r.next) <= e.listeners
      && (r.handler.Some? ==> ViewportListeners(r.handler.value) !! e.listeners)
      && forall l: Listener :: l.handler != r.next && (r.handler.None? || l.handler != r.handler.value) ==>
           (l in e.listeners <==> l in r.listeners)
  {
    var e := Enable(r);
    if r.handler.Some? {
      var h := r.handler.value;
      forall l | l in ViewportListeners(h) ensures l !in e.listeners {
        assert l.handler == h != r.next;
      }
    }
  }

  /** After enabling twice, only the second handler is registered: the first one's listeners are gone. */
  lemma EnableTwiceKeepsOne(r: Registration)
    requires Issued(r)
    ensures var e1 := Enable(r); var e2 := Enable(e1);
      ViewportListeners(e1.handler.value) !! e2.listeners && ViewportListeners(e2.handler.value) <= e2.listeners
  {
    EnableReplaces(r);
    EnableReplaces(Enable(r));
  }

  /** The loop of `draw`: one shadow string per pass, pushed in pass order. */
  method ComputeShadows(anchor: Point, light: Point, intensity: real, n: real, floor: real, t: Tuning, c: Paint, math: MathLib)
    returns (shadows: seq<string>)
    ensures shadows == ShadowStrings(c, Layers(anchor, light, intensity, n, floor, t, math), math)
  {
    var delta := anchor.Delta(light);
    var distance := Distance(delta, floor, math);
    ghost var ls := Layers(anchor, light, intensity, n, floor, t, math);
    shadows := [];
    var i: nat := 0;
    StepCountBound(n, i);
    while (i as real) < n
      invariant i <= StepCount(n) && |ls| == StepCount(n)
      invariant (i as real) < n <==> i < StepCount(n)
      invariant |shadows| == i && forall k :: 0 <= k < i ==> shadows[k] == GetShadow(c, ls[k], math)
      decreases StepCount(n) - i
    {
      var layer := LayerAt(i, n, delta, distance, intensity, t, math);
      LayerOf(anchor, light, intensity, n, floor, t, math, i);
      shadows := shadows + [GetShadow(c, layer, math)];
      i := i + 1;
      StepCountBound(n, i);
    }
  }

  class Shadow {
    var position: Point
    const element: DomElement
    const config: Config?
    const host: EventHost
    var shadowProperty: string
    var handler: Option<nat>

    function Reg(): Registration
      reads this, host
    {
      Registration(handler, host.listeners, host.nextHandler)
    }

    /**
     * `new Shadow(domElement, config)`: the property starts as 'textShadow',
     * auto-updates are enabled and the position is read from the layout.
     */
    constructor(element: DomElement, config: Config?, host: EventHost)
      modifies host
      ensures this.element == element && this.config == config && this.host == host
      ensures shadowProperty == "textShadow"
      ensures Reg() == Enable(Registration(None, old(host.listeners), old(host.nextHandler)))
      ensures position == element.bounds.Centre()
    {
      this.element := element;
      this.config := config;
      this.host := host;
      shadowProperty := "textShadow";
      handler := None;
      position := Origin;
      new;
      EnableAutoUpdates();
      HandleViewportUpdate();
    }

    /** The colour `draw` passes to `getShadow`. */
    function ShadowPaint(): Paint
      requires config != null
      reads this, config, config.shadowRGB
    {
      Paint(config.shadowRGB.r, config.shadowRGB.g, config.shadowRGB.b)
    }

    /** The layers `draw` computes for `light` with the current position and config. */
    function LayersFor(light: Light, math: MathLib): seq<Layer>
      requires config != null
      reads this, config, light, light.position
    {
      Layers(position, light.position.Value(), light.intensity, config.numSteps, MinDistance, TuningOf(config.Snapshot()), math)
    }

    /**
     * `draw(light)`: writes the joined layers to the element's style under
     * `shadowProperty`; light and config are only read. Without a config the
     * first read of `config.numSteps` throws a TypeError and nothing is written.
     */
    method Draw(light: Light, math: MathLib) returns (ok: bool)
      modifies element
      ensures ok <==> config != null
      ensures ok ==> element.style == old(element.style)[shadowProperty := ShadowStyle(ShadowPaint(), LayersFor(light, math), math)]
      ensures !ok ==> element.style == old(element.style)
      ensures element.className == old(element.className) && element.childNodes == old(element.childNodes)
      ensures element.bounds == old(element.bounds)
    {
      if config == null {
        return false;
      }
      var shadows := ComputeShadows(position, light.position.Value(), light.intensity, config.numSteps,
        MinDistance, TuningOf(config.Snapshot()), ShadowPaint(), math);
      DrawShadows(shadows);
      return true;
    }

    /** `drawShadows`: the style property gets the shadows joined with ', '. */
    method DrawShadows(shadows: seq<string>)
      modifies element
      ensures element.style == old(element.style)[shadowProperty := Join(shadows, ", ")]
      ensures element.className == old(element.className) && element.childNodes == old(element.childNodes)
      ensures element.bounds == old(element.bounds)
    {
      element.style := element.style[shadowProperty := Join(shadows, ", ")];
    }

    /** `enableAutoUpdates`. */
    method EnableAutoUpdates()
      modifies this, host
      ensures Reg() == Enable(old(Reg()))
      ensures position == old(position) && shadowProperty == old(shadowProperty)
    {
      DisableAutoUpdates();
      var h := host.Bind();
      handler := Some(h);
      host.AddAll(ViewportListeners(h));
    }

    /** `disableAutoUpdates`. */
    method DisableAutoUpdates()
      modifies this, host
      ensures Reg() == Disable(old(Reg()))
      ensures position == old(position) && shadowProperty == old(shadowProperty)
    {
      if handler.None? {
        return;
      }
      var h := handler.value;
      handler := None;
      host.RemoveAll(ViewportListeners(h));
    }

    /** `handleViewportUpdate`: the position becomes the centre of the element's box. */
    method HandleViewportUpdate()
      modifies this
      ensures position == element.bounds.Centre()
      ensures handler == old(handler) && shadowProperty == old(shadowProperty)
    {
      position := element.bounds.Centre();
    }
  }

  /**
   * lib/shine.js builds its shadows without a config: drawing such a shadow
   * fails before any layer is computed, whatever the light.
   */
  method DrawWithoutConfig(element: DomElement, host: EventHost, light: Light, math: MathLib) returns (ok: bool)
    modifies host, element
    ensures !ok && element.style == old(element.style)
  {
    var shadow := new Shadow(element, null, host);
    ok := shadow.Draw(light, math);
  }
}
