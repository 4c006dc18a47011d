/**
 * The released bundle (dist/shine.js), an earlier generation of the library:
 * a Shadow with its tuning in its own fields and no config, a Splitter that
 * splits once, on construction, and a Shine that only accepts an element
 * without element children and never re-splits.
 */
module DistBundle {
  import opened Wrappers
  import opened Text
  import opened Numerics
  import opened Geometry
  import opened Dom
  import opened Colors
  import opened Lights
  import opened Shadows
  import opened Splitters
  import opened StyleInjection
  import opened Shines

  /** `stepSize` and `maxSteps` of a new Shadow. */
  const StepSize: real := 8.0
  const MaxSteps: real := 5.0

  /** The smallest distance the bundle's `draw` works with. */
  const DistFloor: real := 40.0

  /** The multipliers, exponents and blur cap a new Shadow sets on itself. */
  const DistTuning: Tuning := Tuning(0.15, 1.2, 0.15, 1.8, 0.1, 1.4, Some(64.0))

  /** The message of the Error thrown for an element with element children. */
  const ChildrenError: string := "Shine only works on elements with text content. The DOM element cannot have any children."

  /** `numSteps = min(maxSteps, round(distance / stepSize))`. */
  function DistStepCount(distance: real): (n: real)
    ensures n <= MaxSteps
    ensures n == MaxSteps || n == Round(distance / StepSize) as real
  {
    Min(MaxSteps, Round(distance / StepSize) as real)
  }

  /** The layers the bundle's `draw` computes for a shadow at `anchor` and a light at `light`. */
  function DistLayers(anchor: Point, light: Point, intensity: real, math: MathLib): seq<Layer> {
    var distance := Distance(anchor.Delta(light), DistFloor, math);
    Layers(anchor, light, intensity, DistStepCount(distance), DistFloor, DistTuning, math)
  }

  /**
   * The distance floor of 40 already makes `round(distance / 8)` at least 5,
   * so the step count never drops below `maxSteps`: every draw has 5 layers.
   */
  lemma FiveSteps(distance: real)
    requires distance >= DistFloor
    ensures DistStepCount(distance) == MaxSteps
    ensures StepCount(DistStepCount(distance)) == 5
  {
    var q := distance / StepSize;
    assert q >= 5.0;
    assert Round(q) as real > 4.5;
    assert Round(q) >= 5;
    StepCountWhole(5);
  }

  /** Every draw of the bundle has five layers, each with a blur of at most 64 and, for a non-negative intensity, a non-negative opacity. */
  lemma DistLayerShape(anchor: Point, light: Point, intensity: real, math: MathLib)
    ensures |DistLayers(anchor, light, intensity, math)| == 5
    ensures forall k :: 0 <= k < 5 ==>
      var b := DistLayers(anchor, light, intensity, math)[k].blur;
      b.Real? && b.v <= 64.0
    ensures intensity >= 0.0 ==> forall k :: 0 <= k < 5 ==> DistLayers(anchor, light, intensity, math)[k].opacity >= 0.0
  {
    var distance := Distance(anchor.Delta(light), DistFloor, math);
    FiveSteps(distance);
    LayersBlurBounded(anchor, light, intensity, DistStepCount(distance), DistFloor, DistTuning, math);
    if intensity >= 0.0 {
      LayersOpacityNonNegative(anchor, light, intensity, DistStepCount(distance), DistFloor, DistTuning, math);
    }
  }

  /**
   * The viewport listeners of one Shadow handler in the bundle: unlike lib/
   * and app/, it listens to 'load' on the document rather than the window.
   */
  function DistViewportListeners(h: nat): (ls: set<Listener>)
    ensures forall l :: l in ls ==> l.handler == h
  {
    {Listener(Document, "resize", h), Listener(Document, "load", h), Listener(Window, "resize", h), Listener(Window, "scroll", h)}
  }

  /** The Shadow of the bundle: one per letter, with its own tuning fields and colour. */
  class DistShadow {
    var position: Point
    const element: DomElement
    var shadowProperty: string
    const shadowRGB: Color
    const host: EventHost
    /** The identity of `fnHandleViewportUpdate`, bound once by the constructor. */
    const handler: nat

    /**
     * `new Shadow(domElement)`: black, 'textShadow', the viewport handler bound
     * once, its four listeners added and the position read from the layout.
     */
    constructor(element: DomElement, host: EventHost)
      modifies host
      ensures this.element == element && this.host == host
      ensures handler == old(host.nextHandler) && host.nextHandler == handler + 1
      ensures host.listeners == old(host.listeners) + DistViewportListeners(handler)
      ensures shadowProperty == "textShadow" && position == element.bounds.Centre()
      ensures fresh(shadowRGB) && shadowRGB.r == 0.0 && shadowRGB.g == 0.0 && shadowRGB.b == 0.0
    {
      this.element := element;
      this.host := host;
      position := Origin;
      shadowProperty := "textShadow";
      var rgb := new Color(Some(0.0), Some(0.0), Some(0.0));
      shadowRGB := rgb;
      var h := host.Bind();
      handler := h;
      new;
      EnableAutoUpdates();
      HandleViewportUpdate();
    }

    function ShadowPaint(): Paint
      reads this, shadowRGB
    {
      Paint(shadowRGB.r, shadowRGB.g, shadowRGB.b)
    }

    /** The layers `draw(light)` computes from the current position. */
    function LayersFor(light: Light, math: MathLib): seq<Layer>
      reads this, light, light.position
    {
      DistLayers(position, light.position.Value(), light.intensity, math)
    }

    /** `draw(light)`: the element's style gets the five layers under `shadowProperty`. */
    method Draw(light: Light, math: MathLib)
      modifies element
      ensures element.style == old(element.style)[shadowProperty := ShadowStyle(ShadowPaint(), LayersFor(light, math), math)]
      ensures element.className == old(element.className) && element.childNodes == old(element.childNodes)
      ensures element.bounds == old(element.bounds)
    {
      var lightPosition := light.position.Value();
      var distance := Distance(position.Delta(lightPosition), DistFloor, math);
      var numSteps := DistStepCount(distance);
      var shadows := ComputeShadows(position, lightPosition, light.intensity, numSteps, DistFloor, DistTuning, ShadowPaint(), math);
      element.style := element.style[shadowProperty := Join(shadows, ", ")];
    }

    /** `enableAutoUpdates`: remove, then add, the four listeners of the one bound handler. */
    method EnableAutoUpdates()
      modifies host
      ensures host.listeners == old(host.listeners) + DistViewportListeners(handler)
      ensures host.nextHandler == old(host.nextHandler)
    {
      DisableAutoUpdates();
      host.AddAll(DistViewportListeners(handler));
    }

    /** `disableAutoUpdates`: always removes the four listeners. */
    method DisableAutoUpdates()
      modifies host
      ensures host.listeners == old(host.listeners) - DistViewportListeners(handler)
      ensures host.nextHandler == old(host.nextHandler)
    {
      host.RemoveAll(DistViewportListeners(handler));
    }

    /** `handleViewportUpdate`: the position becomes the centre of the element's box. */
    method HandleViewportUpdate()
      modifies this
      ensures position == element.bounds.Centre() && shadowProperty == old(shadowProperty)
    {
      position := element.bounds.Centre();
    }
  }

  /** Enabling twice leaves the same listeners as enabling once: the handler is bound once. */
  method EnableTwice(s: DistShadow)
    modifies s.host
    ensures s.host.listeners == old(s.host.listeners) + DistViewportListeners(s.handler)
  {
    s.EnableAutoUpdates();
    s.EnableAutoUpdates();
  }

  /** Disabling after enabling removes every listener of the handler, including ones added before. */
  method EnableThenDisable(s: DistShadow)
    modifies s.host
    ensures s.host.listeners == old(s.host.listeners) - DistViewportListeners(s.handler)
  {
    s.EnableAutoUpdates();
    s.DisableAutoUpdates();
  }

  /** One of the characters `[\s-,.]` matches: white space, hyphen, comma or full stop. */
  predicate IsSeparator(c: char) {
    IsWhiteSpace(c) || c == '-' || c == ',' || c == '.'
  }

  /**
   * `isSeparatorCharacter(c)`: whether the pattern matches anywhere in `c`; a
   * missing argument is the empty string.
   */
  function IsSeparatorCharacter(c: string): bool {
    c != [] && (IsSeparator(c[0]) || IsSeparatorCharacter(c[1..]))
  }

  /** The test holds exactly when some character of the string is a separator. */
  lemma {:induction false} SeparatorCharacterMatches(c: string)
    ensures IsSeparatorCharacter(c) <==> exists i :: 0 <= i < |c| && IsSeparator(c[i])
  {
    if c != [] {
      SeparatorCharacterMatches(c[1..]);
      if IsSeparatorCharacter(c[1..]) {
        var i :| 0 <= i < |c[1..]| && IsSeparator(c[1..][i]);
        assert IsSeparator(c[i + 1]);
      }
      if exists i :: 0 <= i < |c| && IsSeparator(c[i]) {
        var i :| 0 <= i < |c| && IsSeparator(c[i]);
        if i > 0 {
          assert IsSeparator(c[1..][i - 1]);
        }
      }
    }
  }

  /** For one character: separators are white space, '-', ',' and '.', and the empty string is none. */
  lemma SeparatorSingle(ch: char)
    ensures IsSeparatorCharacter([ch]) <==> IsWhiteSpace(ch) || ch == '-' || ch == ',' || ch == '.'
    ensures !IsSeparatorCharacter("")
  {
    assert [ch][1..] == [];
  }

  /** A separator always ends the word the split loop has open: it is white space or a `\W` character. */
  lemma SeparatorEndsWord(st: ScanState, ch: char)
    requires Tidy(st) && IsSeparatorCharacter([ch])
    ensures !Step(st, ch).open
  {
    SeparatorSingle(ch);
  }

  /** The bundle's Splitter: it splits the element's text once, when it is made. */
  class DistSplitter {
    const root: DomElement
    const classPrefix: string
    const wrapper: DomElement
    var content: seq<Piece>
    var words: seq<string>
    var letterElements: seq<DomElement>

    /**
     * `new Splitter(domElement, optClassPrefix)` and its `split`: the text
     * becomes words and spacers in a wrapper classed '<prefix>wrapper', the
     * mask's copy comes last, and the wrapper replaces the element's content.
     * An empty prefix stands for a missing one.
     */
    constructor(root: DomElement, optClassPrefix: string)
      requires !HasElementChildren(root.childNodes)
      modifies root
      ensures this.root == root && classPrefix == optClassPrefix
      ensures var t := old(TextContent(root.childNodes)); var ps := Scan(t).pieces;
        && content == ps + [Mask(optClassPrefix + "mask", ps)]
        && words == Words(ps)
        && LetterSpans(letterElements, NonSpace(t), optClassPrefix)
      ensures fresh(wrapper) && fresh(Spans(letterElements))
      ensures wrapper.className == optClassPrefix + "wrapper" && root.childNodes == [Element(wrapper)]
      ensures root.className == old(root.className) && root.bounds == old(root.bounds)
    {
      this.root := root;
      classPrefix := optClassPrefix;
      var w := new DomElement(optClassPrefix + "wrapper", [], root.styleProps);
      wrapper := w;
      var t := TextContent(root.childNodes);
      root.childNodes := [Element(w)];
      var pieces, letters := SplitLetters(t, optClassPrefix, root.styleProps);
      words := Words(pieces);
      letterElements := letters;
      content := pieces + [Mask(optClassPrefix + "mask", pieces)];
    }
  }

  /** The wrapper of a bundle split shows the element's text, and its letters are the text without white space. */
  lemma DistSplitShowsText(text: string, classPrefix: string)
    ensures var ps := Scan(text).pieces;
      Flatten(ps + [Mask(classPrefix + "mask", ps)]) == text && Letters(ps) == NonSpace(text)
  {
    var ps := Scan(text).pieces;
    ScanFlatten(text);
    ScanLetters(text);
    Snoc(ps, Mask(classPrefix + "mask", ps));
  }

  function DistShadowSet(shadows: seq<DistShadow>): set<DistShadow> {
    set s | s in shadows
  }

  function DistElementSet(shadows: seq<DistShadow>): set<DomElement> {
    set s | s in shadows :: s.element
  }

  function DistElements(shadows: seq<DistShadow>): (es: seq<DomElement>)
    ensures |es| == |shadows| && forall k :: 0 <= k < |shadows| ==> es[k] == shadows[k].element
  {
    seq(|shadows|, k requires 0 <= k < |shadows| => shadows[k].element)
  }

  /** The element of `s` shows the shadow that `draw(light)` computes for it now. */
  predicate DistDrawn(s: DistShadow, light: Light, math: MathLib)
    reads s, s.element, s.shadowRGB, light, light.position
  {
    && s.shadowProperty in s.element.style
    && s.element.style[s.shadowProperty] == ShadowStyle(s.ShadowPaint(), s.LayersFor(light, math), math)
  }

  /** No two Shadows draw on the same element. */
  predicate ElementsApart(shadows: seq<DistShadow>) {
    forall j, k :: 0 <= j < k < |shadows| ==> shadows[j].element != shadows[k].element
  }

  /** The loop of the Shine's `draw`: every Shadow draws for the light, first to last. */
  method DrawAll(shadows: seq<DistShadow>, light: Light, math: MathLib)
    requires ElementsApart(shadows)
    modifies DistElementSet(shadows)
    ensures forall k :: 0 <= k < |shadows| ==> DistDrawn(shadows[k], light, math)
  {
    for i := 0 to |shadows|
      invariant forall k :: 0 <= k < i ==> DistDrawn(shadows[k], light, math)
    {
      assert shadows[i].element in DistElementSet(shadows);
      DrawNext(shadows, i, light, math);
    }
  }

  /** Shadow `i` draws; the others keep what they show, since their elements are others. */
  method DrawNext(shadows: seq<DistShadow>, i: nat, light: Light, math: MathLib)
    requires i < |shadows| && ElementsApart(shadows)
    modifies shadows[i].element
    ensures DistDrawn(shadows[i], light, math)
    ensures forall k :: 0 <= k < |shadows| && k != i && old(DistDrawn(shadows[k], light, math)) ==> DistDrawn(shadows[k], light, math)
  {
    shadows[i].Draw(light, math);
    forall k | 0 <= k < |shadows| && k != i && old(DistDrawn(shadows[k], light, math))
      ensures DistDrawn(shadows[k], light, math)
    {
      assert shadows[k].element != shadows[i].element;
    }
  }

  /** One pass of that loop: `new Shadow(letterElement)`, then the property. */
  method NewShadowWith(element: DomElement, host: EventHost, property: string) returns (s: DistShadow)
    modifies host
    ensures fresh(s) && s.element == element && s.host == host
    ensures s.shadowProperty == property && s.position == element.bounds.Centre()
    ensures s.handler == old(host.nextHandler) && host.nextHandler == s.handler + 1
    ensures host.listeners == old(host.listeners) + DistViewportListeners(s.handler)
  {
    s := new DistShadow(element, host);
    s.shadowProperty := property;
  }

  /**
   * The loop of `init`: one new Shadow per letter, in order, each with the
   * property; every Shadow binds a handler of its own.
   */
  method BuildDistShadows(letters: seq<DomElement>, host: EventHost, property: string)
    returns (shadows: seq<DistShadow>)
    modifies host
    ensures |shadows| == |letters| && fresh(DistShadowSet(shadows))
    ensures forall k :: 0 <= k < |shadows| ==>
      && shadows[k].element == letters[k] && shadows[k].host == host
      && shadows[k].shadowProperty == property && shadows[k].position == letters[k].bounds.Centre()
      && old(host.nextHandler) <= shadows[k].handler < host.nextHandler
      && DistViewportListeners(shadows[k].handler) <= host.listeners
    ensures forall j, k :: 0 <= j < k < |shadows| ==> shadows[j].handler < shadows[k].handler
    ensures forall l: Listener :: l.handler < old(host.nextHandler) ==> (l in host.listeners <==> l in old(host.listeners))
    ensures old(host.nextHandler) <= host.nextHandler
  {
    shadows := [];
    ghost var n0, l0 := host.nextHandler, host.listeners;
    for j := 0 to |letters|
      invariant |shadows| == j && fresh(DistShadowSet(shadows))
      invariant Built(shadows, letters, host, property, n0)
      invariant forall l: Listener :: l.handler < n0 ==> (l in host.listeners <==> l in l0)
    {
      shadows := PushShadow(shadows, letters, host, property, n0);
    }
  }

  /** The first Shadows of that loop are built, in order, with handlers bound from `n0` on. */
  ghost predicate Built(shadows: seq<DistShadow>, letters: seq<DomElement>, host: EventHost, property: string, n0: nat)
    reads DistShadowSet(shadows), host, Spans(letters)
  {
    && |shadows| <= |letters| && n0 <= host.nextHandler
    && (forall k :: 0 <= k < |shadows| ==>
      && shadows[k].element == letters[k] && shadows[k].host == host
      && shadows[k].shadowProperty == property && shadows[k].position == letters[k].bounds.Centre()
      && n0 <= shadows[k].handler < host.nextHandler
      && DistViewportListeners(shadows[k].handler) <= host.listeners)
    && (forall i, k :: 0 <= i < k < |shadows| ==> shadows[i].handler < shadows[k].handler)
  }

  /** One pass of that loop: a new Shadow for the next letter, bound after all the others. */
  method PushShadow(shadows: seq<DistShadow>, letters: seq<DomElement>, host: EventHost, property: string, ghost n0: nat)
    returns (shadows': seq<DistShadow>)
    requires |shadows| < |letters| && Built(shadows, letters, host, property, n0)
    modifies host
    ensures Built(shadows', letters, host, property, n0) && |shadows'| == |shadows| + 1
    ensures fresh(DistShadowSet(shadows') - DistShadowSet(shadows))
    ensures forall l: Listener :: l.handler < n0 ==> (l in host.listeners <==> l in old(host.listeners))
  {
    var s := NewShadowWith(letters[|shadows|], host, property);
    assert DistShadowSet(shadows + [s]) == DistShadowSet(shadows) + {s};
    shadows' := shadows + [s];
  }

  /** The first step of `init`: the shared injector puts the stylesheet into the document, once. */
  method InjectStylesheet(css: string, env: Env)
    modifies env.slot, env.slot.instance, env.document
    ensures env.slot.instance != null && Injected(env.slot.instance.injections, css, env.document)
  {
    var injector := env.slot.GetInstance();
    var _ := injector.Inject(css, null, env.document);
  }

  /**
   * The Shadows were bound on `host` after `h`, each with a handler of its
   * own, and draw on distinct elements.
   */
  predicate OwnHandlers(shadows: seq<DistShadow>, host: EventHost, h: nat)
    reads host
  {
    && (forall k :: 0 <= k < |shadows| ==> shadows[k].host == host && h < shadows[k].handler < host.nextHandler)
    && (forall j, k :: 0 <= j < k < |shadows| ==>
          shadows[j].handler != shadows[k].handler && shadows[j].element != shadows[k].element)
  }

  /** Every function object a Shine with draw handler `h` and these Shadows listens with. */
  function HandlerSet(shadows: seq<DistShadow>, h: nat): set<nat> {
    {h} + set k | 0 <= k < |shadows| :: shadows[k].handler
  }

  /** Every listener of the draw handler `h` and of the Shadows is among `ls`. */
  predicate AllListening(shadows: seq<DistShadow>, h: nat, ls: set<Listener>) {
    && DrawListeners(h) <= ls
    && forall k :: 0 <= k < |shadows| ==> DistViewportListeners(shadows[k].handler) <= ls
  }

  /** No listener of the draw handler `h` or of the Shadows is among `ls`. */
  predicate AllSilent(shadows: seq<DistShadow>, h: nat, ls: set<Listener>) {
    && DrawListeners(h) !! ls
    && forall k :: 0 <= k < |shadows| ==> DistViewportListeners(shadows[k].handler) !! ls
  }

  /** Listeners of any other function object are registered in `ls` exactly when they were in `ls0`. */
  ghost predicate OthersKept(shadows: seq<DistShadow>, h: nat, ls: set<Listener>, ls0: set<Listener>) {
    forall l: Listener :: l.handler !in HandlerSet(shadows, h) ==> (l in ls <==> l in ls0)
  }

  /**
   * The Shine's `disableAutoUpdates` with draw handler `h`: remove its two
   * window listeners, then disable the Shadows from last to first.
   */
  method DisableCascade(shadows: seq<DistShadow>, h: nat, host: EventHost)
    requires forall k :: 0 <= k < |shadows| ==> shadows[k].host == host
    modifies host
    ensures AllSilent(shadows, h, host.listeners)
    ensures host.nextHandler == old(host.nextHandler)
    ensures OthersKept(shadows, h, host.listeners, old(host.listeners))
  {
    host.RemoveAll(DrawListeners(h));
    var i := |shadows|;
    while i > 0
      invariant 0 <= i <= |shadows|
      invariant host.nextHandler == old(host.nextHandler)
      invariant DrawListeners(h) !! host.listeners
      invariant forall k :: i <= k < |shadows| ==> DistViewportListeners(shadows[k].handler) !! host.listeners
      invariant OthersKept(shadows, h, host.listeners, old(host.listeners))
    {
      i := i - 1;
      shadows[i].DisableAutoUpdates();
    }
  }

  /**
   * The Shine's `enableAutoUpdates` with draw handler `h`: disable, add the
   * two window listeners, then enable the Shadows from last to first.
   */
  method EnableCascade(shadows: seq<DistShadow>, h: nat, host: EventHost)
    requires forall k :: 0 <= k < |shadows| ==> shadows[k].host == host
    modifies host
    ensures AllListening(shadows, h, host.listeners)
    ensures host.nextHandler == old(host.nextHandler)
    ensures OthersKept(shadows, h, host.listeners, old(host.listeners))
  {
    DisableCascade(shadows, h, host);
    host.AddAll(DrawListeners(h));
    var i := |shadows|;
    while i > 0
      invariant 0 <= i <= |shadows|
      invariant host.nextHandler == old(host.nextHandler)
      invariant DrawListeners(h) <= host.listeners
      invariant forall k :: i <= k < |shadows| ==> DistViewportListeners(shadows[k].handler) <= host.listeners
      invariant OthersKept(shadows, h, host.listeners, old(host.listeners))
    {
      i := i - 1;
      shadows[i].EnableAutoUpdates();
    }
  }

  /**
   * What `init` does after injecting the stylesheet, for a Shine whose draw
   * handler is `h`: split the element, make one Shadow per letter element
   * with the property, and enable auto-updates.
   */
  method InitShadows(root: DomElement, prefix: string, property: string, host: EventHost, h: nat)
    returns (shadows: seq<DistShadow>)
    requires !HasElementChildren(root.childNodes) && h < host.nextHandler
    modifies root, host
    ensures LetterSpans(DistElements(shadows), NonSpace(old(TextContent(root.childNodes))), prefix)
    ensures fresh(DistShadowSet(shadows)) && fresh(DistElementSet(shadows))
    ensures forall k :: 0 <= k < |shadows| ==> shadows[k].shadowProperty == property
    ensures h < host.nextHandler && OwnHandlers(shadows, host, h) && AllListening(shadows, h, host.listeners)
  {
    ghost var text := TextContent(root.childNodes);
    shadows := SplitAndBuild(root, prefix, property, host, h);
    ghost var spans := DistElements(shadows);
    EnableCascade(shadows, h, host);
    assert LetterSpans(spans, NonSpace(text), prefix);
  }

  /**
   * The work of the bundle's Shine constructor and `init`: the draw handler
   * bound, the stylesheet injected, the element split and one listening
   * Shadow made per letter.
   */
  method StartShine(root: DomElement, prefix: string, property: string, css: string, env: Env)
    returns (h: nat, shadows: seq<DistShadow>)
    requires !HasElementChildren(root.childNodes)
    modifies env.host, env.slot, env.slot.instance, env.document, root
    ensures h == old(env.host.nextHandler)
    ensures LetterSpans(DistElements(shadows), NonSpace(old(TextContent(root.childNodes))), prefix)
    ensures forall k :: 0 <= k < |shadows| ==> shadows[k].shadowProperty == property
    ensures fresh(DistShadowSet(shadows)) && fresh(DistElementSet(shadows))
    ensures h < env.host.nextHandler && OwnHandlers(shadows, env.host, h) && AllListening(shadows, h, env.host.listeners)
  {
    h := env.host.Bind();
    InjectStylesheet(css, env);
    shadows := InitShadows(root, prefix, property, env.host, h);
  }

  /** Splitting the element and making one Shadow per letter element. */
  method SplitAndBuild(root: DomElement, prefix: string, property: string, host: EventHost, h: nat)
    returns (shadows: seq<DistShadow>)
    requires !HasElementChildren(root.childNodes) && h < host.nextHandler
    modifies root, host
    ensures LetterSpans(DistElements(shadows), NonSpace(old(TextContent(root.childNodes))), prefix)
    ensures fresh(DistShadowSet(shadows)) && fresh(DistElementSet(shadows))
    ensures forall k :: 0 <= k < |shadows| ==> shadows[k].shadowProperty == property
    ensures h < host.nextHandler && OwnHandlers(shadows, host, h)
  {
    ghost var t := TextContent(root.childNodes);
    var splitter := new DistSplitter(root, prefix);
    var letters := splitter.letterElements;
    assert LetterSpans(letters, NonSpace(t), prefix);
    shadows := BuildDistShadows(letters, host, property);
    assert LetterSpans(letters, NonSpace(t), prefix);
    assert DistElements(shadows) == letters;
    assert DistElementSet(shadows) <= Spans(letters);
  }

  /** The bundle's Shine: split once, one Shadow per letter, a draw handler made once. */
  class DistShine {
    const root: DomElement
    const light: Light
    var shadows: seq<DistShadow>
    /** The identity of `fnDrawHandler`, made once by the constructor. */
    const drawHandler: nat
    const env: Env

    /** The Shadows draw on distinct elements with handlers of their own, all bound on this host. */
    predicate Valid()
      reads this, env.host
    {
      drawHandler < env.host.nextHandler && OwnHandlers(shadows, env.host, drawHandler)
    }

    /** Every listener of the Shine and of its Shadows is registered. */
    predicate Listening()
      reads this, env.host
    {
      AllListening(shadows, drawHandler, env.host.listeners)
    }

    /**
     * `new Shine(domElement, optClassPrefix, optShadowProperty)` and its
     * `init`, for an element without element children: the stylesheet is
     * injected, the element is split, one Shadow per letter gets the
     * property, and auto-updates are enabled. Nothing is drawn.
     */
    constructor(root: DomElement, optClassPrefix: string, optShadowProperty: string, css: string, env: Env)
      requires !HasElementChildren(root.childNodes)
      modifies env.host, env.slot, env.slot.instance, env.document, root
      ensures this.root == root && this.env == env
      ensures fresh(light) && fresh(light.position) && light.position.Value() == Origin && light.intensity == 1.0
      ensures drawHandler == old(env.host.nextHandler)
      ensures var t := old(TextContent(root.childNodes));
        var prefix := if optClassPrefix != "" then optClassPrefix else "shine-";
        LetterSpans(DistElements(shadows), NonSpace(t), prefix)
      ensures forall k :: 0 <= k < |shadows| ==>
        shadows[k].shadowProperty == (if optShadowProperty != "" then optShadowProperty else "textShadow")
      ensures fresh(DistShadowSet(shadows)) && fresh(DistElementSet(shadows))
      ensures Valid() && Listening()
    {
      var prefix := if optClassPrefix != "" then optClassPrefix else "shine-";
      var property := if optShadowProperty != "" then optShadowProperty else "textShadow";
      this.root := root;
      this.env := env;
      var h, built := StartShine(root, prefix, property, css, env);
      drawHandler := h;
      shadows := built;
      // The light is made first in the source; nothing in between reads it.
      var l := new Light(null);
      light := l;
    }

    /** `enableAutoUpdates`. */
    method EnableAutoUpdates()
      requires Valid()
      modifies env.host
      ensures Valid() && Listening()
      ensures env.host.nextHandler == old(env.host.nextHandler)
      ensures OthersKept(shadows, drawHandler, env.host.listeners, old(env.host.listeners))
    {
      EnableCascade(shadows, drawHandler, env.host);
    }

    /** `disableAutoUpdates`. */
    method DisableAutoUpdates()
      requires Valid()
      modifies env.host
      ensures Valid() && AllSilent(shadows, drawHandler, env.host.listeners)
      ensures env.host.nextHandler == old(env.host.nextHandler)
      ensures OthersKept(shadows, drawHandler, env.host.listeners, old(env.host.listeners))
    {
      DisableCascade(shadows, drawHandler, env.host);
    }

    /** `draw`: every Shadow draws for the light, first to last. */
    method Draw()
      requires Valid()
      modifies DistElementSet(shadows)
      ensures forall k :: 0 <= k < |shadows| ==> DistDrawn(shadows[k], light, env.math)
    {
      DrawAll(shadows, light, env.math);
    }
  }

  /**
   * `new Shine(...)` seen from the caller: a missing element throws, and so
   * does one with element children; otherwise the Shine is made.
   */
  method NewDistShine(root: DomElement?, optClassPrefix: string, optShadowProperty: string, css: string, env: Env)
    returns (r: Result<DistShine, string>)
    modifies env.host, env.slot, env.slot.instance, env.document, root
    ensures root == null ==> r == Failure(NoElementError)
    ensures root != null && HasElementChildren(old(root.childNodes)) ==> r == Failure(ChildrenError)
    ensures r.Success? <==> root != null && !HasElementChildren(old(root.childNodes))
    ensures r.Success? ==> fresh(r.value) && r.value.root == root && r.value.Valid() && r.value.Listening()
  {
    if root == null {
      return Failure(NoElementError);
    }
    if HasElementChildren(root.childNodes) {
      return Failure(ChildrenError);
    }
    var shine := new DistShine(root, optClassPrefix, optShadowProperty, css, env);
    return Success(shine);
  }
}
