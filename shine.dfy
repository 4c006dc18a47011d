/**
 * The Shine controller (lib/shine.js): one per decorated element. It splits
 * the element into letters, keeps one Shadow per letter, draws them all for
 * its light, and switches the scroll and resize listeners of itself and of
 * its Shadows on and off.
 *
 * The loops over the Shadows are module members so that the bundled variant
 * in app/js/shine.js can share them.
 */
module Shines {
  import opened Wrappers
  import opened Text
  import opened Numerics
  import opened Geometry
  import opened Dom
  import opened Configs
  import opened Lights
  import opened Shadows
  import opened Splitters
  import opened StyleInjection

  /**
   * The browser globals a Shine uses: the window's and document's listeners,
   * the StyleInjector's static slot, `window.document`, and the number
   * functions of the shadow formulas.
   */
  datatype Env = Env(host: EventHost, slot: InjectorSlot, document: HtmlDocument, math: MathLib)

  /** The message of the Error thrown for a missing element. */
  const NoElementError: string := "No valid DOM element passed as first parameter"

  /** The window listeners of a Shine's draw handler. */
  function DrawListeners(h: nat): (ls: set<Listener>)
    ensures forall l :: l in ls ==> l.handler == h
    ensures Listener(Window, "scroll", h) in ls && Listener(Window, "resize", h) in ls
  {
    {Listener(Window, "scroll", h), Listener(Window, "resize", h)}
  }

  function ShadowSet(shadows: seq<Shadow>): set<Shadow> {
    set s | s in shadows
  }

  function ElementsOf(shadows: seq<Shadow>): set<DomElement> {
    set s | s in shadows :: s.element
  }

  /** No Shadow appears twice, and no two Shadows draw on the same element. */
  predicate Distinct(shadows: seq<Shadow>) {
    forall j, k :: 0 <= j < k < |shadows| ==> shadows[j] != shadows[k] && shadows[j].element != shadows[k].element
  }

  /** Every handler a Shadow holds was bound before `next`, and none is `h`. */
  predicate HandlersBelow(shadows: seq<Shadow>, next: nat, h: Option<nat>)
    reads ShadowSet(shadows)
  {
    forall k :: 0 <= k < |shadows| ==>
      (shadows[k].handler.Some? ==> shadows[k].handler.value < next) && (h.Some? ==> shadows[k].handler != h)
  }

  /** No Shadow holds a handler in `keep`. */
  predicate HandlersAvoid(shadows: seq<Shadow>, keep: set<nat>)
    reads ShadowSet(shadows)
  {
    forall k :: 0 <= k < |shadows| && shadows[k].handler.Some? ==> shadows[k].handler.value !in keep
  }

  /** Avoiding `h` and staying below `next` is what Valid asks of the Shadows' handlers. */
  lemma HandlersBelowAvoiding(shadows: seq<Shadow>, next: nat, h: nat, keep: set<nat>)
    requires HandlersBelow(shadows, next, None) && HandlersAvoid(shadows, keep) && h in keep
    ensures HandlersBelow(shadows, next, Some(h))
  {
  }

  /** The element of `s` shows the shadow that `draw(light)` computes for it now. */
  predicate Drawn(s: Shadow, light: Light, math: MathLib)
    requires s.config != null
    reads s, s.element, s.config, s.config.shadowRGB, light, light.position
  {
    && s.shadowProperty in s.element.style
    && s.element.style[s.shadowProperty] == ShadowStyle(s.ShadowPaint(), s.LayersFor(light, math), math)
  }

  /** The cascade of `enableAutoUpdates`, last Shadow first: each Shadow gets a new handler. */
  method EnableAll(shadows: seq<Shadow>, host: EventHost, ghost keep: set<nat>)
    requires Distinct(shadows) && forall k :: 0 <= k < |shadows| ==> shadows[k].host == host
    requires (forall h :: h in keep ==> h < host.nextHandler) && HandlersBelow(shadows, host.nextHandler, None)
    requires HandlersAvoid(shadows, keep)
    modifies host, ShadowSet(shadows)
    ensures forall k :: 0 <= k < |shadows| ==> shadows[k].handler.Some?
    ensures old(host.nextHandler) <= host.nextHandler && HandlersBelow(shadows, host.nextHandler, None)
    ensures HandlersAvoid(shadows, keep)
    ensures forall k :: 0 <= k < |shadows| ==>
      shadows[k].shadowProperty == old(shadows[k].shadowProperty) && shadows[k].position == old(shadows[k].position)
    ensures forall l: Listener :: l.handler in keep ==> (l in host.listeners <==> l in old(host.listeners))
  {
    var i := |shadows|;
    while i > 0
      invariant 0 <= i <= |shadows|
      invariant old(host.nextHandler) <= host.nextHandler && HandlersBelow(shadows, host.nextHandler, None)
      invariant HandlersAvoid(shadows, keep)
      invariant forall k :: i <= k < |shadows| ==> shadows[k].handler.Some?
      invariant forall k :: 0 <= k < |shadows| ==>
        shadows[k].shadowProperty == old(shadows[k].shadowProperty) && shadows[k].position == old(shadows[k].position)
      invariant forall l: Listener :: l.handler in keep ==> (l in host.listeners <==> l in old(host.listeners))
    {
      i := i - 1;
      shadows[i].EnableAutoUpdates();
    }
  }

  /** The cascade of `disableAutoUpdates`, last Shadow first: no Shadow keeps a handler. */
  method DisableAll(shadows: seq<Shadow>, host: EventHost, ghost keep: set<nat>)
    requires Distinct(shadows) && forall k :: 0 <= k < |shadows| ==> shadows[k].host == host
    requires HandlersAvoid(shadows, keep)
    modifies host, ShadowSet(shadows)
    ensures forall k :: 0 <= k < |shadows| ==> shadows[k].handler.None?
    ensures host.nextHandler == old(host.nextHandler)
    ensures forall k :: 0 <= k < |shadows| ==>
      shadows[k].shadowProperty == old(shadows[k].shadowProperty) && shadows[k].position == old(shadows[k].position)
    ensures forall l: Listener :: l.handler in keep ==> (l in host.listeners <==> l in old(host.listeners))
  {
    var i := |shadows|;
    while i > 0
      invariant 0 <= i <= |shadows|
      invariant host.nextHandler == old(host.nextHandler) && HandlersAvoid(shadows, keep)
      invariant forall k :: i <= k < |shadows| ==> shadows[k].handler.None?
      invariant forall k :: 0 <= k < |shadows| ==>
        shadows[k].shadowProperty == old(shadows[k].shadowProperty) && shadows[k].position == old(shadows[k].position)
      invariant forall l: Listener :: l.handler in keep ==> (l in host.listeners <==> l in old(host.listeners))
    {
      i := i - 1;
      shadows[i].DisableAutoUpdates();
    }
  }

  /** What drawing leaves alone on an element: its class and its content. */
  function Mark(e: DomElement): (string, seq<Node>)
    reads e
  {
    (e.className, e.childNodes)
  }

  /** The loop of lib/shine.js `draw`: every Shadow draws, first to last. */
  method DrawInOrder(shadows: seq<Shadow>, light: Light, math: MathLib)
    requires Distinct(shadows) && forall k :: 0 <= k < |shadows| ==> shadows[k].config != null
    modifies ElementsOf(shadows)
    ensures forall k :: 0 <= k < |shadows| ==> Drawn(shadows[k], light, math)
    ensures forall k :: 0 <= k < |shadows| ==>
      Mark(shadows[k].element) == old(Mark(shadows[k].element))
  {
    var i := 0;
    while i < |shadows|
      invariant 0 <= i <= |shadows|
      invariant forall k :: 0 <= k < i ==> Drawn(shadows[k], light, math)
      invariant forall k :: 0 <= k < |shadows| ==>
        Mark(shadows[k].element) == old(Mark(shadows[k].element))
    {
      assert shadows[i].element in ElementsOf(shadows);
      DrawAt(shadows, i, light, math);
      i := i + 1;
    }
  }

  /** Shadow `i` draws; the others keep what they show, since their elements are others. */
  method DrawAt(shadows: seq<Shadow>, i: nat, light: Light, math: MathLib)
    requires i < |shadows| && Distinct(shadows) && forall k :: 0 <= k < |shadows| ==> shadows[k].config != null
    modifies shadows[i].element
    ensures Drawn(shadows[i], light, math)
    ensures forall k :: 0 <= k < |shadows| && k != i && old(Drawn(shadows[k], light, math)) ==> Drawn(shadows[k], light, math)
    ensures forall k :: 0 <= k < |shadows| ==> Mark(shadows[k].element) == old(Mark(shadows[k].element))
  {
    var _ := shadows[i].Draw(light, math);
    forall k | 0 <= k < |shadows| && k != i && old(Drawn(shadows[k], light, math))
      ensures Drawn(shadows[k], light, math)
    {
      assert shadows[k].element != shadows[i].element;
    }
  }

  /** The loop of `update`: one new Shadow per element, in order, each with the same config and property. */
  method BuildShadows(elements: seq<DomElement>, config: Config, host: EventHost, property: string)
    returns (shadows: seq<Shadow>)
    requires forall j, k :: 0 <= j < k < |elements| ==> elements[j] != elements[k]
    modifies host
    ensures |shadows| == |elements| && Distinct(shadows) && fresh(ShadowSet(shadows))
    ensures forall k :: 0 <= k < |shadows| ==>
      && shadows[k].element == elements[k] && shadows[k].config == config && shadows[k].host == host
      && shadows[k].shadowProperty == property && shadows[k].position == elements[k].bounds.Centre()
    ensures old(host.nextHandler) <= host.nextHandler
    ensures forall k :: 0 <= k < |shadows| ==>
      shadows[k].handler.Some? && old(host.nextHandler) <= shadows[k].handler.value < host.nextHandler
    ensures forall l: Listener :: l.handler < old(host.nextHandler) ==> (l in host.listeners <==> l in old(host.listeners))
  {
    shadows := [];
    for j := 0 to |elements|
      invariant |shadows| == j && Distinct(shadows) && fresh(ShadowSet(shadows))
      invariant forall k :: 0 <= k < j ==>
        && shadows[k].element == elements[k] && shadows[k].config == config && shadows[k].host == host
        && shadows[k].shadowProperty == property && shadows[k].position == elements[k].bounds.Centre()
      invariant old(host.nextHandler) <= host.nextHandler
      invariant forall k :: 0 <= k < j ==>
        shadows[k].handler.Some? && old(host.nextHandler) <= shadows[k].handler.value < host.nextHandler
      invariant forall l: Listener :: l.handler < old(host.nextHandler) ==> (l in host.listeners <==> l in old(host.listeners))
    {
      var shadow := new Shadow(elements[j], config, host);
      shadow.shadowProperty := property;
      assert ShadowSet(shadows + [shadow]) == ShadowSet(shadows) + {shadow};
      shadows := shadows + [shadow];
    }
  }

  class Shine {
    const root: DomElement
    const classPrefix: string
    var shadowProperty: string
    /** The config every Shadow is built with. */
    const config: Config
    /** The text of `getCSS()`. */
    const css: string
    const env: Env
    var light: Light?
    var splitter: Splitter?
    var shadows: seq<Shadow>
    /** `destroy` has run: `light`, `shadows` and `splitter` are null. */
    var destroyed: bool
    var areAutoUpdatesEnabled: bool
    /** The identity of `fnDrawHandler`, the closure made once by the constructor. */
    var drawHandler: Option<nat>

    predicate Valid()
      reads this, env.host, ShadowSet(shadows)
    {
      && (splitter != null ==> splitter.root == root && splitter.classPrefix == classPrefix)
      && (!destroyed ==> light != null && splitter != null && drawHandler.Some?)
      && (destroyed ==> shadows == [])
      && Distinct(shadows)
      && (forall k :: 0 <= k < |shadows| ==> shadows[k].host == env.host && shadows[k].config == config)
      && (drawHandler.Some? ==> drawHandler.value < env.host.nextHandler)
      && HandlersBelow(shadows, env.host.nextHandler, drawHandler)
    }

    /** The draw handler listens to scroll and resize exactly when auto-updates are on. */
    predicate Listening()
      reads this, env.host
    {
      && drawHandler.Some?
      && (areAutoUpdatesEnabled ==> DrawListeners(drawHandler.value) <= env.host.listeners)
      && (!areAutoUpdatesEnabled ==> DrawListeners(drawHandler.value) !! env.host.listeners)
    }

    /**
     * `new Shine(domElement, optClassPrefix, optShadowProperty)`, with the
     * config that every Shadow needs passed in. An empty string stands for a
     * missing prefix or property.
     */
    constructor(root: DomElement, config: Config, optClassPrefix: string, optShadowProperty: string, css: string, env: Env)
      requires DistinctElements(root.childNodes)
      modifies env.host, env.slot, env.slot.instance, env.document, root, ElementSet(root.childNodes)
      ensures this.root == root && this.config == config && this.css == css && this.env == env
      ensures classPrefix == if optClassPrefix != "" then optClassPrefix else "shine-"
      ensures shadowProperty == if optShadowProperty != "" then optShadowProperty
        else if TextOnly(old(root.childNodes)) then "textShadow" else "boxShadow"
      ensures Valid() && Listening() && !destroyed && areAutoUpdatesEnabled
      ensures fresh(light) && fresh(light.position) && light.position.Value() == Origin && light.intensity == 1.0
      ensures fresh(splitter) && |shadows| == |splitter.elements|
      ensures forall k :: 0 <= k < |shadows| ==> shadows[k].element == splitter.elements[k] && shadows[k].handler.Some?
      ensures TextOnly(old(root.childNodes)) ==>
        |shadows| == |NonSpace(TextContent(old(root.childNodes)))| &&
        LetterSpans(splitter.elements, NonSpace(TextContent(old(root.childNodes))), classPrefix)
      ensures !TextOnly(old(root.childNodes)) ==>
        |shadows| == |ElementChildren(old(root.childNodes))| &&
        forall k :: 0 <= k < |shadows| ==> shadows[k].element == ElementChildren(old(root.childNodes))[k]
      ensures forall k :: 0 <= k < |shadows| ==> Drawn(shadows[k], light, env.math)
    {
      this.root := root;
      this.config := config;
      this.css := css;
      this.env := env;
      var prefix := if optClassPrefix != "" then optClassPrefix else "shine-";
      classPrefix := prefix;
      var textOnly := HasTextOnly(root);
      shadowProperty := if optShadowProperty != "" then optShadowProperty
        else if textOnly then "textShadow" else "boxShadow";
      light := new Light(null);
      shadows := [];
      splitter := new Splitter(root, prefix);
      destroyed := false;
      areAutoUpdatesEnabled := true;
      var h := env.host.Bind();
      drawHandler := Some(h);
      new;
      var ok := Update("");
      assert ok;
    }

    /** `destroy`: auto-updates off, then the light, the Shadows, the splitter and the handler are dropped. */
    method Destroy()
      requires Valid() && !destroyed
      modifies this, env.host, ShadowSet(shadows)
      ensures Valid() && destroyed && light == null && splitter == null && shadows == [] && drawHandler == None
      ensures !areAutoUpdatesEnabled
      ensures DrawListeners(old(drawHandler).value) !! env.host.listeners
      ensures forall k :: 0 <= k < |old(shadows)| ==> old(shadows)[k].handler.None?
    {
      DisableAutoUpdates();
      light := null;
      shadows := [];
      splitter := null;
      destroyed := true;
      drawHandler := None;
    }

    /** `draw`: every Shadow draws for the light; after `destroy`, reading `shadows.length` throws. */
    method Draw() returns (ok: bool)
      requires Valid()
      modifies ElementsOf(shadows)
      ensures Valid()
      ensures ok <==> !destroyed
      ensures ok ==> light != null && forall k :: 0 <= k < |shadows| ==> Drawn(shadows[k], light, env.math)
    {
      if destroyed {
        return false;
      }
      DrawInOrder(shadows, light, env.math);
      return true;
    }

    /**
     * `update(optText)`, deciding between letters and moved children after a
     * new text replaced the content: auto-updates off, the stylesheet
     * injected, the Shadows rebuilt for the splitter's elements, auto-updates
     * back on if they were on, and everything drawn. When re-splitting the
     * wrapper itself fails, the update stops there.
     */
    method Update(optText: string) returns (ok: bool)
      requires Valid() && !destroyed
      requires DistinctElements(root.childNodes)
      modifies this, env.host, ShadowSet(shadows), splitter, splitter.wrapper, root, ElementSet(root.childNodes)
      modifies env.slot, env.slot.instance, env.document
      ensures !destroyed && splitter == old(splitter) && light == old(light) && drawHandler == old(drawHandler)
      ensures light.position == old(light.position) && light.intensity == old(light.intensity)
      ensures light.position.Value() == old(light.position.Value())
      ensures shadowProperty == old(shadowProperty)
      ensures var nodes := if optText != "" then TextChildren(optText) else old(root.childNodes);
        && (ok <==> TextOnly(nodes) || Element(splitter.wrapper) !in nodes)
        && (ok && TextOnly(nodes) ==>
              |shadows| == |NonSpace(TextContent(nodes))| &&
              LetterSpans(splitter.elements, NonSpace(TextContent(nodes)), classPrefix))
        && (ok && !TextOnly(nodes) ==>
              |shadows| == |ElementChildren(nodes)| &&
              forall k :: 0 <= k < |shadows| ==> shadows[k].element == ElementChildren(nodes)[k])
      ensures ok ==> Valid() && Listening() && areAutoUpdatesEnabled == old(areAutoUpdatesEnabled)
      ensures ok ==> fresh(ShadowSet(shadows)) && |shadows| == |splitter.elements|
      ensures ok ==> forall k :: 0 <= k < |shadows| ==>
        && shadows[k].element == splitter.elements[k]
        && shadows[k].shadowProperty == Prefixed(shadowProperty, root.styleProps)
        && shadows[k].handler.Some?
        && Drawn(shadows[k], light, env.math)
    {
      ghost var nodes := if optText != "" then TextChildren(optText) else root.childNodes;
      var was := Teardown();
      ok := splitter.Split(optText);
      if !ok {
        return;
      }
      ghost var spelled: Option<string> := None;
      if TextOnly(nodes) {
        spelled := Some(NonSpace(TextContent(nodes)));
      } else {
        ElementChildrenDistinct(nodes);
      }
      Rebuild(was, spelled);
    }

    /** The first half of `update`: auto-updates off, the stylesheet injected, the Shadows dropped. */
    method Teardown() returns (was: bool)
      requires Valid() && !destroyed
      modifies this, env.host, ShadowSet(shadows), env.slot, env.slot.instance, env.document
      ensures was == old(areAutoUpdatesEnabled)
      ensures Valid() && Listening() && !destroyed && !areAutoUpdatesEnabled && shadows == []
      ensures light == old(light) && splitter == old(splitter) && drawHandler == old(drawHandler)
      ensures shadowProperty == old(shadowProperty)
    {
      was := areAutoUpdatesEnabled;
      DisableAutoUpdates();
      var injector := env.slot.GetInstance();
      var _ := injector.Inject(css, null, env.document);
      shadows := [];
    }

    /**
     * The second half of `update`: one Shadow per element of the splitter,
     * with the prefixed property, auto-updates back on if they were on, and
     * everything drawn.
     */
    method Rebuild(was: bool, ghost spelled: Option<string>)
      requires Valid() && Listening() && !destroyed && !areAutoUpdatesEnabled && shadows == []
      requires spelled.Some? ==> LetterSpans(splitter.elements, spelled.value, classPrefix)
      requires forall j, k :: 0 <= j < k < |splitter.elements| ==> splitter.elements[j] != splitter.elements[k]
      modifies this, env.host, Spans(splitter.elements)
      ensures Valid() && Listening() && !destroyed && areAutoUpdatesEnabled == was
      ensures light == old(light) && splitter == old(splitter) && drawHandler == old(drawHandler)
      ensures shadowProperty == old(shadowProperty)
      ensures fresh(ShadowSet(shadows)) && |shadows| == |splitter.elements|
      ensures forall k :: 0 <= k < |shadows| ==>
        && shadows[k].element == splitter.elements[k]
        && shadows[k].shadowProperty == Prefixed(shadowProperty, root.styleProps)
        && shadows[k].handler.Some?
        && Drawn(shadows[k], light, env.math)
      ensures spelled.Some? ==> LetterSpans(splitter.elements, spelled.value, classPrefix)
    {
      ghost var es := splitter.elements;
      Respawn(was);
      assert ElementsOf(shadows) <= Spans(es);
      DrawInOrder(shadows, light, env.math);
      if spelled.Some? {
        // Drawing writes only the style, so each span keeps its class and its letter.
        forall k | 0 <= k < |es|
          ensures es[k].className == classPrefix + "letter" && es[k].childNodes == [TextNode([spelled.value[k]])]
        {
          assert es[k] == shadows[k].element;
        }
      }
    }

    /** The Shadows of `update`, one per letter, with auto-updates back on if they were on. */
    method Respawn(was: bool)
      requires Valid() && Listening() && !destroyed && !areAutoUpdatesEnabled && shadows == []
      requires forall j, k :: 0 <= j < k < |splitter.elements| ==> splitter.elements[j] != splitter.elements[k]
      modifies this, env.host
      ensures Valid() && Listening() && !destroyed && areAutoUpdatesEnabled == was
      ensures light == old(light) && splitter == old(splitter) && drawHandler == old(drawHandler)
      ensures shadowProperty == old(shadowProperty)
      ensures fresh(ShadowSet(shadows)) && |shadows| == |splitter.elements|
      ensures forall k :: 0 <= k < |shadows| ==>
        && shadows[k].element == splitter.elements[k]
        && shadows[k].shadowProperty == Prefixed(shadowProperty, root.styleProps)
        && shadows[k].handler.Some? && shadows[k].config == config
    {
      var property := GetPrefixed(shadowProperty, root.styleProps);
      shadows := BuildShadows(splitter.elements, config, env.host, property);
      if was {
        EnableAutoUpdates();
      }
    }

    /** `enableAutoUpdates`: disable first, then the flag, the draw handler's listeners, and every Shadow. */
    method EnableAutoUpdates()
      requires Valid() && !destroyed
      modifies this, env.host, ShadowSet(shadows)
      ensures Valid() && Listening() && !destroyed && areAutoUpdatesEnabled
      ensures shadows == old(shadows) && light == old(light) && splitter == old(splitter) && drawHandler == old(drawHandler)
      ensures shadowProperty == old(shadowProperty)
      ensures forall k :: 0 <= k < |shadows| ==> shadows[k].handler.Some?
      ensures forall k :: 0 <= k < |shadows| ==>
        shadows[k].shadowProperty == old(shadows[k].shadowProperty) && shadows[k].position == old(shadows[k].position)
    {
      DisableAutoUpdates();
      areAutoUpdatesEnabled := true;
      var h := drawHandler.value;
      env.host.AddAll(DrawListeners(h));
      EnableAll(shadows, env.host, {h});
    }

    /** `disableAutoUpdates`: the flag off, the draw handler's listeners removed, every Shadow disabled. */
    method DisableAutoUpdates()
      requires Valid() && !destroyed
      modifies this, env.host, ShadowSet(shadows)
      ensures Valid() && Listening() && !destroyed && !areAutoUpdatesEnabled
      ensures shadows == old(shadows) && light == old(light) && splitter == old(splitter) && drawHandler == old(drawHandler)
      ensures shadowProperty == old(shadowProperty)
      ensures forall k :: 0 <= k < |shadows| ==> shadows[k].handler.None?
      ensures forall k :: 0 <= k < |shadows| ==>
        shadows[k].shadowProperty == old(shadows[k].shadowProperty) && shadows[k].position == old(shadows[k].position)
    {
      areAutoUpdatesEnabled := false;
      var h := drawHandler.value;
      env.host.RemoveAll(DrawListeners(h));
      DisableAll(shadows, env.host, {h});
    }
  }

  /** The constructor's guard: without an element an Error is thrown and no Shine exists. */
  method NewShine(root: DomElement?, config: Config, optClassPrefix: string, optShadowProperty: string, css: string, env: Env)
    returns (r: Result<Shine, string>)
    requires root != null ==> DistinctElements(root.childNodes)
    modifies env.host, env.slot, env.slot.instance, env.document, root
    modifies if root != null then ElementSet(root.childNodes) else {}
    ensures r.Failure? <==> root == null
    ensures r.Failure? ==> r.error == NoElementError
    ensures r.Success? ==> fresh(r.value) && r.value.root == root && r.value.areAutoUpdatesEnabled
  {
    if root == null {
      return Failure(NoElementError);
    }
    var shine := new Shine(root, config, optClassPrefix, optShadowProperty, css, env);
    return Success(shine);
  }
}
