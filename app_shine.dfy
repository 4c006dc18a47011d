/**
 * The Shine controller of the newer bundle (app/js/shine.js). It differs from
 * lib/shine.js in four ways: it takes an optional ShadowConfig and hands it to
 * every Shadow, it binds a new draw handler on every enable, its disable
 * returns early when there is no handler, and it draws the Shadows last to
 * first.
 */
module AppShines {
  import opened Wrappers
  import opened Text
  import opened Numerics
  import opened Geometry
  import opened Dom
  import opened Configs
  import opened Lights
  import opened Shadows
  import opened Splitters
  import opened StyleInjection
  import opened Shines

  /** The loop of app/js/shine.js `draw`: every Shadow draws, last to first. */
  method DrawReversed(shadows: seq<Shadow>, light: Light, math: MathLib)
    requires Distinct(shadows) && forall k :: 0 <= k < |shadows| ==> shadows[k].config != null
    modifies ElementsOf(shadows)
    ensures forall k :: 0 <= k < |shadows| ==> Drawn(shadows[k], light, math)
    ensures forall k :: 0 <= k < |shadows| ==>
      Mark(shadows[k].element) == old(Mark(shadows[k].element))
  {
    var i := |shadows|;
    while i > 0
      invariant 0 <= i <= |shadows|
      invariant forall k :: i <= k < |shadows| ==> Drawn(shadows[k], light, math)
      invariant forall k :: 0 <= k < |shadows| ==>
        Mark(shadows[k].element) == old(Mark(shadows[k].element))
    {
      i := i - 1;
      assert shadows[i].element in ElementsOf(shadows);
      DrawAt(shadows, i, light, math);
    }
  }

  /** `optConfig || new ShadowConfig()`. */
  method ConfigOrDefault(optConfig: Config?) returns (c: Config)
    ensures optConfig != null ==> c == optConfig
    ensures optConfig == null ==> fresh(c) && c.Snapshot() == AppDefaults(c.defaultRGB)
  {
    if optConfig != null {
      return optConfig;
    }
    c := new Config.App(None);
  }

  /** The light still has its position object, at the same point, and its intensity. */
  predicate LightKept(light: Light?, position: PointRef, at: Point, intensity: real)
    reads light, if light != null then {light.position} else {}
  {
    light != null && light.position == position && light.position.Value() == at && light.intensity == intensity
  }

  class AppShine {
    const root: DomElement
    const classPrefix: string
    var shadowProperty: string
    /** The config every Shadow shares. */
    const config: Config
    /** The text of `getCSS()`. */
    const css: string
    const env: Env
    var light: Light?
    var splitter: Splitter?
    var shadows: seq<Shadow>
    /** `destroy` has run: `light`, `shadows` and `splitter` are null. */
    var destroyed: bool
    var areAutoUpdatesEnabled: bool
    /** The identity of `fnDrawHandler`: None while null, else the function bound by the last enable. */
    var drawHandler: Option<nat>

    predicate Valid()
      reads this, env.host, ShadowSet(shadows)
    {
      && (splitter != null ==> splitter.root == root && splitter.classPrefix == classPrefix)
      && (!destroyed ==> light != null && splitter != null)
      && (destroyed ==> shadows == [] && drawHandler.None?)
      && Distinct(shadows)
      && (forall k :: 0 <= k < |shadows| ==> shadows[k].host == env.host && shadows[k].config == config)
      && (drawHandler.Some? ==> drawHandler.value < env.host.nextHandler)
      && HandlersBelow(shadows, env.host.nextHandler, drawHandler)
    }

    /** A draw handler exists exactly while auto-updates are on, and it listens to scroll and resize. */
    predicate Listening()
      reads this, env.host
    {
      && (areAutoUpdatesEnabled <==> drawHandler.Some?)
      && (drawHandler.Some? ==> DrawListeners(drawHandler.value) <= env.host.listeners)
    }

    /**
     * `new Shine(domElement, optConfig, optClassPrefix, optShadowProperty)`:
     * without a config a new ShadowConfig with the app defaults is made. An
     * empty string stands for a missing prefix or property.
     */
    constructor(root: DomElement, optConfig: Config?, optClassPrefix: string, optShadowProperty: string, css: string, env: Env)
      requires DistinctElements(root.childNodes)
      modifies env.host, env.slot, env.slot.instance, env.document, root, ElementSet(root.childNodes)
      ensures this.root == root && this.css == css && this.env == env
      ensures optConfig != null ==> config == optConfig
      ensures optConfig == null ==> fresh(config) && config.Snapshot() == AppDefaults(config.defaultRGB)
      ensures classPrefix == if optClassPrefix != "" then optClassPrefix else "shine-"
      ensures shadowProperty == if optShadowProperty != "" then optShadowProperty
        else if TextOnly(old(root.childNodes)) then "textShadow" else "boxShadow"
      ensures Valid() && Listening() && !destroyed && areAutoUpdatesEnabled
      ensures fresh(light) && fresh(light.position) && light.position.Value() == Origin && light.intensity == 1.0
      ensures fresh(splitter) && |shadows| == |splitter.elements|
      ensures forall k :: 0 <= k < |shadows| ==>
        shadows[k].element == splitter.elements[k] && shadows[k].config == config && shadows[k].handler.Some?
      ensures TextOnly(old(root.childNodes)) ==>
        |shadows| == |NonSpace(TextContent(old(root.childNodes)))| &&
        LetterSpans(splitter.elements, NonSpace(TextContent(old(root.childNodes))), classPrefix)
      ensures !TextOnly(old(root.childNodes)) ==>
        |shadows| == |ElementChildren(old(root.childNodes))| &&
        forall k :: 0 <= k < |shadows| ==> shadows[k].element == ElementChildren(old(root.childNodes))[k]
      ensures forall k :: 0 <= k < |shadows| ==> Drawn(shadows[k], light, env.math)
    {
      this.root := root;
      var c := ConfigOrDefault(optConfig);
      config := c;
      this.css := css;
      this.env := env;
      var prefix := if optClassPrefix != "" then optClassPrefix else "shine-";
      classPrefix := prefix;
      var textOnly := HasTextOnly(root);
      shadowProperty := if optShadowProperty != "" then optShadowProperty
        else if textOnly then "textShadow" else "boxShadow";
      light := new Light(null);
      shadows := [];
      splitter := new Splitter(root, prefix);
      destroyed := false;
      areAutoUpdatesEnabled := true;
      drawHandler := None;
      new;
      var ok := UpdateContent("");
      assert ok;
    }

    /** `destroy`: auto-updates off, then the light, the Shadows, the splitter and the handler are dropped. */
    method Destroy()
      requires Valid() && !destroyed
      modifies this, env.host, ShadowSet(shadows)
      ensures Valid() && destroyed && light == null && splitter == null && shadows == [] && drawHandler == None
      ensures !areAutoUpdatesEnabled
      ensures old(drawHandler).Some? ==> DrawListeners(old(drawHandler).value) !! env.host.listeners
    {
      DisableAutoUpdates();
      light := null;
      shadows := [];
      splitter := null;
      destroyed := true;
      drawHandler := None;
    }

    /** `draw`: every Shadow draws for the light, last first; after `destroy`, reading `shadows.length` throws. */
    method Draw() returns (ok: bool)
      requires Valid()
      modifies ElementsOf(shadows)
      ensures Valid()
      ensures ok <==> !destroyed
      ensures ok ==> light != null && forall k :: 0 <= k < |shadows| ==> Drawn(shadows[k], light, env.math)
    {
      if destroyed {
        return false;
      }
      DrawReversed(shadows, light, env.math);
      return true;
    }

    /**
     * `updateContent(optText)`, deciding between letters and moved children
     * after a new text replaced the content: auto-updates off, the stylesheet
     * injected, one Shadow per element with the shared config, auto-updates
     * back on if they were on, and everything drawn. When re-splitting the
     * wrapper itself fails, the update stops there.
     */
    method UpdateContent(optText: string) returns (ok: bool)
      requires Valid() && !destroyed
      requires DistinctElements(root.childNodes)
      modifies this, env.host, ShadowSet(shadows), splitter, splitter.wrapper, root, ElementSet(root.childNodes)
      modifies env.slot, env.slot.instance, env.document
      ensures !destroyed && splitter == old(splitter) && light == old(light)
      ensures LightKept(light, old(light.position), old(light.position.Value()), old(light.intensity))
      ensures config.Snapshot() == old(config.Snapshot()) && config.defaultRGB == old(config.defaultRGB)
      ensures shadowProperty == old(shadowProperty)
      ensures var nodes := if optText != "" then TextChildren(optText) else old(root.childNodes);
        && (ok <==> TextOnly(nodes) || Element(splitter.wrapper) !in nodes)
        && (ok && TextOnly(nodes) ==>
              |shadows| == |NonSpace(TextContent(nodes))| &&
              LetterSpans(splitter.elements, NonSpace(TextContent(nodes)), classPrefix))
        && (ok && !TextOnly(nodes) ==>
              |shadows| == |ElementChildren(nodes)| &&
              forall k :: 0 <= k < |shadows| ==> shadows[k].element == ElementChildren(nodes)[k])
      ensures ok ==> Valid() && Listening() && areAutoUpdatesEnabled == old(areAutoUpdatesEnabled)
      ensures ok ==> fresh(ShadowSet(shadows)) && |shadows| == |splitter.elements|
      ensures ok ==> forall k :: 0 <= k < |shadows| ==>
        && shadows[k].element == splitter.elements[k]
        && shadows[k].config == config
        && shadows[k].shadowProperty == Prefixed(shadowProperty, root.styleProps)
        && shadows[k].handler.Some?
        && Drawn(shadows[k], light, env.math)
    {
      ghost var nodes := if optText != "" then TextChildren(optText) else root.childNodes;
      var was := Teardown();
      ok := splitter.Split(optText);
      if !ok {
        return;
      }
      ghost var spelled: Option<string> := None;
      if TextOnly(nodes) {
        spelled := Some(NonSpace(TextContent(nodes)));
      } else {
        ElementChildrenDistinct(nodes);
      }
      Rebuild(was, spelled);
    }

    /** The first half of `updateContent`: auto-updates off, the stylesheet injected, the Shadows dropped. */
    method Teardown() returns (was: bool)
      requires Valid() && !destroyed
      modifies this, env.host, ShadowSet(shadows), env.slot, env.slot.instance, env.document
      ensures was == old(areAutoUpdatesEnabled)
      ensures Valid() && Listening() && !destroyed && !areAutoUpdatesEnabled && shadows == []
      ensures light == old(light) && splitter == old(splitter)
      ensures LightKept(light, old(light.position), old(light.position.Value()), old(light.intensity))
      ensures config.Snapshot() == old(config.Snapshot()) && config.defaultRGB == old(config.defaultRGB)
      ensures shadowProperty == old(shadowProperty)
    {
      was := areAutoUpdatesEnabled;
      DisableAutoUpdates();
      var injector := env.slot.GetInstance();
      var _ := injector.Inject(css, null, env.document);
      shadows := [];
    }

    /** The second half of `updateContent`: the Shadows rebuilt, auto-updates restored, everything drawn. */
    method Rebuild(was: bool, ghost spelled: Option<string>)
      requires Valid() && Listening() && !destroyed && !areAutoUpdatesEnabled && shadows == []
      requires spelled.Some? ==> LetterSpans(splitter.elements, spelled.value, classPrefix)
      requires forall j, k :: 0 <= j < k < |splitter.elements| ==> splitter.elements[j] != splitter.elements[k]
      modifies this, env.host, Spans(splitter.elements)
      ensures Valid() && Listening() && !destroyed && areAutoUpdatesEnabled == was
      ensures light == old(light) && splitter == old(splitter)
      ensures LightKept(light, old(light.position), old(light.position.Value()), old(light.intensity))
      ensures config.Snapshot() == old(config.Snapshot()) && config.defaultRGB == old(config.defaultRGB)
      ensures shadowProperty == old(shadowProperty)
      ensures fresh(ShadowSet(shadows)) && |shadows| == |splitter.elements|
      ensures forall k :: 0 <= k < |shadows| ==>
        && shadows[k].element == splitter.elements[k]
        && shadows[k].config == config
        && shadows[k].shadowProperty == Prefixed(shadowProperty, root.styleProps)
        && shadows[k].handler.Some?
        && Drawn(shadows[k], light, env.math)
      ensures spelled.Some? ==> LetterSpans(splitter.elements, spelled.value, classPrefix)
    {
      ghost var es := splitter.elements;
      Respawn(was);
      assert ElementsOf(shadows) <= Spans(es);
      DrawReversed(shadows, light, env.math);
      if spelled.Some? {
        // Drawing writes only the style, so each span keeps its class and its letter.
        forall k | 0 <= k < |es|
          ensures es[k].className == classPrefix + "letter" && es[k].childNodes == [TextNode([spelled.value[k]])]
        {
          assert es[k] == shadows[k].element;
        }
      }
    }

    /** The Shadows of `updateContent`, one per element with the shared config, auto-updates back on if they were on. */
    method Respawn(was: bool)
      requires Valid() && Listening() && !destroyed && !areAutoUpdatesEnabled && shadows == []
      requires forall j, k :: 0 <= j < k < |splitter.elements| ==> splitter.elements[j] != splitter.elements[k]
      modifies this, env.host
      ensures Valid() && Listening() && !destroyed && areAutoUpdatesEnabled == was
      ensures light == old(light) && splitter == old(splitter)
      ensures shadowProperty == old(shadowProperty)
      ensures fresh(ShadowSet(shadows)) && |shadows| == |splitter.elements|
      ensures forall k :: 0 <= k < |shadows| ==>
        && shadows[k].element == splitter.elements[k]
        && shadows[k].config == config
        && shadows[k].shadowProperty == Prefixed(shadowProperty, root.styleProps)
        && shadows[k].handler.Some?
    {
      var property := GetPrefixed(shadowProperty, root.styleProps);
      shadows := BuildShadows(splitter.elements, config, env.host, property);
      if was {
        EnableAutoUpdates();
      }
    }

    /**
     * `enableAutoUpdates`: disable first, then the flag, a newly bound draw
     * handler with its two listeners, and every Shadow.
     */
    method EnableAutoUpdates()
      requires Valid() && !destroyed
      modifies this, env.host, ShadowSet(shadows)
      ensures Valid() && Listening() && !destroyed && areAutoUpdatesEnabled
      ensures shadows == old(shadows) && light == old(light) && splitter == old(splitter)
      ensures shadowProperty == old(shadowProperty)
      ensures drawHandler.Some? && drawHandler.value >= old(env.host.nextHandler)
      ensures old(drawHandler).Some? ==> DrawListeners(old(drawHandler).value) !! env.host.listeners
      ensures forall k :: 0 <= k < |shadows| ==> shadows[k].handler.Some?
      ensures forall k :: 0 <= k < |shadows| ==>
        shadows[k].shadowProperty == old(shadows[k].shadowProperty) && shadows[k].position == old(shadows[k].position)
    {
      ghost var before := if drawHandler.Some? then {drawHandler.value} else {};
      DisableAutoUpdates();
      ghost var disabled := env.host.listeners;
      var h := BindDrawHandler();
      assert forall l :: l in env.host.listeners && l.handler in before ==> l in disabled;
      EnableAll(shadows, env.host, {h} + before);
      HandlersBelowAvoiding(shadows, env.host.nextHandler, h, {h} + before);
    }

    /** The middle of `enableAutoUpdates`: the flag on, a new draw handler bound and its listeners added. */
    method BindDrawHandler() returns (h: nat)
      requires drawHandler.None?
      modifies this, env.host
      ensures h == old(env.host.nextHandler) && env.host.nextHandler == h + 1
      ensures drawHandler == Some(h) && areAutoUpdatesEnabled
      ensures env.host.listeners == old(env.host.listeners) + DrawListeners(h)
      ensures shadows == old(shadows) && light == old(light) && splitter == old(splitter) && destroyed == old(destroyed)
      ensures shadowProperty == old(shadowProperty)
    {
      areAutoUpdatesEnabled := true;
      h := env.host.Bind();
      drawHandler := Some(h);
      env.host.AddAll(DrawListeners(h));
    }

    /**
     * `disableAutoUpdates`: the flag always goes off; without a handler
     * nothing else happens, otherwise the handler is dropped, its listeners
     * removed and every Shadow disabled.
     */
    method DisableAutoUpdates()
      requires Valid() && !destroyed
      modifies this, env.host, ShadowSet(shadows)
      ensures Valid() && Listening() && !destroyed && !areAutoUpdatesEnabled && drawHandler.None?
      ensures shadows == old(shadows) && light == old(light) && splitter == old(splitter)
      ensures shadowProperty == old(shadowProperty)
      ensures env.host.nextHandler == old(env.host.nextHandler)
      ensures old(drawHandler).None? ==>
        env.host.listeners == old(env.host.listeners) && forall k :: 0 <= k < |shadows| ==> shadows[k].handler == old(shadows[k].handler)
      ensures old(drawHandler).Some? ==>
        DrawListeners(old(drawHandler).value) !! env.host.listeners && forall k :: 0 <= k < |shadows| ==> shadows[k].handler.None?
      ensures forall k :: 0 <= k < |shadows| ==>
        shadows[k].shadowProperty == old(shadows[k].shadowProperty) && shadows[k].position == old(shadows[k].position)
    {
      areAutoUpdatesEnabled := false;
      if drawHandler.None? {
        return;
      }
      var h := drawHandler.value;
      drawHandler := None;
      env.host.RemoveAll(DrawListeners(h));
      DisableAll(shadows, env.host, {h});
    }
  }

  /** The constructor's guard: without an element an Error is thrown and no Shine exists. */
  method NewAppShine(root: DomElement?, optConfig: Config?, optClassPrefix: string, optShadowProperty: string, css: string, env: Env)
    returns (r: Result<AppShine, string>)
    requires root != null ==> DistinctElements(root.childNodes)
    modifies env.host, env.slot, env.slot.instance, env.document, root
    modifies if root != null then ElementSet(root.childNodes) else {}
    ensures r.Failure? <==> root == null
    ensures r.Failure? ==> r.error == NoElementError
    ensures r.Success? ==> fresh(r.value) && r.value.root == root && r.value.areAutoUpdatesEnabled
  {
    if root == null {
      return Failure(NoElementError);
    }
    var shine := new AppShine(root, optConfig, optClassPrefix, optShadowProperty, css, env);
    return Success(shine);
  }
}
