/**
 * Shadow configuration (lib/shine.config.js, and `ShadowConfig` in
 * app/js/shine.js). A config is a JavaScript object whose own keys are fixed by
 * its constructor; `applyValues` copies over every own key that the settings
 * object also has.
 */
module Configs {
  import opened Wrappers
  import opened Colors

  /** The keys a config can own. */
  datatype Key = NumSteps | Opacity | OpacityPow | Offset | OffsetPow | Blur | BlurPow | MaxBlurRadius | ShadowRgb

  /** A setting's value: a number, or a colour object (shared by reference). */
  datatype Setting = Number(n: real) | ColorObject(color: Color)

  /** The keys present in a settings object, with their values. */
  type Settings = map<Key, Setting>

  /**
   * A snapshot of a config's fields. `maxBlurRadius` is None when the config
   * does not own that key at all (the lib config).
   */
  datatype Values = Values(
    numSteps: real,
    opacity: real, opacityPow: real,
    offset: real, offsetPow: real,
    blur: real, blurPow: real,
    maxBlurRadius: Option<real>,
    shadowRGB: Color)

  /** The lib defaults (lib/shine.config.js); `black` is the fresh Color(0, 0, 0). */
  function LibDefaults(black: Color): (v: Values)
    ensures v.maxBlurRadius.None? && v.shadowRGB == black
  {
    Values(5.0, 0.15, 1.2, 0.15, 1.8, 40.0, 1.0, None, black)
  }

  /** The app defaults (`ShadowConfig` in app/js/shine.js): other blur values and a maxBlurRadius of 64. */
  function AppDefaults(black: Color): (v: Values)
    ensures v.maxBlurRadius == Some(64.0) && v.shadowRGB == black
  {
    Values(5.0, 0.15, 1.2, 0.15, 1.8, 0.1, 1.4, Some(64.0), black)
  }

  /** Whether the config owns key `k`. */
  predicate Has(v: Values, k: Key) {
    k != MaxBlurRadius || v.maxBlurRadius.Some?
  }

  /** The config's own keys, in the order the constructor creates them (`for (var key in this)`). */
  function Keys(v: Values): (ks: seq<Key>)
    ensures forall k :: k in ks <==> Has(v, k)
  {
    if v.maxBlurRadius.Some? then [NumSteps, Opacity, OpacityPow, Offset, OffsetPow, Blur, BlurPow, MaxBlurRadius, ShadowRgb]
    else [NumSteps, Opacity, OpacityPow, Offset, OffsetPow, Blur, BlurPow, ShadowRgb]
  }

  /** Whether a setting has the kind of value key `k` holds. */
  predicate Fits(k: Key, s: Setting) {
    if k == ShadowRgb then s.ColorObject? else s.Number?
  }

  /** The value of key `k`, or None when the config does not own it. */
  function Get(v: Values, k: Key): (r: Option<Setting>)
    ensures r.Some? <==> Has(v, k)
    ensures r.Some? ==> Fits(k, r.value)
  {
    match k
    case NumSteps => Some(Number(v.numSteps))
    case Opacity => Some(Number(v.opacity))
    case OpacityPow => Some(Number(v.opacityPow))
    case Offset => Some(Number(v.offset))
    case OffsetPow => Some(Number(v.offsetPow))
    case Blur => Some(Number(v.blur))
    case BlurPow => Some(Number(v.blurPow))
    case MaxBlurRadius => if v.maxBlurRadius.Some? then Some(Number(v.maxBlurRadius.value)) else None
    case ShadowRgb => Some(ColorObject(v.shadowRGB))
  }

  /** `this[key] = setting` for an own key; a setting of the wrong kind is skipped. */
  function Put(v: Values, k: Key, s: Setting): (w: Values)
    ensures forall j :: Has(w, j) <==> Has(v, j)
    ensures Get(w, k) == if Has(v, k) && Fits(k, s) then Some(s) else Get(v, k)
    ensures forall j :: j != k ==> Get(w, j) == Get(v, j)
  {
    if !Has(v, k) || !Fits(k, s) then v
    else match k
      case NumSteps => v.(numSteps := s.n)
      case Opacity => v.(opacity := s.n)
      case OpacityPow => v.(opacityPow := s.n)
      case Offset => v.(offset := s.n)
      case OffsetPow => v.(offsetPow := s.n)
      case Blur => v.(blur := s.n)
      case BlurPow => v.(blurPow := s.n)
      case MaxBlurRadius => v.(maxBlurRadius := Some(s.n))
      case ShadowRgb => v.(shadowRGB := s.color)
  }

  /** The loop body of `applyValues`, run over the keys `ks` in order. */
  function ApplyKeys(v: Values, settings: Settings, ks: seq<Key>): Values {
    if ks == [] then v
    else
      var w := ApplyKeys(v, settings, ks[..|ks| - 1]);
      var k := ks[|ks| - 1];
      if k in settings then Put(w, k, settings[k]) else w
  }

  /** `applyValues(settings)`: nothing happens for a missing settings object. */
  function Apply(v: Values, settings: Option<Settings>): Values {
    match settings
    case None => v
    case Some(s) => ApplyKeys(v, s, Keys(v))
  }

  /** Whether applying `settings` sets key `k` of `v`. */
  predicate Overrides(v: Values, settings: Settings, k: Key) {
    Has(v, k) && k in settings && Fits(k, settings[k])
  }

  /** Each key ends up with the last value assigned to it: the setting if the loop reached it, else the old value. */
  lemma {:induction false} ApplyKeysGet(v: Values, settings: Settings, ks: seq<Key>, k: Key)
    ensures forall j :: Has(ApplyKeys(v, settings, ks), j) <==> Has(v, j)
    ensures Get(ApplyKeys(v, settings, ks), k) ==
      if k in ks && Overrides(v, settings, k) then Some(settings[k]) else Get(v, k)
  {
    if ks != [] {
      var init := ks[..|ks| - 1];
      ApplyKeysGet(v, settings, init, k);
      assert k in ks <==> k in init || k == ks[|ks| - 1];
    }
  }

  /** Two snapshots that agree on every key are equal. */
  lemma SameGets(v: Values, w: Values)
    requires forall k :: Get(v, k) == Get(w, k)
    ensures v == w
  {
    assert Get(v, NumSteps) == Get(w, NumSteps);
    assert Get(v, Opacity) == Get(w, Opacity);
    assert Get(v, OpacityPow) == Get(w, OpacityPow);
    assert Get(v, Offset) == Get(w, Offset);
    assert Get(v, OffsetPow) == Get(w, OffsetPow);
    assert Get(v, Blur) == Get(w, Blur);
    assert Get(v, BlurPow) == Get(w, BlurPow);
    assert Get(v, MaxBlurRadius) == Get(w, MaxBlurRadius);
    assert Get(v, ShadowRgb) == Get(w, ShadowRgb);
  }

  /** An own key that the settings hold is overwritten with the setting. */
  lemma ApplyOverwrites(v: Values, settings: Settings, k: Key)
    requires Overrides(v, settings, k)
    ensures Get(Apply(v, Some(settings)), k) == Some(settings[k])
  {
    ApplyKeysGet(v, settings, Keys(v), k);
  }

  /** A key the settings do not hold keeps its value. */
  lemma ApplyKeeps(v: Values, settings: Settings, k: Key)
    requires k !in settings
    ensures Get(Apply(v, Some(settings)), k) == Get(v, k)
  {
    ApplyKeysGet(v, settings, Keys(v), k);
  }

  /**
   * Keys the config does not own are ignored: a lib config never gains a
   * maxBlurRadius, although its documentation lists one.
   */
  lemma ApplyIgnoresUnknown(v: Values, settings: Option<Settings>)
    requires v.maxBlurRadius.None?
    ensures Apply(v, settings).maxBlurRadius.None?
  {
    if settings.Some? {
      ApplyKeysGet(v, settings.value, Keys(v), MaxBlurRadius);
    }
  }

  /** `applyValues(s)` twice is `applyValues(s)` once. */
  lemma ApplyIdempotent(v: Values, settings: Option<Settings>)
    ensures Apply(Apply(v, settings), settings) == Apply(v, settings)
  {
    if settings.Some? {
      var s := settings.value;
      var once := Apply(v, settings);
      var twice := Apply(once, settings);
      forall k ensures Get(twice, k) == Get(once, k) {
        ApplyKeysGet(v, s, Keys(v), k);
        ApplyKeysGet(once, s, Keys(once), k);
      }
      SameGets(twice, once);
    }
  }

  /** A shadow config object; its fields are overwritten in place by `applyValues`. */
  class Config {
    var numSteps: real
    var opacity: real
    var opacityPow: real
    var offset: real
    var offsetPow: real
    var blur: real
    var blurPow: real
    var maxBlurRadius: Option<real>
    var shadowRGB: Color
    /** The black Color the constructor created, before any settings were applied. */
    ghost var defaultRGB: Color

    function Snapshot(): Values
      reads this
    {
      Values(numSteps, opacity, opacityPow, offset, offsetPow, blur, blurPow, maxBlurRadius, shadowRGB)
    }

    /** `new Config(optSettings)` of lib/shine.config.js: the lib defaults, then the settings. */
    constructor Lib(optSettings: Option<Settings>)
      ensures fresh(defaultRGB) && defaultRGB.r == 0.0 && defaultRGB.g == 0.0 && defaultRGB.b == 0.0
      ensures Snapshot() == Apply(LibDefaults(defaultRGB), optSettings)
    {
      var black := new Color(Some(0.0), Some(0.0), Some(0.0));
      numSteps, opacity, opacityPow := 5.0, 0.15, 1.2;
      offset, offsetPow := 0.15, 1.8;
      blur, blurPow := 40.0, 1.0;
      maxBlurRadius := None;
      shadowRGB := black;
      defaultRGB := black;
      new;
      ApplyValues(optSettings);
    }

    /** `new ShadowConfig(optSettings)` of app/js/shine.js: the app defaults, then the settings. */
    constructor App(optSettings: Option<Settings>)
      ensures fresh(defaultRGB) && defaultRGB.r == 0.0 && defaultRGB.g == 0.0 && defaultRGB.b == 0.0
      ensures Snapshot() == Apply(AppDefaults(defaultRGB), optSettings)
    {
      var black := new Color(Some(0.0), Some(0.0), Some(0.0));
      numSteps, opacity, opacityPow := 5.0, 0.15, 1.2;
      offset, offsetPow := 0.15, 1.8;
      blur, blurPow := 0.1, 1.4;
      maxBlurRadius := Some(64.0);
      shadowRGB := black;
      defaultRGB := black;
      new;
      ApplyValues(optSettings);
    }

    /** `this[key] = setting`. */
    method Set(k: Key, s: Setting)
      modifies this
      ensures Snapshot() == Put(old(Snapshot()), k, s)
      ensures defaultRGB == old(defaultRGB)
    {
      if Has(Snapshot(), k) && Fits(k, s) {
        match k
        case NumSteps => numSteps := s.n;
        case Opacity => opacity := s.n;
        case OpacityPow => opacityPow := s.n;
        case Offset => offset := s.n;
        case OffsetPow => offsetPow := s.n;
        case Blur => blur := s.n;
        case BlurPow => blurPow := s.n;
        case MaxBlurRadius => maxBlurRadius := Some(s.n);
        case ShadowRgb => shadowRGB := s.color;
      }
    }

    /** `applyValues(settings)`: every own key that the settings hold is overwritten, in key order. */
    method ApplyValues(settings: Option<Settings>)
      modifies this
      ensures Snapshot() == Apply(old(Snapshot()), settings)
      ensures defaultRGB == old(defaultRGB)
    {
      if settings.None? {
        return;
      }
      var s := settings.value;
      var keys := Keys(Snapshot());
      ghost var v0 := Snapshot();
      var i := 0;
      while i < |keys|
        invariant 0 <= i <= |keys|
        invariant Snapshot() == ApplyKeys(v0, s, keys[..i])
        invariant defaultRGB == old(defaultRGB)
      {
        var key := keys[i];
        assert keys[..i + 1][..i] == keys[..i];
        if key in s {
          Set(key, s[key]);
        }
        i := i + 1;
      }
      assert keys[..i] == keys;
    }
  }
}
