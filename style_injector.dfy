/**
 * The stylesheet injector (lib/shine.style-injector.js, and `StyleInjector` in
 * app/js/shine.js): a css-to-document registry so that the same rules are
 * injected once per document, and a lazily created shared instance.
 */
module StyleInjection {
  import opened Dom

  /** A document, reduced to the child nodes of its `<head>`. */
  class HtmlDocument {
    var head: seq<Node>

    constructor(head: seq<Node>)
      ensures this.head == head
    {
      this.head := head;
    }
  }

  /** `injections[css] === doc`: the css was last injected into `doc`. */
  predicate Injected(injections: map<string, HtmlDocument>, css: string, doc: HtmlDocument) {
    css in injections && injections[css] == doc
  }

  /** The registry after injecting `css` into `doc`. */
  function Record(injections: map<string, HtmlDocument>, css: string, doc: HtmlDocument): (m: map<string, HtmlDocument>)
    ensures Injected(m, css, doc)
    ensures forall c :: c != css ==> (c in m <==> c in injections) && (c in injections ==> m[c] == injections[c])
  {
    injections[css := doc]
  }

  /** Only the last document per css is remembered: recording B forgets A. */
  lemma RecordForgets(injections: map<string, HtmlDocument>, css: string, a: HtmlDocument, b: HtmlDocument)
    requires a != b
    ensures Injected(Record(injections, css, a), css, a)
    ensures !Injected(Record(Record(injections, css, a), css, b), css, a)
  {
  }

  class StyleInjector {
    var injections: map<string, HtmlDocument>

    constructor()
      ensures injections == map[]
    {
      injections := map[];
    }

    /**
     * `inject(css, doc)`: `doc` defaults to `window`. When the registry already
     * maps css to that document nothing happens and null (undefined) is
     * returned. Otherwise a fresh style node holding the css is inserted before
     * the head's first child, the registry records the document and the node is
     * returned.
     */
    method Inject(css: string, optDoc: HtmlDocument?, window: HtmlDocument) returns (style: DomElement?)
      modifies this, if optDoc != null then optDoc else window
      ensures var doc := if optDoc != null then optDoc else window;
        if Injected(old(injections), css, doc) then
          style == null && injections == old(injections) && doc.head == old(doc.head)
        else
          && style != null && fresh(style)
          && style.childNodes == TextChildren(css) && style.className == ""
          && doc.head == [Element(style)] + old(doc.head)
          && injections == Record(old(injections), css, doc)
    {
      var doc := if optDoc != null then optDoc else window;
      if css in injections && injections[css] == doc {
        return null;
      }
      style := new DomElement("", TextChildren(css), {});
      doc.head := [Element(style)] + doc.head;
      injections := injections[css := doc];
    }
  }

  /** Injecting the same css into the same document twice inserts one style node. */
  method InjectTwice(injector: StyleInjector, css: string, doc: HtmlDocument, window: HtmlDocument)
    returns (first: DomElement?, second: DomElement?)
    modifies injector, doc
    ensures second == null
    ensures Injected(injector.injections, css, doc)
    ensures |doc.head| == |old(doc.head)| + (if Injected(old(injector.injections), css, doc) then 0 else 1)
  {
    first := injector.Inject(css, doc, window);
    second := injector.Inject(css, doc, window);
  }

  /** Injecting into A, then B, then A again inserts into A twice. */
  method InjectAlternating(injector: StyleInjector, css: string, a: HtmlDocument, b: HtmlDocument, window: HtmlDocument)
    returns (s1: DomElement?, s2: DomElement?, s3: DomElement?)
    requires a != b
    modifies injector, a, b
    ensures s2 != null && s3 != null
    ensures |a.head| == |old(a.head)| + (if Injected(old(injector.injections), css, a) then 1 else 2)
    ensures |b.head| == |old(b.head)| + 1
  {
    s1 := injector.Inject(css, a, window);
    s2 := injector.Inject(css, b, window);
    s3 := injector.Inject(css, a, window);
  }

  /** The static `instance_` slot of the StyleInjector constructor. */
  class InjectorSlot {
    var instance: StyleInjector?

    /** Before the first `getInstance` the slot is null. */
    constructor()
      ensures instance == null
    {
      instance := null;
    }

    /** `getInstance`: create the instance on the first call, then always return it. */
    method GetInstance() returns (r: StyleInjector)
      modifies this
      ensures instance == r
      ensures old(instance) != null ==> r == old(instance)
      ensures old(instance) == null ==> fresh(r) && r.injections == map[]
    {
      if instance == null {
        instance := new StyleInjector();
      }
      return instance;
    }
  }

  /** Two `getInstance` calls return the same injector. */
  method GetInstanceTwice(slot: InjectorSlot) returns (a: StyleInjector, b: StyleInjector)
    modifies slot
    ensures a == b && slot.instance == a
  {
    a := slot.GetInstance();
    b := slot.GetInstance();
  }
}
