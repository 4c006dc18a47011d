/**
 * The part of the browser that shine.js touches: element nodes with a class
 * name, child nodes, an inline style and a bounding box; text-only tests;
 * vendor-prefix resolution; and the window's and document's event listeners.
 */
module Dom {
  import opened Wrappers
  import opened Text
  import opened Geometry

  /** A child node: text (nodeType 3), an element (nodeType 1) or a comment (nodeType 8). */
  datatype Node = TextNode(data: string) | Element(el: DomElement) | Comment(data: string) {
    function NodeType(): (t: int)
      ensures t == 3 <==> TextNode?
      ensures t == 1 <==> Element?
    {
      match this
      case TextNode(_) => 3
      case Element(_) => 1
      case Comment(_) => 8
    }
  }

  /** What `getBoundingClientRect` reports. */
  datatype Rect = Rect(left: real, top: real, width: real, height: real) {
    /** The centre of the box. */
    function Centre(): (c: Point)
      ensures c.x - left == left + width - c.x && c.y - top == top + height - c.y
    {
      Point(left + width * 0.5, top + height * 0.5)
    }
  }

  class DomElement {
    var className: string
    var childNodes: seq<Node>
    /** The inline style declarations that have been written. */
    var style: map<string, string>
    /** The property names the style object supports (`property in style`). */
    const styleProps: set<string>
    /** The layout box, set by the browser. */
    var bounds: Rect

    constructor(className: string, childNodes: seq<Node>, styleProps: set<string>)
      ensures this.className == className && this.childNodes == childNodes
      ensures this.styleProps == styleProps && style == map[]
      ensures bounds == Rect(0.0, 0.0, 0.0, 0.0)
    {
      this.className := className;
      this.childNodes := childNodes;
      this.styleProps := styleProps;
      style := map[];
      bounds := Rect(0.0, 0.0, 0.0, 0.0);
    }
  }

  /** Every node is a text node (vacuously true without children). */
  predicate TextOnly(nodes: seq<Node>) {
    forall i :: 0 <= i < |nodes| ==> nodes[i].TextNode?
  }

  /**
   * `elememtHasTextOnly` (and the splitter's identical `hasTextOnly`): true when
   * there are no child nodes or every child node has nodeType 3.
   */
  method HasTextOnly(e: DomElement) returns (b: bool)
    ensures b <==> TextOnly(e.childNodes)
  {
    var childNodes := e.childNodes;
    if |childNodes| == 0 {
      return true;
    }
    var i := 0;
    while i < |childNodes|
      invariant 0 <= i <= |childNodes|
      invariant forall k :: 0 <= k < i ==> childNodes[k].TextNode?
    {
      if childNodes[i].NodeType() != 3 {
        return false;
      }
      i := i + 1;
    }
    return true;
  }

  /** The text of the text children, in order (`textContent` of an element without element children). */
  function TextContent(nodes: seq<Node>): (t: string)
    ensures TextOnly(nodes) && |nodes| == 1 ==> t == nodes[0].data
  {
    if nodes == [] then []
    else TextContent(nodes[..|nodes| - 1]) + (if nodes[|nodes| - 1].TextNode? then nodes[|nodes| - 1].data else [])
  }

  /** The children after `textContent = t`: one text node, or none for the empty string. */
  function TextChildren(t: string): (nodes: seq<Node>)
    ensures TextOnly(nodes) && TextContent(nodes) == t
  {
    if t == [] then [] else [TextNode(t)]
  }

  /** Whether there are element children (`children.length > 0`). */
  predicate HasElementChildren(nodes: seq<Node>) {
    exists i :: 0 <= i < |nodes| && nodes[i].Element?
  }

  /** No element appears twice among the nodes: a DOM node has one parent and one position. */
  predicate DistinctElements(nodes: seq<Node>) {
    forall i, j :: 0 <= i < j < |nodes| && nodes[i].Element? && nodes[j].Element? ==> nodes[i].el != nodes[j].el
  }

  /** The vendor prefixes tried by `getPrefixed`, in order. */
  const Prefixes: seq<string> := ["webkit", "ms", "Moz", "Webkit", "O"]

  /** `property.charAt(0).toUpperCase() + property.substring(1)`. */
  function Capitalised(property: string): (s: string)
    ensures |s| == |property|
    ensures property != [] ==> s[0] == ToUpper(property[0]) && s[1..] == property[1..]
  {
    if property == [] then [] else [ToUpper(property[0])] + property[1..]
  }

  /** The i-th prefixed candidate. */
  function Candidate(i: nat, property: string): string
    requires i < |Prefixes|
  {
    Prefixes[i] + Capitalised(property)
  }

  /** The first supported candidate from the i-th prefix on, or the property unchanged. */
  function PrefixedFrom(i: nat, property: string, style: set<string>): string
    requires i <= |Prefixes|
    decreases |Prefixes| - i
  {
    if i == |Prefixes| then property
    else if Candidate(i, property) in style then Candidate(i, property)
    else PrefixedFrom(i + 1, property, style)
  }

  /** The property name `getPrefixed` resolves to. */
  function Prefixed(property: string, style: set<string>): string {
    if property in style then property else PrefixedFrom(0, property, style)
  }

  /**
   * `getPrefixed`: the property itself when the style supports it, else the
   * first supported prefixed form, else the property unchanged.
   */
  method GetPrefixed(property: string, style: set<string>) returns (r: string)
    ensures r == Prefixed(property, style)
    ensures property in style ==> r == property
    ensures property !in style && r == property ==> forall i :: 0 <= i < |Prefixes| ==> Candidate(i, property) !in style
    ensures r != property ==> property !in style
    ensures r != property ==>
      exists i :: 0 <= i < |Prefixes| && r == Candidate(i, property) && r in style &&
        forall j :: 0 <= j < i ==> Candidate(j, property) !in style
  {
    if property in style {
      return property;
    }
    var suffix := Capitalised(property);
    var i := 0;
    while i < |Prefixes|
      invariant 0 <= i <= |Prefixes|
      invariant forall j :: 0 <= j < i ==> Candidate(j, property) !in style
      invariant PrefixedFrom(i, property, style) == PrefixedFrom(0, property, style)
    {
      var prefixed := Prefixes[i] + suffix;
      if prefixed in style {
        assert prefixed == Candidate(i, property);
        return prefixed;
      }
      i := i + 1;
    }
    return property;
  }

  /** Where a listener is registered. */
  datatype Target = Window | Document

  /** A registered listener: target, event name and the identity of the function. */
  datatype Listener = Listener(target: Target, event: string, handler: nat)

  /**
   * The window's and the document's listener lists, and the source of fresh
   * function identities (each `bind` or closure creates a new function).
   * Adding a registered listener again, or removing an absent one, changes nothing.
   */
  class EventHost {
    var listeners: set<Listener>
    var nextHandler: nat

    constructor()
      ensures listeners == {} && nextHandler == 0
    {
      listeners := {};
      nextHandler := 0;
    }

    /** A new function object, distinct from every earlier one. */
    method Bind() returns (h: nat)
      modifies this
      ensures h == old(nextHandler) && nextHandler == h + 1 && listeners == old(listeners)
    {
      h := nextHandler;
      nextHandler := nextHandler + 1;
    }

    /** `addEventListener` for several listeners. */
    method AddAll(ls: set<Listener>)
      modifies this
      ensures listeners == old(listeners) + ls && nextHandler == old(nextHandler)
    {
      listeners := listeners + ls;
    }

    /** `removeEventListener` for several listeners. */
    method RemoveAll(ls: set<Listener>)
      modifies this
      ensures listeners == old(listeners) - ls && nextHandler == old(nextHandler)
    {
      listeners := listeners - ls;
    }
  }
}
