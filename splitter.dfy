/**
 * Splitting an element into word, letter and spacer elements
 * (lib/shine.splitter.js, `Splitter` in app/js/shine.js and dist/shine.js).
 *
 * The children of the wrapper element are kept as values (`Piece`): a word
 * span with the text of its letter spans, a spacer span with its one white
 * space character, a moved child element, and the mask with its copy of the
 * wrapper's content. The letter spans themselves are objects, because shadows
 * write their style; they are the splitter's `elements`, in the order of the
 * words' letters.
 */
module Splitters {
  import opened Wrappers
  import opened Text
  import opened Dom

  datatype Piece = Word(letters: string) | Spacer(ch: char) | Child(el: DomElement) | Mask(className: string, copy: seq<Piece>)

  /** The wrapper's pieces so far and whether a word is open (`wordElement` is not null). */
  datatype ScanState = ScanState(pieces: seq<Piece>, open: bool)

  /** An open word is the last piece. */
  predicate Tidy(st: ScanState) {
    st.open ==> |st.pieces| > 0 && st.pieces[|st.pieces| - 1].Word?
  }

  /**
   * One pass of the `splitText` loop: open a word if none is open; a white
   * space character becomes a spacer and closes the word; any other character
   * joins the open word, and a `\W` character closes it.
   */
  function Step(st: ScanState, ch: char): (r: ScanState)
    requires Tidy(st)
    ensures Tidy(r)
  {
    var ps := if st.open then st.pieces else st.pieces + [Word([])];
    if IsWhiteSpace(ch) then ScanState(ps + [Spacer(ch)], false)
    else ScanState(ps[..|ps| - 1] + [Word(ps[|ps| - 1].letters + [ch])], IsWordChar(ch))
  }

  /** The `splitText` loop over the whole text. */
  function Scan(text: string): (st: ScanState)
    ensures Tidy(st)
  {
    if text == [] then ScanState([], false) else Step(Scan(text[..|text| - 1]), text[|text| - 1])
  }

  /** The text one piece displays: a word's letters or a spacer's character. */
  function PieceText(p: Piece): string {
    match p
    case Word(l) => l
    case Spacer(c) => [c]
    case _ => []
  }

  /** The text the pieces display, in order. */
  function Flatten(pieces: seq<Piece>): string {
    if pieces == [] then [] else Flatten(pieces[..|pieces| - 1]) + PieceText(pieces[|pieces| - 1])
  }

  /** The letters of a piece: a word's letters, nothing otherwise. */
  function PieceLetters(p: Piece): string {
    if p.Word? then p.letters else []
  }

  /** The letters of the words, in order: the text of the letter elements. */
  function Letters(pieces: seq<Piece>): string {
    if pieces == [] then [] else Letters(pieces[..|pieces| - 1]) + PieceLetters(pieces[|pieces| - 1])
  }

  /** The words, in order (what `wordElements` holds). */
  function Words(pieces: seq<Piece>): (ws: seq<string>) {
    if pieces == [] then []
    else Words(pieces[..|pieces| - 1]) + (if pieces[|pieces| - 1].Word? then [pieces[|pieces| - 1].letters] else [])
  }

  lemma Snoc(ps: seq<Piece>, p: Piece)
    ensures Flatten(ps + [p]) == Flatten(ps) + PieceText(p)
    ensures Letters(ps + [p]) == Letters(ps) + PieceLetters(p)
    ensures Words(ps + [p]) == Words(ps) + (if p.Word? then [p.letters] else [])
  {
    assert (ps + [p])[..|ps|] == ps;
  }

  /** One pass adds its character to the displayed text, and to the letters unless it is white space. */
  lemma StepText(st: ScanState, ch: char)
    requires Tidy(st)
    ensures Flatten(Step(st, ch).pieces) == Flatten(st.pieces) + [ch]
    ensures Letters(Step(st, ch).pieces) == Letters(st.pieces) + (if IsWhiteSpace(ch) then [] else [ch])
  {
    var ps := if st.open then st.pieces else st.pieces + [Word([])];
    if !st.open {
      Snoc(st.pieces, Word([]));
    }
    assert Flatten(ps) == Flatten(st.pieces) && Letters(ps) == Letters(st.pieces);
    if IsWhiteSpace(ch) {
      Snoc(ps, Spacer(ch));
    } else {
      ExtendLastWord(ps, ch);
    }
  }

  /** A letter joining the last word joins the displayed text and the letters. */
  lemma ExtendLastWord(ps: seq<Piece>, ch: char)
    requires |ps| > 0 && ps[|ps| - 1].Word?
    ensures var r := ps[..|ps| - 1] + [Word(ps[|ps| - 1].letters + [ch])];
      Flatten(r) == Flatten(ps) + [ch] && Letters(r) == Letters(ps) + [ch]
  {
    var front := ps[..|ps| - 1];
    var w := ps[|ps| - 1];
    assert ps == front + [w];
    Snoc(front, w);
    Snoc(front, Word(w.letters + [ch]));
  }

  /**
   * A piece `splitText` can produce: a spacer holds one white space
   * character; a word holds no white space, and only its last letter may be a
   * `\W` character.
   */
  predicate GoodPiece(p: Piece) {
    match p
    case Spacer(c) => IsWhiteSpace(c)
    case Word(l) => forall j :: 0 <= j < |l| ==> !IsWhiteSpace(l[j]) && (j < |l| - 1 ==> IsWordChar(l[j]))
    case _ => false
  }

  /** The shape `splitText` produces: only such words and spacers. */
  predicate WellFormed(pieces: seq<Piece>) {
    forall k :: 0 <= k < |pieces| ==> GoodPiece(pieces[k])
  }

  /** Splitting keeps the text: words and spacers together spell the input. */
  lemma {:induction false} ScanFlatten(text: string)
    ensures Flatten(Scan(text).pieces) == text
  {
    if text != [] {
      var init := text[..|text| - 1];
      var ch := text[|text| - 1];
      ScanFlatten(init);
      assert init + [ch] == text;
      ScanStepFlatten(init, ch);
    }
  }

  /** The inductive step of ScanFlatten: one more character, one more displayed character. */
  lemma ScanStepFlatten(init: string, ch: char)
    requires Flatten(Scan(init).pieces) == init
    ensures Flatten(Scan(init + [ch]).pieces) == init + [ch]
  {
    assert (init + [ch])[..|init|] == init;
    assert Scan(init + [ch]) == Step(Scan(init), ch);
    StepText(Scan(init), ch);
  }

  /** Splitting makes one letter per non-white-space character (Unicode scalar value), in text order. */
  lemma {:induction false} ScanLetters(text: string)
    ensures Letters(Scan(text).pieces) == NonSpace(text)
  {
    if text != [] {
      var init := text[..|text| - 1];
      var ch := text[|text| - 1];
      ScanLetters(init);
      StepText(Scan(init), ch);
    }
  }

  /** While a word is open, all its letters so far are word characters. */
  predicate OpenWordChars(st: ScanState)
    requires Tidy(st)
  {
    st.open ==> var l := st.pieces[|st.pieces| - 1].letters;
      forall j :: 0 <= j < |l| ==> IsWordChar(l[j])
  }

  /** One pass keeps the pieces well formed. */
  lemma StepWellFormed(st: ScanState, ch: char)
    requires Tidy(st) && WellFormed(st.pieces) && OpenWordChars(st)
    ensures WellFormed(Step(st, ch).pieces) && OpenWordChars(Step(st, ch))
  {
    var ps := if st.open then st.pieces else st.pieces + [Word([])];
    if !st.open {
      WellFormedSnoc(st.pieces, Word([]));
    }
    if IsWhiteSpace(ch) {
      WellFormedSnoc(ps, Spacer(ch));
    } else {
      var front := ps[..|ps| - 1];
      var w := ps[|ps| - 1].letters;
      assert forall j :: 0 <= j < |w| ==> IsWordChar(w[j]);
      assert GoodPiece(ps[|ps| - 1]);
      GrowWord(w, ch);
      assert WellFormed(front);
      WellFormedSnoc(front, Word(w + [ch]));
    }
  }

  /** One more well-formed piece keeps the pieces well formed. */
  lemma WellFormedSnoc(ps: seq<Piece>, p: Piece)
    requires WellFormed(ps) && GoodPiece(p)
    ensures WellFormed(ps + [p])
  {
    assert forall k :: 0 <= k < |ps| ==> (ps + [p])[k] == ps[k];
  }

  /** A word of word characters may take any further letter but white space. */
  lemma GrowWord(w: string, ch: char)
    requires forall j :: 0 <= j < |w| ==> IsWordChar(w[j])
    requires GoodPiece(Word(w)) && !IsWhiteSpace(ch)
    ensures GoodPiece(Word(w + [ch]))
  {
    assert forall j :: 0 <= j < |w| ==> (w + [ch])[j] == w[j];
  }

  /** Splitting yields only well-formed words and spacers. */
  lemma {:induction false} ScanWellFormed(text: string)
    ensures WellFormed(Scan(text).pieces) && OpenWordChars(Scan(text))
  {
    if text != [] {
      var init := text[..|text| - 1];
      ScanWellFormed(init);
      StepWellFormed(Scan(init), text[|text| - 1]);
    }
  }

  /** The element children, in order: what `splitChildren` is meant to move. */
  function ElementChildren(nodes: seq<Node>): (es: seq<DomElement>)
    ensures |es| <= |nodes|
    ensures forall k :: 0 <= k < |es| ==> Element(es[k]) in nodes
    ensures forall k :: 0 <= k < |nodes| && nodes[k].Element? ==> nodes[k].el in es
  {
    if nodes == [] then []
    else ElementChildren(nodes[..|nodes| - 1]) + (if nodes[|nodes| - 1].Element? then [nodes[|nodes| - 1].el] else [])
  }

  /** What the walk moved into the wrapper, and what it left in the child list. */
  datatype Walk = Walk(moved: seq<DomElement>, left: seq<Node>)

  /**
   * `splitChildren` as written: it walks the live `childNodes` list by index
   * while each `appendChild` removes the moved element from that list, so the
   * node after a moved element is never visited. Returns the moved elements
   * and what is left in the list.
   */
  function LiveSplit(nodes: seq<Node>, i: nat): Walk
    decreases |nodes| - i
  {
    if i >= |nodes| then Walk([], nodes)
    else if nodes[i].Element? then
      var r := LiveSplit(nodes[..i] + nodes[i + 1..], i + 1);
      Walk([nodes[i].el] + r.moved, r.left)
    else LiveSplit(nodes, i + 1)
  }

  /**
   * Three adjacent element children: the live walk moves the first and the
   * third and leaves the second behind, to be deleted by `innerHTML = ''`.
   */
  lemma LiveSplitSkips(a: DomElement, b: DomElement, c: DomElement)
    ensures LiveSplit([Element(a), Element(b), Element(c)], 0) == Walk([a, c], [Element(b)])
    ensures ElementChildren([Element(a), Element(b), Element(c)]) == [a, b, c]
  {
    var nodes := [Element(a), Element(b), Element(c)];
    var rest := [Element(b), Element(c)];
    assert nodes[..0] + nodes[1..] == rest;
    LiveSplitSecond(b, c);
    ElementChildrenThree(a, b, c);
  }

  /** The three are all element children, in order. */
  lemma ElementChildrenThree(a: DomElement, b: DomElement, c: DomElement)
    ensures ElementChildren([Element(a), Element(b), Element(c)]) == [a, b, c]
  {
    var nodes := [Element(a), Element(b), Element(c)];
    var es := [Element(a), Element(b)];
    assert nodes[..2] == es && es[..1] == [Element(a)] && [Element(a)][..0] == [];
    assert ElementChildren([Element(a)]) == [a];
    assert ElementChildren(es) == [a, b];
  }

  /** After the first move, the walk is at index 1 of the two that are left: it moves the third. */
  lemma LiveSplitSecond(b: DomElement, c: DomElement)
    ensures LiveSplit([Element(b), Element(c)], 1) == Walk([c], [Element(b)])
  {
    var rest := [Element(b), Element(c)];
    var last := [Element(b)];
    assert rest[..1] + rest[2..] == last;
    assert LiveSplit(last, 2) == Walk([], last);
  }

  /** The element children of two runs of nodes, one after the other. */
  lemma {:induction false} ElementChildrenAppend(a: seq<Node>, b: seq<Node>)
    ensures ElementChildren(a + b) == ElementChildren(a) + ElementChildren(b)
    decreases |b|
  {
    if b == [] {
      assert a + b == a;
    } else {
      var init := b[..|b| - 1];
      var last := b[|b| - 1];
      var tail := if last.Element? then [last.el] else [];
      ElementChildrenAppend(a, init);
      assert (a + b)[..|a + b| - 1] == a + init && (a + b)[|a + b| - 1] == last;
      assert ElementChildren(a + b) == ElementChildren(a + init) + tail;
      assert ElementChildren(b) == ElementChildren(init) + tail;
    }
  }

  /** No two element children stand next to each other. */
  predicate Separated(nodes: seq<Node>) {
    forall k :: 0 <= k < |nodes| - 1 ==> !(nodes[k].Element? && nodes[k + 1].Element?)
  }

  /** Dropping a prefix keeps the nodes separated. */
  lemma SeparatedDrop(nodes: seq<Node>, d: nat)
    requires Separated(nodes) && d <= |nodes|
    ensures Separated(nodes[d..])
  {
    var t := nodes[d..];
    forall k | 0 <= k < |t| - 1
      ensures !(t[k].Element? && t[k + 1].Element?)
    {
      assert t[k] == nodes[d + k] && t[k + 1] == nodes[d + k + 1];
    }
  }

  /** The element children of a node followed by more nodes. */
  lemma ElementChildrenCons(nodes: seq<Node>, i: nat)
    requires i < |nodes|
    ensures ElementChildren(nodes[i..]) == ElementChildren([nodes[i]]) + ElementChildren(nodes[i + 1..])
    ensures ElementChildren([nodes[i]]) == if nodes[i].Element? then [nodes[i].el] else []
  {
    ElementChildrenAppend([nodes[i]], nodes[i + 1..]);
    assert nodes[i..] == [nodes[i]] + nodes[i + 1..];
    assert [nodes[i]][..0] == [];
  }

  /**
   * The live walk is right exactly when the node it skips is never an
   * element: with no two element children adjacent, it moves every element
   * child, in order.
   */
  lemma {:induction false} LiveSplitSeparated(nodes: seq<Node>, i: nat)
    requires i <= |nodes| && Separated(nodes[i..])
    ensures LiveSplit(nodes, i).moved == ElementChildren(nodes[i..])
    decreases |nodes| - i
  {
    if i == |nodes| {
      assert nodes[i..] == [];
      assert LiveSplit(nodes, i).moved == ElementChildren(nodes[i..]);
    } else if nodes[i].Element? {
      ElementChildrenCons(nodes, i);
      var rest := nodes[..i] + nodes[i + 1..];
      if i + 1 < |nodes| {
        assert nodes[i..][1] == nodes[i + 1];
        ElementChildrenCons(nodes, i + 1);
        assert rest[i + 1..] == nodes[i + 2..] == nodes[i..][2..];
        SeparatedDrop(nodes[i..], 2);
        LiveSplitSeparated(rest, i + 1);
        assert LiveSplit(nodes, i).moved == [nodes[i].el] + LiveSplit(rest, i + 1).moved;
        assert ElementChildren(nodes[i + 1..]) == ElementChildren(nodes[i + 2..]);
        assert LiveSplit(nodes, i).moved == ElementChildren(nodes[i..]);
      } else {
        assert nodes[i + 1..] == [];
        assert LiveSplit(rest, i + 1).moved == [];
        assert LiveSplit(nodes, i).moved == [nodes[i].el] + LiveSplit(rest, i + 1).moved;
        assert LiveSplit(nodes, i).moved == ElementChildren(nodes[i..]);
      }
    } else {
      ElementChildrenCons(nodes, i);
      assert nodes[i + 1..] == nodes[i..][1..];
      SeparatedDrop(nodes[i..], 1);
      LiveSplitSeparated(nodes, i + 1);
      assert LiveSplit(nodes, i) == LiveSplit(nodes, i + 1);
      assert LiveSplit(nodes, i).moved == ElementChildren(nodes[i..]);
    }
  }

  /** The elements among the nodes, as a set (what `splitChildren` may touch). */
  function ElementSet(nodes: seq<Node>): (es: set<DomElement>)
    ensures forall k :: 0 <= k < |nodes| && nodes[k].Element? ==> nodes[k].el in es
  {
    set k | 0 <= k < |nodes| && nodes[k].Element? :: nodes[k].el
  }

  /** Moved elements, as children of the wrapper. */
  function ChildPieces(es: seq<DomElement>): (ps: seq<Piece>)
    ensures |ps| == |es| && forall k :: 0 <= k < |es| ==> ps[k] == Child(es[k])
  {
    seq(|es|, k requires 0 <= k < |es| => Child(es[k]))
  }

  /** The spans, as a set. */
  function Spans(spans: seq<DomElement>): (es: set<DomElement>)
    ensures forall k :: 0 <= k < |spans| ==> spans[k] in es
  {
    set e | e in spans
  }

  lemma ChildPiecesAppend(a: seq<DomElement>, b: seq<DomElement>)
    ensures ChildPieces(a + b) == ChildPieces(a) + ChildPieces(b)
  {
  }

  /** The element children of one more node. */
  lemma ElementChildrenSnoc(nodes: seq<Node>, i: nat)
    requires i < |nodes|
    ensures ElementChildren(nodes[..i + 1]) == ElementChildren(nodes[..i]) + ElementChildren([nodes[i]])
    ensures nodes[..i + 1] == nodes[..i] + [nodes[i]]
  {
    assert nodes[..i + 1][..i] == nodes[..i];
    assert [nodes[i]][..0] == [];
  }

  /** The element children are elements of the node list, each once when the nodes hold each element once. */
  lemma {:induction false} ElementChildrenDistinct(nodes: seq<Node>)
    requires DistinctElements(nodes)
    ensures forall j, k :: 0 <= j < k < |ElementChildren(nodes)| ==> ElementChildren(nodes)[j] != ElementChildren(nodes)[k]
    ensures forall k :: 0 <= k < |ElementChildren(nodes)| ==> ElementChildren(nodes)[k] in ElementSet(nodes)
  {
    if nodes != [] {
      var init := nodes[..|nodes| - 1];
      assert DistinctElements(init) by {
        forall i, j | 0 <= i < j < |init| && init[i].Element? && init[j].Element?
          ensures init[i].el != init[j].el
        {
          assert init[i] == nodes[i] && init[j] == nodes[j];
        }
      }
      ElementChildrenDistinct(init);
      var es := ElementChildren(nodes);
      var ei := ElementChildren(init);
      var last := nodes[|nodes| - 1];
      forall k | 0 <= k < |ei|
        ensures ei[k] in ElementSet(nodes)
        ensures last.Element? ==> ei[k] != last.el
      {
        var i :| 0 <= i < |init| && init[i] == Element(ei[k]);
        assert nodes[i] == init[i];
      }
    }
  }

  lemma ElementSetOne(nodes: seq<Node>, i: nat)
    requires i < |nodes|
    ensures ElementSet([nodes[i]]) <= ElementSet(nodes)
  {
  }

  /** The class names of the element children (empty for other nodes). */
  function ClassNames(nodes: seq<Node>): (names: seq<string>)
    reads ElementSet(nodes)
    ensures |names| == |nodes|
    ensures forall k :: 0 <= k < |nodes| && nodes[k].Element? ==> names[k] == nodes[k].el.className
  {
    seq(|nodes|, k requires 0 <= k < |nodes| reads ElementSet(nodes) => if nodes[k].Element? then nodes[k].el.className else "")
  }

  /**
   * The element children before position `i` carry `suffix` after their
   * class names `names`; the others carry their class names unchanged.
   */
  predicate Marked(nodes: seq<Node>, names: seq<string>, i: nat, suffix: string)
    requires |names| == |nodes|
    reads ElementSet(nodes)
  {
    forall k :: 0 <= k < |nodes| && nodes[k].Element? ==> nodes[k].el.className == names[k] + if k < i then suffix else ""
  }

  /** One letter span per letter, in order, each holding its letter; no span twice. */
  predicate LetterSpans(spans: seq<DomElement>, letters: string, classPrefix: string)
    reads spans
  {
    && |spans| == |letters|
    && (forall k :: 0 <= k < |spans| ==> spans[k].className == classPrefix + "letter")
    && (forall k :: 0 <= k < |spans| ==> spans[k].childNodes == [TextNode([letters[k]])])
    && (forall j, k :: 0 <= j < k < |spans| ==> spans[j] != spans[k])
  }

  /** A new span for one more letter keeps the spans in step with the letters. */
  lemma LetterSpansSnoc(spans: seq<DomElement>, letters: string, classPrefix: string, e: DomElement, c: char)
    requires LetterSpans(spans, letters, classPrefix) && e !in spans
    requires e.className == classPrefix + "letter" && e.childNodes == [TextNode([c])]
    ensures LetterSpans(spans + [e], letters + [c], classPrefix)
  {
    var s2, l2 := spans + [e], letters + [c];
    forall k | 0 <= k < |s2|
      ensures s2[k].className == classPrefix + "letter" && s2[k].childNodes == [TextNode([l2[k]])]
    {
      if k < |spans| {
        assert s2[k] == spans[k] && l2[k] == letters[k];
      }
    }
  }

  /** The scan of one more character is one more step. */
  lemma ScanSnoc(text: string, i: nat)
    requires i < |text|
    ensures Scan(text[..i + 1]) == Step(Scan(text[..i]), text[i])
    ensures NonSpace(text[..i + 1]) == NonSpace(text[..i]) + if IsWhiteSpace(text[i]) then [] else [text[i]]
  {
    assert text[..i + 1][..i] == text[..i];
  }

  /**
   * One pass of the `splitText` loop on the wrapper's pieces, with the open
   * word as the `wordElement` cursor.
   */
  method ScanChar(pieces: seq<Piece>, open: bool, letter: char) returns (pieces': seq<Piece>, open': bool)
    requires Tidy(ScanState(pieces, open))
    ensures ScanState(pieces', open') == Step(ScanState(pieces, open), letter)
  {
    pieces', open' := pieces, open;
    if !open' {
      pieces' := pieces' + [Word([])];
      open' := true;
    }
    if IsWhiteSpace(letter) {
      pieces' := pieces' + [Spacer(letter)];
      open' := false;
      return;
    }
    pieces' := pieces'[..|pieces'| - 1] + [Word(pieces'[|pieces'| - 1].letters + [letter])];
    if !IsWordChar(letter) {
      open' := false;
    }
  }

  /** A new letter span holding `letter`, pushed onto `letters`. */
  method AddLetter(spans: seq<DomElement>, ghost letters: string, classPrefix: string, letter: char, styleProps: set<string>)
    returns (spans': seq<DomElement>)
    requires LetterSpans(spans, letters, classPrefix)
    ensures LetterSpans(spans', letters + [letter], classPrefix)
    ensures fresh(Spans(spans') - Spans(spans))
  {
    var letterElement := new DomElement(classPrefix + "letter", [TextNode([letter])], styleProps);
    LetterSpansSnoc(spans, letters, classPrefix, letterElement, letter);
    spans' := spans + [letterElement];
  }

  /** Pass `i` of the `splitText` loop: the character is scanned and, unless it is white space, gets a span. */
  method SplitStep(text: string, i: nat, pieces: seq<Piece>, open: bool, letters: seq<DomElement>,
                   classPrefix: string, styleProps: set<string>)
    returns (pieces': seq<Piece>, open': bool, letters': seq<DomElement>)
    requires i < |text| && ScanState(pieces, open) == Scan(text[..i])
    requires LetterSpans(letters, NonSpace(text[..i]), classPrefix)
    ensures ScanState(pieces', open') == Scan(text[..i + 1])
    ensures LetterSpans(letters', NonSpace(text[..i + 1]), classPrefix)
    ensures fresh(Spans(letters') - Spans(letters))
  {
    var letter := text[i];
    ScanSnoc(text, i);
    pieces', open' := ScanChar(pieces, open, letter);
    ghost var before := NonSpace(text[..i]);
    if IsWhiteSpace(letter) {
      letters' := letters;
      assert NonSpace(text[..i + 1]) == before;
    } else {
      letters' := AddLetter(letters, before, classPrefix, letter, styleProps);
      assert NonSpace(text[..i + 1]) == before + [letter];
    }
  }

  /**
   * The loop of `splitText`: the wrapper's pieces for `text`, and a new letter
   * span for each character that is not white space, in text order.
   */
  method SplitLetters(text: string, classPrefix: string, styleProps: set<string>)
    returns (pieces: seq<Piece>, letters: seq<DomElement>)
    ensures pieces == Scan(text).pieces
    ensures LetterSpans(letters, NonSpace(text), classPrefix)
    ensures fresh(Spans(letters))
  {
    pieces, letters := [], [];
    var open := false;
    for i := 0 to |text|
      invariant ScanState(pieces, open) == Scan(text[..i])
      invariant LetterSpans(letters, NonSpace(text[..i]), classPrefix)
      invariant fresh(Spans(letters))
    {
      pieces, open, letters := SplitStep(text, i, pieces, open, letters, classPrefix, styleProps);
    }
    assert text[..|text|] == text;
  }

  /**
   * A splitter for one element. The wrapper `div` is an object (it becomes the
   * element's only child); its children are kept as the pieces in `content`,
   * the mask among them. `words` holds the letters of each word span.
   */
  class Splitter {
    const root: DomElement
    const classPrefix: string
    const wrapper: DomElement
    var content: seq<Piece>
    var words: seq<string>
    var elements: seq<DomElement>
    var text: string

    /** `new Splitter(domElement, optClassPrefix)`; an empty prefix stands for a missing one. */
    constructor(root: DomElement, optClassPrefix: string)
      ensures this.root == root && classPrefix == optClassPrefix
      ensures fresh(wrapper) && wrapper.className == "" && wrapper.childNodes == []
      ensures content == [] && words == [] && elements == [] && text == ""
    {
      this.root := root;
      classPrefix := optClassPrefix;
      wrapper := new DomElement("", [], root.styleProps);
      content, words, elements, text := [], [], [], "";
    }

    /**
     * The common start of `split`: remember a non-empty `optText`, empty the
     * arrays and the wrapper, and replace the element's content with the text.
     */
    method Reset(optText: string)
      modifies this, wrapper, root
      ensures text == if optText != "" then optText else old(text)
      ensures words == [] && elements == [] && content == []
      ensures wrapper.className == classPrefix + "wrapper"
      ensures root.childNodes == if optText != "" then TextChildren(optText) else old(root.childNodes)
    {
      text := if optText != "" then optText else text;
      words, elements := [], [];
      wrapper.className := classPrefix + "wrapper";
      content := [];
      if optText != "" {
        root.childNodes := TextChildren(text);
      }
    }

    /**
     * `splitText`: the text of the element becomes words and spacers in the
     * wrapper, with the mask's copy last, and the wrapper replaces the text.
     */
    method SplitText()
      requires TextOnly(root.childNodes)
      modifies this, root
      ensures var t := old(TextContent(root.childNodes)); var ps := Scan(t).pieces;
        && content == old(content) + ps + [Mask(classPrefix + "mask", old(content) + ps)]
        && words == old(words) + Words(ps)
        && |elements| >= |old(elements)| && elements[..|old(elements)|] == old(elements)
        && LetterSpans(elements[|old(elements)|..], NonSpace(t), classPrefix)
        && fresh(Spans(elements[|old(elements)|..]))
      ensures root.childNodes == [Element(wrapper)]
      ensures text == old(text) && root.className == old(root.className)
    {
      var t := TextContent(root.childNodes);
      root.childNodes := [Element(wrapper)];
      var pieces, letters := SplitLetters(t, classPrefix, root.styleProps);
      ghost var before := elements;
      Record(pieces, letters);
      assert elements[..|before|] == before && elements[|before|..] == letters;
    }

    /** The words, letter spans and pieces of a split text join the arrays, the mask's copy last. */
    method Record(pieces: seq<Piece>, letters: seq<DomElement>)
      modifies this
      ensures words == old(words) + Words(pieces) && elements == old(elements) + letters
      ensures content == old(content) + pieces + [Mask(classPrefix + "mask", old(content) + pieces)]
      ensures text == old(text)
    {
      words := words + Words(pieces);
      elements := elements + letters;
      content := content + pieces;
      content := content + [Mask(classPrefix + "mask", content)];
    }

    /**
     * The walk over `nodes` has done its first `i` passes from the arrays `e0`
     * and `c0`: the element children among them are marked and moved, and
     * none of them was the wrapper.
     */
    ghost predicate Walked(nodes: seq<Node>, names: seq<string>, i: nat, e0: seq<DomElement>, c0: seq<Piece>)
      requires i <= |nodes| && |names| == |nodes|
      reads this, ElementSet(nodes)
    {
      && elements == e0 + ElementChildren(nodes[..i])
      && content == c0 + ChildPieces(ElementChildren(nodes[..i]))
      && Element(wrapper) !in nodes[..i]
      && Marked(nodes, names, i, " " + classPrefix + "letter")
    }

    /**
     * Pass `i` of the `splitChildren` loop over `nodes`: an element child gets
     * ' <prefix>letter' appended to its class and moves into the wrapper, which
     * fails (a HierarchyRequestError) for the wrapper itself; other nodes are skipped.
     */
    method MoveChild(nodes: seq<Node>, i: nat, ghost names: seq<string>, ghost e0: seq<DomElement>, ghost c0: seq<Piece>)
      returns (ok: bool)
      requires i < |nodes| && |names| == |nodes| && DistinctElements(nodes)
      requires Walked(nodes, names, i, e0, c0)
      modifies this, ElementSet([nodes[i]])
      ensures ok <==> nodes[i] != Element(wrapper)
      ensures ok ==> Walked(nodes, names, i + 1, e0, c0)
      ensures ok ==> wrapper.className == old(wrapper.className)
      ensures words == old(words) && text == old(text) && root.childNodes == old(root.childNodes)
    {
      var child := nodes[i];
      if child.NodeType() != 1 {
        ElementChildrenSnoc(nodes, i);
        assert ElementChildren([child]) == [];
        return true;
      }
      assert [child][0] == child;
      ok := MoveElement(nodes, i, names, e0, c0);
    }

    /** The element case of that pass. */
    method MoveElement(nodes: seq<Node>, i: nat, ghost names: seq<string>, ghost e0: seq<DomElement>, ghost c0: seq<Piece>)
      returns (ok: bool)
      requires i < |nodes| && |names| == |nodes| && DistinctElements(nodes) && nodes[i].Element?
      requires Walked(nodes, names, i, e0, c0)
      modifies this, nodes[i].el
      ensures ok <==> nodes[i] != Element(wrapper)
      ensures ok ==> Walked(nodes, names, i + 1, e0, c0)
      ensures ok ==> wrapper.className == old(wrapper.className)
      ensures words == old(words) && text == old(text) && root.childNodes == old(root.childNodes)
    {
      var el := nodes[i].el;
      ElementChildrenSnoc(nodes, i);
      assert ElementChildren([nodes[i]]) == [el];
      ChildPiecesAppend(ElementChildren(nodes[..i]), [el]);
      var suffix := " " + classPrefix + "letter";
      el.className := el.className + suffix;
      if el == wrapper {
        return false;
      }
      elements := elements + [el];
      content := content + [Child(el)];
      forall k | 0 <= k < |nodes| && nodes[k].Element?
        ensures nodes[k].el.className == names[k] + if k < i + 1 then suffix else ""
      {
        if k != i {
          assert nodes[k].el != el;
        }
      }
      return true;
    }

    /**
     * `splitChildren`, walking a snapshot of the child list: each element
     * child, in order, gets ' <prefix>letter' appended to its class and moves
     * into the wrapper; other nodes are dropped. Moving the wrapper into
     * itself throws a HierarchyRequestError (`ok` is false).
     */
    method SplitChildren() returns (ok: bool)
      requires DistinctElements(root.childNodes)
      modifies this, root, ElementSet(root.childNodes)
      ensures ok <==> Element(wrapper) !in old(root.childNodes)
      ensures ok ==> var es := ElementChildren(old(root.childNodes));
        && elements == old(elements) + es
        && content == old(content) + ChildPieces(es) + [Mask(classPrefix + "mask", old(content) + ChildPieces(es))]
        && root.childNodes == [Element(wrapper)]
      ensures ok ==> Marked(old(root.childNodes), old(ClassNames(root.childNodes)), |old(root.childNodes)|, " " + classPrefix + "letter")
      ensures ok ==> wrapper.className == old(wrapper.className)
      ensures words == old(words) && text == old(text)
    {
      ok := MoveChildren();
      if ok {
        content := content + [Mask(classPrefix + "mask", content)];
        root.childNodes := [Element(wrapper)];
      }
    }

    /** The loop of `splitChildren`: every element child, in order, marked and moved into the wrapper. */
    method MoveChildren() returns (ok: bool)
      requires DistinctElements(root.childNodes)
      modifies this, ElementSet(root.childNodes)
      ensures ok <==> Element(wrapper) !in old(root.childNodes)
      ensures ok ==> var es := ElementChildren(old(root.childNodes));
        elements == old(elements) + es && content == old(content) + ChildPieces(es)
      ensures ok ==> Marked(old(root.childNodes), old(ClassNames(root.childNodes)), |old(root.childNodes)|, " " + classPrefix + "letter")
      ensures ok ==> wrapper.className == old(wrapper.className)
      ensures words == old(words) && text == old(text)
    {
      var nodes := root.childNodes;
      ghost var names := ClassNames(nodes);
      ok := true;
      var i := 0;
      assert nodes[..0] == [];
      while i < |nodes|
        invariant 0 <= i <= |nodes| && root.childNodes == nodes
        invariant Walked(nodes, names, i, old(elements), old(content))
        invariant wrapper.className == old(wrapper.className)
        invariant words == old(words) && text == old(text)
      {
        ElementSetOne(nodes, i);
        ok := MoveChild(nodes, i, names, old(elements), old(content));
        if !ok {
          return;
        }
        i := i + 1;
      }
      assert nodes[..i] == nodes;
    }

    /** The state `splitText` leaves after the arrays were emptied: the pieces, words and letter spans of `t`. */
    predicate TextSplit(t: string)
      reads this, elements
    {
      var ps := Scan(t).pieces;
      && content == ps + [Mask(classPrefix + "mask", ps)]
      && words == Words(ps)
      && LetterSpans(elements, NonSpace(t), classPrefix)
    }

    /** The state `splitChildren` leaves after the arrays were emptied: the element children of `nodes`, moved. */
    predicate ChildrenSplit(nodes: seq<Node>)
      reads this
    {
      var es := ElementChildren(nodes);
      && content == ChildPieces(es) + [Mask(classPrefix + "mask", ChildPieces(es))]
      && words == []
      && elements == es
    }

    /**
     * `split(optText, preserveChildren)` of app/js/shine.js: a non-empty text
     * replaces the content; then the element children are moved
     * (`preserveChildren`) or the text is split. Splitting text requires
     * text-only content (the text of nested elements is not modelled).
     */
    method SplitPreserving(optText: string, preserveChildren: bool) returns (ok: bool)
      requires DistinctElements(root.childNodes)
      requires !preserveChildren ==> optText != "" || TextOnly(root.childNodes)
      modifies this, wrapper, root, ElementSet(root.childNodes)
      ensures text == if optText != "" then optText else old(text)
      ensures var nodes := if optText != "" then TextChildren(optText) else old(root.childNodes);
        && (ok <==> !preserveChildren || Element(wrapper) !in nodes)
        && (ok && !preserveChildren ==> TextSplit(TextContent(nodes)) && fresh(Spans(elements)))
        && (ok && preserveChildren ==> ChildrenSplit(nodes))
      ensures ok ==> root.childNodes == [Element(wrapper)] && wrapper.className == classPrefix + "wrapper"
    {
      Reset(optText);
      if preserveChildren {
        ok := ResplitChildren();
      } else {
        ResplitText();
        ok := true;
      }
    }

    /** `splitChildren` on emptied arrays. */
    method ResplitChildren() returns (ok: bool)
      requires DistinctElements(root.childNodes)
      requires words == [] && elements == [] && content == []
      modifies this, root, ElementSet(root.childNodes)
      ensures ok <==> Element(wrapper) !in old(root.childNodes)
      ensures ok ==> ChildrenSplit(old(root.childNodes)) && root.childNodes == [Element(wrapper)]
      ensures ok ==> wrapper.className == old(wrapper.className)
      ensures text == old(text)
    {
      ghost var nodes := root.childNodes;
      ok := SplitChildren();
      ghost var moved := ChildPieces(ElementChildren(nodes));
      assert [] + moved == moved && [] + ElementChildren(nodes) == ElementChildren(nodes);
    }

    /** `splitText` on emptied arrays. */
    method ResplitText()
      requires TextOnly(root.childNodes)
      requires words == [] && elements == [] && content == []
      modifies this, root
      ensures TextSplit(old(TextContent(root.childNodes))) && fresh(Spans(elements))
      ensures root.childNodes == [Element(wrapper)]
      ensures text == old(text) && wrapper.className == old(wrapper.className)
    {
      ghost var nodes := root.childNodes;
      SplitText();
      ghost var ps := Scan(TextContent(nodes)).pieces;
      assert [] + ps == ps && [] + Words(ps) == Words(ps) && elements[0..] == elements;
    }

    /**
     * `split(optText)` of lib/shine.splitter.js with its branch test as written:
     * whether the content is text-only is decided before a new text replaces
     * it (third finding). The children are still moved by the corrected
     * snapshot walk of SplitChildren (second finding), not by the live walk.
     */
    method SplitAsWritten(optText: string) returns (ok: bool)
      requires DistinctElements(root.childNodes)
      modifies this, wrapper, root, ElementSet(root.childNodes)
      ensures text == if optText != "" then optText else old(text)
      ensures var nodes := if optText != "" then TextChildren(optText) else old(root.childNodes);
        && (ok <==> TextOnly(old(root.childNodes)) || Element(wrapper) !in nodes)
        && (ok && TextOnly(old(root.childNodes)) ==> TextSplit(TextContent(nodes)) && fresh(Spans(elements)))
        && (ok && !TextOnly(old(root.childNodes)) ==> ChildrenSplit(nodes))
      ensures ok ==> root.childNodes == [Element(wrapper)] && wrapper.className == classPrefix + "wrapper"
    {
      var hasTextOnly := HasTextOnly(root);
      ok := SplitPreserving(optText, !hasTextOnly);
    }

    /**
     * `split(optText)` of lib/shine.splitter.js, deciding text-only on the
     * content as it is after a new text replaced it: a new text is always split
     * into letters.
     */
    method Split(optText: string) returns (ok: bool)
      requires DistinctElements(root.childNodes)
      modifies this, wrapper, root, ElementSet(root.childNodes)
      ensures text == if optText != "" then optText else old(text)
      ensures var nodes := if optText != "" then TextChildren(optText) else old(root.childNodes);
        && (ok <==> TextOnly(nodes) || Element(wrapper) !in nodes)
        && (ok && TextOnly(nodes) ==> TextSplit(TextContent(nodes)) && fresh(Spans(elements)))
        && (ok && !TextOnly(nodes) ==> ChildrenSplit(nodes))
      ensures ok ==> root.childNodes == [Element(wrapper)] && wrapper.className == classPrefix + "wrapper"
    {
      var hasTextOnly := HasTextOnly(root);
      ok := SplitPreserving(optText, optText == "" && !hasTextOnly);
    }
  }

  /**
   * Splitting a text-only element, then splitting it again with a new text,
   * as lib/shine.splitter.js is written: the second split finds the wrapper
   * as the only child, so it takes the content for not text-only, replaces it
   * with the text and then looks for element children in it. No letter is
   * made and the new text is gone.
   */
  method ResplitAsWritten(root: DomElement, t: string) returns (letters: nat, ok: bool)
    requires TextOnly(root.childNodes) && t != ""
    modifies root
    ensures ok && letters == 0
  {
    var splitter := new Splitter(root, "shine-");
    ok := splitter.SplitAsWritten("");
    assert root.childNodes == [Element(splitter.wrapper)];
    assert !root.childNodes[0].TextNode?;
    var nodes := TextChildren(t);
    assert nodes == [TextNode(t)] && Element(splitter.wrapper) !in nodes;
    assert ElementChildren(nodes) == [] by {
      assert nodes[..0] == [];
    }
    ok := splitter.SplitAsWritten(t);
    assert splitter.ChildrenSplit(nodes);
    letters := |splitter.elements|;
  }

  /** The same two splits with the test made after the new text is in place: one letter per non-white-space character. */
  method ResplitCorrected(root: DomElement, t: string) returns (letters: nat, ok: bool)
    requires TextOnly(root.childNodes) && t != ""
    modifies root
    ensures ok && letters == |NonSpace(t)|
  {
    var splitter := new Splitter(root, "shine-");
    ok := splitter.Split("");
    ok := splitter.Split(t);
    letters := |splitter.elements|;
  }
}
