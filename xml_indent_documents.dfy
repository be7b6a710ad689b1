/**
 * Documents laid out the way the indentation check asks for, built from an
 * element tree, and the theorem that checking any of them reports nothing.
 */
module XmlIndentDocuments {
  import opened Wrappers
  import opened XmlIndent
  import opened XmlIndentProofs

  /**
   * An element tree. A leaf keeps its text on the line of its tags
   * (`<name>text</name>`); an element puts each child on a line of its own,
   * one indent deeper, and its end tag on a line of its own at its own indent.
   */
  datatype Node =
    | Leaf(name: string, text: string)
    | Element(name: string, children: seq<Node>)

  /** Leaf text stays on its line and is not whitespace alone. */
  predicate TextFits(text: string) {
    && (forall j :: 0 <= j < |text| ==> !IsLineBreak(text[j]))
    && (text == [] || exists j :: 0 <= j < |text| && !IsBlank(text[j]))
  }

  /** Every leaf of the tree has text that fits. */
  predicate Fits(n: Node) {
    match n
    case Leaf(_, text) => TextFits(text)
    case Element(_, children) => forall i :: 0 <= i < |children| ==> Fits(children[i])
  }

  /** The indent of `depth` levels, `depth * indentSize` blanks, counted level by level. */
  function Level(depth: nat, indentSize: nat): nat {
    if depth == 0 then 0 else Level(depth - 1, indentSize) + indentSize
  }

  function Blanks(k: nat): string {
    seq(k, _ => ' ')
  }

  /** The whitespace that ends one line and indents the next by `depth` levels. */
  function Margin(depth: nat, indentSize: nat): string {
    "\n" + Blanks(Level(depth, indentSize))
  }

  /** The number of lines the rendered node takes. */
  function Height(n: Node): nat
    decreases n, 1
  {
    match n
    case Leaf(_, _) => 1
    case Element(_, children) => 1 + ChildrenHeight(n, |children|) + 1
  }

  /** The lines taken by the first `k` children of `n`. */
  function ChildrenHeight(n: Node, k: nat): nat
    requires n.Element? && k <= |n.children|
    decreases n, 0, k
  {
    if k == 0 then 0 else ChildrenHeight(n, k - 1) + Height(n.children[k - 1])
  }

  /**
   * The callbacks of a start tag at `depth` on `line`: the margin before it
   * (the root has none and opens the document), then the tag itself, the
   * locator standing just behind its `>`.
   */
  function Open(name: string, depth: nat, indentSize: nat, line: int): seq<Event> {
    var column := Level(depth, indentSize) + |name| + 3;
    if depth == 0 then [StartElement(name, line, column)]
    else [Characters(Margin(depth, indentSize), line), StartElement(name, line, column)]
  }

  /** A leaf's text, if any, and its end tag, on the line of its start tag `indent` blanks in. */
  function LeafClose(name: string, text: string, indent: nat, line: int): seq<Event> {
    (if text == [] then [] else [Characters(text, line)])
      + [EndElement(name, line, indent + 2 * |name| + |text| + 6)]
  }

  /** An element's end tag on `line` of its own, behind a margin of `depth` levels. */
  function ElementClose(name: string, depth: nat, indentSize: nat, line: int): seq<Event> {
    [Characters(Margin(depth, indentSize), line), EndElement(name, line, Level(depth, indentSize) + |name| + 4)]
  }

  /** The callbacks a parser makes for `n` rendered at `depth`, its start tag on `line`. */
  function Render(n: Node, depth: nat, indentSize: nat, line: int): seq<Event>
    decreases n, 1
  {
    match n
    case Leaf(name, text) =>
      Open(name, depth, indentSize, line) + LeafClose(name, text, Level(depth, indentSize), line)
    case Element(name, children) =>
      Open(name, depth, indentSize, line)
        + (RenderChildren(n, |children|, depth + 1, indentSize, line + 1)
           + ElementClose(name, depth, indentSize, line + Height(n) - 1))
  }

  /** The first `k` children of `n`, one after the other, the first on `line`. */
  function RenderChildren(n: Node, k: nat, depth: nat, indentSize: nat, line: int): seq<Event>
    requires n.Element? && k <= |n.children|
    decreases n, 0, k
  {
    if k == 0 then []
    else
      RenderChildren(n, k - 1, depth, indentSize, line)
        + Render(n.children[k - 1], depth, indentSize, line + ChildrenHeight(n, k - 1))
  }

  /** A whole document: the root at the margin, on the first line. */
  function Document(root: Node, indentSize: nat): seq<Event> {
    Render(root, 0, indentSize, 1)
  }

  // ---------------------------------------------------------------------
  // Replaying a document piece by piece

  /** Replaying two pieces is replaying the second from where the first left off. */
  lemma {:induction false} ReplayThen(s: HandlerState, a: seq<Event>, b: seq<Event>, indentSize: int, t: HandlerState)
    requires Replay(s, a, indentSize) == Success(t)
    ensures Replay(s, a + b, indentSize) == Replay(t, b, indentSize)
    decreases |a|
  {
    if |a| == 0 {
      assert a + b == b;
    } else {
      assert (a + b)[0] == a[0];
      assert (a + b)[1..] == a[1..] + b;
      var next := Step(s, a[0], indentSize).value;
      ReplayThen(next, a[1..], b, indentSize, t);
    }
  }

  /** Every open element was found where it was expected, `i` indents in. */
  ghost predicate Nested(stack: seq<ElementEntry>, indentSize: nat) {
    forall i :: 0 <= i < |stack| ==>
      stack[i].expectedIndent == stack[i].foundIndent && stack[i].foundIndent.size == Level(i, indentSize)
  }

  /** A handler about to meet a start tag at `depth`. */
  ghost predicate Ready(s: HandlerState, depth: nat, indentSize: nat) {
    && |s.stack| == depth
    && Nested(s.stack, indentSize)
    && s.charBuffer == []
    && (depth == 0 ==> s.lastIndent.size == 0)
  }

  lemma NestedPush(stack: seq<ElementEntry>, e: ElementEntry, indentSize: nat)
    requires Nested(stack, indentSize)
    requires e.expectedIndent == e.foundIndent && e.foundIndent.size == Level(|stack|, indentSize)
    ensures Nested(stack + [e], indentSize)
  {
    forall i | 0 <= i < |stack| + 1
      ensures (stack + [e])[i].expectedIndent == (stack + [e])[i].foundIndent
      ensures (stack + [e])[i].foundIndent.size == Level(i, indentSize)
    {
      if i < |stack| {
        assert (stack + [e])[i] == stack[i];
      }
    }
  }

  /** A margin of `depth` levels sets the indent to `depth` levels on its line. */
  lemma MarginIndent(s: HandlerState, depth: nat, indentSize: nat, line: int)
    ensures Flush(Chars(s, Margin(depth, indentSize), line))
         == s.(charBuffer := [], charLineNumber := line, lastIndent := Indent(line, Level(depth, indentSize)))
  {
    var m := Margin(depth, indentSize);
    forall j | 1 <= j < |m| ensures IsBlank(m[j]) {
      assert m[j] == Blanks(Level(depth, indentSize))[j - 1];
    }
    NewLineIndent(s, m, Level(depth, indentSize), line);
  }

  /** A single callback replays as its step. */
  lemma ReplayOne(s: HandlerState, tag: Event, indentSize: int)
    ensures Replay(s, [tag], indentSize) == Step(s, tag, indentSize)
  {
    assert [tag][1..] == [];
  }

  /** Some text and then a tag replay as the tag's step after the text is buffered. */
  lemma ReplayPair(s: HandlerState, text: string, line: int, tag: Event, indentSize: int)
    ensures Replay(s, [Characters(text, line), tag], indentSize) == Step(Chars(s, text, line), tag, indentSize)
  {
    var events := [Characters(text, line), tag];
    assert events[1..] == [tag];
    ReplayOne(Chars(s, text, line), tag, indentSize);
  }

  /** The root's start tag opens the stack at the margin the document starts at. */
  lemma OpenRoot(name: string, indentSize: nat, line: int, s: HandlerState)
    requires Ready(s, 0, indentSize)
    ensures Replay(s, Open(name, 0, indentSize, line), indentSize)
         == Success(s.(stack := [NewEntry(name, s.lastIndent)]))
  {
    var e := StartElement(name, line, |name| + 3);
    assert Open(name, 0, indentSize, line) == [e];
    ReplayOne(s, e, indentSize);
    assert Start(s, name, line, |name| + 3, indentSize) == s.(stack := [NewEntry(name, s.lastIndent)]) by {
      FlushOnlyBlanks(s);
    }
  }

  /** A child's margin and start tag: one indent deeper than its parent, so it is accepted and pushed. */
  lemma OpenChild(name: string, depth: nat, indentSize: nat, line: int, s: HandlerState)
    requires depth > 0 && Ready(s, depth, indentSize)
    ensures var found := Indent(line, Level(depth, indentSize));
      Replay(s, Open(name, depth, indentSize, line), indentSize)
        == Success(s.(charLineNumber := line, lastIndent := found, stack := s.stack + [NewEntry(name, found)]))
  {
    var column := Level(depth, indentSize) + |name| + 3;
    var found := Indent(line, Level(depth, indentSize));
    var m := Margin(depth, indentSize);
    var e := StartElement(name, line, column);
    assert Open(name, depth, indentSize, line) == [Characters(m, line), e];
    ReplayPair(s, m, line, e, indentSize);
    var c := Chars(s, m, line);
    assert Start(c, name, line, column, indentSize)
        == s.(charLineNumber := line, lastIndent := found, stack := s.stack + [NewEntry(name, found)]) by {
      MarginIndent(s, depth, indentSize, line);
      var parent := Top(s.stack);
      assert parent == s.stack[depth - 1];
      assert parent.expectedIndent.size + indentSize == Level(depth, indentSize);
      assert StartAccepted(found, parent, indentSize);
    }
  }

  /** Replaying `events` from `s` opens `name` at `depth` indents, reporting nothing. */
  ghost predicate Opens(s: HandlerState, events: seq<Event>, name: string, depth: nat, indentSize: nat) {
    var r := Replay(s, events, indentSize);
    && r.Success?
    && r.value.charBuffer == []
    && r.value.log == s.log
    && r.value.lastIndent.size == Level(depth, indentSize)
    && r.value.stack == s.stack + [NewEntry(name, r.value.lastIndent)]
  }

  /** Replaying `events` from `t` closes the innermost open element, reporting nothing. */
  ghost predicate Closes(t: HandlerState, events: seq<Event>, indentSize: int) {
    var r := Replay(t, events, indentSize);
    && |t.stack| > 0
    && r.Success?
    && r.value.stack == t.stack[..|t.stack| - 1]
    && r.value.log == t.log
    && r.value.charBuffer == []
  }

  /** Replaying `events` from `s` reports nothing and ends with the same open elements and an empty buffer. */
  ghost predicate Returns(s: HandlerState, events: seq<Event>, indentSize: int) {
    var r := Replay(s, events, indentSize);
    r.Success? && r.value.stack == s.stack && r.value.log == s.log && r.value.charBuffer == []
  }

  /** A start tag at `depth` is accepted and pushed, found at `depth` indents. */
  lemma OpenAccepted(name: string, depth: nat, indentSize: nat, line: int, s: HandlerState)
    requires Ready(s, depth, indentSize)
    ensures Opens(s, Open(name, depth, indentSize, line), name, depth, indentSize)
  {
    if depth == 0 {
      OpenRoot(name, indentSize, line, s);
    } else {
      OpenChild(name, depth, indentSize, line, s);
    }
  }

  /** Buffered leaf text only empties the buffer: the indent stays where it was. */
  lemma FlushText(s: HandlerState)
    requires s.charBuffer != [] && TextFits(s.charBuffer)
    ensures Flush(s) == s.(charBuffer := [])
  {
    var buf := s.charBuffer;
    var n := TrailingBlanks(buf);
    var j :| 0 <= j < |buf| && !IsBlank(buf[j]);
    assert j < |buf| - n;
    FlushAtText(s, |buf| - 1 - n);
  }

  /** A leaf's end tag straight behind its start tag is on the same line, so it is accepted. */
  lemma EmptyLeafCloseAccepted(name: string, indent: nat, line: int, indentSize: int, t: HandlerState)
    requires |t.stack| > 0 && Top(t.stack).foundIndent == t.lastIndent && t.charBuffer == []
    ensures Closes(t, LeafClose(name, [], indent, line), indentSize)
  {
    var column := indent + 2 * |name| + 6;
    var e := EndElement(name, line, column);
    assert LeafClose(name, [], indent, line) == [e];
    ReplayOne(t, e, indentSize);
    assert End(t, name, line, column) == Success(t.(stack := t.stack[..|t.stack| - 1])) by {
      FlushOnlyBlanks(t);
    }
  }

  /** Text ending in something other than a blank only empties the buffer, so the end tag is still on its start tag's line. */
  lemma TextLeafCloseAccepted(name: string, text: string, indent: nat, line: int, indentSize: int, t: HandlerState)
    requires |t.stack| > 0 && Top(t.stack).foundIndent == t.lastIndent && t.charBuffer == []
    requires text != [] && TextFits(text)
    ensures Closes(t, LeafClose(name, text, indent, line), indentSize)
  {
    var column := indent + 2 * |name| + |text| + 6;
    var e := EndElement(name, line, column);
    assert LeafClose(name, text, indent, line) == [Characters(text, line), e];
    ReplayPair(t, text, line, e, indentSize);
    var c := Chars(t, text, line);
    assert End(c, name, line, column) == Success(t.(charLineNumber := line, stack := t.stack[..|t.stack| - 1])) by {
      assert c.charBuffer == text;
      FlushText(c);
    }
  }

  /** An element's closing margin and end tag: back at its own indent, so the end tag is accepted. */
  lemma ElementCloseAccepted(name: string, depth: nat, indentSize: nat, line: int, t: HandlerState)
    requires |t.stack| == depth + 1 && Nested(t.stack, indentSize) && t.charBuffer == []
    ensures Closes(t, ElementClose(name, depth, indentSize, line), indentSize)
  {
    var column := Level(depth, indentSize) + |name| + 4;
    var m := Margin(depth, indentSize);
    var e := EndElement(name, line, column);
    ReplayPair(t, m, line, e, indentSize);
    var c := Chars(t, m, line);
    var found := Indent(line, Level(depth, indentSize));
    assert End(c, name, line, column)
        == Success(t.(charLineNumber := line, lastIndent := found, stack := t.stack[..depth])) by {
      MarginIndent(t, depth, indentSize, line);
      assert Top(t.stack) == t.stack[depth];
    }
  }

  // ---------------------------------------------------------------------
  // The theorem

  lemma ReturnsThen(s: HandlerState, a: seq<Event>, b: seq<Event>, indentSize: int)
    requires Returns(s, a, indentSize) && Returns(Replay(s, a, indentSize).value, b, indentSize)
    ensures Returns(s, a + b, indentSize)
  {
    ReplayThen(s, a, b, indentSize, Replay(s, a, indentSize).value);
  }

  lemma ReturnsEq(s: HandlerState, a: seq<Event>, b: seq<Event>, indentSize: int)
    requires a == b && Returns(s, a, indentSize)
    ensures Returns(s, b, indentSize)
  {
  }

  /** Past a child, the handler is ready for its next sibling. */
  lemma ReturnsReady(s: HandlerState, events: seq<Event>, depth: nat, indentSize: nat)
    requires depth > 0 && Ready(s, depth, indentSize) && Returns(s, events, indentSize)
    ensures Ready(Replay(s, events, indentSize).value, depth, indentSize)
  {
  }

  /** Once an element is open, the handler is ready for its first child. */
  lemma OpensReady(s: HandlerState, events: seq<Event>, name: string, depth: nat, indentSize: nat)
    requires Ready(s, depth, indentSize) && Opens(s, events, name, depth, indentSize)
    ensures Ready(Replay(s, events, indentSize).value, depth + 1, indentSize)
  {
    var t := Replay(s, events, indentSize).value;
    NestedPush(s.stack, NewEntry(name, t.lastIndent), indentSize);
  }

  /** An opening piece followed by a piece that closes what it opened. */
  lemma OpenThenClose(s: HandlerState, o: seq<Event>, rest: seq<Event>, name: string, depth: nat, indentSize: nat)
    requires Opens(s, o, name, depth, indentSize) && Closes(Replay(s, o, indentSize).value, rest, indentSize)
    ensures Returns(s, o + rest, indentSize)
  {
    var t := Replay(s, o, indentSize).value;
    assert t.stack[..|t.stack| - 1] == s.stack;
    ReplayThen(s, o, rest, indentSize, t);
  }

  /** Whatever returns to an open element at `depth`, its end tag then closes it. */
  lemma CloseAfter(t: HandlerState, kids: seq<Event>, name: string, depth: nat, indentSize: nat, line: int)
    requires Ready(t, depth + 1, indentSize) && Returns(t, kids, indentSize)
    ensures Closes(t, kids + ElementClose(name, depth, indentSize, line), indentSize)
  {
    var t2 := Replay(t, kids, indentSize).value;
    ElementCloseAccepted(name, depth, indentSize, line, t2);
    ReplayThen(t, kids, ElementClose(name, depth, indentSize, line), indentSize, t2);
  }

  lemma RenderElement(n: Node, depth: nat, indentSize: nat, line: int)
    requires n.Element?
    ensures Render(n, depth, indentSize, line)
         == Open(n.name, depth, indentSize, line)
            + (RenderChildren(n, |n.children|, depth + 1, indentSize, line + 1)
               + ElementClose(n.name, depth, indentSize, line + Height(n) - 1))
  {
  }

  lemma RenderChildrenNext(n: Node, k: nat, depth: nat, indentSize: nat, line: int)
    requires n.Element? && 0 < k <= |n.children|
    ensures RenderChildren(n, k, depth, indentSize, line)
         == RenderChildren(n, k - 1, depth, indentSize, line)
            + Render(n.children[k - 1], depth, indentSize, line + ChildrenHeight(n, k - 1))
  {
  }

  /** A rendered node is checked without a report and leaves the handler as it found it, less its buffer. */
  lemma {:induction false} RenderAccepted(n: Node, depth: nat, indentSize: nat, line: int, s: HandlerState)
    requires Fits(n) && Ready(s, depth, indentSize)
    ensures Returns(s, Render(n, depth, indentSize, line), indentSize)
    decreases n, 2, 0
  {
    if n.Leaf? {
      LeafAccepted(n, depth, indentSize, line, s);
    } else {
      ElementAccepted(n, depth, indentSize, line, s);
    }
  }

  lemma LeafAccepted(n: Node, depth: nat, indentSize: nat, line: int, s: HandlerState)
    requires n.Leaf? && Fits(n) && Ready(s, depth, indentSize)
    ensures Returns(s, Render(n, depth, indentSize, line), indentSize)
  {
    var o := Open(n.name, depth, indentSize, line);
    var close := LeafClose(n.name, n.text, Level(depth, indentSize), line);
    OpenAccepted(n.name, depth, indentSize, line, s);
    var t := Replay(s, o, indentSize).value;
    assert Closes(t, close, indentSize) by {
      assert Top(t.stack).foundIndent == t.lastIndent;
      assert TextFits(n.text);
      if n.text == [] {
        EmptyLeafCloseAccepted(n.name, Level(depth, indentSize), line, indentSize, t);
      } else {
        TextLeafCloseAccepted(n.name, n.text, Level(depth, indentSize), line, indentSize, t);
      }
    }
    OpenThenClose(s, o, close, n.name, depth, indentSize);
    ReturnsEq(s, o + close, Render(n, depth, indentSize, line), indentSize);
  }

  lemma {:induction false} ElementAccepted(n: Node, depth: nat, indentSize: nat, line: int, s: HandlerState)
    requires n.Element? && Fits(n) && Ready(s, depth, indentSize)
    ensures Returns(s, Render(n, depth, indentSize, line), indentSize)
    decreases n, 1, 0
  {
    var o := Open(n.name, depth, indentSize, line);
    OpenAccepted(n.name, depth, indentSize, line, s);
    OpensReady(s, o, n.name, depth, indentSize);
    ElementBody(n, depth, indentSize, line, Replay(s, o, indentSize).value);
    var rest := RenderChildren(n, |n.children|, depth + 1, indentSize, line + 1)
      + ElementClose(n.name, depth, indentSize, line + Height(n) - 1);
    OpenThenClose(s, o, rest, n.name, depth, indentSize);
    RenderElement(n, depth, indentSize, line);
    ReturnsEq(s, o + rest, Render(n, depth, indentSize, line), indentSize);
  }

  /** Inside an open element: its children, then its end tag, which closes it. */
  lemma {:induction false} ElementBody(n: Node, depth: nat, indentSize: nat, line: int, t: HandlerState)
    requires n.Element? && Fits(n) && Ready(t, depth + 1, indentSize)
    ensures Closes(t, RenderChildren(n, |n.children|, depth + 1, indentSize, line + 1)
                      + ElementClose(n.name, depth, indentSize, line + Height(n) - 1), indentSize)
    decreases n, 0, |n.children| + 1
  {
    ChildrenAccepted(n, |n.children|, depth + 1, indentSize, line + 1, t);
    CloseAfter(t, RenderChildren(n, |n.children|, depth + 1, indentSize, line + 1), n.name, depth, indentSize, line + Height(n) - 1);
  }

  /** The first `k` children, each accepted in turn at the same depth. */
  lemma {:induction false} ChildrenAccepted(n: Node, k: nat, depth: nat, indentSize: nat, line: int, s: HandlerState)
    requires n.Element? && k <= |n.children| && Fits(n)
    requires depth > 0 && Ready(s, depth, indentSize)
    ensures Returns(s, RenderChildren(n, k, depth, indentSize, line), indentSize)
    decreases n, 0, k
  {
    if k > 0 {
      var before := RenderChildren(n, k - 1, depth, indentSize, line);
      ChildrenAccepted(n, k - 1, depth, indentSize, line, s);
      NextChildAccepted(n, k, depth, indentSize, line, s);
      var child := Render(n.children[k - 1], depth, indentSize, line + ChildrenHeight(n, k - 1));
      ReturnsThen(s, before, child, indentSize);
      RenderChildrenNext(n, k, depth, indentSize, line);
      ReturnsEq(s, before + child, RenderChildren(n, k, depth, indentSize, line), indentSize);
    }
  }

  /** The `k`-th child, after the ones before it. */
  lemma {:induction false} NextChildAccepted(n: Node, k: nat, depth: nat, indentSize: nat, line: int, s: HandlerState)
    requires n.Element? && 0 < k <= |n.children| && Fits(n)
    requires depth > 0 && Ready(s, depth, indentSize)
    requires Returns(s, RenderChildren(n, k - 1, depth, indentSize, line), indentSize)
    ensures Returns(Replay(s, RenderChildren(n, k - 1, depth, indentSize, line), indentSize).value,
                    Render(n.children[k - 1], depth, indentSize, line + ChildrenHeight(n, k - 1)), indentSize)
    decreases n, 0, k - 1, 1
  {
    var before := RenderChildren(n, k - 1, depth, indentSize, line);
    ReturnsReady(s, before, depth, indentSize);
    RenderAccepted(n.children[k - 1], depth, indentSize, line + ChildrenHeight(n, k - 1), Replay(s, before, indentSize).value);
  }

  /**
   * The check's promise to a correctly indented document: whatever the tree,
   * when each tag sits on its own line `depth * indentSize` blanks in (leaves
   * on one line with their text), checking it reports nothing.
   */
  lemma IndentedDocumentReportsNothing(root: Node, indentSize: nat)
    requires Fits(root)
    ensures Check(Document(root, indentSize), indentSize) == Success([])
  {
    RenderAccepted(root, 0, indentSize, 1, Initial);
  }
}
