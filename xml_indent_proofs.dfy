/**
 * What the indentation check guarantees, stated over the step functions of
 * module XmlIndent (which the IndentHandler methods are proved to follow).
 */
module XmlIndentProofs {
  import opened Wrappers
  import opened Strings
  import opened XmlIndent

  // ---------------------------------------------------------------------
  // flushCharacters

  /**
   * A line break followed only by blanks: the blanks become the indent, on the
   * line of the last characters call, and the buffer is emptied. Tabs count
   * one each, like spaces.
   */
  lemma FlushAtLineBreak(s: HandlerState, k: nat)
    requires k < |s.charBuffer| && IsLineBreak(s.charBuffer[k])
    requires forall j :: k < j < |s.charBuffer| ==> IsBlank(s.charBuffer[j])
    ensures Flush(s) == s.(charBuffer := [], lastIndent := Indent(s.charLineNumber, |s.charBuffer| - 1 - k))
  {
    TrailingBlanksUnique(s.charBuffer, |s.charBuffer| - 1 - k);
  }

  /** Text (anything but a blank or a line break) behind the blanks: only the buffer is emptied. */
  lemma FlushAtText(s: HandlerState, k: nat)
    requires k < |s.charBuffer|
    requires !IsLineBreak(s.charBuffer[k]) && !IsBlank(s.charBuffer[k])
    requires forall j :: k < j < |s.charBuffer| ==> IsBlank(s.charBuffer[j])
    ensures Flush(s) == s.(charBuffer := [])
  {
    TrailingBlanksUnique(s.charBuffer, |s.charBuffer| - 1 - k);
  }

  /** Nothing but blanks, or nothing at all: the scan runs off the start and nothing changes. */
  lemma FlushOnlyBlanks(s: HandlerState)
    requires forall j :: 0 <= j < |s.charBuffer| ==> IsBlank(s.charBuffer[j])
    ensures Flush(s) == s
  {
    TrailingBlanksUnique(s.charBuffer, |s.charBuffer|);
  }

  /** Flushing never touches the stack or the log, and a second flush changes nothing. */
  lemma FlushKeepsStackAndLog(s: HandlerState)
    ensures Flush(s).stack == s.stack && Flush(s).log == s.log
    ensures Flush(Flush(s)) == Flush(s)
  {
  }

  /** A fresh line with `k` blanks, delivered in one characters call, measures as indent `k` on that line. */
  lemma NewLineIndent(s: HandlerState, text: string, k: nat, line: int)
    requires |text| == k + 1 && IsLineBreak(text[0])
    requires forall j :: 1 <= j < |text| ==> IsBlank(text[j])
    ensures Flush(Chars(s, text, line)) == s.(charBuffer := [], charLineNumber := line, lastIndent := Indent(line, k))
  {
    var c := Chars(s, text, line);
    assert c.charBuffer[|s.charBuffer|] == text[0];
    forall j | |s.charBuffer| < j < |c.charBuffer| ensures IsBlank(c.charBuffer[j]) {
      assert c.charBuffer[j] == text[j - |s.charBuffer|];
    }
    FlushAtLineBreak(c, |s.charBuffer|);
  }

  // ---------------------------------------------------------------------
  // startElement

  /** A start tag pushes exactly one entry, for this element, found at the flushed indent. */
  lemma StartPushesOne(s: HandlerState, qName: string, line: int, column: int, indentSize: int)
    ensures var t := Start(s, qName, line, column, indentSize);
      && |t.stack| == |s.stack| + 1
      && t.stack[..|s.stack|] == s.stack
      && Top(t.stack).elementName == qName
      && Top(t.stack).foundIndent == Flush(s).lastIndent
      && t.lastIndent == Flush(s).lastIndent && t.charBuffer == Flush(s).charBuffer
  {
  }

  /** The root element is never reported and is expected where it was found. */
  lemma StartRoot(s: HandlerState, qName: string, line: int, column: int, indentSize: int)
    requires s.stack == []
    ensures var t := Start(s, qName, line, column, indentSize);
      t.log == s.log && t.stack == [ElementEntry(qName, Flush(s).lastIndent, Flush(s).lastIndent)]
  {
  }

  /**
   * A child element is reported exactly when its indent is neither the
   * parent's expected indent plus indentSize nor, on the parent's own line,
   * level with the parent's expected indent.
   */
  lemma StartChildReportedIff(s: HandlerState, qName: string, line: int, column: int, indentSize: int)
    requires s.stack != []
    ensures var t := Start(s, qName, line, column, indentSize);
      var found := Flush(s).lastIndent;
      var diff := found.size - Top(s.stack).expectedIndent.size;
      (t.log == s.log) <==> (diff == indentSize || (diff == 0 && found.lineNumber == Top(s.stack).foundIndent.lineNumber))
  {
  }

  /**
   * When a child is reported, the message names the expected indent, and the
   * entry pushed for it keeps the indent found but expects the corrected one,
   * so that its descendants are measured against where it should have been.
   */
  lemma StartChildCorrected(s: HandlerState, qName: string, line: int, column: int, indentSize: int)
    requires s.stack != []
    requires !StartAccepted(Flush(s).lastIndent, Top(s.stack), indentSize)
    ensures var t := Start(s, qName, line, column, indentSize);
      var found := Flush(s).lastIndent;
      var expected := Top(s.stack).expectedIndent.size + indentSize;
      && t.log == s.log + [Violation(line, column, StartMessage(expected, qName))]
      && Top(t.stack) == ElementEntry(qName, found, Indent(found.lineNumber, expected))
  {
  }

  /** An accepted child is expected where it was found. */
  lemma StartChildAccepted(s: HandlerState, qName: string, line: int, column: int, indentSize: int)
    requires s.stack != []
    requires StartAccepted(Flush(s).lastIndent, Top(s.stack), indentSize)
    ensures var t := Start(s, qName, line, column, indentSize);
      t.log == s.log && Top(t.stack) == NewEntry(qName, Flush(s).lastIndent)
  {
  }

  // ---------------------------------------------------------------------
  // endElement

  /** An end tag with nothing open is the fatal error, never a silent no-op. */
  lemma EndOnEmptyStackFails(s: HandlerState, qName: string, line: int, column: int)
    ensures End(s, qName, line, column).Failure? <==> s.stack == []
    ensures s.stack == [] ==> End(s, qName, line, column) == Failure(StackEmpty(qName, line, column))
  {
  }

  /**
   * Otherwise exactly the top entry is popped, and the end tag is reported
   * exactly when it is on another line than its start tag and not at the
   * start tag's expected indent.
   */
  lemma EndPopsOne(s: HandlerState, qName: string, line: int, column: int)
    requires s.stack != []
    ensures End(s, qName, line, column).Success?
    ensures var t := End(s, qName, line, column).value;
      var entry := Top(s.stack);
      var last := Flush(s).lastIndent;
      && t.stack == s.stack[..|s.stack| - 1]
      && (if last.lineNumber != entry.foundIndent.lineNumber && last.size != entry.expectedIndent.size
          then t.log == s.log + [Violation(line, column, EndMessage(entry.expectedIndent.size, qName))]
          else t.log == s.log)
  {
  }

  // ---------------------------------------------------------------------
  // Invariants over whole documents

  /**
   * Every entry is expected on the line where it was found, and at the indent
   * found, or, if it was reported, one indentSize deeper than its parent's
   * expected indent. The root is always expected where it was found.
   */
  ghost predicate ExpectationsConsistent(stack: seq<ElementEntry>, indentSize: int) {
    forall i :: 0 <= i < |stack| ==> EntryConsistent(stack, i, indentSize)
  }

  ghost predicate EntryConsistent(stack: seq<ElementEntry>, i: nat, indentSize: int)
    requires i < |stack|
  {
    && stack[i].expectedIndent.lineNumber == stack[i].foundIndent.lineNumber
    && (|| stack[i].expectedIndent.size == stack[i].foundIndent.size
        || (i > 0 && stack[i].expectedIndent.size == stack[i - 1].expectedIndent.size + indentSize))
  }

  /** Pushing an entry expected where found, or one indent size under the top, keeps the relation. */
  lemma PushKeepsExpectationsConsistent(stack: seq<ElementEntry>, top: ElementEntry, indentSize: int)
    requires ExpectationsConsistent(stack, indentSize)
    requires top.expectedIndent.lineNumber == top.foundIndent.lineNumber
    requires || top.expectedIndent.size == top.foundIndent.size
             || (stack != [] && top.expectedIndent.size == Top(stack).expectedIndent.size + indentSize)
    ensures ExpectationsConsistent(stack + [top], indentSize)
  {
    var t := stack + [top];
    forall i | 0 <= i < |t| ensures EntryConsistent(t, i, indentSize) {
      if i < |stack| {
        assert EntryConsistent(stack, i, indentSize);
      }
    }
  }

  /** A start tag keeps the relation: the pushed entry is expected where found, or where it was corrected to. */
  lemma StartKeepsExpectationsConsistent(s: HandlerState, qName: string, line: int, column: int, indentSize: int)
    requires ExpectationsConsistent(s.stack, indentSize)
    ensures ExpectationsConsistent(Start(s, qName, line, column, indentSize).stack, indentSize)
  {
    var t := Start(s, qName, line, column, indentSize);
    StartPushesOne(s, qName, line, column, indentSize);
    var top := Top(t.stack);
    assert t.stack == s.stack + [top];
    if s.stack == [] {
      StartRoot(s, qName, line, column, indentSize);
    } else if StartAccepted(Flush(s).lastIndent, Top(s.stack), indentSize) {
      StartChildAccepted(s, qName, line, column, indentSize);
    } else {
      StartChildCorrected(s, qName, line, column, indentSize);
    }
    PushKeepsExpectationsConsistent(s.stack, top, indentSize);
  }

  /** An end tag keeps the relation: what is left is a prefix of the stack. */
  lemma EndKeepsExpectationsConsistent(s: HandlerState, qName: string, line: int, column: int, indentSize: int)
    requires ExpectationsConsistent(s.stack, indentSize)
    requires s.stack != []
    ensures ExpectationsConsistent(End(s, qName, line, column).value.stack, indentSize)
  {
    EndPopsOne(s, qName, line, column);
    var t := End(s, qName, line, column).value;
    forall i | 0 <= i < |t.stack| ensures EntryConsistent(t.stack, i, indentSize) {
      assert EntryConsistent(s.stack, i, indentSize);
    }
  }

  /** Every callback keeps the found/expected relation of the stack. */
  lemma StepKeepsExpectationsConsistent(s: HandlerState, e: Event, indentSize: int)
    requires ExpectationsConsistent(s.stack, indentSize)
    ensures Step(s, e, indentSize).Success? ==> ExpectationsConsistent(Step(s, e, indentSize).value.stack, indentSize)
  {
    match e {
      case Characters(_, _) =>
      case StartElement(qName, line, column) =>
        StartKeepsExpectationsConsistent(s, qName, line, column, indentSize);
      case EndElement(qName, line, column) =>
        FlushKeepsStackAndLog(s);
        if s.stack != [] {
          EndKeepsExpectationsConsistent(s, qName, line, column, indentSize);
        } else {
          EndOnEmptyStackFails(s, qName, line, column);
        }
    }
  }

  /** Over a whole document the stack keeps the found/expected relation. */
  lemma {:induction false} ReplayKeepsExpectationsConsistent(s: HandlerState, events: seq<Event>, indentSize: int)
    requires ExpectationsConsistent(s.stack, indentSize)
    ensures Replay(s, events, indentSize).Success? ==> ExpectationsConsistent(Replay(s, events, indentSize).value.stack, indentSize)
    decreases |events|
  {
    if |events| > 0 {
      StepKeepsExpectationsConsistent(s, events[0], indentSize);
      if Step(s, events[0], indentSize).Success? {
        ReplayKeepsExpectationsConsistent(Step(s, events[0], indentSize).value, events[1..], indentSize);
      }
    }
  }

  /** Reported violations are never withdrawn or reordered: the log only grows at its end. */
  lemma {:induction false} ReplayExtendsLog(s: HandlerState, events: seq<Event>, indentSize: int)
    ensures Replay(s, events, indentSize).Success? ==> s.log <= Replay(s, events, indentSize).value.log
    decreases |events|
  {
    if |events| > 0 && Step(s, events[0], indentSize).Success? {
      var t := Step(s, events[0], indentSize).value;
      assert s.log <= t.log;
      ReplayExtendsLog(t, events[1..], indentSize);
    }
  }

  /** No character data of the document holds a line break. */
  predicate NoLineBreaks(events: seq<Event>) {
    forall i :: 0 <= i < |events| && events[i].Characters? ==>
      forall j :: 0 <= j < |events[i].text| ==> !IsLineBreak(events[i].text[j])
  }

  /** Nothing buffered holds a line break and every open element sits at the current indent. */
  ghost predicate OnOneLine(s: HandlerState) {
    && (forall j :: 0 <= j < |s.charBuffer| ==> !IsLineBreak(s.charBuffer[j]))
    && (forall i :: 0 <= i < |s.stack| ==> s.stack[i] == NewEntry(s.stack[i].elementName, s.lastIndent))
  }

  lemma FlushOnOneLine(s: HandlerState)
    requires OnOneLine(s)
    ensures OnOneLine(Flush(s)) && Flush(s).lastIndent == s.lastIndent
  {
  }

  /** Without line breaks, nothing is ever reported: every tag shares the line of its parent. */
  lemma {:induction false} OneLineReportsNothing(s: HandlerState, events: seq<Event>, indentSize: int)
    requires OnOneLine(s) && NoLineBreaks(events)
    ensures Replay(s, events, indentSize).Success? ==> Replay(s, events, indentSize).value.log == s.log
    decreases |events|
  {
    if |events| > 0 {
      FlushOnOneLine(s);
      var r := Step(s, events[0], indentSize);
      if r.Success? {
        var t := r.value;
        if events[0].Characters? {
          assert forall j :: 0 <= j < |events[0].text| ==> !IsLineBreak(events[0].text[j]);
        }
        assert OnOneLine(t) && t.log == s.log;
        assert NoLineBreaks(events[1..]) by {
          forall i | 0 <= i < |events[1..]| ensures events[1..][i] == events[i + 1] { }
        }
        OneLineReportsNothing(t, events[1..], indentSize);
      }
    }
  }

  /** A document written on one line, such as <a><b>text</b></a>, yields no violation for any indent size. */
  lemma OneLineDocument(events: seq<Event>, indentSize: int)
    requires NoLineBreaks(events)
    ensures Check(events, indentSize).Success? ==> Check(events, indentSize).value == []
  {
    OneLineReportsNothing(Initial, events, indentSize);
  }

  // ---------------------------------------------------------------------
  // Scenarios

  /**
   * The callbacks for a short document indented by 4 per level:
   *   line 3  <root>
   *   line 4      <parent-1>
   *   line 5          <text-1>text</text-1>
   *   line 6      </parent-1>
   *   line 7  </root>
   * The parser reports no whitespace outside the root element, so the root is
   * measured at START. Columns are those the locator gives after each tag.
   * The document is split where the replay proof below takes it apart.
   */
  function ShortDocument(): seq<Event> {
    [StartElement("root", 3, 7)] + ParentEvents()
  }

  function ParentEvents(): seq<Event> {
    [Characters("\n    ", 4), StartElement("parent-1", 4, 15)] + TextEvents()
  }

  function TextEvents(): seq<Event> {
    [Characters("\n        ", 5), StartElement("text-1", 5, 17)] + TextEndEvents()
  }

  function TextEndEvents(): seq<Event> {
    [Characters("text", 5), EndElement("text-1", 5, 30)] + ParentEndEvents()
  }

  function ParentEndEvents(): seq<Event> {
    [Characters("\n    ", 6), EndElement("parent-1", 6, 16)] + RootEndEvents()
  }

  function RootEndEvents(): seq<Event> {
    [Characters("\n", 7), EndElement("root", 7, 8)]
  }

  /** Two callbacks of a replay: some text, then a tag. */
  lemma ReplayTwo(s: HandlerState, text: string, line: int, tag: Event, rest: seq<Event>, indentSize: int)
    ensures var r := Step(Chars(s, text, line), tag, indentSize);
      Replay(s, [Characters(text, line), tag] + rest, indentSize)
        == if r.Success? then Replay(r.value, rest, indentSize) else Failure(r.error)
  {
    var events := [Characters(text, line), tag] + rest;
    assert events[1..][0] == tag && events[1..][1..] == rest;
  }

  /** The document's whitespace and text callbacks, as the flush before the next tag sees them. */
  lemma ShortDocumentFlushes(s: HandlerState)
    ensures Flush(Chars(s, "\n    ", 4)) == s.(charBuffer := [], charLineNumber := 4, lastIndent := Indent(4, 4))
    ensures Flush(Chars(s, "\n        ", 5)) == s.(charBuffer := [], charLineNumber := 5, lastIndent := Indent(5, 8))
    ensures Flush(Chars(s, "\n    ", 6)) == s.(charBuffer := [], charLineNumber := 6, lastIndent := Indent(6, 4))
    ensures Flush(Chars(s, "\n", 7)) == s.(charBuffer := [], charLineNumber := 7, lastIndent := Indent(7, 0))
    ensures s.charBuffer == [] ==> Flush(Chars(s, "text", 5)) == s.(charLineNumber := 5)
  {
    NewLineIndent(s, "\n    ", 4, 4);
    NewLineIndent(s, "\n        ", 8, 5);
    NewLineIndent(s, "\n    ", 4, 6);
    NewLineIndent(s, "\n", 0, 7);
    if s.charBuffer == [] {
      assert Chars(s, "text", 5).charBuffer == "text";
      FlushAtText(Chars(s, "text", 5), 3);
    }
  }

  /** The three reports of the short document when checked with an indent size `u` other than 4. */
  function Misfits(u: int): seq<Violation> {
    [ Violation(4, 15, StartMessage(u, "parent-1")),
      Violation(5, 17, StartMessage(2 * u, "text-1")),
      Violation(6, 16, EndMessage(u, "parent-1")) ]
  }

  /** What the short document reports up to a point, for indentSize `u`: `n` of its three reports. */
  function ShortDocumentLog(u: int, n: nat): seq<Violation>
    requires n <= 3
  {
    if u == 4 then [] else Misfits(u)[..n]
  }

  /** One more report. */
  lemma ShortDocumentLogNext(u: int, n: nat)
    requires u != 4 && n < 3
    ensures ShortDocumentLog(u, n + 1) == ShortDocumentLog(u, n) + [Misfits(u)[n]]
  {
    assert Misfits(u)[..n + 1] == Misfits(u)[..n] + [Misfits(u)[n]];
  }

  /** From the end of line 6: </root>, at the margin, is level with the root and accepted. */
  lemma FromRootEnd(u: int, s: HandlerState)
    requires s.stack == [NewEntry("root", START)] && s.charBuffer == []
    ensures Replay(s, RootEndEvents(), u).Success?
    ensures Replay(s, RootEndEvents(), u).value.log == s.log
  {
    var c := Chars(s, "\n", 7);
    var r := Step(c, EndElement("root", 7, 8), u);
    assert r.Success? && r.value.log == s.log by {
      ShortDocumentFlushes(s);
      EndPopsOne(c, "root", 7, 8);
    }
    ReplayTwo(s, "\n", 7, EndElement("root", 7, 8), [], u);
    assert RootEndEvents() == [Characters("\n", 7), EndElement("root", 7, 8)] + [];
  }

  /** From the end of line 5: </parent-1>, four blanks in on a later line, is reported unless 4 is the indent size. */
  lemma FromParentEnd(u: int, s: HandlerState)
    requires |s.stack| == 2 && s.stack[0] == NewEntry("root", START) && s.charBuffer == []
    requires Top(s.stack).foundIndent == Indent(4, 4) && Top(s.stack).expectedIndent.size == u
    requires s.log == ShortDocumentLog(u, 2)
    ensures Replay(s, ParentEndEvents(), u).Success?
    ensures Replay(s, ParentEndEvents(), u).value.log == ShortDocumentLog(u, 3)
  {
    var c := Chars(s, "\n    ", 6);
    var r := Step(c, EndElement("parent-1", 6, 16), u);
    assert r.Success? && r.value.stack == [NewEntry("root", START)] && r.value.charBuffer == []
      && r.value.log == ShortDocumentLog(u, 3)
    by {
      ShortDocumentFlushes(s);
      EndPopsOne(c, "parent-1", 6, 16);
      if u != 4 {
        ShortDocumentLogNext(u, 2);
      }
    }
    FromRootEnd(u, r.value);
    ReplayTwo(s, "\n    ", 6, EndElement("parent-1", 6, 16), RootEndEvents(), u);
  }

  /** From the end of <text-1>: the text and </text-1>, on its start tag's line, add nothing. */
  lemma FromTextEnd(u: int, s: HandlerState)
    requires |s.stack| == 3 && s.stack[0] == NewEntry("root", START) && s.charBuffer == []
    requires s.stack[1].foundIndent == Indent(4, 4) && s.stack[1].expectedIndent.size == u
    requires Top(s.stack).foundIndent == Indent(5, 8) && s.lastIndent == Indent(5, 8)
    requires s.log == ShortDocumentLog(u, 2)
    ensures Replay(s, TextEndEvents(), u).Success?
    ensures Replay(s, TextEndEvents(), u).value.log == ShortDocumentLog(u, 3)
  {
    var c := Chars(s, "text", 5);
    var r := Step(c, EndElement("text-1", 5, 30), u);
    assert r.Success? && r.value.stack == s.stack[..2] && r.value.charBuffer == [] && r.value.log == s.log by {
      ShortDocumentFlushes(s);
      EndPopsOne(c, "text-1", 5, 30);
    }
    var t := r.value;
    assert Top(t.stack) == s.stack[1];
    FromParentEnd(u, t);
    ReplayTwo(s, "text", 5, EndElement("text-1", 5, 30), ParentEndEvents(), u);
  }

  /** <text-1>, eight blanks in on line 5, is expected one indent size under parent-1's expected indent. */
  lemma TextStart(u: int, s: HandlerState)
    requires |s.stack| == 2 && s.charBuffer == []
    requires Top(s.stack).foundIndent == Indent(4, 4) && Top(s.stack).expectedIndent.size == u
    requires s.log == ShortDocumentLog(u, 1)
    ensures var r := Step(Chars(s, "\n        ", 5), StartElement("text-1", 5, 17), u);
      && r.Success? && |r.value.stack| == 3 && r.value.stack[..2] == s.stack
      && r.value.charBuffer == [] && r.value.lastIndent == Indent(5, 8)
      && Top(r.value.stack).foundIndent == Indent(5, 8)
      && r.value.log == ShortDocumentLog(u, 2)
  {
    var c := Chars(s, "\n        ", 5);
    ShortDocumentFlushes(s);
    StartPushesOne(c, "text-1", 5, 17, u);
    if u == 4 {
      StartChildAccepted(c, "text-1", 5, 17, u);
    } else {
      StartChildCorrected(c, "text-1", 5, 17, u);
      ShortDocumentLogNext(u, 1);
      assert u + u == 2 * u;
    }
  }

  /** From the end of line 4 on. */
  lemma FromText(u: int, s: HandlerState)
    requires |s.stack| == 2 && s.stack[0] == NewEntry("root", START) && s.charBuffer == []
    requires Top(s.stack).foundIndent == Indent(4, 4) && Top(s.stack).expectedIndent.size == u
    requires s.log == ShortDocumentLog(u, 1)
    ensures Replay(s, TextEvents(), u).Success?
    ensures Replay(s, TextEvents(), u).value.log == ShortDocumentLog(u, 3)
  {
    TextStart(u, s);
    var t := Step(Chars(s, "\n        ", 5), StartElement("text-1", 5, 17), u).value;
    assert t.stack[0] == t.stack[..2][0] && t.stack[1] == t.stack[..2][1];
    FromTextEnd(u, t);
    ReplayTwo(s, "\n        ", 5, StartElement("text-1", 5, 17), TextEndEvents(), u);
  }

  /** <parent-1>, four blanks in on line 4, is expected one indent size under the root. */
  lemma ParentStart(u: int, s: HandlerState)
    requires s.stack == [NewEntry("root", START)] && s.charBuffer == [] && s.log == []
    ensures var r := Step(Chars(s, "\n    ", 4), StartElement("parent-1", 4, 15), u);
      && r.Success? && |r.value.stack| == 2 && r.value.stack[0] == NewEntry("root", START)
      && r.value.charBuffer == [] && Top(r.value.stack).foundIndent == Indent(4, 4)
      && Top(r.value.stack).expectedIndent.size == u && r.value.log == ShortDocumentLog(u, 1)
  {
    var c := Chars(s, "\n    ", 4);
    ShortDocumentFlushes(s);
    StartPushesOne(c, "parent-1", 4, 15, u);
    assert Top(c.stack) == NewEntry("root", START);
    if u == 4 {
      StartChildAccepted(c, "parent-1", 4, 15, u);
    } else {
      StartChildCorrected(c, "parent-1", 4, 15, u);
      ShortDocumentLogNext(u, 0);
    }
  }

  /** From the end of line 3 on. */
  lemma FromParent(u: int, s: HandlerState)
    requires s.stack == [NewEntry("root", START)] && s.charBuffer == [] && s.log == []
    ensures Replay(s, ParentEvents(), u).Success?
    ensures Replay(s, ParentEvents(), u).value.log == ShortDocumentLog(u, 3)
  {
    ParentStart(u, s);
    FromText(u, Step(Chars(s, "\n    ", 4), StartElement("parent-1", 4, 15), u).value);
    ReplayTwo(s, "\n    ", 4, StartElement("parent-1", 4, 15), TextEvents(), u);
  }

  /**
   * Checked with the indent size it was written with, the short document is
   * clean; with any other size it gets exactly three reports: the first level
   * expected at one indent size, the second at two (measured from the
   * corrected first level, not from where it was found), and the first
   * level's end tag at one.
   */
  lemma ShortDocumentReports(indentSize: int)
    ensures Check(ShortDocument(), indentSize) == Success(if indentSize == 4 then [] else Misfits(indentSize))
  {
    var u := indentSize;
    var s1 := Initial.(stack := [NewEntry("root", START)]);
    assert Replay(Initial, ShortDocument(), u) == Replay(s1, ParentEvents(), u) by {
      var d := ShortDocument();
      assert d[0] == StartElement("root", 3, 7) && d[1..] == ParentEvents();
      assert Start(Initial, "root", 3, 7, u) == s1;
    }
    FromParent(u, s1);
    assert Misfits(u)[..3] == Misfits(u);
  }


  /** Checked with the indent size it was written with, the document is clean. */
  lemma ShortDocumentWithFour()
    ensures Check(ShortDocument(), DEFAULT_INDENT_SIZE) == Success([])
  {
    ShortDocumentReports(DEFAULT_INDENT_SIZE);
  }
}
