/**
 * The indentation check for XML files (XmlIndentCheck and its SAX handler
 * IndentHandler). The parser's callbacks arrive as a sequence of Event values;
 * the handler keeps a character buffer, the last measured indent and a stack
 * of open elements, each with the indent found before its start tag and the
 * indent it should have had. Violations go to a log, in the order found.
 */
module XmlIndent {
  import opened Wrappers
  import opened Strings

  /** The indent size used when none is configured. */
  const DEFAULT_INDENT_SIZE: int := 4

  /** `size` blanks that end on line `lineNumber` (the first line is 1). */
  datatype Indent = Indent(lineNumber: int, size: int)

  /** The indent in force at the beginning of a file. */
  const START: Indent := Indent(1, 0)

  /** An open element: the indent found before its start tag and the one it was expected to have. */
  datatype ElementEntry = ElementEntry(elementName: string, foundIndent: Indent, expectedIndent: Indent)

  /** The two-argument ElementEntry constructor: expected as found. */
  function NewEntry(elementName: string, foundIndent: Indent): ElementEntry {
    ElementEntry(elementName, foundIndent, foundIndent)
  }

  /** One logged finding: where the parser was, and the message. */
  datatype Violation = Violation(line: int, column: int, message: string)

  /** The parser callbacks, with the locator's position at the time of the call. */
  datatype Event =
    | Characters(text: string, line: int)            // characters and ignorableWhitespace
    | StartElement(qName: string, line: int, column: int)
    | EndElement(qName: string, line: int, column: int)

  /** The IllegalStateException thrown when an end tag meets an empty stack. */
  datatype Fatal = StackEmpty(qName: string, line: int, column: int)

  function FatalMessage(f: Fatal): string {
    "Stack must not be empty when closing the element " + f.qName
      + " around line " + IntToString(f.line) + " and column " + IntToString(f.column)
  }

  /** Everything the handler holds, as a value. `log` is what it reported. */
  datatype HandlerState = HandlerState(
    charBuffer: string,
    charLineNumber: int,
    lastIndent: Indent,
    stack: seq<ElementEntry>,
    log: seq<Violation>)

  /** A fresh handler: Java's field initialisers. */
  const Initial: HandlerState := HandlerState([], 0, START, [], [])

  predicate IsLineBreak(c: char) {
    c == '\n' || c == '\r'
  }

  predicate IsBlank(c: char) {
    c == ' ' || c == '\t'
  }

  /**
   * The number of spaces and tabs at the end of `buf`: all of them are blank,
   * and the character before them, if any, is not.
   */
  function TrailingBlanks(buf: string): (n: nat)
    ensures n <= |buf|
    ensures forall i :: |buf| - n <= i < |buf| ==> IsBlank(buf[i])
    ensures n < |buf| ==> !IsBlank(buf[|buf| - 1 - n])
    decreases |buf|
  {
    if |buf| == 0 || !IsBlank(buf[|buf| - 1]) then 0
    else 1 + TrailingBlanks(buf[..|buf| - 1])
  }

  /** The two facts TrailingBlanks promises determine it. */
  lemma TrailingBlanksUnique(buf: string, n: nat)
    requires n <= |buf|
    requires forall i :: |buf| - n <= i < |buf| ==> IsBlank(buf[i])
    requires n < |buf| ==> !IsBlank(buf[|buf| - 1 - n])
    ensures TrailingBlanks(buf) == n
  {
  }

  /**
   * flushCharacters: the buffer read from its end. A line break behind the
   * trailing blanks makes those blanks the new indent; any other character
   * only empties the buffer; when only blanks (or nothing) are buffered,
   * nothing changes at all.
   */
  function Flush(s: HandlerState): HandlerState {
    var n := TrailingBlanks(s.charBuffer);
    if n == |s.charBuffer| then s
    else if IsLineBreak(s.charBuffer[|s.charBuffer| - 1 - n]) then
      s.(charBuffer := [], lastIndent := Indent(s.charLineNumber, n))
    else
      s.(charBuffer := [])
  }

  /** characters: the text is buffered and its line remembered. */
  function Chars(s: HandlerState, text: string, line: int): HandlerState {
    s.(charBuffer := s.charBuffer + text, charLineNumber := line)
  }

  function StartMessage(expected: int, qName: string): string {
    "Expected indent " + FormatInt(expected) + " before start element " + "<" + qName + ">"
  }

  function EndMessage(expected: int, qName: string): string {
    "Expected indent " + FormatInt(expected) + " before end element " + "</" + qName + ">"
  }

  function Top(stack: seq<ElementEntry>): ElementEntry
    requires |stack| > 0
  {
    stack[|stack| - 1]
  }

  /**
   * Whether a start tag whose indent is `found` is acceptable under `parent`:
   * exactly one indent deeper than the parent's expected indent, or level with
   * it on the line where the parent was found.
   */
  predicate StartAccepted(found: Indent, parent: ElementEntry, indentSize: int) {
    var diff := found.size - parent.expectedIndent.size;
    (diff == 0 && found.lineNumber == parent.foundIndent.lineNumber) || diff == indentSize
  }

  /** startElement */
  function Start(s: HandlerState, qName: string, line: int, column: int, indentSize: int): HandlerState {
    var f := Flush(s);
    if |f.stack| == 0 then
      f.(stack := [NewEntry(qName, f.lastIndent)])
    else
      var parent := Top(f.stack);
      var expected := parent.expectedIndent.size + indentSize;
      if StartAccepted(f.lastIndent, parent, indentSize) then
        f.(stack := f.stack + [NewEntry(qName, f.lastIndent)])
      else
        f.(log := f.log + [Violation(line, column, StartMessage(expected, qName))],
           stack := f.stack + [ElementEntry(qName, f.lastIndent, Indent(f.lastIndent.lineNumber, expected))])
  }

  /** Whether an end tag after `last` is acceptable for `entry`: on its start tag's line, or at its expected indent. */
  predicate EndAccepted(last: Indent, entry: ElementEntry) {
    last.lineNumber == entry.foundIndent.lineNumber || last.size - entry.expectedIndent.size == 0
  }

  /** endElement */
  function End(s: HandlerState, qName: string, line: int, column: int): Result<HandlerState, Fatal> {
    var f := Flush(s);
    if |f.stack| == 0 then
      Failure(StackEmpty(qName, line, column))
    else
      var entry := Top(f.stack);
      var rest := f.stack[..|f.stack| - 1];
      if EndAccepted(f.lastIndent, entry) then
        Success(f.(stack := rest))
      else
        Success(f.(log := f.log + [Violation(line, column, EndMessage(entry.expectedIndent.size, qName))],
                   stack := rest))
  }

  /** One parser callback. */
  function Step(s: HandlerState, e: Event, indentSize: int): Result<HandlerState, Fatal> {
    match e
    case Characters(text, line) => Success(Chars(s, text, line))
    case StartElement(qName, line, column) => Success(Start(s, qName, line, column, indentSize))
    case EndElement(qName, line, column) => End(s, qName, line, column)
  }

  /** The callbacks of a document, in order; the first fatal one ends the pass. */
  function Replay(s: HandlerState, events: seq<Event>, indentSize: int): Result<HandlerState, Fatal>
    decreases |events|
  {
    if |events| == 0 then Success(s)
    else
      match Step(s, events[0], indentSize)
      case Failure(f) => Failure(f)
      case Success(t) => Replay(t, events[1..], indentSize)
  }

  /** What checking one document reports: its violations in order, or the fatal error. */
  function Check(events: seq<Event>, indentSize: int): Result<seq<Violation>, Fatal> {
    match Replay(Initial, events, indentSize)
    case Failure(f) => Failure(f)
    case Success(t) => Success(t.log)
  }

  /** The SAX handler; `indentSize` is the enclosing check's setting. */
  class IndentHandler {
    const indentSize: int
    var charBuffer: string
    var charLineNumber: int
    var lastIndent: Indent
    var stack: seq<ElementEntry>
    var log: seq<Violation>

    function State(): HandlerState
      reads this
    {
      HandlerState(charBuffer, charLineNumber, lastIndent, stack, log)
    }

    constructor (indentSize: int)
      ensures this.indentSize == indentSize
      ensures State() == Initial
    {
      this.indentSize := indentSize;
      charBuffer := [];
      charLineNumber := 0;
      lastIndent := START;
      stack := [];
      log := [];
    }

    method Characters(text: string, line: int)
      modifies this
      ensures State() == Chars(old(State()), text, line)
    {
      charBuffer := charBuffer + text;
      charLineNumber := line;
    }

    /** Sets lastIndent from the buffer, scanning it backwards. */
    method FlushCharacters()
      modifies this
      ensures State() == Flush(old(State()))
    {
      var indentLength := 0;
      var len := |charBuffer|;
      var i := len - 1;
      while i >= 0
        invariant -1 <= i < len
        invariant State() == old(State())
        invariant indentLength == len - 1 - i
        invariant forall k :: i < k < len ==> IsBlank(charBuffer[k])
        decreases i
      {
        var ch := charBuffer[i];
        if ch == '\n' || ch == '\r' {
          TrailingBlanksUnique(charBuffer, indentLength);
          lastIndent := Indent(charLineNumber, indentLength);
          charBuffer := [];
          return;
        } else if ch == ' ' || ch == '\t' {
          indentLength := indentLength + 1;
        } else {
          TrailingBlanksUnique(charBuffer, indentLength);
          charBuffer := [];
          return;
        }
        i := i - 1;
      }
      TrailingBlanksUnique(charBuffer, indentLength);
    }

    method StartElement(qName: string, line: int, column: int)
      modifies this
      ensures State() == Start(old(State()), qName, line, column, indentSize)
    {
      FlushCharacters();
      ghost var f := State();
      var currentEntry := NewEntry(qName, lastIndent);
      if |stack| > 0 {
        var parentEntry := stack[|stack| - 1];
        var indentDiff := currentEntry.foundIndent.size - parentEntry.expectedIndent.size;
        var expectedIndent := parentEntry.expectedIndent.size + indentSize;
        if indentDiff == 0 && currentEntry.foundIndent.lineNumber == parentEntry.foundIndent.lineNumber {
          // level with a parent on the same line: accepted
          assert StartAccepted(f.lastIndent, Top(f.stack), indentSize);
        } else if indentDiff != indentSize {
          assert !StartAccepted(f.lastIndent, Top(f.stack), indentSize);
          log := log + [Violation(line, column, StartMessage(expectedIndent, qName))];
          currentEntry := ElementEntry(qName, lastIndent, Indent(lastIndent.lineNumber, expectedIndent));
        } else {
          assert StartAccepted(f.lastIndent, Top(f.stack), indentSize);
        }
      }
      stack := stack + [currentEntry];
    }

    /** Returns the fatal error instead of throwing it. */
    method EndElement(qName: string, line: int, column: int) returns (fatal: Option<Fatal>)
      modifies this
      ensures match End(old(State()), qName, line, column)
              case Success(t) => fatal == None && State() == t
              case Failure(f) => fatal == Some(f)
    {
      FlushCharacters();
      if |stack| == 0 {
        return Some(StackEmpty(qName, line, column));
      }
      var startEntry := stack[|stack| - 1];
      stack := stack[..|stack| - 1];
      var indentDiff := lastIndent.size - startEntry.expectedIndent.size;
      var expectedIndent := startEntry.expectedIndent.size;
      if lastIndent.lineNumber != startEntry.foundIndent.lineNumber && indentDiff != 0 {
        log := log + [Violation(line, column, EndMessage(expectedIndent, qName))];
      }
      return None;
    }
  }

  /**
   * Runs a fresh handler over the callbacks of one document, as the parser
   * does, and returns what it logged, or the fatal error that stopped it.
   */
  method CheckDocument(events: seq<Event>, indentSize: int) returns (r: Result<seq<Violation>, Fatal>)
    ensures r == Check(events, indentSize)
  {
    var handler := new IndentHandler(indentSize);
    var i := 0;
    while i < |events|
      invariant 0 <= i <= |events|
      invariant handler.indentSize == indentSize
      invariant Replay(handler.State(), events[i..], indentSize) == Replay(Initial, events, indentSize)
    {
      assert events[i..][1..] == events[i + 1..];
      match events[i] {
        case Characters(text, line) =>
          handler.Characters(text, line);
        case StartElement(qName, line, column) =>
          handler.StartElement(qName, line, column);
        case EndElement(qName, line, column) =>
          var fatal := handler.EndElement(qName, line, column);
          if fatal.Some? {
            return Failure(fatal.value);
          }
      }
      i := i + 1;
    }
    return Success(handler.log);
  }
}
