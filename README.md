# Hawkular build tools: XML indentation check and REST documentation writers

This project models, in Dafny, the parts of the Hawkular build tools that make
decisions, and proves what they promise.

**XML indentation check (`XmlIndentCheck`).** Its SAX handler reads a
document's callbacks: character chunks, start tags and end tags.
- It keeps a character buffer, the last measured indent (line, size) and a
  stack of open elements. Each element carries the indent found before its
  start tag and the indent it was expected to have.
- A start tag is acceptable when it is exactly one indent size deeper than its
  parent's expected indent, or level with it on the line where the parent was
  found. An end tag is acceptable on its start tag's line or at its expected
  indent.
- A misplaced start tag is reported, and its entry is then expected at the
  corrected indent. Its descendants are therefore measured from where it should
  have been.

Module `XmlIndent` states each callback as a function on a `HandlerState`. The
class `IndentHandler` has the handler's fields, and its methods are proved to
follow those functions. `CheckDocument` drives a handler over a whole document.
Module `XmlIndentProofs` proves the following:
- the rules for flushing, starting and ending elements;
- the stack invariant (every entry is expected where it was found or one
  indent size under its parent);
- that reports are only appended;
- that a one-line document is never reported;
- the three reports of the short test document for every indent size other
  than 4.

Module `XmlIndentDocuments` builds documents from an element tree (`Node`),
laid out one indent size per level: leaves on one line with their text,
elements with their tags on lines of their own. It proves by induction over the
tree that checking any such document reports nothing, for every indent size.

**REST documentation processor (`Processor`).** The annotation processor turns
JAX-RS resource classes into a model of the API (`RestModel`). The following
are modelled over plain records that stand for the annotations:
- option lookup and path cleaning;
- HTTP method selection and the list of skipped parameter types;
- parameter naming, kind, default and required rules;
- type-name shortening and link ids;
- property names derived from getters.

Java's `substring` can throw on short input, so the operations that use it
return a `Result`. The two loops that build parameters and properties are
methods, proved against the functions that describe their results.

**AsciiDoc writers.** Two classes named `AsciiDocWriter` render the API model
as AsciiDoc. One is in the annotation processor package (`apt.restdocs`); the
other is an older variant in `helpers.rest_docs_generator`.
- Each writer is a class whose `lines` field is the text written so far, one
  element per `writeLine`. A `partial` field holds text passed to `write` that
  is not yet ended by a line break.
- Each method is proved to append exactly the lines that a specification
  function describes.
- Module `AsciiDoc` holds the text both writers share. Its lemmas show when
  each section appears, in what order, and how property notes are numbered:
  - markers (1), (2), … go in table order;
  - the notes list has exactly those notes under the same numbers;
  - there is no list when no property has notes.
- Module `WriterVariants` proves that, without consumed media types and without
  media types on methods, the two writers differ only by the `:icons: font`
  line.

`Wrappers` (Option and Result), `Strings` (Java string operations and number
formatting) and `Seqs` (sequence lemmas) are support modules.

## Model

| member | source | states |
|---|---|---|
| XmlIndent.TrailingBlanks | src/main/java/org/hawkular/build/checkstyle/xml/XmlIndentCheck.java:153-164 | the count of spaces and tabs the backward scan passes over: all of them are blanks and the character before them is not |
| XmlIndent.TrailingBlanksUnique | src/main/java/org/hawkular/build/checkstyle/xml/XmlIndentCheck.java:153-164 | those two facts determine the count, so the scan's counter equals it wherever the scan stops |
| XmlIndent.IndentHandler.constructor | src/main/java/org/hawkular/build/checkstyle/xml/XmlIndentCheck.java:88-96 | a new handler has an empty buffer, the START indent (line 1, size 0), an empty stack and an empty log |
| XmlIndent.IndentHandler.Characters | src/main/java/org/hawkular/build/checkstyle/xml/XmlIndentCheck.java:104-108 | the text is appended to the buffer and its line remembered; nothing else changes |
| XmlIndent.IndentHandler.FlushCharacters | src/main/java/org/hawkular/build/checkstyle/xml/XmlIndentCheck.java:146-175 | the backward loop leaves the handler exactly in the state Flush describes: new indent after a line break, only an emptied buffer after text, no change at all for a blank-only or empty buffer |
| XmlIndent.IndentHandler.StartElement | src/main/java/org/hawkular/build/checkstyle/xml/XmlIndentCheck.java:217-250 | the new state is Start of the old: flush, then one pushed entry, with a report and a corrected expected indent exactly when the indent is not acceptable under the parent |
| XmlIndent.IndentHandler.EndElement | src/main/java/org/hawkular/build/checkstyle/xml/XmlIndentCheck.java:117-140 | an empty stack yields the fatal error (the IllegalStateException) instead of a state; otherwise the new state is End of the old |
| XmlIndent.CheckDocument | src/main/java/org/hawkular/build/checkstyle/xml/XmlIndentCheck.java:186-189 | driving a fresh handler over a document's callbacks gives exactly Check: the violations in the order logged, or the fatal error that stopped the pass |
| XmlIndentProofs.FlushAtLineBreak | src/main/java/org/hawkular/build/checkstyle/xml/XmlIndentCheck.java:153-160 | a line break met behind k trailing blanks sets lastIndent to (charLineNumber, k), tabs counting one, and empties the buffer; stack and log are untouched |
| XmlIndentProofs.FlushAtText | src/main/java/org/hawkular/build/checkstyle/xml/XmlIndentCheck.java:165-172 | any other character met first only empties the buffer; lastIndent is kept |
| XmlIndentProofs.FlushOnlyBlanks | src/main/java/org/hawkular/build/checkstyle/xml/XmlIndentCheck.java:153-174 | a buffer of only spaces and tabs, or an empty one, is left as it is, and so is lastIndent |
| XmlIndentProofs.FlushKeepsStackAndLog | src/main/java/org/hawkular/build/checkstyle/xml/XmlIndentCheck.java:146-175 | flushing never touches the stack or the log, and a second flush changes nothing |
| XmlIndentProofs.NewLineIndent | src/main/java/org/hawkular/build/checkstyle/xml/XmlIndentCheck.java:104-108 | a line break followed by k blanks, delivered in one characters call, measures as indent k on that call's line |
| XmlIndentProofs.StartPushesOne | src/main/java/org/hawkular/build/checkstyle/xml/XmlIndentCheck.java:219-249 | a start tag pushes exactly one entry, for that element, found at the flushed indent, and leaves the rest of the stack as it was |
| XmlIndentProofs.StartRoot | src/main/java/org/hawkular/build/checkstyle/xml/XmlIndentCheck.java:220-221 | for the root element (empty stack) the entry is expected where it was found and nothing is reported |
| XmlIndentProofs.StartChildReportedIff | src/main/java/org/hawkular/build/checkstyle/xml/XmlIndentCheck.java:228-243 | a child is reported exactly when its indent is neither one indent size deeper than the parent's expected indent nor level with it on the line where the parent was found |
| XmlIndentProofs.StartChildCorrected | src/main/java/org/hawkular/build/checkstyle/xml/XmlIndentCheck.java:238-247 | a reported child keeps its found indent and is expected at (its line, parent expected + indentSize), so its descendants are measured from the corrected level |
| XmlIndentProofs.StartChildAccepted | src/main/java/org/hawkular/build/checkstyle/xml/XmlIndentCheck.java:232-238 | an accepted child is expected where it was found |
| XmlIndentProofs.EndOnEmptyStackFails | src/main/java/org/hawkular/build/checkstyle/xml/XmlIndentCheck.java:119-126 | endElement fails if and only if the stack is empty after the flush, and then with the element and position |
| XmlIndentProofs.EndPopsOne | src/main/java/org/hawkular/build/checkstyle/xml/XmlIndentCheck.java:127-139 | otherwise it pops exactly the top entry, keeps the rest, and reports "Expected indent {expected} before end element </name>" exactly when the end tag is on another line than the start tag and not at the expected indent |
| XmlIndentProofs.PushKeepsExpectationsConsistent | src/main/java/org/hawkular/build/checkstyle/xml/XmlIndentCheck.java:245-249 | pushing an entry expected where it was found, or one indent size under the entry below it, keeps the stack invariant |
| XmlIndentProofs.StartKeepsExpectationsConsistent | src/main/java/org/hawkular/build/checkstyle/xml/XmlIndentCheck.java:219-249 | a start tag keeps the stack invariant, whether the child is the root, accepted or corrected |
| XmlIndentProofs.EndKeepsExpectationsConsistent | src/main/java/org/hawkular/build/checkstyle/xml/XmlIndentCheck.java:119-127 | an end tag on a non-empty stack keeps the invariant, since what remains is a prefix |
| XmlIndentProofs.StepKeepsExpectationsConsistent | src/main/java/org/hawkular/build/checkstyle/xml/XmlIndentCheck.java:220-249 | every callback keeps the stack invariant: each entry is expected where it was found or one indent size under its parent's expected indent |
| XmlIndentProofs.ReplayKeepsExpectationsConsistent | src/main/java/org/hawkular/build/checkstyle/xml/XmlIndentCheck.java:217-250 | that invariant holds after any sequence of callbacks |
| XmlIndentProofs.ReplayExtendsLog | src/main/java/org/hawkular/build/checkstyle/xml/XmlIndentCheck.java:136-138 | reports are only ever appended: the log before a run of callbacks is a prefix of the log after it |
| XmlIndentProofs.FlushOnOneLine | src/main/java/org/hawkular/build/checkstyle/xml/XmlIndentCheck.java:146-175 | without line breaks in the buffer a flush keeps the measured indent |
| XmlIndentProofs.OneLineReportsNothing | src/main/java/org/hawkular/build/checkstyle/xml/XmlIndentCheck.java:228-238 | callbacks without line breaks, from a state where every open element sits at the current indent, add no report |
| XmlIndentProofs.OneLineDocument | src/main/java/org/hawkular/build/checkstyle/xml/XmlIndentCheck.java:232-237 | a document written on one line yields no violation, for any indent size |
| XmlIndentProofs.ShortDocumentFlushes | src/main/java/org/hawkular/build/checkstyle/xml/XmlIndentCheck.java:153-172 | the whitespace callbacks of the test document measure indents 4, 8, 4 and 0 on lines 4 to 7; its text callback only empties the buffer |
| XmlIndentProofs.ParentStart | build-tools/src/test/java/org/hawkular/build/checkstyle/xml/XmlIndentCheckTest.java:94-99 | <parent-1>, four blanks in on line 4, is expected one indent size under the root and reported unless the size is 4 |
| XmlIndentProofs.TextStart | build-tools/src/test/java/org/hawkular/build/checkstyle/xml/XmlIndentCheckTest.java:94-99 | <text-1> is expected one indent size under parent-1's corrected expected indent, that is at twice the size |
| XmlIndentProofs.FromTextEnd | build-tools/src/test/java/org/hawkular/build/checkstyle/xml/XmlIndentCheckTest.java:94-99 | the text and </text-1> on its start tag's line add no report |
| XmlIndentProofs.FromParentEnd | build-tools/src/test/java/org/hawkular/build/checkstyle/xml/XmlIndentCheckTest.java:94-99 | </parent-1>, four blanks in on a later line, is reported against the corrected expected indent unless the size is 4 |
| XmlIndentProofs.FromRootEnd | build-tools/src/test/java/org/hawkular/build/checkstyle/xml/XmlIndentCheckTest.java:94-99 | </root> at the margin is level with the root and accepted |
| XmlIndentProofs.ShortDocumentReports | build-tools/src/test/java/org/hawkular/build/checkstyle/xml/XmlIndentCheckTest.java:94-116 | the test document checked with size u other than 4 yields exactly the three reports 4:15 expected u, 5:17 expected 2u, 6:16 expected u (8, 16, 8 for size 8; 2, 4, 2 for size 2), and none with size 4 |
| XmlIndentProofs.ShortDocumentWithFour | build-tools/src/test/java/org/hawkular/build/checkstyle/xml/XmlIndentCheckTest.java:118-122 | with the default indent size 4 the correctly indented document yields no violation |
| XmlIndentDocuments.MarginIndent | src/main/java/org/hawkular/build/checkstyle/xml/XmlIndentCheck.java:146-160 | a line break followed by the blanks of d levels, as one characters call, sets the indent to d levels on that line and empties the buffer |
| XmlIndentDocuments.FlushText | src/main/java/org/hawkular/build/checkstyle/xml/XmlIndentCheck.java:165-172 | buffered leaf text on one line, not only blanks, is dropped by the flush and the indent is kept |
| XmlIndentDocuments.OpenRoot | src/main/java/org/hawkular/build/checkstyle/xml/XmlIndentCheck.java:217-221 | the root start tag at the margin pushes one entry expected where it was found, reporting nothing |
| XmlIndentDocuments.OpenChild | src/main/java/org/hawkular/build/checkstyle/xml/XmlIndentCheck.java:217-249 | a start tag d levels in, under d open elements each found one level deeper than its parent, is accepted and pushed at that indent |
| XmlIndentDocuments.OpenAccepted | src/main/java/org/hawkular/build/checkstyle/xml/XmlIndentCheck.java:217-250 | a start tag laid out at its depth opens its element at that depth, empties the buffer and reports nothing |
| XmlIndentDocuments.EmptyLeafCloseAccepted | src/main/java/org/hawkular/build/checkstyle/xml/XmlIndentCheck.java:117-140 | the end tag of an empty leaf, on its start tag's line, pops the element and reports nothing |
| XmlIndentDocuments.TextLeafCloseAccepted | src/main/java/org/hawkular/build/checkstyle/xml/XmlIndentCheck.java:117-140 | the text and end tag of a leaf on its start tag's line pop the element and report nothing |
| XmlIndentDocuments.ElementCloseAccepted | src/main/java/org/hawkular/build/checkstyle/xml/XmlIndentCheck.java:117-140 | an element's end tag on a line of its own, at the element's own indent, pops the element and reports nothing |
| XmlIndentDocuments.ReplayThen | src/main/java/org/hawkular/build/checkstyle/xml/XmlIndentCheck.java:186-189 | replaying two runs of callbacks is replaying the second from where the first ended |
| XmlIndentDocuments.RenderAccepted | src/main/java/org/hawkular/build/checkstyle/xml/XmlIndentCheck.java:117-250 | any tree whose leaves fit, laid out from depth d on a handler ready at d, is replayed with no report and no failure, leaving the open elements as they were |
| XmlIndentDocuments.ElementBody | src/main/java/org/hawkular/build/checkstyle/xml/XmlIndentCheck.java:117-250 | an element's children, laid out one level deeper, followed by its end tag pop exactly that element and report nothing |
| XmlIndentDocuments.ChildrenAccepted | src/main/java/org/hawkular/build/checkstyle/xml/XmlIndentCheck.java:117-250 | so are the first k children of an element, one after the other |
| XmlIndentDocuments.IndentedDocumentReportsNothing | build-tools/src/test/java/org/hawkular/build/checkstyle/xml/XmlIndentCheckTest.java:118-122 | every document laid out one indent size per level, each element on lines of its own and each leaf on one line, yields no violation, for any indent size |
| Processor.GetProcessorOption | rest-docs-generator/src/main/java/org/hawkular/helpers/rest_docs_generator/Processor.java:556-564 | the mapped value when the key is present, which may be null (None) for an option given without a value, otherwise the given default |
| Processor.OptionWithoutValue | rest-docs-generator/src/main/java/org/hawkular/helpers/rest_docs_generator/Processor.java:556-561 | an option present without a value answers null (None), not the default |
| Processor.OptionOverride | rest-docs-generator/src/main/java/org/hawkular/helpers/rest_docs_generator/Processor.java:556-564 | setting an option, to a value or to null, makes exactly that key answer with it; other keys answer as before |
| Processor.CleanOutPath | rest-docs-generator/src/main/java/org/hawkular/helpers/rest_docs_generator/Processor.java:544-554 | "/" becomes the empty string; otherwise one leading slash is removed, then one trailing slash exactly when the rest ends in "/", and what remains is kept in place |
| Processor.CleanOutPathRoundTrip | rest-docs-generator/src/main/java/org/hawkular/helpers/rest_docs_generator/Processor.java:544-554 | a path without surrounding slashes is recovered from any of its four slashed forms |
| Processor.CleanOutPathNotIdempotent | rest-docs-generator/src/main/java/org/hawkular/helpers/rest_docs_generator/Processor.java:544-554 | cleaning is not idempotent: "///" cleans to "/", which cleans to "" |
| Processor.SkipParamType | rest-docs-generator/src/main/java/org/hawkular/helpers/rest_docs_generator/Processor.java:509-519 | the search loop answers true exactly when the type name is one of the five skipped framework types |
| Processor.GetHttpMethod | rest-docs-generator/src/main/java/org/hawkular/helpers/rest_docs_generator/Processor.java:526-540 | the result is one of the six HTTP methods: the simple name of the first annotation from a javax.ws.rs package that names one, and "GET" when there is none |
| Processor.StripJavaPackages | rest-docs-generator/src/main/java/org/hawkular/helpers/rest_docs_generator/Processor.java:379-384 | removing java.lang. prefixes, or else java.util. ones, never lengthens a name and leaves one without them unchanged |
| Processor.StripJavaLang | rest-docs-generator/src/main/java/org/hawkular/helpers/rest_docs_generator/Processor.java:379-380 | "java.lang." + n shortens to n |
| Processor.StripJavaUtil | rest-docs-generator/src/main/java/org/hawkular/helpers/rest_docs_generator/Processor.java:382-383 | "java.util." + n shortens to n when no java.lang. occurs |
| Processor.LinkId | rest-docs-generator/src/main/java/org/hawkular/helpers/rest_docs_generator/Processor.java:391-395 | the link id is "..." followed by the rest of the name, with one closing ">" dropped when the rest ends in one and nothing dropped otherwise |
| Processor.ModelTypeInfo | rest-docs-generator/src/main/java/org/hawkular/helpers/rest_docs_generator/Processor.java:386-396 | for a name containing the model package: throws StringIndexOutOfBoundsException exactly when the cut after "<" and the package lies past the end, with that index and length; otherwise the id is LinkId of the cut rest and the shown name, no longer than the input, is unchanged when the package with its dot does not occur |
| Processor.ConstructTypeInfo | rest-docs-generator/src/main/java/org/hawkular/helpers/rest_docs_generator/Processor.java:377-400 | the shown name never grows; when no model package is set or the stripped name does not contain it, the result is the stripped name with the original as id; when it does contain it, the result throws exactly when the cut lies past the end and otherwise links to LinkId of the cut rest; only that case can throw |
| Processor.TypeInfoOfModelClass | rest-docs-generator/src/main/java/org/hawkular/helpers/rest_docs_generator/Processor.java:377-400 | a class p.N of model package p is shown as N and linked as "...N" |
| Processor.TypeInfoOfModelPackageThrows | rest-docs-generator/src/main/java/org/hawkular/helpers/rest_docs_generator/Processor.java:389-390 | a type name that is the model package itself makes substring throw StringIndexOutOfBoundsException |
| Processor.TypeInfoOfModelCollection | rest-docs-generator/src/main/java/org/hawkular/helpers/rest_docs_generator/Processor.java:377-400 | a collection C<p.N> of a model class is shown as C<N> and linked as "...N", the inner type |
| Processor.ModelTypeInfoOfCollection | rest-docs-generator/src/main/java/org/hawkular/helpers/rest_docs_generator/Processor.java:389-395 | the cut after "<" and the package, with the closing ">" dropped, is the inner type name |
| Processor.NameAndKind | rest-docs-generator/src/main/java/org/hawkular/helpers/rest_docs_generator/Processor.java:313-339 | PathParam, then QueryParam, then FormParam decide name and kind; otherwise the kind is BODY and the name comes from ApiParam, else the Java parameter name |
| Processor.DefaultValueOf | rest-docs-generator/src/main/java/org/hawkular/helpers/rest_docs_generator/Processor.java:356-366 | the default comes from DefaultValue, else from ApiParam, else is "-none-" |
| Processor.BuildParam | rest-docs-generator/src/main/java/org/hawkular/helpers/rest_docs_generator/Processor.java:311-373 | a parameter gets name, kind, default and type info as above; with ApiParam it is required when ApiParam says so or it is a path or body parameter, and allowable values are set only when non-empty; without ApiParam it is not required and has no description |
| Processor.Kept | rest-docs-generator/src/main/java/org/hawkular/helpers/rest_docs_generator/Processor.java:306-310 | the kept parameters are exactly the elements not of a skipped framework type: each kept one is such an element, and each such element is kept |
| Processor.KeptAppend | rest-docs-generator/src/main/java/org/hawkular/helpers/rest_docs_generator/Processor.java:306-310 | keeping preserves the order: the parameters kept from a list are those kept from its first part followed by those kept from the rest |
| Processor.ParamsOfKept | rest-docs-generator/src/main/java/org/hawkular/helpers/rest_docs_generator/Processor.java:306-375 | processing succeeds exactly when every kept parameter can be built, and then yields one parameter per kept element, in order, each as BuildParam makes it |
| Processor.ProcessParams | rest-docs-generator/src/main/java/org/hawkular/helpers/rest_docs_generator/Processor.java:306-375 | the loop appends to the method's parameter list exactly the parameters ParamsOf describes, or fails with exactly the exception ParamsOf reports, the one the first failing parameter throws |
| Processor.ParamsOfFailurePersists | rest-docs-generator/src/main/java/org/hawkular/helpers/rest_docs_generator/Processor.java:306-375 | once a prefix of the parameters throws, processing the whole list throws that same exception |
| Processor.PropertyName | rest-docs-generator/src/main/java/org/hawkular/helpers/rest_docs_generator/Processor.java:469-478 | the property name of a getter: the "get" prefix is tried first, then "is", and the first remaining character is lower-cased; a bare prefix throws |
| Processor.PropertyNameRoundTrip | rest-docs-generator/src/main/java/org/hawkular/helpers/rest_docs_generator/Processor.java:469-478 | getX and isX name property x for any non-empty name whose first character is not an upper-case letter |
| Processor.BareGetterThrows | rest-docs-generator/src/main/java/org/hawkular/helpers/rest_docs_generator/Processor.java:478 | a method named just "get" or "is" throws StringIndexOutOfBoundsException |
| Processor.PropertyTypeName | rest-docs-generator/src/main/java/org/hawkular/helpers/rest_docs_generator/Processor.java:487-498 | the shown property type is never longer than the declared one and equals it when no model package, java.lang. or java.util. occurs |
| Processor.PropertyTypeOfModelClass | rest-docs-generator/src/main/java/org/hawkular/helpers/rest_docs_generator/Processor.java:489-491 | a property typed by class p.N of model package p shows the type N |
| Processor.PropertyTypeOfJavaLang | rest-docs-generator/src/main/java/org/hawkular/helpers/rest_docs_generator/Processor.java:492-494 | a property typed java.lang.N shows the type N |
| Processor.PropertyTypeOfJavaUtil | rest-docs-generator/src/main/java/org/hawkular/helpers/rest_docs_generator/Processor.java:495-497 | a property typed java.util.N shows the type N: the java.lang. step finds nothing and the java.util. prefix is removed |
| Processor.PropertyOf | rest-docs-generator/src/main/java/org/hawkular/helpers/rest_docs_generator/Processor.java:469-499 | a getter yields a property exactly when its name can be derived, with the derived name and shown type |
| Processor.Getters | rest-docs-generator/src/main/java/org/hawkular/helpers/rest_docs_generator/Processor.java:466-469 | the getters are exactly the methods whose names start with "get" or "is": each one kept is such a method, and each such method is kept |
| Processor.GettersAppend | rest-docs-generator/src/main/java/org/hawkular/helpers/rest_docs_generator/Processor.java:466-469 | getters keep their order: the getters of a list are those of its first part followed by those of the rest |
| Processor.PropertiesOfGetters | rest-docs-generator/src/main/java/org/hawkular/helpers/rest_docs_generator/Processor.java:464-502 | processing succeeds exactly when every getter has a name, and then yields one property per getter, in order |
| Processor.ProcessDataClassProperties | rest-docs-generator/src/main/java/org/hawkular/helpers/rest_docs_generator/Processor.java:464-502 | the loop appends to the data class's properties exactly the properties PropertiesOf describes, or fails with exactly the exception PropertiesOf reports |
| Processor.PropertiesOfFailurePersists | rest-docs-generator/src/main/java/org/hawkular/helpers/rest_docs_generator/Processor.java:464-502 | once a prefix of the methods throws, processing the whole class throws that same exception |
| AsciiDoc.MediaTypeLines | rest-docs-generator/src/main/java/org/hawkular/apt/restdocs/AsciiDocWriter.java:104-113 | nothing for an empty list; otherwise header, blank line, the bullets and a closing blank line |
| AsciiDoc.MediaTypeLineAt | rest-docs-generator/src/main/java/org/hawkular/apt/restdocs/AsciiDocWriter.java:108-110 | media type i is bulleted as "* type" on line i + 2, so the bullets keep the list's order |
| AsciiDoc.ReturnTypeLineParts | rest-docs-generator/src/main/java/org/hawkular/apt/restdocs/AsciiDocWriter.java:136-143 | the return type line carries the "[[id]] " anchor exactly when the type id starts with "..." |
| AsciiDoc.TableRowSeparators | rest-docs-generator/src/main/java/org/hawkular/apt/restdocs/AsciiDocWriter.java:164-166 | a row of n cells free of "|" holds exactly n column separators |
| AsciiDoc.ParamTableShape | rest-docs-generator/src/main/java/org/hawkular/apt/restdocs/AsciiDocWriter.java:158-170 | the parameters table is four heading lines, one row per parameter and two closing lines |
| AsciiDoc.ParamTableRowAt | rest-docs-generator/src/main/java/org/hawkular/apt/restdocs/AsciiDocWriter.java:163-167 | parameter i is described on row i, in order, as |name|required|type|allowed|default|description |
| AsciiDoc.ErrorTableShape | rest-docs-generator/src/main/java/org/hawkular/apt/restdocs/AsciiDocWriter.java:172-182 | the error table is four heading lines, one row per error code and two closing lines |
| AsciiDoc.ErrorTableRowAt | rest-docs-generator/src/main/java/org/hawkular/apt/restdocs/AsciiDocWriter.java:177-179 | error code i is listed on row i, in order |
| AsciiDoc.MethodTablesShape | rest-docs-generator/src/main/java/org/hawkular/apt/restdocs/AsciiDocWriter.java:146-152 | the parameters table comes only for a non-empty list and first, the error table only for a non-empty list and last |
| AsciiDoc.Noted | rest-docs-generator/src/main/java/org/hawkular/apt/restdocs/AsciiDocWriter.java:215-226 | the number of properties with notes never exceeds the number of properties |
| AsciiDoc.NotedProperties | rest-docs-generator/src/main/java/org/hawkular/apt/restdocs/AsciiDocWriter.java:233-238 | the properties with notes, in order |
| AsciiDoc.PropertyRows | rest-docs-generator/src/main/java/org/hawkular/apt/restdocs/AsciiDocWriter.java:216-228 | one table row per property |
| AsciiDoc.DataClassesLines | rest-docs-generator/src/main/java/org/hawkular/apt/restdocs/AsciiDocWriter.java:185-197 | nothing at all for a null or empty list of data classes; otherwise a "== Data Classes" section |
| AsciiDoc.PropertyRowsAt | rest-docs-generator/src/main/java/org/hawkular/apt/restdocs/AsciiDocWriter.java:215-228 | the row of property i carries marker (k + 1), k being the number of properties with notes before it |
| AsciiDoc.NoteLinesNumbered | rest-docs-generator/src/main/java/org/hawkular/apt/restdocs/AsciiDocWriter.java:231-239 | the notes list has one line per property with notes, the k-th numbered <k + 1> and holding that property's notes |
| AsciiDoc.MarkerNamesItsNote | rest-docs-generator/src/main/java/org/hawkular/apt/restdocs/AsciiDocWriter.java:215-239 | the marker on a property's row is the number of the note line holding its notes |
| AsciiDoc.NotedMonotone | rest-docs-generator/src/main/java/org/hawkular/apt/restdocs/AsciiDocWriter.java:215-226 | markers never decrease along the table and strictly increase from one noted property to the next |
| AsciiDoc.MarkersConsecutive | rest-docs-generator/src/main/java/org/hawkular/apt/restdocs/AsciiDocWriter.java:215-226 | markers run from 1 to the number of noted properties, in order |
| AsciiDoc.NoNotesNoList | rest-docs-generator/src/main/java/org/hawkular/apt/restdocs/AsciiDocWriter.java:231 | the notes list is absent exactly when no property has notes |
| AptAsciiDocWriter.DocumentOpening | rest-docs-generator/src/main/java/org/hawkular/apt/restdocs/AsciiDocWriter.java:59-63 | the document starts with "= name", ":icons: font" and a blank line |
| AptAsciiDocWriter.ClassBlocksPrefix | rest-docs-generator/src/main/java/org/hawkular/apt/restdocs/AsciiDocWriter.java:66-70 | the lines of earlier classes come before those of later ones, unchanged |
| AptAsciiDocWriter.ClassLinesOpening | rest-docs-generator/src/main/java/org/hawkular/apt/restdocs/AsciiDocWriter.java:73-77 | a class starts with its heading: "== " and a non-empty short description, else the path |
| AptAsciiDocWriter.ClassHeadingAt | rest-docs-generator/src/main/java/org/hawkular/apt/restdocs/AsciiDocWriter.java:66-77 | the heading of class k follows the lines of the classes before it |
| AptAsciiDocWriter.MethodBlocksPrefix | rest-docs-generator/src/main/java/org/hawkular/apt/restdocs/AsciiDocWriter.java:90-92 | the lines of earlier methods come before those of later ones, unchanged |
| AptAsciiDocWriter.MethodLinesOpening | rest-docs-generator/src/main/java/org/hawkular/apt/restdocs/AsciiDocWriter.java:116-117 | a method starts with its heading |
| AptAsciiDocWriter.MethodHeadingAt | rest-docs-generator/src/main/java/org/hawkular/apt/restdocs/AsciiDocWriter.java:115-117 | the heading of method k is exactly "=== method /outerPath/path" and follows the earlier methods |
| AptAsciiDocWriter.AsciiDocWriter.constructor | rest-docs-generator/src/main/java/org/hawkular/apt/restdocs/AsciiDocWriter.java:40-43 | a new writer has written nothing |
| AptAsciiDocWriter.AsciiDocWriter.WriteLine | rest-docs-generator/src/main/java/org/hawkular/apt/restdocs/AsciiDocWriter.java:252-256 | the pending text and the item end one line |
| AptAsciiDocWriter.AsciiDocWriter.Write | rest-docs-generator/src/main/java/org/hawkular/apt/restdocs/AsciiDocWriter.java:258-260 | the item is added to the pending text of the current line |
| AptAsciiDocWriter.AsciiDocWriter.Lf | rest-docs-generator/src/main/java/org/hawkular/apt/restdocs/AsciiDocWriter.java:248-250 | an empty line ends the current line |
| AptAsciiDocWriter.AsciiDocWriter.WriteDocument | rest-docs-generator/src/main/java/org/hawkular/apt/restdocs/AsciiDocWriter.java:46-56 | the lines written are exactly Document: intro, classes, data classes |
| AptAsciiDocWriter.AsciiDocWriter.WriteIntro | rest-docs-generator/src/main/java/org/hawkular/apt/restdocs/AsciiDocWriter.java:59-63 | writes the title, the icons attribute and a blank line |
| AptAsciiDocWriter.AsciiDocWriter.ProcessClasses | rest-docs-generator/src/main/java/org/hawkular/apt/restdocs/AsciiDocWriter.java:66-70 | appends the blocks of all classes, in order |
| AptAsciiDocWriter.AsciiDocWriter.ProcessClass | rest-docs-generator/src/main/java/org/hawkular/apt/restdocs/AsciiDocWriter.java:72-95 | appends the class intro, produced and consumed media types, its methods and a blank line |
| AptAsciiDocWriter.AsciiDocWriter.ProcessMethods | rest-docs-generator/src/main/java/org/hawkular/apt/restdocs/AsciiDocWriter.java:90-92 | appends the blocks of the class's methods, in order |
| AptAsciiDocWriter.AsciiDocWriter.HandleMediaTypes | rest-docs-generator/src/main/java/org/hawkular/apt/restdocs/AsciiDocWriter.java:104-113 | appends MediaTypeLines: nothing for an empty list |
| AptAsciiDocWriter.AsciiDocWriter.ProcessMethod | rest-docs-generator/src/main/java/org/hawkular/apt/restdocs/AsciiDocWriter.java:115-156 | appends the method block; the return type line is built from two write calls and one writeLine |
| AptAsciiDocWriter.AsciiDocWriter.ProcessParams | rest-docs-generator/src/main/java/org/hawkular/apt/restdocs/AsciiDocWriter.java:158-170 | appends the parameters table |
| AptAsciiDocWriter.AsciiDocWriter.ProcessErrorCodes | rest-docs-generator/src/main/java/org/hawkular/apt/restdocs/AsciiDocWriter.java:172-182 | appends the error table |
| AptAsciiDocWriter.AsciiDocWriter.ProcessDataClasses | rest-docs-generator/src/main/java/org/hawkular/apt/restdocs/AsciiDocWriter.java:185-197 | appends nothing for a null or empty list, else the data classes section |
| AptAsciiDocWriter.AsciiDocWriter.ProcessDataClass | rest-docs-generator/src/main/java/org/hawkular/apt/restdocs/AsciiDocWriter.java:199-245 | appends the data class block |
| AptAsciiDocWriter.AsciiDocWriter.WritePropertyTable | rest-docs-generator/src/main/java/org/hawkular/apt/restdocs/AsciiDocWriter.java:210-241 | appends the properties table and, when the counter passed 1, the notes list |
| AptAsciiDocWriter.AsciiDocWriter.WritePropertyRows | rest-docs-generator/src/main/java/org/hawkular/apt/restdocs/AsciiDocWriter.java:215-228 | appends one row per property and returns the counter as one more than the number of noted properties |
| AptAsciiDocWriter.AsciiDocWriter.WriteNotes | rest-docs-generator/src/main/java/org/hawkular/apt/restdocs/AsciiDocWriter.java:231-238 | restarts the counter at 1 and appends exactly NoteLines |
| HelpersAsciiDocWriter.DocumentOpening | rest-docs-generator/src/main/java/org/hawkular/helpers/rest_docs_generator/AsciiDocWriter.java:60-63 | the document starts with "= name" and one blank line, without an icons attribute |
| HelpersAsciiDocWriter.ClassBlocksPrefix | rest-docs-generator/src/main/java/org/hawkular/helpers/rest_docs_generator/AsciiDocWriter.java:66-70 | the lines of earlier classes come before those of later ones, unchanged |
| HelpersAsciiDocWriter.ClassLinesOpening | rest-docs-generator/src/main/java/org/hawkular/helpers/rest_docs_generator/AsciiDocWriter.java:73-77 | a class starts with "== " and a non-empty short description, else the path |
| HelpersAsciiDocWriter.ClassHeadingAt | rest-docs-generator/src/main/java/org/hawkular/helpers/rest_docs_generator/AsciiDocWriter.java:66-77 | the heading of class k follows the lines of the classes before it |
| HelpersAsciiDocWriter.MethodBlocksPrefix | rest-docs-generator/src/main/java/org/hawkular/helpers/rest_docs_generator/AsciiDocWriter.java:96-98 | the lines of earlier methods come before those of later ones, unchanged |
| HelpersAsciiDocWriter.MethodHeadingAt | rest-docs-generator/src/main/java/org/hawkular/helpers/rest_docs_generator/AsciiDocWriter.java:104 | the heading of method k is exactly "=== method /outerPath/path" and follows the earlier methods |
| HelpersAsciiDocWriter.MethodHeadingRegrouped | rest-docs-generator/src/main/java/org/hawkular/helpers/rest_docs_generator/AsciiDocWriter.java:104 | the heading as this writer concatenates it is the heading the other writer builds in two steps |
| HelpersAsciiDocWriter.AsciiDocWriter.constructor | rest-docs-generator/src/main/java/org/hawkular/helpers/rest_docs_generator/AsciiDocWriter.java:40-42 | a new writer has written nothing |
| HelpersAsciiDocWriter.AsciiDocWriter.WriteLine | rest-docs-generator/src/main/java/org/hawkular/helpers/rest_docs_generator/AsciiDocWriter.java:236-240 | the pending text and the item end one line |
| HelpersAsciiDocWriter.AsciiDocWriter.Write | rest-docs-generator/src/main/java/org/hawkular/helpers/rest_docs_generator/AsciiDocWriter.java:242-244 | the item is added to the pending text of the current line |
| HelpersAsciiDocWriter.AsciiDocWriter.Lf | rest-docs-generator/src/main/java/org/hawkular/helpers/rest_docs_generator/AsciiDocWriter.java:232-234 | an empty line ends the current line |
| HelpersAsciiDocWriter.AsciiDocWriter.WriteDocument | rest-docs-generator/src/main/java/org/hawkular/helpers/rest_docs_generator/AsciiDocWriter.java:45-57 | the lines written are exactly Document: intro, classes, data classes |
| HelpersAsciiDocWriter.AsciiDocWriter.WriteIntro | rest-docs-generator/src/main/java/org/hawkular/helpers/rest_docs_generator/AsciiDocWriter.java:60-63 | writes the title and a blank line |
| HelpersAsciiDocWriter.AsciiDocWriter.ProcessClasses | rest-docs-generator/src/main/java/org/hawkular/helpers/rest_docs_generator/AsciiDocWriter.java:66-70 | appends the blocks of all classes, in order |
| HelpersAsciiDocWriter.AsciiDocWriter.ProcessClass | rest-docs-generator/src/main/java/org/hawkular/helpers/rest_docs_generator/AsciiDocWriter.java:72-101 | appends the class intro, the produced media types only, its methods and a blank line |
| HelpersAsciiDocWriter.AsciiDocWriter.WriteProduces | rest-docs-generator/src/main/java/org/hawkular/helpers/rest_docs_generator/AsciiDocWriter.java:86-93 | appends the "Produces:" block only for a non-empty list, one "* type" line per type in order |
| HelpersAsciiDocWriter.AsciiDocWriter.ProcessMethods | rest-docs-generator/src/main/java/org/hawkular/helpers/rest_docs_generator/AsciiDocWriter.java:96-98 | appends the blocks of the class's methods, in order |
| HelpersAsciiDocWriter.AsciiDocWriter.ProcessMethod | rest-docs-generator/src/main/java/org/hawkular/helpers/rest_docs_generator/AsciiDocWriter.java:103-140 | appends the method block, without media types |
| HelpersAsciiDocWriter.AsciiDocWriter.ProcessParams | rest-docs-generator/src/main/java/org/hawkular/helpers/rest_docs_generator/AsciiDocWriter.java:142-154 | appends the parameters table, one row per parameter |
| HelpersAsciiDocWriter.AsciiDocWriter.ProcessErrorCodes | rest-docs-generator/src/main/java/org/hawkular/helpers/rest_docs_generator/AsciiDocWriter.java:156-166 | appends the error table |
| HelpersAsciiDocWriter.AsciiDocWriter.ProcessDataClasses | rest-docs-generator/src/main/java/org/hawkular/helpers/rest_docs_generator/AsciiDocWriter.java:169-181 | appends nothing for a null or empty list, else the data classes section |
| HelpersAsciiDocWriter.AsciiDocWriter.ProcessDataClass | rest-docs-generator/src/main/java/org/hawkular/helpers/rest_docs_generator/AsciiDocWriter.java:183-229 | appends the data class block |
| HelpersAsciiDocWriter.AsciiDocWriter.WritePropertyTable | rest-docs-generator/src/main/java/org/hawkular/helpers/rest_docs_generator/AsciiDocWriter.java:194-225 | appends the properties table and, when the counter passed 1, the notes list |
| HelpersAsciiDocWriter.AsciiDocWriter.WritePropertyRows | rest-docs-generator/src/main/java/org/hawkular/helpers/rest_docs_generator/AsciiDocWriter.java:199-212 | appends one row per property and returns one more than the number of noted properties |
| HelpersAsciiDocWriter.AsciiDocWriter.WriteNotes | rest-docs-generator/src/main/java/org/hawkular/helpers/rest_docs_generator/AsciiDocWriter.java:215-222 | restarts the counter at 1 and appends exactly NoteLines |
| WriterVariants.MethodLinesAgree | rest-docs-generator/src/main/java/org/hawkular/helpers/rest_docs_generator/AsciiDocWriter.java:103-140 | without media types a method renders the same in both writers |
| WriterVariants.MethodBlocksAgree | rest-docs-generator/src/main/java/org/hawkular/helpers/rest_docs_generator/AsciiDocWriter.java:96-98 | so do the method lists of a class |
| WriterVariants.ClassLinesAgree | rest-docs-generator/src/main/java/org/hawkular/helpers/rest_docs_generator/AsciiDocWriter.java:72-101 | a class without consumed media types and without media types on its methods renders the same in both writers |
| WriterVariants.ClassBlocksAgree | rest-docs-generator/src/main/java/org/hawkular/helpers/rest_docs_generator/AsciiDocWriter.java:66-70 | so do lists of such classes |
| WriterVariants.DocumentsAgree | rest-docs-generator/src/main/java/org/hawkular/helpers/rest_docs_generator/AsciiDocWriter.java:45-63 | for such an API the newer writer's document is the older one's with ":icons: font" inserted after the title |

## Left out

- Reading files, the SAX parser and its factory settings, entity resolution, and the Checkstyle logging sink (`processFiltered`, `beginProcessing`, `resolveEntity`) are outside this model. The locator's line and column are fields of each event.
- `ignorableWhitespace` only delegates to `characters`, so the parser's whitespace arrives as `Characters` events.
- The configured indent size may be any integer. The source does not validate it. The properties of `XmlIndentProofs` hold for every integer size; `IndentedDocumentReportsNothing` and the other `XmlIndentDocuments` lemmas hold for every non-negative size, since a layout with a negative indent does not exist.
- The short test document is rebuilt from the positions the tests report (4:15, 5:17, 6:16), because the XML test files are not part of this model. The longer document used by `passCorrect` is not part of this model either. `IndentedDocumentReportsNothing` covers every document laid out as an element tree one indent size per level, with leaves on one line and elements' tags on lines of their own. Comments, processing instructions, attributes spanning lines and mixed content are outside that layout.
- `MessageFormat` formats the indent in the message with the locale's grouping. `FormatInt` models the English locale (thousands separated by commas).
- Integer arithmetic is unbounded: 32-bit overflow of indent sizes and counters is not modelled.
- `Processor.init`, `process`, `getOutputFile` and the rest of the annotation-processing environment are left out: they do file I/O, logging and element traversal. Annotation mirrors are plain records (`ParamElement`, `MethodElement`, `AnnotationRef`).
- Java `null` strings are `Option<string>`. Concatenating a null prints "null" (`Show`). A processor option given without a value maps to `None`, and `GetProcessorOption` returns that `None` rather than the default.
- The regular expressions in `replaceAll` are literal dotted prefixes. `ReplaceAll` is literal, non-overlapping, left-to-right replacement.
- ModelTypeInfo: strings are sequences of Unicode scalar values, while Java counts UTF-16 code units. For a type or package name with characters outside the Basic Multilingual Plane, the index and length in the `StringIndexOutOfBoundsException` (from `LinkBegin`, `IndexOf` and the string length) differ from Java's. `ConstructTypeInfo` carries the same numbers. The cut itself falls on the same characters.
- Case mapping covers ASCII letters only. `toLowerCase` of other characters is the identity here.
- PropertyName: the source calls `toLowerCase()` without a locale, so the result depends on the JVM's default locale. In a Turkish locale "isIndex" gives "ındex" (dotless i). The model fixes the root locale's ASCII mapping.
- `ConstructTypeInfo` follows the source's `else if`: a name holding both `java.lang.` and `java.util.` loses only the `java.lang.` prefixes. The property type name removes both, as its source does.
- The `PParam`, `PTypeInfo`, `PProperty` and `ErrorCode` sources and the helpers package's own model classes are not part of this model. One `RestModel` serves both writers, and `required` defaults to false.
- Exceptions stop the processor. `ProcessParams` and `ProcessDataClassProperties` return the exception and do not model the partly filled list a caller could observe afterwards.
- `AsciiDocWriter.write`: the output file, its encoding, the `BufferedWriter` and the helpers variant's swallowed `IOException` are left out. The model is the sequence of lines written.
- Both writers' `processDataClass` bodies are split into `WritePropertyTable`, `WritePropertyRows` and `WriteNotes`; the methods loop of `processClass` is `ProcessMethods`; the helpers writer's inline produces block is `WriteProduces`. The lines written are the same.
- Both `XmlWriter` classes, the model classes' `toString` and the `FooBean` test fixture are left out: they hold no logic that decides the output.
