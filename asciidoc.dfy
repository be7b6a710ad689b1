/**
 * The AsciiDoc text both documentation writers emit, as sequences of lines:
 * every `writeLine(item)` is one element, `lf()` is an empty one. The parts
 * the two writers share are defined here; each writer module composes them
 * in its own order.
 */
module AsciiDoc {
  import opened Wrappers
  import opened Strings
  import opened RestModel
  import opened Seqs

  // ---------------------------------------------------------------------------
  // Media types

  function Bullet(t: string): string {
    "* " + t
  }

  /** One "* type" line per media type, in order. */
  function Bullets(types: seq<string>): seq<string> {
    Map(Bullet, types)
  }

  /** `handleMediaTypes`: a header, a blank line, the bullets and a blank line. */
  function MediaTypeLines(types: seq<string>, header: string): (r: seq<string>)
    ensures types == [] ==> r == []
    ensures types != [] ==>
      |r| == |types| + 3 && r[0] == header && r[1] == "" && r[|r| - 1] == ""
  {
    if types == [] then [] else [header, ""] + Bullets(types) + [""]
  }

  /** Media type `i` is bulleted on line `i + 2`, after the header and a blank line. */
  lemma MediaTypeLineAt(types: seq<string>, header: string, i: nat)
    requires i < |types|
    ensures MediaTypeLines(types, header)[i + 2] == "* " + types[i]
  {
    MapAtOffset([header, ""], Bullet, types, [""], i);
  }

  // ---------------------------------------------------------------------------
  // Resource classes and methods

  /** The class heading: a non-empty short description, else the path. */
  function ClassHeading(c: PClass): string {
    "== " + if NonEmpty(c.shortDesc) then c.shortDesc.value else c.path
  }

  /** The lines of `processClass` before the media types. */
  function ClassIntro(c: PClass): seq<string> {
    [ClassHeading(c), "", "Implemented in: " + c.name, ""]
      + (if NonEmpty(c.description) then ["Description: " + c.description.value, ""] else [])
  }

  /** The method heading: the HTTP method, then the class path and the method path. */
  function MethodHeading(m: PMethod, outerPath: string): string {
    "=== " + (m.httpMethod + " /" + outerPath + "/" + m.path)
  }

  /** The lines of `processMethod` before the media types. */
  function MethodIntro(m: PMethod, outerPath: string): seq<string> {
    [MethodHeading(m, outerPath), ""]
      + (if m.gzip then ["Supports GZIP'd responses"] else [])
      + ["[.lead]", "Description: " + Show(m.description), ""]
      + (if NonEmpty(m.notes) then [".NOTE", m.notes.value, ""] else [])
  }

  /** The return type line; a link anchor only for a type id starting with "...". */
  function ReturnTypeLine(t: PTypeInfo): string {
    if StartsWith(t.typeId, "...") then "Return type: " + ("[[" + t.typeId + "]] ") + t.typeString
    else "Return type: " + t.typeString
  }

  /**
   * The return type line is "Return type: ", then the anchor "[[id]] " exactly
   * when the type id starts with "...", then the shown type.
   */
  lemma ReturnTypeLineParts(t: PTypeInfo)
    ensures var l := ReturnTypeLine(t);
      var anchor := if StartsWith(t.typeId, "...") then "[[" + t.typeId + "]] " else "";
      |l| == 13 + |anchor| + |t.typeString| &&
      l[..13] == "Return type: " && l[13..13 + |anchor|] == anchor && l[13 + |anchor|..] == t.typeString
  {
    var anchor := if StartsWith(t.typeId, "...") then "[[" + t.typeId + "]] " else "";
    assert ReturnTypeLine(t) == "Return type: " + anchor + t.typeString;
  }

  /** A table row: every cell preceded by the column separator '|'. */
  function TableRow(cells: seq<string>): string
    decreases |cells|
  {
    if cells == [] then "" else "|" + cells[0] + TableRow(cells[1..])
  }
  /** A row whose cells hold no separator has exactly one separator per cell. */
  lemma {:induction false} TableRowSeparators(cells: seq<string>)
    requires forall i :: 0 <= i < |cells| ==> '|' !in cells[i]
    ensures multiset(TableRow(cells))['|'] == |cells|
    decreases |cells|
  {
    if cells != [] {
      TableRowSeparators(cells[1..]);
      assert multiset(cells[0])['|'] == 0;
      assert TableRow(cells) == "|" + cells[0] + TableRow(cells[1..]);
      assert multiset(TableRow(cells)) == multiset("|") + multiset(cells[0]) + multiset(TableRow(cells[1..]));
    }
  }


  /** One table row per parameter. */
  function ParamRow(p: PParam): string {
    TableRow([p.name, BoolToString(p.required), p.paramType.Name(),
      Show(p.allowableValues), Show(p.defaultValue), Show(p.description)])
  }

  function ParamRows(params: seq<PParam>): seq<string> {
    Map(ParamRow, params)
  }

  const PARAM_TABLE_HEAD: seq<string> :=
    [".Parameters", "|===", "|Name|Required|Type|Allowed Values|Default Value|Description", ""]

  /** `processParams` of a writer: the whole table, whatever the list. */
  function ParamTable(params: seq<PParam>): seq<string> {
    PARAM_TABLE_HEAD + ParamRows(params) + ["|===", ""]
  }

  /** The parameters table: four heading lines, one row per parameter, two closing lines. */
  lemma ParamTableShape(params: seq<PParam>)
    ensures var r := ParamTable(params);
      |r| == |params| + 6 && r[..4] == PARAM_TABLE_HEAD && r[|params| + 4..] == ["|===", ""]
  {
    var r := ParamTable(params);
    assert r[..4] == PARAM_TABLE_HEAD;
    assert r[|params| + 4..] == ["|===", ""];
  }

  /** Parameter `i` is described on row `i` of the table body, after the four heading lines. */
  lemma ParamTableRowAt(params: seq<PParam>, i: nat)
    requires i < |params|
    ensures ParamTable(params)[4 + i] == ParamRow(params[i])
  {
    MapAtOffset(PARAM_TABLE_HEAD, ParamRow, params, ["|===", ""], i);
  }

  /** The code's cell starts with a blank after the separator. */
  function ErrorRow(e: ErrorCode): string {
    TableRow([" " + IntToString(e.code), e.reason])
  }

  function ErrorRows(errors: seq<ErrorCode>): seq<string> {
    Map(ErrorRow, errors)
  }

  const ERROR_TABLE_HEAD: seq<string> := [".Error codes", "|===", "|Code|Reason", ""]

  /** `processErrorCodes`: the whole table, whatever the list. */
  function ErrorTable(errors: seq<ErrorCode>): seq<string> {
    ERROR_TABLE_HEAD + ErrorRows(errors) + ["|===", ""]
  }

  /** The error table: four heading lines, one row per error code, two closing lines. */
  lemma ErrorTableShape(errors: seq<ErrorCode>)
    ensures var r := ErrorTable(errors);
      |r| == |errors| + 6 && r[..4] == ERROR_TABLE_HEAD && r[|errors| + 4..] == ["|===", ""]
  {
    var r := ErrorTable(errors);
    assert r[..4] == ERROR_TABLE_HEAD;
    assert r[|errors| + 4..] == ["|===", ""];
  }

  /** Error code `i` is listed on row `i` of the table body, after the four heading lines. */
  lemma ErrorTableRowAt(errors: seq<ErrorCode>, i: nat)
    requires i < |errors|
    ensures ErrorTable(errors)[4 + i] == ErrorRow(errors[i])
  {
    MapAtOffset(ERROR_TABLE_HEAD, ErrorRow, errors, ["|===", ""], i);
  }

  /** The tables of a method: each one only when its list is not empty. */
  function MethodTables(m: PMethod): seq<string> {
    (if m.params == [] then [] else ParamTable(m.params)) + (if m.errors == [] then [] else ErrorTable(m.errors))
  }

  /** The parameters table comes first, the error table last, each only when its list is not empty. */
  lemma MethodTablesShape(m: PMethod)
    ensures var r := MethodTables(m);
      |r| == (if m.params == [] then 0 else |m.params| + 6) + (if m.errors == [] then 0 else |m.errors| + 6) &&
      (m.params != [] ==> r[..|m.params| + 6] == ParamTable(m.params)) &&
      (m.errors != [] ==> r[|r| - |m.errors| - 6..] == ErrorTable(m.errors))
  {
    ParamTableShape(m.params);
    ErrorTableShape(m.errors);
    var p := if m.params == [] then [] else ParamTable(m.params);
    var e := if m.errors == [] then [] else ErrorTable(m.errors);
    assert (p + e)[..|p|] == p && (p + e)[|p|..] == e;
  }

  /** The lines of `processMethod` after the media types. */
  function MethodTail(m: PMethod): seq<string> {
    (if m.returnType.Some? then [ReturnTypeLine(m.returnType.value), ""] else [])
      + MethodTables(m) + [""]
  }

  /** The return type and the tables, as `processMethod` writes them after `before`. */
  lemma MethodTailWritten(m: PMethod, before: seq<string>, returned: seq<string>, tables: seq<string>,
                          result: seq<string>)
    requires returned == if m.returnType.Some? then before + [ReturnTypeLine(m.returnType.value)] + [""] else before
    requires tables == if m.params != [] then returned + ParamTable(m.params) else returned
    requires result == (if m.errors != [] then tables + ErrorTable(m.errors) else tables) + [""]
    ensures result == before + MethodTail(m)
  {
    var r: seq<string> := if m.returnType.Some? then [ReturnTypeLine(m.returnType.value), ""] else [];
    var pt: seq<string> := if m.params == [] then [] else ParamTable(m.params);
    var et: seq<string> := if m.errors == [] then [] else ErrorTable(m.errors);
    if m.returnType.Some? {
      AppendTwo(before, ReturnTypeLine(m.returnType.value), "");
    } else {
      assert before + r == before;
    }
    assert tables == returned + pt by {
      if m.params == [] {
        assert returned + pt == returned;
      }
    }
    assert result == tables + et + [""] by {
      if m.errors == [] {
        assert tables + et == tables;
      }
    }
    var t := MethodTables(m);
    assert t == pt + et;
    assert returned == before + r;
    AppendAssoc(before + r, pt, et);
    AppendAssoc(before, r, t);
    AppendAssoc(before, r + t, [""]);
  }

  // ---------------------------------------------------------------------------
  // Data classes and their numbered notes

  /** How many of the properties have notes. */
  function Noted(props: seq<PProperty>): (n: nat)
    ensures n <= |props|
    decreases |props|
  {
    if props == [] then 0
    else Noted(props[..|props| - 1]) + (if props[|props| - 1].notes.Some? then 1 else 0)
  }

  /** The properties that have notes, in order. */
  function NotedProperties(props: seq<PProperty>): (r: seq<PProperty>)
    ensures forall k :: 0 <= k < |r| ==> r[k].notes.Some?
    decreases |props|
  {
    if props == [] then []
    else
      var last := props[|props| - 1];
      NotedProperties(props[..|props| - 1]) + (if last.notes.Some? then [last] else [])
  }

  /** A table row; a property with notes carries the marker " (n)". */
  function PropertyRow(p: PProperty, marker: nat): string {
    TableRow([p.name, p.typeName, DescriptionCell(p, marker)])
  }

  /** The description (empty when unset), then the note marker when there are notes. */
  function DescriptionCell(p: PProperty, marker: nat): string {
    (if p.description.None? then "" else p.description.value)
      + (if p.notes.Some? then " (" + IntToString(marker) + ")" else "")
  }

  /** The rows of the properties table, numbering notes from 1 as it goes. */
  function PropertyRows(props: seq<PProperty>): (r: seq<string>)
    ensures |r| == |props|
    decreases |props|
  {
    if props == [] then []
    else
      var init := props[..|props| - 1];
      PropertyRows(init) + [PropertyRow(props[|props| - 1], Noted(init) + 1)]
  }
  lemma PropertyRowsSnoc(props: seq<PProperty>, i: nat)
    requires i < |props|
    ensures PropertyRows(props[..i + 1]) == PropertyRows(props[..i]) + [PropertyRow(props[i], Noted(props[..i]) + 1)]
    ensures Noted(props[..i + 1]) == Noted(props[..i]) + (if props[i].notes.Some? then 1 else 0)
  {
    assert props[..i + 1][..i] == props[..i];
  }


  /** The note line numbered `marker`. */
  function NoteLine(marker: nat, notes: string): string {
    "<" + IntToString(marker) + "> " + notes
  }

  /** The numbered notes after the table, one per property with notes. */
  function NoteLines(props: seq<PProperty>): seq<string>
    decreases |props|
  {
    if props == [] then []
    else
      var init := props[..|props| - 1];
      var last := props[|props| - 1];
      NoteLines(init) + (if last.notes.Some? then [NoteLine(Noted(init) + 1, last.notes.value)] else [])
  }
  lemma NoteLinesSnoc(props: seq<PProperty>, i: nat)
    requires i < |props|
    ensures NoteLines(props[..i + 1]) == NoteLines(props[..i])
      + (if props[i].notes.Some? then [NoteLine(Noted(props[..i]) + 1, props[i].notes.value)] else [])
    ensures Noted(props[..i + 1]) == Noted(props[..i]) + (if props[i].notes.Some? then 1 else 0)
  {
    assert props[..i + 1][..i] == props[..i];
  }


  const PROPERTY_TABLE_HEAD: seq<string> := [".Properties", "|===", "|Name|Type|Description", ""]

  /** The properties table with its notes, when the data class has properties. */
  function PropertyTable(props: seq<PProperty>): seq<string> {
    if props == [] then []
    else
      PROPERTY_TABLE_HEAD + PropertyRows(props) + ["|==="]
      + (if Noted(props) + 1 > 1 then NoteLines(props) else [])
  }

  /** The lines of `processDataClass`. */
  function DataClassLines(d: PData): seq<string> {
    ["[#" + d.nameId + "]", "=== " + d.name + " - " + Show(d.shortDescription), ""]
      + (if NonEmpty(d.description) then ["Description: " + d.description.value, ""] else [])
      + [""] + PropertyTable(d.properties) + [""]
  }

  function DataBlocks(data: seq<PData>): seq<string>
    decreases |data|
  {
    if data == [] then []
    else DataBlocks(data[..|data| - 1]) + DataClassLines(data[|data| - 1])
  }
  lemma DataBlocksSnoc(data: seq<PData>, i: nat)
    requires i < |data|
    ensures DataBlocks(data[..i + 1]) == DataBlocks(data[..i]) + DataClassLines(data[i])
  {
    assert data[..i + 1][..i] == data[..i];
  }


  /** `processDataClasses`: nothing at all for a null or empty list. */
  function DataClassesLines(data: Option<seq<PData>>): (r: seq<string>)
    ensures data.None? || data.value == [] ==> r == []
    ensures data.Some? && data.value != [] ==>
      |r| >= 3 && r[..2] == ["== Data Classes", ""] && r[|r| - 1] == ""
  {
    if data.None? || data.value == [] then []
    else ["== Data Classes", ""] + DataBlocks(data.value) + [""]
  }

  // ---------------------------------------------------------------------------
  // Properties of the numbering

  /** Row `i` is the row of property `i`, marked with the notes counted before it plus one. */
  lemma {:induction false} PropertyRowsAt(props: seq<PProperty>, i: nat)
    requires i < |props|
    ensures PropertyRows(props)[i] == PropertyRow(props[i], Noted(props[..i]) + 1)
    decreases |props|
  {
    var init := props[..|props| - 1];
    if i < |init| {
      PropertyRowsAt(init, i);
      assert init[..i] == props[..i];
    } else {
      assert init == props[..i];
    }
  }

  /** The note list has the notes of the noted properties, numbered 1, 2, ... in order. */
  lemma {:induction false} NoteLinesNumbered(props: seq<PProperty>)
    ensures |NoteLines(props)| == |NotedProperties(props)| == Noted(props)
    ensures forall k :: 0 <= k < Noted(props) ==>
      NoteLines(props)[k] == NoteLine(k + 1, NotedProperties(props)[k].notes.value)
    decreases |props|
  {
    if props != [] {
      var init := props[..|props| - 1];
      NoteLinesNumbered(init);
      var last := props[|props| - 1];
      if last.notes.Some? {
        var n := Noted(init);
        var nl0, np0 := NoteLines(init), NotedProperties(init);
        var nl, np := NoteLines(props), NotedProperties(props);
        assert np == np0 + [last];
        assert nl == nl0 + [NoteLine(n + 1, last.notes.value)];
        forall k | 0 <= k < n + 1
          ensures nl[k] == NoteLine(k + 1, np[k].notes.value)
        {
          if k < n {
            assert nl[k] == nl0[k];
            assert np[k] == np0[k];
          }
        }
      } else {
        assert NotedProperties(props) == NotedProperties(init);
        assert NoteLines(props) == NoteLines(init);
      }
    }
  }

  /** The note a row's marker points at is that property's own note. */
  lemma {:induction false} MarkerNamesItsNote(props: seq<PProperty>, i: nat)
    requires i < |props| && props[i].notes.Some?
    ensures Noted(props[..i]) < Noted(props)
    ensures |NotedProperties(props)| == Noted(props)
    ensures NotedProperties(props)[Noted(props[..i])] == props[i]
    decreases |props|
  {
    var init := props[..|props| - 1];
    NoteLinesNumbered(props);
    NoteLinesNumbered(init);
    if i < |init| {
      MarkerNamesItsNote(init, i);
      assert init[..i] == props[..i];
      var last := props[|props| - 1];
      assert NotedProperties(props) == NotedProperties(init) + (if last.notes.Some? then [last] else []);
    } else {
      assert init == props[..i];
      assert NotedProperties(props) == NotedProperties(init) + [props[i]];
    }
  }

  /** Counting notes over a longer prefix never gives less. */
  lemma {:induction false} NotedMonotone(props: seq<PProperty>, i: nat, j: nat)
    requires i <= j <= |props|
    ensures Noted(props[..i]) <= Noted(props[..j])
    ensures i < j && props[i].notes.Some? ==> Noted(props[..i]) < Noted(props[..j])
    decreases j - i
  {
    if i < j {
      NotedMonotone(props, i, j - 1);
      assert props[..j][..j - 1] == props[..j - 1];
      if i == j - 1 {
        assert props[..j][j - 1] == props[i];
      }
    }
  }

  /** Markers are consecutive from 1: distinct rows get distinct numbers, all at most the count. */
  lemma MarkersConsecutive(props: seq<PProperty>, i: nat, j: nat)
    requires i < j < |props|
    requires props[i].notes.Some? && props[j].notes.Some?
    ensures 1 <= Noted(props[..i]) + 1 < Noted(props[..j]) + 1 <= Noted(props)
  {
    NotedMonotone(props, i, j);
    MarkerNamesItsNote(props, j);
  }

  /** The note list is present exactly when some property has notes. */
  lemma {:induction false} NoNotesNoList(props: seq<PProperty>)
    ensures Noted(props) == 0 <==> forall i :: 0 <= i < |props| ==> props[i].notes.None?
    decreases |props|
  {
    if props != [] {
      var init := props[..|props| - 1];
      NoNotesNoList(init);
      assert forall i :: 0 <= i < |init| ==> init[i] == props[i];
    }
  }

  // ---------------------------------------------------------------------------
  // The blocks, assembled from the lines a writer emits one after the other

  /** The lines of `processClass` before the media types, as written one by one. */
  lemma ClassIntroWritten(c: PClass, start: seq<string>, intro: seq<string>)
    requires intro == if NonEmpty(c.description) then
        start + [ClassHeading(c)] + [""] + ["Implemented in: " + c.name] + [""] + ["Description: " + c.description.value] + [""]
      else start + [ClassHeading(c)] + [""] + ["Implemented in: " + c.name] + [""]
    ensures intro == start + ClassIntro(c)
  {
    var head := [ClassHeading(c), "", "Implemented in: " + c.name, ""];
    AppendFour(start, ClassHeading(c), "", "Implemented in: " + c.name, "");
    if NonEmpty(c.description) {
      AppendTwo(start + head, "Description: " + c.description.value, "");
      AppendAssoc(start, head, ["Description: " + c.description.value, ""]);
    } else {
      assert head + [] == head;
    }
  }

  /** The lines of `processMethod` before the media types, as written one by one. */
  lemma MethodIntroWritten(m: PMethod, outerPath: string, start: seq<string>, lead: seq<string>, intro: seq<string>)
    requires lead == if m.gzip then start + [MethodHeading(m, outerPath)] + [""] + ["Supports GZIP'd responses"]
      else start + [MethodHeading(m, outerPath)] + [""]
    requires intro == if NonEmpty(m.notes) then
        lead + ["[.lead]"] + ["Description: " + Show(m.description)] + [""] + [".NOTE"] + [m.notes.value] + [""]
      else lead + ["[.lead]"] + ["Description: " + Show(m.description)] + [""]
    ensures intro == start + MethodIntro(m, outerPath)
  {
    var heading := [MethodHeading(m, outerPath), ""];
    var gzip: seq<string> := if m.gzip then ["Supports GZIP'd responses"] else [];
    var desc := ["[.lead]", "Description: " + Show(m.description), ""];
    var notes: seq<string> := if NonEmpty(m.notes) then [".NOTE", m.notes.value, ""] else [];
    AppendTwo(start, MethodHeading(m, outerPath), "");
    if !m.gzip {
      assert start + heading + gzip == start + heading;
    }
    assert lead == start + heading + gzip;
    AppendThree(lead, "[.lead]", "Description: " + Show(m.description), "");
    if NonEmpty(m.notes) {
      AppendThree(lead + desc, ".NOTE", m.notes.value, "");
    } else {
      assert lead + desc + notes == lead + desc;
    }
    assert intro == start + heading + gzip + desc + notes;
    AppendAssoc(start, heading, gzip);
    AppendAssoc(start, heading + gzip, desc);
    AppendAssoc(start, heading + gzip + desc, notes);
  }

  lemma MediaTypeLinesSplit(types: seq<string>, header: string, start: seq<string>, items: seq<string>,
                            result: seq<string>)
    requires types != []
    requires items == start + [header] + [""]
    requires result == items + Bullets(types) + [""]
    ensures result == start + MediaTypeLines(types, header)
  {
    AppendAssoc(start, [header, ""], Bullets(types));
    AppendAssoc(start, [header, ""] + Bullets(types), [""]);
  }

  lemma ParamTableSplit(params: seq<PParam>, start: seq<string>, rows: seq<string>, result: seq<string>)
    requires rows == start + [".Parameters"] + ["|==="]
      + ["|Name|Required|Type|Allowed Values|Default Value|Description"] + [""]
    requires result == rows + ParamRows(params) + ["|==="] + [""]
    ensures result == start + ParamTable(params)
  {
    assert rows == start + PARAM_TABLE_HEAD;
    AppendAssoc(start, PARAM_TABLE_HEAD, ParamRows(params));
    AppendAssoc(start, PARAM_TABLE_HEAD + ParamRows(params), ["|===", ""]);
  }

  lemma ErrorTableSplit(errors: seq<ErrorCode>, start: seq<string>, rows: seq<string>, result: seq<string>)
    requires rows == start + [".Error codes"] + ["|==="] + ["|Code|Reason"] + [""]
    requires result == rows + ErrorRows(errors) + ["|==="] + [""]
    ensures result == start + ErrorTable(errors)
  {
    assert rows == start + ERROR_TABLE_HEAD;
    AppendAssoc(start, ERROR_TABLE_HEAD, ErrorRows(errors));
    AppendAssoc(start, ERROR_TABLE_HEAD + ErrorRows(errors), ["|===", ""]);
  }

  /** The properties table: heading, rows and closing line, then the notes when there are any. */
  lemma PropertyTableSplit(props: seq<PProperty>, start: seq<string>, rows: seq<string>, notes: seq<string>,
                           result: seq<string>)
    requires props != []
    requires rows == start + [".Properties"] + ["|==="] + ["|Name|Type|Description"] + [""]
    requires notes == rows + PropertyRows(props) + ["|==="]
    requires result == if Noted(props) + 1 > 1 then notes + NoteLines(props) else notes
    ensures result == start + PropertyTable(props)
  {
    assert rows == start + PROPERTY_TABLE_HEAD;
    var n := if Noted(props) + 1 > 1 then NoteLines(props) else [];
    assert result == notes + n;
    AppendAssoc(start, PROPERTY_TABLE_HEAD, PropertyRows(props));
    AppendAssoc(start, PROPERTY_TABLE_HEAD + PropertyRows(props), ["|==="]);
    AppendAssoc(start, PROPERTY_TABLE_HEAD + PropertyRows(props) + ["|==="], n);
  }

  /** A data class section: its heading lines, its properties table, then a blank line. */
  lemma DataClassLinesSplit(d: PData, start: seq<string>, heading: seq<string>, table: seq<string>,
                            result: seq<string>)
    requires heading == start + ["[#" + d.nameId + "]"] + ["=== " + d.name + " - " + Show(d.shortDescription)] + [""]
    requires table == if NonEmpty(d.description) then heading + ["Description: " + d.description.value] + [""] + [""]
      else heading + [""]
    requires result == (if d.properties != [] then table + PropertyTable(d.properties) else table) + [""]
    ensures result == start + DataClassLines(d)
  {
    var head := ["[#" + d.nameId + "]", "=== " + d.name + " - " + Show(d.shortDescription), ""];
    var descr := if NonEmpty(d.description) then ["Description: " + d.description.value, ""] else [];
    var props := PropertyTable(d.properties);
    assert heading == start + head;
    assert table == start + head + descr + [""];
    assert result == table + props + [""];
    AppendAssoc(start, head, descr);
    AppendAssoc(start, head + descr, [""]);
    AppendAssoc(start, head + descr + [""], props);
    AppendAssoc(start, head + descr + [""] + props, [""]);
  }

  /** The data classes part: its heading, one section per data class, then a blank line. */
  lemma DataClassesSplit(data: seq<PData>, start: seq<string>, blocks: seq<string>, result: seq<string>)
    requires data != []
    requires blocks == start + ["== Data Classes"] + [""]
    requires result == blocks + DataBlocks(data) + [""]
    ensures result == start + DataClassesLines(Some(data))
  {
    AppendAssoc(start, ["== Data Classes", ""], DataBlocks(data));
    AppendAssoc(start, ["== Data Classes", ""] + DataBlocks(data), [""]);
  }
}
