/**
 * The AsciiDoc writer of the annotation processor (package
 * org.hawkular.apt.restdocs): the document title with the ":icons: font"
 * attribute, one section per resource class with its produced and consumed
 * media types, one subsection per method, then the data classes.
 *
 * The `java.io.Writer` it fills is the pair `lines` (every line ended so far)
 * and `partial` (text written without a line end yet).
 */
module AptAsciiDocWriter {
  import opened Wrappers
  import opened Strings
  import opened RestModel
  import opened Seqs
  import opened AsciiDoc

  // ---------------------------------------------------------------------------
  // The document, as a function of the API

  /** `writeIntro`: the title, the icons attribute and a blank line. */
  function IntroLines(api: PApi): seq<string> {
    ["= " + api.name, ":icons: font", ""]
  }

  /** `processMethod` for one method of a class mounted at `outerPath`. */
  function MethodLines(m: PMethod, outerPath: string): seq<string> {
    MethodIntro(m, outerPath) + MediaTypeLines(m.produces, "Produces:") + MediaTypeLines(m.consumes, "Consumes:")
      + MethodTail(m)
  }

  function MethodBlocks(methods: seq<PMethod>, outerPath: string): seq<string>
    decreases |methods|
  {
    if methods == [] then []
    else MethodBlocks(methods[..|methods| - 1], outerPath) + MethodLines(methods[|methods| - 1], outerPath)
  }

  /** `processClass`: heading, media types, the methods in order, a blank line. */
  function ClassLines(c: PClass): seq<string> {
    ClassIntro(c) + MediaTypeLines(c.produces, "Produces:") + MediaTypeLines(c.consumes, "Consumes:")
      + MethodBlocks(c.methods, c.path) + [""]
  }

  function ClassBlocks(classes: seq<PClass>): seq<string>
    decreases |classes|
  {
    if classes == [] then []
    else ClassBlocks(classes[..|classes| - 1]) + ClassLines(classes[|classes| - 1])
  }

  /** `write`: everything the writer emits for the API. */
  function Document(api: PApi): seq<string> {
    IntroLines(api) + ClassBlocks(api.classes) + DataClassesLines(api.data)
  }

  // ---------------------------------------------------------------------------
  // What the document promises

  /** The document opens with the title, the icons attribute and a blank line. */
  lemma DocumentOpening(api: PApi)
    ensures |Document(api)| >= 3
    ensures Document(api)[..3] == ["= " + api.name, ":icons: font", ""]
  {
    var rest := ClassBlocks(api.classes) + DataClassesLines(api.data);
    AppendAssoc(IntroLines(api), ClassBlocks(api.classes), DataClassesLines(api.data));
    assert (IntroLines(api) + rest)[..3] == IntroLines(api);
  }

  /** The sections of the first `k` classes come first, in order. */
  lemma {:induction false} ClassBlocksPrefix(classes: seq<PClass>, k: nat)
    requires k <= |classes|
    ensures ClassBlocks(classes[..k]) <= ClassBlocks(classes)
    decreases |classes| - k
  {
    if k == |classes| {
      assert classes[..k] == classes;
    } else {
      ClassBlocksPrefix(classes, k + 1);
      ClassBlocksSnoc(classes, k);
      PrefixOfAppend(ClassBlocks(classes[..k]), ClassLines(classes[k]), ClassBlocks(classes));
    }
  }

  /** A class section opens with the class heading. */
  lemma ClassLinesOpening(c: PClass)
    ensures |ClassLines(c)| > 0 && ClassLines(c)[0] == ClassHeading(c)
  {
    var rest := MediaTypeLines(c.produces, "Produces:") + MediaTypeLines(c.consumes, "Consumes:")
      + MethodBlocks(c.methods, c.path) + [""];
    assert ClassLines(c) == ClassIntro(c) + rest by {
      AppendAssoc(ClassIntro(c), MediaTypeLines(c.produces, "Produces:"), MediaTypeLines(c.consumes, "Consumes:"));
      AppendAssoc(ClassIntro(c), MediaTypeLines(c.produces, "Produces:") + MediaTypeLines(c.consumes, "Consumes:"),
        MethodBlocks(c.methods, c.path));
      AppendAssoc(ClassIntro(c), MediaTypeLines(c.produces, "Produces:") + MediaTypeLines(c.consumes, "Consumes:")
        + MethodBlocks(c.methods, c.path), [""]);
    }
  }

  /** Class `k`'s section follows the sections before it and opens with its heading. */
  lemma ClassHeadingAt(classes: seq<PClass>, k: nat)
    requires k < |classes|
    ensures ClassBlocks(classes[..k]) + [ClassHeading(classes[k])] <= ClassBlocks(classes)
  {
    ClassBlocksPrefix(classes, k + 1);
    ClassBlocksSnoc(classes, k);
    ClassLinesOpening(classes[k]);
    FirstOfBlock(ClassBlocks(classes[..k]), ClassLines(classes[k]), ClassBlocks(classes));
  }

  /** The subsections of the first `k` methods come first, in order. */
  lemma {:induction false} MethodBlocksPrefix(methods: seq<PMethod>, outerPath: string, k: nat)
    requires k <= |methods|
    ensures MethodBlocks(methods[..k], outerPath) <= MethodBlocks(methods, outerPath)
    decreases |methods| - k
  {
    if k == |methods| {
      assert methods[..k] == methods;
    } else {
      MethodBlocksPrefix(methods, outerPath, k + 1);
      MethodBlocksSnoc(methods, outerPath, k);
      PrefixOfAppend(MethodBlocks(methods[..k], outerPath), MethodLines(methods[k], outerPath),
        MethodBlocks(methods, outerPath));
    }
  }

  /** A method subsection opens with the method heading. */
  lemma MethodLinesOpening(m: PMethod, outerPath: string)
    ensures |MethodLines(m, outerPath)| > 0 && MethodLines(m, outerPath)[0] == MethodHeading(m, outerPath)
  {
    var intro := MethodIntro(m, outerPath);
    var rest := MediaTypeLines(m.produces, "Produces:") + MediaTypeLines(m.consumes, "Consumes:") + MethodTail(m);
    assert MethodLines(m, outerPath) == intro + rest by {
      AppendAssoc(intro, MediaTypeLines(m.produces, "Produces:"), MediaTypeLines(m.consumes, "Consumes:"));
      AppendAssoc(intro, MediaTypeLines(m.produces, "Produces:") + MediaTypeLines(m.consumes, "Consumes:"),
        MethodTail(m));
    }
  }

  /** Method `k`'s subsection follows those before it and opens with its heading. */
  lemma MethodHeadingAt(methods: seq<PMethod>, outerPath: string, k: nat)
    requires k < |methods|
    ensures MethodBlocks(methods[..k], outerPath) + ["=== " + (methods[k].httpMethod + " /" + outerPath + "/" + methods[k].path)]
      <= MethodBlocks(methods, outerPath)
  {
    MethodBlocksPrefix(methods, outerPath, k + 1);
    MethodBlocksSnoc(methods, outerPath, k);
    MethodLinesOpening(methods[k], outerPath);
    FirstOfBlock(MethodBlocks(methods[..k], outerPath), MethodLines(methods[k], outerPath), MethodBlocks(methods, outerPath));
  }

  lemma ClassBlocksSnoc(classes: seq<PClass>, i: nat)
    requires i < |classes|
    ensures ClassBlocks(classes[..i + 1]) == ClassBlocks(classes[..i]) + ClassLines(classes[i])
  {
    assert classes[..i + 1][..i] == classes[..i];
  }

  lemma MethodBlocksSnoc(methods: seq<PMethod>, outerPath: string, i: nat)
    requires i < |methods|
    ensures MethodBlocks(methods[..i + 1], outerPath) == MethodBlocks(methods[..i], outerPath) + MethodLines(methods[i], outerPath)
  {
    assert methods[..i + 1][..i] == methods[..i];
  }

  /** A class section, as `processClass` writes it out. */
  lemma ClassLinesSplit(c: PClass, start: seq<string>, intro: seq<string>, media: seq<string>, result: seq<string>)
    requires intro == start + ClassIntro(c)
    requires media == intro + MediaTypeLines(c.produces, "Produces:") + MediaTypeLines(c.consumes, "Consumes:")
    requires result == media + MethodBlocks(c.methods, c.path) + [""]
    ensures result == start + ClassLines(c)
  {
    var i := ClassIntro(c);
    var p, q := MediaTypeLines(c.produces, "Produces:"), MediaTypeLines(c.consumes, "Consumes:");
    var ms := MethodBlocks(c.methods, c.path);
    AppendAssoc(start, i, p);
    AppendAssoc(start, i + p, q);
    AppendAssoc(start, i + p + q, ms);
    AppendAssoc(start, i + p + q + ms, [""]);
  }

  /** A method subsection, as `processMethod` writes it out. */
  lemma MethodLinesSplit(m: PMethod, outerPath: string, start: seq<string>, intro: seq<string>,
                         media: seq<string>, returned: seq<string>, tables: seq<string>, result: seq<string>)
    requires intro == start + MethodIntro(m, outerPath)
    requires media == intro + MediaTypeLines(m.produces, "Produces:") + MediaTypeLines(m.consumes, "Consumes:")
    requires returned == if m.returnType.Some? then media + [ReturnTypeLine(m.returnType.value)] + [""] else media
    requires tables == if m.params != [] then returned + ParamTable(m.params) else returned
    requires result == (if m.errors != [] then tables + ErrorTable(m.errors) else tables) + [""]
    ensures result == start + MethodLines(m, outerPath)
  {
    var i := MethodIntro(m, outerPath);
    var p, q := MediaTypeLines(m.produces, "Produces:"), MediaTypeLines(m.consumes, "Consumes:");
    MethodTailWritten(m, media, returned, tables, result);
    AppendAssoc(start, i, p);
    AppendAssoc(start, i + p, q);
    AppendAssoc(start, i + p + q, MethodTail(m));
  }

  // ---------------------------------------------------------------------------
  // The writer

  class AsciiDocWriter {
    /** The lines ended so far. */
    var lines: seq<string>
    /** Text written since the last line end. */
    var partial: string

    constructor ()
      ensures lines == [] && partial == ""
    {
      lines := [];
      partial := "";
    }

    /** `writeLine`: ends the current line with `item`. */
    method WriteLine(item: string)
      modifies this
      ensures lines == old(lines) + [old(partial) + item] && partial == ""
      ensures old(partial) == "" ==> lines == old(lines) + [item]
    {
      assert "" + item == item;
      lines := lines + [partial + item];
      partial := "";
    }

    /** `write`: adds to the current line without ending it. */
    method Write(item: string)
      modifies this
      ensures lines == old(lines) && partial == old(partial) + item
      ensures old(partial) == "" ==> partial == item
    {
      assert "" + item == item;
      partial := partial + item;
    }

    /** `lf`: ends the current line; an empty line when nothing is pending. */
    method Lf()
      modifies this
      ensures lines == old(lines) + [old(partial)] && partial == ""
    {
      assert partial + "" == partial;
      WriteLine("");
    }

    /** `write(File, PApi)`: the whole document, into a fresh writer. */
    method WriteDocument(api: PApi)
      modifies this
      ensures lines == Document(api) && partial == ""
    {
      lines, partial := [], "";
      WriteIntro(api);
      assert [] + IntroLines(api) == IntroLines(api);
      ghost var intro := lines;
      ProcessClasses(api.classes);
      ghost var classes := lines;
      ProcessDataClasses(api.data);
      AppendAssoc(intro, ClassBlocks(api.classes), DataClassesLines(api.data));
    }

    method WriteIntro(api: PApi)
      requires partial == ""
      modifies this
      ensures lines == old(lines) + IntroLines(api) && partial == ""
    {
      WriteLine("= " + api.name);
      WriteLine(":icons: font");
      Lf();
    }

    method ProcessClasses(classes: seq<PClass>)
      requires partial == ""
      modifies this
      ensures lines == old(lines) + ClassBlocks(classes) && partial == ""
    {
      ghost var start := lines;
      for i := 0 to |classes|
        invariant lines == start + ClassBlocks(classes[..i]) && partial == ""
      {
        ClassBlocksSnoc(classes, i);
        AppendAssoc(start, ClassBlocks(classes[..i]), ClassLines(classes[i]));
        ProcessClass(classes[i]);
      }
      WholeSlice(classes);
    }

    method ProcessClass(c: PClass)
      requires partial == ""
      modifies this
      ensures lines == old(lines) + ClassLines(c) && partial == ""
    {
      ghost var start := lines;
      if NonEmpty(c.shortDesc) {
        WriteLine("== " + c.shortDesc.value);
      } else {
        WriteLine("== " + c.path);
      }
      assert lines == start + [ClassHeading(c)];
      Lf();
      WriteLine("Implemented in: " + c.name);
      Lf();
      if NonEmpty(c.description) {
        WriteLine("Description: " + c.description.value);
        Lf();
      }
      ghost var intro := lines;
      ClassIntroWritten(c, start, intro);
      HandleMediaTypes(c.produces, "Produces:");
      HandleMediaTypes(c.consumes, "Consumes:");
      ghost var media := lines;
      ProcessMethods(c.methods, c.path);
      Lf();
      ClassLinesSplit(c, start, intro, media, lines);
    }

    /** The loop of `processClass` over the class's methods. */
    method ProcessMethods(methods: seq<PMethod>, outerPath: string)
      requires partial == ""
      modifies this
      ensures lines == old(lines) + MethodBlocks(methods, outerPath) && partial == ""
    {
      ghost var start := lines;
      for i := 0 to |methods|
        invariant lines == start + MethodBlocks(methods[..i], outerPath) && partial == ""
      {
        MethodBlocksSnoc(methods, outerPath, i);
        AppendAssoc(start, MethodBlocks(methods[..i], outerPath), MethodLines(methods[i], outerPath));
        ProcessMethod(methods[i], outerPath);
      }
      WholeSlice(methods);
    }

    /** `handleMediaTypes`: the list under its header, only when it is not empty. */
    method HandleMediaTypes(types: seq<string>, header: string)
      requires partial == ""
      modifies this
      ensures lines == old(lines) + MediaTypeLines(types, header) && partial == ""
    {
      if types != [] {
        ghost var start := lines;
        WriteLine(header);
        Lf();
        ghost var items := lines;
        for i := 0 to |types|
          invariant lines == items + Bullets(types[..i]) && partial == ""
        {
          MapSnoc(Bullet, types, i);
          AppendAssoc(items, Bullets(types[..i]), [Bullet(types[i])]);
          WriteLine("* " + types[i]);
        }
        WholeSlice(types);
        Lf();
        MediaTypeLinesSplit(types, header, start, items, lines);
      } else {
        assert lines == lines + [];
      }
    }

    method ProcessMethod(m: PMethod, outerPath: string)
      requires partial == ""
      modifies this
      ensures lines == old(lines) + MethodLines(m, outerPath) && partial == ""
    {
      ghost var start := lines;
      var header := m.httpMethod + " /" + outerPath + "/" + m.path;
      WriteLine("=== " + header);
      Lf();
      if m.gzip {
        WriteLine("Supports GZIP'd responses");
      }
      ghost var lead := lines;
      assert lead == if m.gzip then start + [MethodHeading(m, outerPath)] + [""] + ["Supports GZIP'd responses"]
        else start + [MethodHeading(m, outerPath)] + [""];
      WriteLine("[.lead]");
      WriteLine("Description: " + Show(m.description));
      Lf();
      if NonEmpty(m.notes) {
        WriteLine(".NOTE");
        WriteLine(m.notes.value);
        Lf();
      }
      ghost var intro := lines;
      MethodIntroWritten(m, outerPath, start, lead, intro);
      HandleMediaTypes(m.produces, "Produces:");
      HandleMediaTypes(m.consumes, "Consumes:");
      ghost var media := lines;
      if m.returnType.Some? {
        Write("Return type: ");
        if StartsWith(m.returnType.value.typeId, "...") {
          Write("[[" + m.returnType.value.typeId + "]] ");
        }
        WriteLine(m.returnType.value.typeString);
        Lf();
      }
      ghost var returned := lines;
      assert returned == if m.returnType.Some? then media + [ReturnTypeLine(m.returnType.value)] + [""] else media;
      if m.params != [] {
        ProcessParams(m.params);
      }
      ghost var tables := lines;
      assert tables == if m.params != [] then returned + ParamTable(m.params) else returned;
      if m.errors != [] {
        ProcessErrorCodes(m.errors);
      }
      Lf();
      MethodLinesSplit(m, outerPath, start, intro, media, returned, tables, lines);
    }

    method ProcessParams(params: seq<PParam>)
      requires partial == ""
      modifies this
      ensures lines == old(lines) + ParamTable(params) && partial == ""
    {
      ghost var start := lines;
      WriteLine(".Parameters");
      WriteLine("|===");
      WriteLine("|Name|Required|Type|Allowed Values|Default Value|Description");
      Lf();
      ghost var rows := lines;
      for i := 0 to |params|
        invariant lines == rows + ParamRows(params[..i]) && partial == ""
      {
        MapSnoc(ParamRow, params, i);
        AppendAssoc(rows, ParamRows(params[..i]), [ParamRow(params[i])]);
        var p := params[i];
        WriteLine(TableRow([p.name, BoolToString(p.required), p.paramType.Name(),
          Show(p.allowableValues), Show(p.defaultValue), Show(p.description)]));
      }
      WholeSlice(params);
      WriteLine("|===");
      Lf();
      ParamTableSplit(params, start, rows, lines);
    }

    method ProcessErrorCodes(errors: seq<ErrorCode>)
      requires partial == ""
      modifies this
      ensures lines == old(lines) + ErrorTable(errors) && partial == ""
    {
      ghost var start := lines;
      WriteLine(".Error codes");
      WriteLine("|===");
      WriteLine("|Code|Reason");
      Lf();
      ghost var rows := lines;
      for i := 0 to |errors|
        invariant lines == rows + ErrorRows(errors[..i]) && partial == ""
      {
        MapSnoc(ErrorRow, errors, i);
        AppendAssoc(rows, ErrorRows(errors[..i]), [ErrorRow(errors[i])]);
        WriteLine(TableRow([" " + IntToString(errors[i].code), errors[i].reason]));
      }
      WholeSlice(errors);
      WriteLine("|===");
      Lf();
      ErrorTableSplit(errors, start, rows, lines);
    }

    method ProcessDataClasses(data: Option<seq<PData>>)
      requires partial == ""
      modifies this
      ensures lines == old(lines) + DataClassesLines(data) && partial == ""
    {
      if data.None? || data.value == [] {
        assert lines == lines + [];
        return;
      }
      ghost var start := lines;
      var ds := data.value;
      WriteLine("== Data Classes");
      Lf();
      ghost var blocks := lines;
      for i := 0 to |ds|
        invariant lines == blocks + DataBlocks(ds[..i]) && partial == ""
      {
        DataBlocksSnoc(ds, i);
        AppendAssoc(blocks, DataBlocks(ds[..i]), DataClassLines(ds[i]));
        ProcessDataClass(ds[i]);
      }
      WholeSlice(ds);
      Lf();
      DataClassesSplit(ds, start, blocks, lines);
    }

    /** `processDataClass`; its properties table is written by `WritePropertyTable`. */
    method ProcessDataClass(d: PData)
      requires partial == ""
      modifies this
      ensures lines == old(lines) + DataClassLines(d) && partial == ""
    {
      ghost var start := lines;
      WriteLine("[#" + d.nameId + "]");
      WriteLine("=== " + d.name + " - " + Show(d.shortDescription));
      Lf();
      ghost var heading := lines;
      if NonEmpty(d.description) {
        WriteLine("Description: " + d.description.value);
        Lf();
      }
      Lf();
      ghost var table := lines;
      if d.properties != [] {
        WritePropertyTable(d.properties);
      }
      Lf();
      DataClassLinesSplit(d, start, heading, table, lines);
    }

    /** The properties table of `processDataClass`, numbering the notes with `notecount`. */
    method WritePropertyTable(props: seq<PProperty>)
      requires partial == "" && props != []
      modifies this
      ensures lines == old(lines) + PropertyTable(props) && partial == ""
    {
      ghost var start := lines;
      WriteLine(".Properties");
      WriteLine("|===");
      WriteLine("|Name|Type|Description");
      Lf();
      ghost var rows := lines;
      var notecount := WritePropertyRows(props);
      WriteLine("|===");
      ghost var notes := lines;
      if notecount > 1 {
        WriteNotes(props);
      } else {
        assert lines == lines + [];
      }
      PropertyTableSplit(props, start, rows, notes, lines);
    }

    /** The rows of the properties table; `notecount` ends one past the last marker given out. */
    method WritePropertyRows(props: seq<PProperty>) returns (notecount: int)
      requires partial == ""
      modifies this
      ensures lines == old(lines) + PropertyRows(props) && partial == ""
      ensures notecount == Noted(props) + 1
    {
      ghost var rows := lines;
      notecount := 1;
      for i := 0 to |props|
        invariant lines == rows + PropertyRows(props[..i]) && partial == ""
        invariant notecount == Noted(props[..i]) + 1
      {
        PropertyRowsSnoc(props, i);
        AppendAssoc(rows, PropertyRows(props[..i]), [PropertyRow(props[i], notecount)]);
        var property := props[i];
        var descr := if property.description.None? then "" else property.description.value;
        var marker := "";
        if property.notes.Some? {
          marker := " (" + IntToString(notecount) + ")";
          notecount := notecount + 1;
        }
        WriteLine(TableRow([property.name, property.typeName, descr + marker]));
      }
      WholeSlice(props);
    }

    /** The numbered notes after the table, counting again from 1. */
    method WriteNotes(props: seq<PProperty>)
      requires partial == ""
      modifies this
      ensures lines == old(lines) + NoteLines(props) && partial == ""
    {
      ghost var notes := lines;
      var notecount := 1;
      for i := 0 to |props|
        invariant lines == notes + NoteLines(props[..i]) && partial == ""
        invariant notecount == Noted(props[..i]) + 1
      {
        NoteLinesSnoc(props, i);
        var property := props[i];
        if property.notes.Some? {
          AppendAssoc(notes, NoteLines(props[..i]), [NoteLine(notecount, property.notes.value)]);
          WriteLine("<" + IntToString(notecount) + "> " + property.notes.value);
          notecount := notecount + 1;
        } else {
          assert lines == lines + [];
        }
      }
      WholeSlice(props);
    }
  }
}
