/**
 * How the two AsciiDoc writers relate. The annotation processor's writer adds
 * the ":icons: font" attribute, the consumed media types of classes and the
 * media types of methods; for an API that has none of those, its document is
 * the older writer's document with that one attribute line after the title.
 */
module WriterVariants {
  import opened RestModel
  import opened Seqs
  import AsciiDoc
  import Apt = AptAsciiDocWriter
  import Helpers = HelpersAsciiDocWriter

  /** No method in `methods` lists media types. */
  predicate MethodsWithoutMediaTypes(methods: seq<PMethod>) {
    forall i :: 0 <= i < |methods| ==> methods[i].produces == [] && methods[i].consumes == []
  }

  /** No class in `classes` lists consumed media types, and none of their methods lists any. */
  predicate OnlyClassProduces(classes: seq<PClass>) {
    forall i :: 0 <= i < |classes| ==> classes[i].consumes == [] && MethodsWithoutMediaTypes(classes[i].methods)
  }

  lemma MethodLinesAgree(m: PMethod, outerPath: string)
    requires m.produces == [] && m.consumes == []
    ensures Apt.MethodLines(m, outerPath) == Helpers.MethodLines(m, outerPath)
  {
    var intro := AsciiDoc.MethodIntro(m, outerPath);
    assert intro + [] + [] == intro;
  }

  lemma {:induction false} MethodBlocksAgree(methods: seq<PMethod>, outerPath: string)
    requires MethodsWithoutMediaTypes(methods)
    ensures Apt.MethodBlocks(methods, outerPath) == Helpers.MethodBlocks(methods, outerPath)
    decreases |methods|
  {
    if methods != [] {
      var init := methods[..|methods| - 1];
      assert MethodsWithoutMediaTypes(init) by {
        forall i | 0 <= i < |init| ensures init[i] == methods[i] { }
      }
      MethodBlocksAgree(init, outerPath);
      MethodLinesAgree(methods[|methods| - 1], outerPath);
    }
  }

  lemma ClassLinesAgree(c: PClass)
    requires c.consumes == [] && MethodsWithoutMediaTypes(c.methods)
    ensures Apt.ClassLines(c) == Helpers.ClassLines(c)
  {
    MethodBlocksAgree(c.methods, c.path);
    var head := AsciiDoc.ClassIntro(c) + AsciiDoc.MediaTypeLines(c.produces, "Produces:");
    assert head + [] == head;
  }

  lemma {:induction false} ClassBlocksAgree(classes: seq<PClass>)
    requires OnlyClassProduces(classes)
    ensures Apt.ClassBlocks(classes) == Helpers.ClassBlocks(classes)
    decreases |classes|
  {
    if classes != [] {
      var init := classes[..|classes| - 1];
      assert OnlyClassProduces(init) by {
        forall i | 0 <= i < |init| ensures init[i] == classes[i] { }
      }
      ClassBlocksAgree(init);
      ClassLinesAgree(classes[|classes| - 1]);
    }
  }

  /**
   * Without consumed media types and without media types on methods, the
   * annotation processor's document is the older writer's document with the
   * icons attribute after the title.
   */
  lemma DocumentsAgree(api: PApi)
    requires OnlyClassProduces(api.classes)
    ensures Apt.Document(api) == Helpers.Document(api)[..1] + [":icons: font"] + Helpers.Document(api)[1..]
  {
    ClassBlocksAgree(api.classes);
    var rest := Helpers.ClassBlocks(api.classes) + AsciiDoc.DataClassesLines(api.data);
    AppendAssoc(Apt.IntroLines(api), Helpers.ClassBlocks(api.classes), AsciiDoc.DataClassesLines(api.data));
    AppendAssoc(Helpers.IntroLines(api), Helpers.ClassBlocks(api.classes), AsciiDoc.DataClassesLines(api.data));
    InsertSecond("= " + api.name, ":icons: font", "", rest);
  }

  /** A line put after the first one of `[a, b] + rest`. */
  lemma InsertSecond<T>(a: T, x: T, b: T, rest: seq<T>)
    ensures [a, x, b] + rest == ([a, b] + rest)[..1] + [x] + ([a, b] + rest)[1..]
  {
    var h := [a, b] + rest;
    assert h[..1] == [a];
    assert h[1..] == [b] + rest;
  }
}
