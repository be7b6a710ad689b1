/**
 * The deterministic core of the JAX-RS annotation processor: how it cleans
 * paths, shortens type names and derives link ids, picks the HTTP method,
 * classifies parameters with their required and default rules, derives
 * property names from getters, and looks up its options.
 *
 * The annotations it reads through `javax.lang.model` are given here as plain
 * records: an annotation that is absent is `None`.
 */
module Processor {
  import opened Wrappers
  import opened Strings
  import opened RestModel
  import opened Seqs

  /** The exception a Java `substring` with a bad index throws. */
  datatype Thrown = StringIndexOutOfBounds(index: int, length: int)

  const JAVAX_WS_RS: string := "javax.ws.rs"
  const HTTP_METHODS: seq<string> := ["GET", "PUT", "POST", "HEAD", "DELETE", "OPTIONS"]
  const PARAM_SKIP_ANNOTATIONS: seq<string> := [
    "javax.ws.rs.core.UriInfo", "javax.ws.rs.core.HttpHeaders",
    "javax.servlet.http.HttpServletRequest", "javax.ws.rs.core.Request",
    "javax.ws.rs.container.Suspended"]
  const NO_DEFAULT: string := "-none-"

  // ---------------------------------------------------------------------------
  // Options and paths

  /**
   * `getProcessorOption`: the value configured for `key`, or `defaultValue`
   * when the key is absent. An option given without a value (`-Akey`) is
   * present with no value (`None`), and that is what is returned.
   */
  function GetProcessorOption(options: map<string, Option<string>>, key: string, defaultValue: Option<string>): (r: Option<string>)
    ensures key in options ==> r == options[key]
    ensures key !in options ==> r == defaultValue
  {
    if key in options then options[key] else defaultValue
  }

  /** Setting an option changes what is read for that key and for no other. */
  lemma OptionOverride(options: map<string, Option<string>>, key: string, value: Option<string>, other: string, defaultValue: Option<string>)
    ensures GetProcessorOption(options[key := value], key, defaultValue) == value
    ensures other != key ==>
      GetProcessorOption(options[key := value], other, defaultValue) == GetProcessorOption(options, other, defaultValue)
  {
  }

  /** An option given without a value hides the default: the lookup yields no value at all. */
  lemma OptionWithoutValue(options: map<string, Option<string>>, key: string, defaultValue: Option<string>)
    requires key in options && options[key].None?
    ensures GetProcessorOption(options, key, defaultValue).None?
  {
  }

  /** `cleanOutPath`: "/" becomes "", else one leading and then one trailing "/" go. */
  function CleanOutPath(path: string): (r: string)
    ensures path == "/" ==> r == ""
    ensures path != "/" ==>
      var k := if StartsWith(path, "/") then 1 else 0;
      |path| - k - 1 <= |r| <= |path| - k && r == path[k..k + |r|] &&
      (|r| < |path| - k ==> path[|path| - 1] == '/') &&
      (EndsWith(path[k..], "/") ==> |r| == |path| - k - 1) &&
      (!EndsWith(path[k..], "/") ==> |r| == |path| - k)
  {
    if path == "/" then ""
    else
      var p := if StartsWith(path, "/") then path[1..] else path;
      if EndsWith(p, "/") then p[..|p| - 1] else p
  }

  /** A path with no slash at either end. */
  predicate Trimmed(p: string) {
    p == [] || (p[0] != '/' && p[|p| - 1] != '/')
  }

  /** Cleaning gives back the path inside, with or without its slashes. */
  lemma CleanOutPathRoundTrip(p: string, lead: bool, trail: bool)
    requires Trimmed(p)
    ensures CleanOutPath((if lead then "/" else "") + p + (if trail then "/" else "")) == p
  {
    var s := (if lead then "/" else "") + p + (if trail then "/" else "");
    if p == [] {
      assert s == if lead && trail then "//" else if lead || trail then "/" else "";
      if lead && trail {
        assert s[1..] == "/";
      }
    } else {
      assert s != "/" by {
        if !lead {
          assert s[0] == p[0];
        }
      }
      var q := if StartsWith(s, "/") then s[1..] else s;
      assert StartsWith(s, "/") == lead by {
        if !lead {
          assert s[0] == p[0];
        }
      }
      assert q == p + (if trail then "/" else "");
      assert EndsWith(q, "/") == trail by {
        if !trail {
          assert q[|q| - 1] == p[|p| - 1];
        }
      }
      if trail {
        assert q[..|q| - 1] == p;
      }
    }
  }

  /** Cleaning is not idempotent: a third slash survives the first pass. */
  lemma CleanOutPathNotIdempotent()
    ensures CleanOutPath("///") == "/"
    ensures CleanOutPath(CleanOutPath("///")) == ""
  {
    assert StartsWith("///", "/");
    assert "///"[1..] == "//";
    assert EndsWith("//", "/");
    assert "//"[..1] == "/";
  }

  // ---------------------------------------------------------------------------
  // Parameter types that are not documented, and the HTTP method

  /** The declared type of a parameter is one that the documentation skips. */
  predicate IsSkippedType(typeName: string) {
    typeName in PARAM_SKIP_ANNOTATIONS
  }

  /** `skipParamType`: a linear search of the skip list with a flag. */
  method SkipParamType(typeName: string) returns (skip: bool)
    ensures skip <==> exists i :: 0 <= i < |PARAM_SKIP_ANNOTATIONS| && PARAM_SKIP_ANNOTATIONS[i] == typeName
    ensures skip == IsSkippedType(typeName)
  {
    skip := false;
    var i := 0;
    while i < |PARAM_SKIP_ANNOTATIONS|
      invariant 0 <= i <= |PARAM_SKIP_ANNOTATIONS|
      invariant forall j :: 0 <= j < i ==> PARAM_SKIP_ANNOTATIONS[j] != typeName
    {
      if PARAM_SKIP_ANNOTATIONS[i] == typeName {
        skip := true;
        break;
      }
      i := i + 1;
    }
  }

  /** An annotation on a resource method: its package and its simple name. */
  datatype AnnotationRef = AnnotationRef(packageName: string, simpleName: string)

  /** An annotation that names an HTTP method. */
  predicate IsHttpMethod(a: AnnotationRef) {
    StartsWith(a.packageName, JAVAX_WS_RS) && a.simpleName in HTTP_METHODS
  }

  /** `getHttpMethod`: the first HTTP-method annotation, or "GET". */
  method GetHttpMethod(annotations: seq<AnnotationRef>) returns (r: string)
    ensures r in HTTP_METHODS
    ensures (forall i :: 0 <= i < |annotations| ==> !IsHttpMethod(annotations[i])) ==> r == "GET"
    ensures forall i ::
      (0 <= i < |annotations| && IsHttpMethod(annotations[i]) &&
       forall j :: 0 <= j < i ==> !IsHttpMethod(annotations[j]))
      ==> r == annotations[i].simpleName
  {
    var k := 0;
    while k < |annotations|
      invariant 0 <= k <= |annotations|
      invariant forall j :: 0 <= j < k ==> !IsHttpMethod(annotations[j])
    {
      var am := annotations[k];
      if StartsWith(am.packageName, JAVAX_WS_RS) {
        var n := 0;
        while n < |HTTP_METHODS|
          invariant 0 <= n <= |HTTP_METHODS|
          invariant forall j :: 0 <= j < n ==> HTTP_METHODS[j] != am.simpleName
        {
          if am.simpleName == HTTP_METHODS[n] {
            return HTTP_METHODS[n];
          }
          n := n + 1;
        }
      }
      k := k + 1;
    }
    return "GET";
  }

  // ---------------------------------------------------------------------------
  // Type names

  /** All "java.lang." are removed, or else all "java.util.", never both. */
  function StripJavaPackages(typeName: string): (r: string)
    ensures |r| <= |typeName|
    ensures !Contains(typeName, "java.lang.") && !Contains(typeName, "java.util.") ==> r == typeName
  {
    ReplaceAllDeleteShrinks(typeName, "java.lang.");
    ReplaceAllDeleteShrinks(typeName, "java.util.");
    if Contains(typeName, "java.lang.") then ReplaceAll(typeName, "java.lang.", "")
    else if Contains(typeName, "java.util.") then ReplaceAll(typeName, "java.util.", "")
    else typeName
  }

  /** A type of `java.lang` loses its package. */
  lemma StripJavaLang(n: string)
    requires !Contains(n, "java.lang.")
    ensures StripJavaPackages("java.lang." + n) == n
  {
    StartsWithContains("java.lang." + n, "java.lang.");
    ReplaceAllLeading("java.lang.", n, "");
    ReplaceAllAbsent(n, "java.lang.", "");
  }

  /** A type of `java.util` loses its package when nothing names `java.lang`. */
  lemma StripJavaUtil(n: string)
    requires !Contains("java.util." + n, "java.lang.")
    requires !Contains(n, "java.util.")
    ensures StripJavaPackages("java.util." + n) == n
  {
    StartsWithContains("java.util." + n, "java.util.");
    ReplaceAllLeading("java.util.", n, "");
    ReplaceAllAbsent(n, "java.util.", "");
  }

  /**
   * `constructTypeInfo`: the shortened type name and the link id. A type that
   * mentions the model package links to "..." and the name after the package,
   * inside the first "<" for a collection. The index arithmetic assumes the
   * package sits right at that place; where the string is too short the
   * `substring` throws.
   */
  function ConstructTypeInfo(typeString: string, modelPackage: Option<string>): (r: Result<PTypeInfo, Thrown>)
    ensures r.Failure? ==> modelPackage.Some?
    ensures r.Success? ==> r.value.typeId == typeString || StartsWith(r.value.typeId, "...")
    ensures r.Success? ==> |r.value.typeString| <= |typeString|
    ensures modelPackage.None? ==> r == Success(PTypeInfo(StripJavaPackages(typeString), typeString))
    ensures modelPackage.Some? && !Contains(StripJavaPackages(typeString), modelPackage.value) ==>
      r == Success(PTypeInfo(StripJavaPackages(typeString), typeString))
    ensures modelPackage.Some? && Contains(StripJavaPackages(typeString), modelPackage.value) ==>
      var ts := StripJavaPackages(typeString);
      (r.Failure? <==> LinkBegin(ts, modelPackage.value) > |ts|) &&
      (r.Success? ==> r.value.typeId == LinkId(ts[LinkBegin(ts, modelPackage.value)..]))
  {
    var ts := StripJavaPackages(typeString);
    if modelPackage.Some? && Contains(ts, modelPackage.value) then ModelTypeInfo(ts, modelPackage.value)
    else Success(PTypeInfo(ts, typeString))
  }

  /** The prefix removed from the type name: the model package with one trailing ".". */
  function PackagePrefix(mp: string): string {
    if EndsWith(mp, ".") then mp else mp + "."
  }

  /** Where the class name starts: after the package, inside the first "<" if there is one. */
  function LinkBegin(ts: string, mp: string): int {
    (if Contains(ts, "<") then IndexOf(ts, '<') + 1 else 0) + |mp| + 1
  }

  /**
   * The link id: "..." and the text from the class name on, without a closing
   * ">": putting the ">" back behind what follows the "..." gives `rest` again.
   */
  function LinkId(rest: string): (r: string)
    ensures StartsWith(r, "...")
    ensures EndsWith(rest, ">") ==> r[3..] + ">" == rest
    ensures !EndsWith(rest, ">") ==> r[3..] == rest
  {
    var restType := if EndsWith(rest, ">") then rest[..|rest| - 1] else rest;
    assert ("..." + restType)[..3] == "...";
    assert ("..." + restType)[3..] == restType;
    "..." + restType
  }

  /**
   * The link for a type name `ts` that mentions the model package `mp`: the
   * `substring` at LinkBegin throws exactly when that index lies beyond the
   * end; otherwise the name loses the package prefix and the id is LinkId of
   * what follows the index.
   */
  function ModelTypeInfo(ts: string, mp: string): (r: Result<PTypeInfo, Thrown>)
    ensures r.Failure? <==> LinkBegin(ts, mp) > |ts|
    ensures r.Failure? ==> r.error == StringIndexOutOfBounds(LinkBegin(ts, mp), |ts|)
    ensures r.Success? ==> r.value.typeId == LinkId(ts[LinkBegin(ts, mp)..])
    ensures r.Success? ==> StartsWith(r.value.typeId, "...") && |r.value.typeString| <= |ts|
    ensures r.Success? && !Contains(ts, PackagePrefix(mp)) ==> r.value.typeString == ts
  {
    var begin := LinkBegin(ts, mp);
    var name := ReplaceAll(ts, PackagePrefix(mp), "");
    ReplaceAllDeleteShrinks(ts, PackagePrefix(mp));
    assert !Contains(ts, PackagePrefix(mp)) ==> name == ts by {
      if !Contains(ts, PackagePrefix(mp)) {
        ReplaceAllAbsent(ts, PackagePrefix(mp), "");
      }
    }
    if begin > |ts| then Failure(StringIndexOutOfBounds(begin, |ts|))
    else Success(PTypeInfo(name, LinkId(ts[begin..])))
  }

  /** A class of the model package links to its own name. */
  lemma TypeInfoOfModelClass(mp: string, n: string)
    requires !EndsWith(mp, ".")
    requires '<' !in mp + "." + n && !EndsWith(n, ">")
    requires !Contains(mp + "." + n, "java.lang.") && !Contains(mp + "." + n, "java.util.")
    requires !Contains(n, mp + ".")
    ensures ConstructTypeInfo(mp + "." + n, Some(mp)) == Success(PTypeInfo(n, "..." + n))
  {
    var ts := mp + "." + n;
    var mps := mp + ".";
    assert ts == mps + n;
    assert StripJavaPackages(ts) == ts;
    assert Contains(ts, mp) by {
      assert ts[..|mp|] == mp;
      StartsWithContains(ts, mp);
    }
    assert !Contains(ts, "<") by {
      ContainsChar(ts, '<');
    }
    assert ts[|mp| + 1..] == n;
    assert ReplaceAll(ts, mps, "") == n by {
      ReplaceAllLeading(mps, n, "");
      ReplaceAllAbsent(n, mps, "");
    }
  }

  /** Naming the model package itself as a type makes `substring` throw. */
  lemma TypeInfoOfModelPackageThrows(mp: string)
    requires '<' !in mp
    requires !Contains(mp, "java.lang.") && !Contains(mp, "java.util.")
    ensures ConstructTypeInfo(mp, Some(mp)).Failure?
  {
    StartsWithContains(mp, mp);
    ContainsChar(mp, '<');
  }

  /** A collection of a model class links to the element class. */
  lemma TypeInfoOfModelCollection(c: string, mp: string, n: string)
    requires !EndsWith(mp, ".")
    requires '<' !in c && '.' !in c && '<' !in mp
    requires '<' !in n && !Contains(n, mp + ".")
    requires !Contains(c + "<" + mp + "." + n + ">", "java.lang.")
    requires !Contains(c + "<" + mp + "." + n + ">", "java.util.")
    ensures ConstructTypeInfo(c + "<" + mp + "." + n + ">", Some(mp))
      == Success(PTypeInfo(c + "<" + n + ">", "..." + n))
  {
    var ts := c + "<" + mp + "." + n + ">";
    assert StripJavaPackages(ts) == ts;
    CollectionShape(c, mp, n);
    CollectionReplace(c, mp, n);
    ModelTypeInfoOfCollection(ts, mp, n, c + "<" + n + ">");
  }

  /** Where the package and the "<" are in "c<mp.n>". */
  lemma CollectionShape(c: string, mp: string, n: string)
    requires '<' !in c
    ensures var ts := c + "<" + mp + "." + n + ">";
      Contains(ts, mp) && Contains(ts, "<") && IndexOf(ts, '<') == |c| &&
      ts[|c| + 1 + |mp| + 1..] == n + ">"
  {
    var ts := c + "<" + mp + "." + n + ">";
    CollectionSplits(c, mp, n);
    assert Contains(ts, mp) by {
      OccursInMiddle(c + "<", mp, "." + n + ">");
      ContainsIffOccurs(ts, mp);
    }
    assert ts[..|c|] == c && ts[|c|] == '<' by {
      DropPrefix(c, "<" + mp + "." + n + ">");
    }
    assert Contains(ts, "<") by {
      ContainsChar(ts, '<');
    }
    assert IndexOf(ts, '<') == |c|;
    DropPrefix(c + "<" + mp + ".", n + ">");
  }

  /** The ways "c<mp.n>" is cut apart above. */
  lemma CollectionSplits(c: string, mp: string, n: string)
    ensures var ts := c + "<" + mp + "." + n + ">";
      ts == (c + "<") + mp + ("." + n + ">") &&
      ts == c + ("<" + mp + "." + n + ">") &&
      ts == (c + "<" + mp + ".") + (n + ">")
  {
  }

  /** Deleting "mp." from "c<mp.n>" leaves "c<n>". */
  lemma CollectionReplace(c: string, mp: string, n: string)
    requires '<' !in c && '.' !in c && '<' !in mp
    requires !Contains(n, mp + ".")
    ensures ReplaceAll(c + "<" + mp + "." + n + ">", mp + ".", "") == c + "<" + n + ">"
  {
    var a, pat := c + "<", mp + ".";
    var b := pat + (n + ">");
    assert c + "<" + mp + "." + n + ">" == a + b;
    assert ReplaceAll(a + b, pat, "") == a + ReplaceAll(b, pat, "") by {
      PackageNotInPrefix(c, pat, b);
      ReplaceAllSkip(a, b, pat, "");
    }
    assert ReplaceAll(b, pat, "") == n + ">" by {
      ReplaceAllLeading(pat, n + ">", "");
      PackageNotAfterName(n, pat);
      ReplaceAllAbsent(n + ">", pat, "");
    }
    assert a + (n + ">") == c + "<" + n + ">";
  }

  /** `ModelTypeInfo` of a collection, from the facts the computation needs. */
  lemma ModelTypeInfoOfCollection(ts: string, mp: string, n: string, short: string)
    requires !EndsWith(mp, ".")
    requires Contains(ts, "<") && IndexOf(ts, '<') + 1 + |mp| + 1 <= |ts|
    requires ts[IndexOf(ts, '<') + 1 + |mp| + 1..] == n + ">"
    requires ReplaceAll(ts, mp + ".", "") == short
    ensures ModelTypeInfo(ts, mp) == Success(PTypeInfo(short, "..." + n))
  {
    var rest := n + ">";
    assert rest[|rest| - 1..] == ">" && rest[..|rest| - 1] == n;
    assert LinkId(rest) == "..." + n;
    assert PackagePrefix(mp) == mp + ".";
    assert LinkBegin(ts, mp) == IndexOf(ts, '<') + 1 + |mp| + 1;
  }

  /** In "c<" followed by anything, no occurrence of a dotted name without "<" starts. */
  lemma PackageNotInPrefix(c: string, pat: string, b: string)
    requires '<' !in c && '.' !in c && '<' !in pat
    requires |pat| > 0 && pat[|pat| - 1] == '.'
    ensures forall i :: 0 <= i < |c + "<"| ==> !OccursAt(c + "<" + b, pat, i)
  {
    var ts := c + "<" + b;
    forall i | 0 <= i < |c| + 1
      ensures !OccursAt(ts, pat, i)
    {
      if i + |pat| - 1 < |c| {
        // where the pattern has its ".", c has some other character
        assert ts[i + |pat| - 1] == c[i + |pat| - 1] != '.';
      } else {
        // the pattern would cover the "<", which it does not hold
        assert ts[|c|] == '<';
        assert forall k :: 0 <= k < |pat| ==> pat[k] != '<';
      }
    }
  }

  /** A pattern ending in "." that is not in `n` is not in `n + ">"` either. */
  lemma PackageNotAfterName(n: string, pat: string)
    requires |pat| > 0 && pat[|pat| - 1] == '.'
    requires !Contains(n, pat)
    ensures !Contains(n + ">", pat)
  {
    ContainsIffOccurs(n + ">", pat);
    ContainsIffOccurs(n, pat);
    forall i | 0 <= i && i + |pat| <= |n| + 1
      ensures !OccursAt(n + ">", pat, i)
    {
      if i + |pat| <= |n| {
        assert (n + ">")[i..i + |pat|] == n[i..i + |pat|];
        assert !OccursAt(n, pat, i);
      } else {
        // the pattern's final "." would fall on the ">"
        assert (n + ">")[i + |pat| - 1] == '>';
      }
    }
  }

  // ---------------------------------------------------------------------------
  // Parameters

  /** The `@ApiParam` annotation; its members always have a value. */
  datatype ApiParamAnnotation = ApiParamAnnotation(
    name: string, value: string, required: bool, allowableValues: string, defaultValue: string)

  /** One parameter of a resource method with the annotations it carries. */
  datatype ParamElement = ParamElement(
    typeName: string,
    simpleName: string,
    pathParam: Option<string>,
    queryParam: Option<string>,
    formParam: Option<string>,
    apiParam: Option<ApiParamAnnotation>,
    defaultValue: Option<string>)

  /** The parameter's documented name and where it comes from. */
  function NameAndKind(e: ParamElement): (r: (string, ParamType))
    ensures r.1 == PATH <==> e.pathParam.Some?
    ensures r.1 == QUERY <==> e.pathParam.None? && e.queryParam.Some?
    ensures r.1 == FORM <==> e.pathParam.None? && e.queryParam.None? && e.formParam.Some?
    ensures r.1 == PATH ==> r.0 == e.pathParam.value
    ensures r.1 == QUERY ==> r.0 == e.queryParam.value
    ensures r.1 == FORM ==> r.0 == e.formParam.value
    ensures r.1 == BODY ==> r.0 == if e.apiParam.Some? then e.apiParam.value.name else e.simpleName
  {
    if e.pathParam.Some? then (e.pathParam.value, PATH)
    else if e.queryParam.Some? then (e.queryParam.value, QUERY)
    else if e.formParam.Some? then (e.formParam.value, FORM)
    else if e.apiParam.Some? then (e.apiParam.value.name, BODY)
    else (e.simpleName, BODY)
  }

  /** The default value: from `@DefaultValue`, else from `@ApiParam`, else "-none-". */
  function DefaultValueOf(e: ParamElement): (r: string)
    ensures e.defaultValue.Some? ==> r == e.defaultValue.value
    ensures e.defaultValue.None? && e.apiParam.Some? ==> r == e.apiParam.value.defaultValue
    ensures e.defaultValue.None? && e.apiParam.None? ==> r == NO_DEFAULT
  {
    match e.defaultValue
    case Some(v) => v
    case None =>
      match e.apiParam
      case Some(ap) => ap.defaultValue
      case None => NO_DEFAULT
  }

  /** The documented parameter built from one element. */
  function BuildParam(e: ParamElement, modelPackage: Option<string>): (r: Result<PParam, Thrown>)
    ensures r.Success? <==> ConstructTypeInfo(e.typeName, modelPackage).Success?
    ensures r.Success? ==>
      var p := r.value;
      (p.name, p.paramType) == NameAndKind(e) &&
      p.defaultValue == Some(DefaultValueOf(e)) &&
      p.typeInfo == ConstructTypeInfo(e.typeName, modelPackage).value &&
      (e.apiParam.None? ==> !p.required && p.description.None? && p.allowableValues.None?) &&
      (e.apiParam.Some? ==>
        p.description == Some(e.apiParam.value.value) &&
        (p.required <==> e.apiParam.value.required || p.paramType == PATH || p.paramType == BODY) &&
        (p.allowableValues.Some? <==> e.apiParam.value.allowableValues != "") &&
        (p.allowableValues.Some? ==> p.allowableValues.value == e.apiParam.value.allowableValues))
  {
    var (name, kind) := NameAndKind(e);
    match ConstructTypeInfo(e.typeName, modelPackage)
    case Failure(x) => Failure(x)
    case Success(info) =>
      var required := e.apiParam.Some? && (e.apiParam.value.required || e.pathParam.Some? || kind == BODY);
      var description := if e.apiParam.Some? then Some(e.apiParam.value.value) else None;
      var allowable :=
        if e.apiParam.Some? && e.apiParam.value.allowableValues != "" then Some(e.apiParam.value.allowableValues)
        else None;
      Success(PParam(name, required, kind, allowable, Some(DefaultValueOf(e)), description, info))
  }

  /** The elements that are documented, in order. */
  function Kept(elements: seq<ParamElement>): (r: seq<ParamElement>)
    ensures |r| <= |elements|
    ensures forall i :: 0 <= i < |r| ==> !IsSkippedType(r[i].typeName) && r[i] in elements
    ensures forall i :: 0 <= i < |elements| && !IsSkippedType(elements[i].typeName) ==> elements[i] in r
    decreases |elements|
  {
    if elements == [] then []
    else
      var init, last := elements[..|elements| - 1], elements[|elements| - 1];
      assert forall i :: 0 <= i < |init| ==> init[i] == elements[i];
      Kept(init) + (if IsSkippedType(last.typeName) then [] else [last])
  }

  /** Kept keeps the order: the kept elements of a list are those of its parts, in turn. */
  lemma {:induction false} KeptAppend(xs: seq<ParamElement>, ys: seq<ParamElement>)
    ensures Kept(xs + ys) == Kept(xs) + Kept(ys)
    decreases |ys|
  {
    if ys == [] {
      assert xs + ys == xs;
    } else {
      var init, last := ys[..|ys| - 1], ys[|ys| - 1];
      assert (xs + ys)[..|xs + ys| - 1] == xs + init;
      assert (xs + ys)[|xs + ys| - 1] == last;
      KeptAppend(xs, init);
      var tail := if IsSkippedType(last.typeName) then [] else [last];
      AppendAssoc(Kept(xs), Kept(init), tail);
    }
  }

  /** The parameters `processParams` adds, or what it throws. */
  function ParamsOf(elements: seq<ParamElement>, modelPackage: Option<string>): Result<seq<PParam>, Thrown>
    decreases |elements|
  {
    if elements == [] then Success([])
    else
      var last := elements[|elements| - 1];
      match ParamsOf(elements[..|elements| - 1], modelPackage)
      case Failure(x) => Failure(x)
      case Success(ps) =>
        if IsSkippedType(last.typeName) then Success(ps)
        else
          match BuildParam(last, modelPackage)
          case Failure(x) => Failure(x)
          case Success(p) => Success(ps + [p])
  }

  /** Every element in `es` can be documented: no type link throws. */
  predicate AllBuildable(es: seq<ParamElement>, modelPackage: Option<string>) {
    forall i :: 0 <= i < |es| ==> BuildParam(es[i], modelPackage).Success?
  }

  /** `ps` holds one parameter per element of `es`, in order, built from it. */
  predicate BuiltFrom(ps: seq<PParam>, es: seq<ParamElement>, modelPackage: Option<string>) {
    |ps| == |es| && forall i :: 0 <= i < |ps| ==> BuildParam(es[i], modelPackage) == Success(ps[i])
  }

  lemma AllBuildableSnoc(es: seq<ParamElement>, e: ParamElement, modelPackage: Option<string>)
    ensures AllBuildable(es + [e], modelPackage) <==> AllBuildable(es, modelPackage) && BuildParam(e, modelPackage).Success?
  {
    var es' := es + [e];
    assert es'[|es|] == e;
    forall i | 0 <= i < |es| ensures es'[i] == es[i] { }
  }

  lemma BuiltFromSnoc(ps: seq<PParam>, es: seq<ParamElement>, p: PParam, e: ParamElement, modelPackage: Option<string>)
    requires BuiltFrom(ps, es, modelPackage) && BuildParam(e, modelPackage) == Success(p)
    ensures BuiltFrom(ps + [p], es + [e], modelPackage)
  {
    var ps', es' := ps + [p], es + [e];
    assert ps'[|ps|] == p && es'[|es|] == e;
    forall i | 0 <= i < |ps| ensures ps'[i] == ps[i] && es'[i] == es[i] { }
  }

  /** One documented parameter per kept element, in order, built from it. */
  lemma {:induction false} ParamsOfKept(elements: seq<ParamElement>, modelPackage: Option<string>)
    ensures ParamsOf(elements, modelPackage).Success? <==> AllBuildable(Kept(elements), modelPackage)
    ensures ParamsOf(elements, modelPackage).Success? ==>
      BuiltFrom(ParamsOf(elements, modelPackage).value, Kept(elements), modelPackage)
    decreases |elements|
  {
    if elements != [] {
      var init := elements[..|elements| - 1];
      var last := elements[|elements| - 1];
      ParamsOfKept(init, modelPackage);
      if IsSkippedType(last.typeName) {
        assert Kept(elements) == Kept(init);
      } else {
        assert Kept(elements) == Kept(init) + [last];
        AllBuildableSnoc(Kept(init), last, modelPackage);
        if ParamsOf(init, modelPackage).Success? && BuildParam(last, modelPackage).Success? {
          BuiltFromSnoc(ParamsOf(init, modelPackage).value, Kept(init), BuildParam(last, modelPackage).value,
            last, modelPackage);
        }
      }
    }
  }

  /** `processParams`: the loop over the parameters, adding to the method. */
  method ProcessParams(doc: PMethod, elements: seq<ParamElement>, modelPackage: Option<string>)
    returns (r: Result<PMethod, Thrown>)
    ensures r.Success? <==> ParamsOf(elements, modelPackage).Success?
    ensures r.Success? ==> r.value == doc.(params := doc.params + ParamsOf(elements, modelPackage).value)
    ensures r.Failure? ==> r.error == ParamsOf(elements, modelPackage).error
  {
    var params := doc.params;
    for i := 0 to |elements|
      invariant ParamsOf(elements[..i], modelPackage).Success?
      invariant params == doc.params + ParamsOf(elements[..i], modelPackage).value
    {
      assert elements[..i + 1][..i] == elements[..i];
      var e := elements[i];
      var skip := SkipParamType(e.typeName);
      if skip {
        assert ParamsOf(elements[..i + 1], modelPackage) == ParamsOf(elements[..i], modelPackage);
        continue;
      }
      var p := BuildParam(e, modelPackage);
      if p.Failure? {
        assert ParamsOf(elements[..i + 1], modelPackage) == Failure(p.error);
        ParamsOfFailurePersists(elements, modelPackage, i + 1);
        return Failure(p.error);
      }
      assert ParamsOf(elements[..i + 1], modelPackage) == Success(ParamsOf(elements[..i], modelPackage).value + [p.value]);
      AppendAssoc(doc.params, ParamsOf(elements[..i], modelPackage).value, [p.value]);
      params := params + [p.value];
    }
    assert elements[..|elements|] == elements;
    return Success(doc.(params := params));
  }

  /** Once a prefix throws, the whole list throws. */
  lemma {:induction false} ParamsOfFailurePersists(elements: seq<ParamElement>, modelPackage: Option<string>, n: nat)
    requires n <= |elements|
    requires ParamsOf(elements[..n], modelPackage).Failure?
    ensures ParamsOf(elements, modelPackage) == ParamsOf(elements[..n], modelPackage)
    decreases |elements| - n
  {
    if n < |elements| {
      assert elements[..n + 1][..n] == elements[..n];
      assert ParamsOf(elements[..n + 1], modelPackage) == ParamsOf(elements[..n], modelPackage);
      ParamsOfFailurePersists(elements, modelPackage, n + 1);
    } else {
      assert elements[..n] == elements;
    }
  }

  // ---------------------------------------------------------------------------
  // Properties of data classes

  /** A method name that `processDataClassProperties` reads as a getter. */
  predicate IsGetterName(m: string) {
    StartsWith(m, "get") || StartsWith(m, "is")
  }

  /**
   * The property a getter name stands for: "get" is tried before "is", and the
   * first character left is lower-cased; nothing left makes `substring` throw.
   */
  function PropertyName(m: string): (r: Result<string, Thrown>)
    requires IsGetterName(m)
    ensures var k := if StartsWith(m, "get") then 3 else 2;
      (r.Success? <==> |m| > k) &&
      (r.Success? ==> |r.value| == |m| - k && r.value[0] == ToLower(m[k]) && r.value[1..] == m[k + 1..])
  {
    var rest := if StartsWith(m, "get") then m[3..] else m[2..];
    if |rest| == 0 then Failure(StringIndexOutOfBounds(1, 0))
    else Success([ToLower(rest[0])] + rest[1..])
  }

  /** The first letter in upper case, as a getter spells the property. */
  function Capitalized(n: string): string
    requires |n| > 0
  {
    [ToUpper(n[0])] + n[1..]
  }

  /** The property name of a getter is the name the getter was made from. */
  lemma PropertyNameRoundTrip(n: string)
    requires |n| > 0 && !('A' <= n[0] <= 'Z')
    ensures PropertyName("get" + Capitalized(n)) == Success(n)
    ensures PropertyName("is" + Capitalized(n)) == Success(n)
  {
    var g := "get" + Capitalized(n);
    var s := "is" + Capitalized(n);
    assert StartsWith(g, "get");
    assert g[3..] == Capitalized(n);
    assert s[0] == 'i';
    assert !StartsWith(s, "get") by {
      if |s| >= 3 {
        assert s[..3][0] == 'i';
      }
    }
    assert StartsWith(s, "is");
    assert s[2..] == Capitalized(n);
    assert [n[0]] + n[1..] == n;
  }

  /** A getter named just "get" or "is" names no property and throws. */
  lemma BareGetterThrows()
    ensures PropertyName("get").Failure? && PropertyName("is").Failure?
  {
    assert StartsWith("get", "get");
    assert !StartsWith("is", "get") && StartsWith("is", "is");
  }

  /**
   * A property's type: the model package (with a dot) goes when it occurs,
   * then every "java.lang." and then every "java.util.".
   */
  function PropertyTypeName(typeName: string, modelPackage: Option<string>): (r: string)
    ensures |r| <= |typeName|
    ensures (modelPackage.None? || !Contains(typeName, modelPackage.value)) &&
            !Contains(typeName, "java.lang.") && !Contains(typeName, "java.util.")
            ==> r == typeName
  {
    var t1 := if modelPackage.Some? && Contains(typeName, modelPackage.value)
      then ReplaceAllDeleteShrinks(typeName, modelPackage.value + ".");
        ReplaceAll(typeName, modelPackage.value + ".", "")
      else typeName;
    var t2 := if Contains(t1, "java.lang.") then ReplaceAll(t1, "java.lang.", "") else t1;
    ReplaceAllDeleteShrinks(t1, "java.lang.");
    ReplaceAllDeleteShrinks(t2, "java.util.");
    if Contains(t2, "java.util.") then ReplaceAll(t2, "java.util.", "") else t2
  }

  /**
   * A property whose type is a class of the model package shows the bare class
   * name, as a parameter or return type of that class does.
   */
  lemma PropertyTypeOfModelClass(mp: string, n: string)
    requires !Contains(n, mp + ".") && !Contains(n, "java.lang.") && !Contains(n, "java.util.")
    ensures PropertyTypeName(mp + "." + n, Some(mp)) == n
  {
    var ts := mp + "." + n;
    var mps := mp + ".";
    assert ts == mps + n;
    assert Contains(ts, mp) by {
      assert ts[..|mp|] == mp;
      StartsWithContains(ts, mp);
    }
    assert ReplaceAll(ts, mps, "") == n by {
      ReplaceAllLeading(mps, n, "");
      ReplaceAllAbsent(n, mps, "");
    }
  }

  /** A class of `java.lang` shows by its simple name. */
  lemma PropertyTypeOfJavaLang(n: string, modelPackage: Option<string>)
    requires modelPackage.None? || !Contains("java.lang." + n, modelPackage.value)
    requires !Contains(n, "java.lang.") && !Contains(n, "java.util.")
    ensures PropertyTypeName("java.lang." + n, modelPackage) == n
  {
    var ts := "java.lang." + n;
    assert Contains(ts, "java.lang.") by {
      assert ts[..10] == "java.lang.";
      StartsWithContains(ts, "java.lang.");
    }
    assert ReplaceAll(ts, "java.lang.", "") == n by {
      ReplaceAllLeading("java.lang.", n, "");
      ReplaceAllAbsent(n, "java.lang.", "");
    }
  }

  /** "java.lang." starts nowhere inside a leading "java.util.". */
  lemma UtilHasNoLang(ts: string, i: nat)
    requires StartsWith(ts, "java.util.") && i < 10
    ensures !OccursAt(ts, "java.lang.", i)
  {
    if i + 10 <= |ts| {
      var head := ts[..10];
      assert head == "java.util.";
      if i == 0 {
        assert ts[i..i + 10][5] == head[5] == 'u';
      } else {
        assert head[1..] == "ava.util.";
        assert ts[i..i + 10][0] == head[1..][i - 1];
        assert head[1..][i - 1] in "ava.util.";
      }
    }
  }

  /** A class of `java.util` shows by its simple name. */
  lemma PropertyTypeOfJavaUtil(n: string, modelPackage: Option<string>)
    requires modelPackage.None? || !Contains("java.util." + n, modelPackage.value)
    requires !Contains(n, "java.lang.") && !Contains(n, "java.util.")
    ensures PropertyTypeName("java.util." + n, modelPackage) == n
  {
    var ts := "java.util." + n;
    assert !Contains(ts, "java.lang.") by {
      ContainsIffOccurs(ts, "java.lang.");
      ContainsIffOccurs(n, "java.lang.");
      forall i | OccursAt(ts, "java.lang.", i) ensures false {
        if i >= 10 {
          assert OccursAt(n, "java.lang.", i - 10) by {
            assert ts[i..i + 10] == n[i - 10..i];
          }
        } else {
          UtilHasNoLang(ts, i);
        }
      }
    }
    assert Contains(ts, "java.util.") by {
      assert ts[..10] == "java.util.";
      StartsWithContains(ts, "java.util.");
    }
    assert ReplaceAll(ts, "java.util.", "") == n by {
      ReplaceAllLeading("java.util.", n, "");
      ReplaceAllAbsent(n, "java.util.", "");
    }
  }

  /** The `@ApiProperty` annotation. */
  datatype ApiPropertyAnnotation = ApiPropertyAnnotation(value: string, notes: string)

  /** A method of a data class with what `processDataClassProperties` reads. */
  datatype MethodElement = MethodElement(name: string, returnType: string, apiProperty: Option<ApiPropertyAnnotation>)

  /** The property one getter stands for. */
  function PropertyOf(m: MethodElement, modelPackage: Option<string>): (r: Result<PProperty, Thrown>)
    requires IsGetterName(m.name)
    ensures r.Success? <==> PropertyName(m.name).Success?
    ensures r.Success? ==>
      r.value.name == PropertyName(m.name).value &&
      r.value.typeName == PropertyTypeName(m.returnType, modelPackage) &&
      (m.apiProperty.None? ==> r.value.description.None? && r.value.notes.None?) &&
      (m.apiProperty.Some? ==>
        r.value.description == Some(m.apiProperty.value.value) &&
        r.value.notes == Some(m.apiProperty.value.notes))
  {
    match PropertyName(m.name)
    case Failure(x) => Failure(x)
    case Success(n) =>
      var description := if m.apiProperty.Some? then Some(m.apiProperty.value.value) else None;
      var notes := if m.apiProperty.Some? then Some(m.apiProperty.value.notes) else None;
      Success(PProperty(n, PropertyTypeName(m.returnType, modelPackage), description, notes))
  }

  /** The getters among the methods, in order. */
  function Getters(methods: seq<MethodElement>): (r: seq<MethodElement>)
    ensures |r| <= |methods|
    ensures forall i :: 0 <= i < |r| ==> IsGetterName(r[i].name) && r[i] in methods
    ensures forall i :: 0 <= i < |methods| && IsGetterName(methods[i].name) ==> methods[i] in r
    decreases |methods|
  {
    if methods == [] then []
    else
      var init, last := methods[..|methods| - 1], methods[|methods| - 1];
      assert forall i :: 0 <= i < |init| ==> init[i] == methods[i];
      Getters(init) + (if IsGetterName(last.name) then [last] else [])
  }

  /** Getters keeps the order: the getters of a list are those of its parts, in turn. */
  lemma {:induction false} GettersAppend(xs: seq<MethodElement>, ys: seq<MethodElement>)
    ensures Getters(xs + ys) == Getters(xs) + Getters(ys)
    decreases |ys|
  {
    if ys == [] {
      assert xs + ys == xs;
    } else {
      var init, last := ys[..|ys| - 1], ys[|ys| - 1];
      assert (xs + ys)[..|xs + ys| - 1] == xs + init;
      assert (xs + ys)[|xs + ys| - 1] == last;
      GettersAppend(xs, init);
      var tail := if IsGetterName(last.name) then [last] else [];
      AppendAssoc(Getters(xs), Getters(init), tail);
    }
  }

  /** The properties `processDataClassProperties` adds, or what it throws. */
  function PropertiesOf(methods: seq<MethodElement>, modelPackage: Option<string>): Result<seq<PProperty>, Thrown>
    decreases |methods|
  {
    if methods == [] then Success([])
    else
      var last := methods[|methods| - 1];
      match PropertiesOf(methods[..|methods| - 1], modelPackage)
      case Failure(x) => Failure(x)
      case Success(ps) =>
        if !IsGetterName(last.name) then Success(ps)
        else
          match PropertyOf(last, modelPackage)
          case Failure(x) => Failure(x)
          case Success(p) => Success(ps + [p])
  }

  /** Every getter in `gs` names a property: none is a bare "get" or "is". */
  predicate AllNamed(gs: seq<MethodElement>)
    requires forall i :: 0 <= i < |gs| ==> IsGetterName(gs[i].name)
  {
    forall i :: 0 <= i < |gs| ==> PropertyName(gs[i].name).Success?
  }

  /** `ps` holds one property per getter of `gs`, in order, made from it. */
  predicate MadeFrom(ps: seq<PProperty>, gs: seq<MethodElement>, modelPackage: Option<string>)
    requires forall i :: 0 <= i < |gs| ==> IsGetterName(gs[i].name)
  {
    |ps| == |gs| && forall i :: 0 <= i < |ps| ==> PropertyOf(gs[i], modelPackage) == Success(ps[i])
  }

  /** One property per getter, in order; only a bare "get" or "is" throws. */
  lemma {:induction false} PropertiesOfGetters(methods: seq<MethodElement>, modelPackage: Option<string>)
    ensures PropertiesOf(methods, modelPackage).Success? <==> AllNamed(Getters(methods))
    ensures PropertiesOf(methods, modelPackage).Success? ==>
      MadeFrom(PropertiesOf(methods, modelPackage).value, Getters(methods), modelPackage)
    decreases |methods|
  {
    if methods != [] {
      var init := methods[..|methods| - 1];
      var last := methods[|methods| - 1];
      PropertiesOfGetters(init, modelPackage);
      var g, ge := Getters(init), Getters(methods);
      if !IsGetterName(last.name) {
        assert ge == g;
        assert PropertiesOf(methods, modelPackage) == PropertiesOf(init, modelPackage);
      } else {
        assert ge == g + [last];
        assert ge[|g|] == last;
        forall i | 0 <= i < |g| ensures ge[i] == g[i] { }
        if PropertiesOf(init, modelPackage).Success? && PropertyOf(last, modelPackage).Success? {
          var ps0 := PropertiesOf(init, modelPackage).value;
          var ps := PropertiesOf(methods, modelPackage).value;
          assert ps == ps0 + [PropertyOf(last, modelPackage).value];
          forall i | 0 <= i < |ps0| ensures ps[i] == ps0[i] { }
        }
      }
    }
  }

  /** `processDataClassProperties`: the loop over the methods, adding properties. */
  method ProcessDataClassProperties(doc: PData, methods: seq<MethodElement>, modelPackage: Option<string>)
    returns (r: Result<PData, Thrown>)
    ensures r.Success? <==> PropertiesOf(methods, modelPackage).Success?
    ensures r.Success? ==> r.value == doc.(properties := doc.properties + PropertiesOf(methods, modelPackage).value)
    ensures r.Failure? ==> r.error == PropertiesOf(methods, modelPackage).error
  {
    var properties := doc.properties;
    for i := 0 to |methods|
      invariant PropertiesOf(methods[..i], modelPackage).Success?
      invariant properties == doc.properties + PropertiesOf(methods[..i], modelPackage).value
    {
      assert methods[..i + 1][..i] == methods[..i];
      var m := methods[i];
      if StartsWith(m.name, "get") || StartsWith(m.name, "is") {
        var p := PropertyOf(m, modelPackage);
        if p.Failure? {
          assert PropertiesOf(methods[..i + 1], modelPackage) == Failure(p.error);
          PropertiesOfFailurePersists(methods, modelPackage, i + 1);
          return Failure(p.error);
        }
        properties := properties + [p.value];
      }
    }
    assert methods[..|methods|] == methods;
    return Success(doc.(properties := properties));
  }

  /** Once a prefix throws, the whole class throws. */
  lemma {:induction false} PropertiesOfFailurePersists(methods: seq<MethodElement>, modelPackage: Option<string>, n: nat)
    requires n <= |methods|
    requires PropertiesOf(methods[..n], modelPackage).Failure?
    ensures PropertiesOf(methods, modelPackage) == PropertiesOf(methods[..n], modelPackage)
    decreases |methods| - n
  {
    if n < |methods| {
      assert methods[..n + 1][..n] == methods[..n];
      assert PropertiesOf(methods[..n + 1], modelPackage) == PropertiesOf(methods[..n], modelPackage);
      PropertiesOfFailurePersists(methods, modelPackage, n + 1);
    } else {
      assert methods[..n] == methods;
    }
  }
}
