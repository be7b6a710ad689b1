/**
 * The plain data model that the REST documentation processor fills in and the
 * AsciiDoc writers walk: an API made of resource classes with their methods,
 * parameters and error codes, and of data classes with their properties.
 * A field that the processor can leave unset (Java `null`) is an `Option`.
 */
module RestModel {
  import opened Wrappers

  /** A type as shown to the reader, and the id a link to its data class uses. */
  datatype PTypeInfo = PTypeInfo(typeString: string, typeId: string)

  /** Where a parameter of a REST method is taken from. */
  datatype ParamType = PATH | QUERY | FORM | BODY
  {
    /** `name()` of the Java enum constant. */
    function Name(): string {
      match this
      case PATH => "PATH"
      case QUERY => "QUERY"
      case FORM => "FORM"
      case BODY => "BODY"
    }
  }

  datatype PParam = PParam(
    name: string,
    required: bool,
    paramType: ParamType,
    allowableValues: Option<string>,
    defaultValue: Option<string>,
    description: Option<string>,
    typeInfo: PTypeInfo)

  datatype ErrorCode = ErrorCode(code: int, reason: string)

  datatype PMethod = PMethod(
    httpMethod: string,
    name: string,
    description: Option<string>,
    returnType: Option<PTypeInfo>,
    notes: Option<string>,
    errors: seq<ErrorCode>,
    params: seq<PParam>,
    produces: seq<string>,
    consumes: seq<string>,
    path: string,
    gzip: bool)

  datatype PClass = PClass(
    basePath: Option<string>,
    name: string,
    path: string,
    shortDesc: Option<string>,
    produces: seq<string>,
    consumes: seq<string>,
    methods: seq<PMethod>,
    description: Option<string>)

  datatype PProperty = PProperty(
    name: string,
    typeName: string,
    description: Option<string>,
    notes: Option<string>)

  datatype PData = PData(
    name: string,
    nameId: string,
    shortDescription: Option<string>,
    description: Option<string>,
    objectName: string,
    properties: seq<PProperty>)

  /** `data` is `None` when the list itself is `null`. */
  datatype PApi = PApi(classes: seq<PClass>, name: string, data: Option<seq<PData>>)
}
