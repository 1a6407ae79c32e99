/**
  The codec for swagger "formData" parameters: the creator that picks a
  processor for a form parameter, the server-side extraction of its value
  from an inbound request, and the client-side injection of an argument
  into an outbound request.
 */
module FormProcessorCreator {
  import opened Wrappers

  /** The location tag under which the creator registers and which both processors report. */
  const PARAMTYPE: string := "formData"

  /** The swagger type of a file property: a form parameter of this type is a multipart part. */
  const FILE_TYPE: string := "file"

  /** HTTP status BAD_REQUEST. */
  const BAD_REQUEST: int := 400

  /** The reason carried by the failure for a missing required parameter. */
  const REQUIRED_REASON: string := "Parameter is not valid, required is true"

  /** An opaque handle to an uploaded multipart part (javax.servlet.http.Part). */
  type PartHandle = nat

  /** A Java object as far as this codec can observe it. */
  datatype Value =
    | Null                            // the null reference
    | Text(text: string)              // a String
    | TextArray(items: seq<string>)   // a String[]
    | PartValue(part: PartHandle)     // a Part
    | Object(id: nat)                 // any other object, such as a converted argument

  /** The resolved Jackson type of the Java argument; only whether it is a container matters here. */
  datatype JavaType = JavaType(name: string, isContainer: bool)

  /** The exceptions the codec lets escape. */
  datatype Failure =
    | InvocationFailure(status: int, reason: string)  // InvocationException(status, reason)
    | ConversionFailure(message: string)             // an exception thrown by the type conversion
    | ClassCastFailure                               // a cast of the argument to Part failed

  /** The generic type conversion: a raw value and a target type give a typed value or an error message. */
  type Converter = (Value, JavaType) -> Result<Value, string>

  /** A swagger form parameter, reduced to what the creator reads of it. */
  datatype FormParameter = FormParameter(name: string, paramType: Option<string>, defaultValue: Value, required: bool)

  /** The two processor variants; their fields are fixed when they are built. */
  datatype Processor =
    | FormProcessor(paramPath: string, targetType: JavaType, defaultValue: Value, required: bool)
    | PartProcessor(paramPath: string, targetType: JavaType, defaultValue: Value, required: bool)

  /**
    An inbound server request, as the codec reads it. A missing key stands
    for the null the servlet API returns for an absent name.
   */
  datatype ServerRequest = ServerRequest(
    formParameters: Option<map<string, Value>>,  // the pre-parsed forms attribute, or null
    parameterValues: map<string, seq<string>>,   // getParameterValues
    parameters: map<string, string>,             // getParameter
    parts: map<string, PartHandle>)              // getPart

  /** The failure for a required parameter that has no value. */
  function RequiredFailure(): (f: Failure)
    ensures f.InvocationFailure? && f.status == 400
    ensures f.reason == "Parameter is not valid, required is true"
  {
    InvocationFailure(BAD_REQUEST, REQUIRED_REASON)
  }

  /** True when the request carries a pre-parsed forms map that is present and not empty. */
  predicate HasPreParsedForms(req: ServerRequest)
  {
    req.formParameters.Some? && |req.formParameters.value| > 0
  }

  /** forms.get(name): the entry for the name, or null when the map has no such key. */
  function FormsEntry(forms: map<string, Value>, name: string): Value
  {
    if name in forms then forms[name] else Null
  }

  /** Runs the conversion and lets its error escape as a failure of the extraction. */
  function Convert(convert: Converter, raw: Value, t: JavaType): (r: Result<Value, Failure>)
    ensures r.Success? <==> convert(raw, t).Success?
    ensures r.Success? ==> r.value == convert(raw, t).value
    ensures r.Failure? ==> r.error == ConversionFailure(convert(raw, t).error)
  {
    match convert(raw, t)
    case Success(v) => Success(v)
    case Failure(msg) => Failure(ConversionFailure(msg))
  }

  /**
    The raw value a form processor reads when there is no pre-parsed forms
    map: all values for a container target, the single value otherwise.
   */
  function RawLookup(p: Processor, req: ServerRequest): (raw: Value)
    ensures raw == Null || raw.TextArray? || raw.Text?
    ensures raw.TextArray? ==> p.targetType.isContainer && p.paramPath in req.parameterValues
    ensures raw.Text? ==> !p.targetType.isContainer && p.paramPath in req.parameters
    ensures p.targetType.isContainer && p.paramPath in req.parameterValues ==>
              raw == TextArray(req.parameterValues[p.paramPath])
    ensures !p.targetType.isContainer && p.paramPath in req.parameters ==>
              raw == Text(req.parameters[p.paramPath])
  {
    if p.targetType.isContainer then
      if p.paramPath in req.parameterValues then TextArray(req.parameterValues[p.paramPath]) else Null
    else
      if p.paramPath in req.parameters then Text(req.parameters[p.paramPath]) else Null
  }

  /**
    checkRequiredAndDefaultValue: a required parameter without a value fails
    with BAD_REQUEST before the default is looked at; otherwise the default
    replaces the value when it is not null, and the value is kept when it is.
   */
  function CheckRequiredAndDefaultValue(p: Processor, values: Value): (r: Result<Value, Failure>)
    ensures r.Failure? <==> p.required
    ensures r.Failure? ==> r.error == RequiredFailure()
    ensures r.Success? && p.defaultValue != Null ==> r.value == p.defaultValue
    ensures r.Success? && p.defaultValue == Null ==> r.value == values
  {
    if p.required then
      Failure(RequiredFailure())
    else if p.defaultValue != Null then
      Success(p.defaultValue)
    else
      Success(values)
  }

  /** FormProcessor.getValue: pre-parsed forms, else all values or the single value, then defaulting and conversion. */
  function FormGetValue(p: Processor, req: ServerRequest, convert: Converter): (r: Result<Value, Failure>)
    // a present, non-empty forms map decides alone: no required or default check, even for a missing key
    ensures HasPreParsedForms(req) ==>
              r == Convert(convert, FormsEntry(req.formParameters.value, p.paramPath), p.targetType)
    // otherwise a present raw value (an empty array included) is converted as it is
    ensures !HasPreParsedForms(req) && RawLookup(p, req) != Null ==>
              r == Convert(convert, RawLookup(p, req), p.targetType)
    // a missing value fails exactly when the parameter is required, whatever its default
    ensures r.Failure? && r.error.InvocationFailure? <==>
              !HasPreParsedForms(req) && RawLookup(p, req) == Null && p.required
    ensures r.Failure? && r.error.InvocationFailure? ==> r.error == RequiredFailure()
    // a missing value that is not required converts the default, or null when there is none
    ensures !HasPreParsedForms(req) && RawLookup(p, req) == Null && !p.required ==>
              r == Convert(convert, p.defaultValue, p.targetType)
  {
    if HasPreParsedForms(req) then
      Convert(convert, FormsEntry(req.formParameters.value, p.paramPath), p.targetType)
    else
      var raw := RawLookup(p, req);
      if raw == Null then
        match CheckRequiredAndDefaultValue(p, raw)
        case Failure(e) => Failure(e)
        case Success(v) => Convert(convert, v, p.targetType)
      else
        Convert(convert, raw, p.targetType)
  }

  /** PartProcessor.getValue: the part under the name, unconverted, or null when there is none. */
  function PartGetValue(p: Processor, req: ServerRequest): (v: Value)
    ensures v.PartValue? <==> p.paramPath in req.parts
    ensures v.PartValue? ==> v.part == req.parts[p.paramPath]
    ensures v.PartValue? || v == Null
  {
    if p.paramPath in req.parts then PartValue(req.parts[p.paramPath]) else Null
  }

  /** getValue, dispatched on the processor variant. */
  function GetValue(p: Processor, req: ServerRequest, convert: Converter): (r: Result<Value, Failure>)
    ensures p.PartProcessor? ==> r == Success(PartGetValue(p, req))
    ensures p.FormProcessor? ==> r == FormGetValue(p, req, convert)
  {
    match p
    case FormProcessor(_, _, _, _) => FormGetValue(p, req, convert)
    case PartProcessor(_, _, _, _) => Success(PartGetValue(p, req))
  }

  /** getProcessorType: both variants report the form location tag. */
  function ProcessorType(p: Processor): (tag: string)
    ensures tag == PARAMTYPE
  {
    match p
    case FormProcessor(_, _, _, _) => PARAMTYPE
    case PartProcessor(_, _, _, _) => PARAMTYPE
  }

  /** isPart: the parameter's declared type equals the file-property type (a null type never does). */
  predicate IsPart(parameter: FormParameter)
  {
    parameter.paramType == Some(FILE_TYPE)
  }

  /** create: a part processor for a file parameter, a form processor for any other. */
  function Create(parameter: FormParameter, targetType: JavaType): (p: Processor)
    ensures p.PartProcessor? <==> IsPart(parameter)
    ensures p.paramPath == parameter.name && p.targetType == targetType
    ensures p.defaultValue == parameter.defaultValue && p.required == parameter.required
  {
    if IsPart(parameter) then
      PartProcessor(parameter.name, targetType, parameter.defaultValue, parameter.required)
    else
      FormProcessor(parameter.name, targetType, parameter.defaultValue, parameter.required)
  }

  /**
    The outbound client request, as the calls made on it: the form fields
    added and the parts attached, in order. A null part is recorded as None.
   */
  class ClientRequest {
    var forms: seq<(string, Value)>
    var attachments: seq<(string, Option<PartHandle>)>

    constructor ()
      ensures forms == [] && attachments == []
    {
      forms := [];
      attachments := [];
    }

    /** addForm: records one form field. */
    method AddForm(name: string, value: Value)
      modifies this
      ensures forms == old(forms) + [(name, value)]
      ensures attachments == old(attachments)
    {
      forms := forms + [(name, value)];
    }

    /** attach: records one part. */
    method Attach(name: string, part: Option<PartHandle>)
      modifies this
      ensures attachments == old(attachments) + [(name, part)]
      ensures forms == old(forms)
    {
      attachments := attachments + [(name, part)];
    }
  }

  /**
    setValue: a form processor adds the argument as one form field; a part
    processor casts it to a part and attaches it. A cast that fails raises
    before anything is attached.
   */
  method SetValue(p: Processor, client: ClientRequest, arg: Value) returns (failure: Option<Failure>)
    modifies client
    ensures p.FormProcessor? ==> failure == None
    ensures p.FormProcessor? ==>
              client.forms == old(client.forms) + [(p.paramPath, arg)] && client.attachments == old(client.attachments)
    ensures p.PartProcessor? ==> client.forms == old(client.forms)
    ensures p.PartProcessor? && arg.PartValue? ==>
              failure == None && client.attachments == old(client.attachments) + [(p.paramPath, Some(arg.part))]
    ensures p.PartProcessor? && arg == Null ==>
              failure == None && client.attachments == old(client.attachments) + [(p.paramPath, None)]
    ensures p.PartProcessor? && !arg.PartValue? && arg != Null ==>
              failure == Some(ClassCastFailure) && client.attachments == old(client.attachments)
  {
    match p
    case FormProcessor(_, _, _, _) =>
      client.AddForm(p.paramPath, arg);
      failure := None;
    case PartProcessor(_, _, _, _) =>
      match arg
      case PartValue(h) =>
        client.Attach(p.paramPath, Some(h));
        failure := None;
      case Null =>
        client.Attach(p.paramPath, None);
        failure := None;
      case _ =>
        failure := Some(ClassCastFailure);
  }

  // ---------------------------------------------------------------------
  // Properties of the server-side extraction

  /**
    The default and the required flag matter only when the value is missing:
    with a non-empty forms map or a present raw value, changing them does not
    change the outcome.
   */
  lemma DefaultAndRequiredOnlyForMissing(p: Processor, req: ServerRequest, convert: Converter, d: Value, b: bool)
    requires p.FormProcessor?
    requires HasPreParsedForms(req) || RawLookup(p, req) != Null
    ensures FormGetValue(p.(defaultValue := d, required := b), req, convert) == FormGetValue(p, req, convert)
  {
  }

  /** Required is checked before default: a missing required value fails whatever default is declared. */
  lemma RequiredBeatsDefault(p: Processor, req: ServerRequest, convert: Converter, d: Value)
    requires p.FormProcessor? && p.required
    requires !HasPreParsedForms(req) && RawLookup(p, req) == Null
    ensures FormGetValue(p.(defaultValue := d), req, convert) == Failure(RequiredFailure())
  {
  }

  /** Only null triggers defaulting: an empty values array for a container is converted as it is. */
  lemma EmptyArrayIsNotMissing(p: Processor, req: ServerRequest, convert: Converter)
    requires p.FormProcessor? && p.targetType.isContainer
    requires !HasPreParsedForms(req)
    requires p.paramPath in req.parameterValues && req.parameterValues[p.paramPath] == []
    ensures FormGetValue(p, req, convert) == Convert(convert, TextArray([]), p.targetType)
  {
  }

  /** An empty forms map does not short-circuit: the outcome is the one without any forms map. */
  lemma EmptyFormsFallThrough(p: Processor, req: ServerRequest, convert: Converter)
    requires p.FormProcessor?
    requires req.formParameters == Some(map[])
    ensures FormGetValue(p, req, convert) == FormGetValue(p, req.(formParameters := None), convert)
  {
  }

  /** A part processor never uses the conversion, nor its default or required flag. */
  lemma PartIgnoresConversionAndDefaults(p: Processor, req: ServerRequest, c1: Converter, c2: Converter, d: Value, b: bool)
    requires p.PartProcessor?
    ensures GetValue(p, req, c1) == GetValue(p.(defaultValue := d, required := b), req, c2)
  {
  }
}
