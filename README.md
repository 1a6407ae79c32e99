# Form-parameter codec of the REST parameter binding

This project models, in Dafny, the codec that ServiceComb's REST layer uses
for swagger `formData` parameters (`FormProcessorCreator`):

- `Create` picks the processor for a form parameter. A parameter whose
  declared swagger type is the file-property type `"file"` gets a part
  processor. Any other parameter, including one with a null type, gets a form
  processor. Both carry the parameter's name, default value and required flag
  unchanged.
- Server side, `GetValue` reads the parameter's value from an inbound
  request. A form processor resolves the raw value in this order:
  1. the pre-parsed forms map, when it is present and non-empty;
  2. otherwise, for a container target type, all values under the name;
  3. otherwise, the single value under the name.
  A null raw value then goes through `CheckRequiredAndDefaultValue`. A required
  parameter fails with BAD_REQUEST (400, "Parameter is not valid, required is
  true"), even when a default is declared. Otherwise the default replaces the
  value when it is not null, and null is kept when it is. The result is passed
  through the generic type conversion. A part processor returns the part under
  the name as it is. It does no conversion and no required or default check.
- Client side, `SetValue` writes one entry into the outbound request. A form
  processor adds one form field. A part processor casts the argument to a
  part and attaches it.
- Both processors report the location tag `"formData"` (`ProcessorType`).

Modelling choices:

- A Java object is a `Value`: null, a string, a string array, a part handle,
  or any other object.
- The inbound request is a `ServerRequest` with four parts:
  - the optional pre-parsed forms map;
  - the maps that `getParameterValues` and `getParameter` read;
  - the part map.

  A key missing from a map stands for the null the servlet API returns.
- The type conversion (`convertValue` in `AbstractParamProcessor`, which is
  not part of this model) is a function-valued parameter, `Converter`. It is
  otherwise unconstrained. An error it reports escapes as `ConversionFailure`.
- The processors are an immutable datatype with two variants. The outbound
  request (`RestClientRequest`) is a class, `ClientRequest`. It records the
  form fields and parts added to it, in order.

Module `FormTransport` adds a view of how what a client sends reaches the
server. The client's encoding is an assumption (see "## Left out"); the
server side uses the servlet API's rules:
- `getParameterValues` gives every value sent under a name, in order;
- `getParameter` gives the first of them;
- a name with no values reads as null.

With this view, the round-trip lemmas connect `SetValue` on the client to
`GetValue` on the server, on a request without a pre-parsed forms map. A
string, or a non-empty string array for a container type, sent under a name
no other field uses comes back as exactly the converted argument. A part
attached under a name no other part uses comes back as the same handle. An empty string array puts nothing on the wire. On a
request that reads an absent name as null it arrives as a missing parameter
and is defaulted or rejected. On a request that gives an empty array for an
absent name (as the comment at `FormProcessorCreator.java:56` says this
framework's requests currently do) it is converted as an empty array, with no
required or default check (`EmptyArrayIsNotMissing`).

Points where the code's behaviour may surprise:
- when both `required` and a non-null default are set, required wins and the
  value is rejected, rather than the default being used;
- only a null values array triggers defaulting, not an empty one;
- a missing collection is passed to defaulting and conversion as null, not as
  an empty sequence;
- a pre-parsed forms map is used only when it is non-empty;
- `create` does not check whether the required flag and the default value
  make sense together.

## Model

| member | source | states |
|---|---|---|
| `FormProcessorCreator.Create` | common/common-rest/src/main/java/org/apache/servicecomb/common/rest/codec/param/FormProcessorCreator.java:98-111 | the result is a part processor exactly when the parameter's type is `"file"`; name, target type, default and required flag are carried over unchanged |
| `FormProcessorCreator.ProcessorType` | common/common-rest/src/main/java/org/apache/servicecomb/common/rest/codec/param/FormProcessorCreator.java:87-90 | both processor variants report the location tag `"formData"` |
| `FormProcessorCreator.FormGetValue` | common/common-rest/src/main/java/org/apache/servicecomb/common/rest/codec/param/FormProcessorCreator.java:47-69 | a non-empty forms map gives the converted entry for the name (null for a missing key) with no required or default check; otherwise a present raw value is converted as it is; the outcome is the BAD_REQUEST failure exactly when there is no non-empty forms map, the raw value is null and the parameter is required; a missing non-required value converts the default, or null |
| `FormProcessorCreator.RawLookup` | common/common-rest/src/main/java/org/apache/servicecomb/common/rest/codec/param/FormProcessorCreator.java:54-63 | a container target reads the whole values array under the name, a scalar target the single value; a missing name reads as null |
| `FormProcessorCreator.CheckRequiredAndDefaultValue` | common/common-rest/src/main/java/org/apache/servicecomb/common/rest/codec/param/FormProcessorCreator.java:71-80 | fails exactly when the parameter is required, with status 400 and the "required is true" reason; otherwise yields the default when it is non-null and the given value when it is null |
| `FormProcessorCreator.RequiredFailure` | common/common-rest/src/main/java/org/apache/servicecomb/common/rest/codec/param/FormProcessorCreator.java:73 | the missing-parameter failure is an invocation failure with status BAD_REQUEST (400) and the reason "Parameter is not valid, required is true" |
| `FormProcessorCreator.Convert` | common/common-rest/src/main/java/org/apache/servicecomb/common/rest/codec/param/FormProcessorCreator.java:51 | conversion succeeds exactly when the converter does, with its value; a converter error escapes as a conversion failure |
| `FormProcessorCreator.PartGetValue` | common/common-rest/src/main/java/org/apache/servicecomb/common/rest/codec/param/FormProcessorCreator.java:119-121 | yields the part under the name exactly when the request has one, otherwise null |
| `FormProcessorCreator.GetValue` | common/common-rest/src/main/java/org/apache/servicecomb/common/rest/codec/param/FormProcessorCreator.java:46-121 | a part processor always succeeds with the unconverted part; a form processor behaves as `FormGetValue` |
| `FormProcessorCreator.DefaultAndRequiredOnlyForMissing` | common/common-rest/src/main/java/org/apache/servicecomb/common/rest/codec/param/FormProcessorCreator.java:50-66 | with a non-empty forms map or a present raw value, changing the default or the required flag does not change the outcome |
| `FormProcessorCreator.RequiredBeatsDefault` | common/common-rest/src/main/java/org/apache/servicecomb/common/rest/codec/param/FormProcessorCreator.java:71-77 | a missing required value fails with BAD_REQUEST whatever default is declared |
| `FormProcessorCreator.EmptyArrayIsNotMissing` | common/common-rest/src/main/java/org/apache/servicecomb/common/rest/codec/param/FormProcessorCreator.java:54-60 | an empty, non-null values array for a container is converted as it is, with no required or default check |
| `FormProcessorCreator.EmptyFormsFallThrough` | common/common-rest/src/main/java/org/apache/servicecomb/common/rest/codec/param/FormProcessorCreator.java:49-52 | an empty forms map gives the same outcome as no forms map at all |
| `FormProcessorCreator.PartIgnoresConversionAndDefaults` | common/common-rest/src/main/java/org/apache/servicecomb/common/rest/codec/param/FormProcessorCreator.java:118-121 | a part processor's result depends neither on the converter nor on its default or required flag |
| `FormProcessorCreator.ClientRequest.AddForm` | common/common-rest/src/main/java/org/apache/servicecomb/common/rest/codec/param/FormProcessorCreator.java:84 | appends exactly one form field and leaves the parts unchanged |
| `FormProcessorCreator.ClientRequest.Attach` | common/common-rest/src/main/java/org/apache/servicecomb/common/rest/codec/param/FormProcessorCreator.java:125 | appends exactly one part and leaves the form fields unchanged |
| `FormProcessorCreator.SetValue` | common/common-rest/src/main/java/org/apache/servicecomb/common/rest/codec/param/FormProcessorCreator.java:83-126 | a form processor adds exactly the field (name, argument); a part processor attaches the argument's part (or a null part) under the name, or fails the cast and attaches nothing when the argument is some other non-null value; nothing else in the client request changes |
| `FormTransport.FormRoundTrip` | common/common-rest/src/main/java/org/apache/servicecomb/common/rest/codec/param/FormProcessorCreator.java:54-85 | a string (scalar target) or non-empty string array (container target) added by `SetValue` under a fresh name is what `GetValue` converts on the server, whatever the default and required flag |
| `FormTransport.EmptyArrayArrivesMissing` | common/common-rest/src/main/java/org/apache/servicecomb/common/rest/codec/param/FormProcessorCreator.java:54-84 | an empty string array sent for a container arrives as a missing value: BAD_REQUEST when required, otherwise the converted default (or null) |
| `FormTransport.PartRoundTrip` | common/common-rest/src/main/java/org/apache/servicecomb/common/rest/codec/param/FormProcessorCreator.java:119-126 | a part attached by `SetValue` under a fresh name is returned unconverted, as the same handle, by `GetValue` |

## Left out

- Servlet I/O and multipart parsing: the inbound request is an immutable record of maps, and parts are opaque handles. The `IOException` and `ServletException` that `getPart` may throw are not modelled.
- Jackson type construction (`TypeFactory.constructType`): `Create` takes the resolved target type directly. A `JavaType` is reduced to a name and its container flag.
- `convertValue` (in `AbstractParamProcessor`, which is not part of this model): an unconstrained `Converter` parameter. How it treats null, strings and arrays is not modelled.
- The swagger `Parameter`, `FormParameter` and `FileProperty` object model: reduced to a name, an optional type string, a default value and a required flag. The cast of a non-form parameter to `FormParameter` is excluded by the type.
- The cast of the `FORM_PARAMETERS` request attribute to a map: the attribute is modelled as an optional map.
- The creator's constructor and its registration in the process-wide `ParamValueProcessorCreatorManager` registry: global start-up side effects, and the registry is not part of this model.
- The concrete `RestClientRequest` implementation (how it stores and encodes form fields and parts) is not part of this model: `ClientRequest` only records the calls made on it.
- `FormTransport.WireTexts`: the client's encoding of form arguments is an assumption of this model, defined neither by the servlet API nor by the code modelled here: a string is sent as one field, a string array as one field per element, and null and every other object send nothing. `FormTransport.FormRoundTrip` rests on it.
- `FormTransport.Received`: among several parts with the same name, the first non-null one is taken.
- `FormTransport.EmptyArrayArrivesMissing`: assumes a server request that reads an absent name as null, as the servlet API allows. With this framework's request, which per the comment at `FormProcessorCreator.java:56` gives a non-null array even for an absent name, the empty array is instead converted as it is, with no required or default check, as `FormProcessorCreator.EmptyArrayIsNotMissing` states.
- The spring annotation adapter (`CookieValueAnnotationProcessor`) and the other parameter locations (cookie, path, header, body) are not part of this model.
- Concurrency: the processors are immutable and have none.
