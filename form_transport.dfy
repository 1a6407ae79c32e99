/**
  How a client request's form fields and parts reach the server. The
  client's encoding is an assumption of this model (a string is one field, a
  string array one field per element, null and other objects nothing); the
  server side follows the servlet API (getParameterValues gives every value
  sent under a name, in order, or null when there is none; getParameter gives
  the first of them).
  The round-trip lemmas here connect setValue on the client to getValue on
  the server.
 */
module FormTransport {
  import opened Wrappers
  import opened FormProcessorCreator

  /** The texts a form argument puts on the wire: one for a string, one per element of a string array, none otherwise. */
  function WireTexts(v: Value): (ts: seq<string>)
    ensures v.Text? ==> ts == [v.text]
    ensures v.TextArray? ==> ts == v.items
    ensures !v.Text? && !v.TextArray? ==> ts == []
  {
    match v
    case Text(s) => [s]
    case TextArray(items) => items
    case _ => []
  }

  /** No form field of the request has the given name. */
  predicate NoFormNamed(forms: seq<(string, Value)>, name: string)
  {
    forall i :: 0 <= i < |forms| ==> forms[i].0 != name
  }

  /** No part of the request has the given name. */
  predicate NoPartNamed(attachments: seq<(string, Option<PartHandle>)>, name: string)
  {
    forall i :: 0 <= i < |attachments| ==> attachments[i].0 != name
  }

  /** Every text sent under a name, in the order the fields were added. */
  function ValuesFor(forms: seq<(string, Value)>, name: string): (vs: seq<string>)
    ensures NoFormNamed(forms, name) ==> vs == []
  {
    if forms == [] then []
    else (if forms[0].0 == name then WireTexts(forms[0].1) else []) + ValuesFor(forms[1..], name)
  }

  /** The first non-null part attached under a name. */
  function FirstPart(attachments: seq<(string, Option<PartHandle>)>, name: string): (h: Option<PartHandle>)
    ensures NoPartNamed(attachments, name) ==> h == None
  {
    if attachments == [] then None
    else if attachments[0].0 == name && attachments[0].1.Some? then attachments[0].1
    else FirstPart(attachments[1..], name)
  }

  /** The names of the form fields. */
  function FormNames(forms: seq<(string, Value)>): set<string>
  {
    set i | 0 <= i < |forms| :: forms[i].0
  }

  /** The names of the parts. */
  function PartNames(attachments: seq<(string, Option<PartHandle>)>): set<string>
  {
    set i | 0 <= i < |attachments| :: attachments[i].0
  }

  /** A part found under a name was attached under that name. */
  lemma {:induction false} FoundPartWasAttached(attachments: seq<(string, Option<PartHandle>)>, name: string)
    requires FirstPart(attachments, name).Some?
    ensures exists i :: 0 <= i < |attachments| && attachments[i] == (name, FirstPart(attachments, name))
  {
    if !(attachments[0].0 == name && attachments[0].1.Some?) {
      FoundPartWasAttached(attachments[1..], name);
      var i :| 0 <= i < |attachments[1..]| && attachments[1..][i] == (name, FirstPart(attachments[1..], name));
      assert attachments[i + 1] == attachments[1..][i];
    }
  }

  /** The server request a servlet container presents for the client's fields and parts; it has no pre-parsed forms map. */
  function Received(forms: seq<(string, Value)>, attachments: seq<(string, Option<PartHandle>)>): (req: ServerRequest)
    ensures req.formParameters == None
    ensures forall n :: n in req.parameterValues <==> ValuesFor(forms, n) != []
    ensures forall n :: n in req.parameterValues ==>
              req.parameterValues[n] == ValuesFor(forms, n) && n in req.parameters && req.parameters[n] == ValuesFor(forms, n)[0]
    ensures forall n :: n in req.parameters <==> n in req.parameterValues
    ensures forall n :: n in req.parts <==> FirstPart(attachments, n).Some?
    ensures forall n :: n in req.parts ==> req.parts[n] == FirstPart(attachments, n).value
  {
    var values := map n | n in FormNames(forms) && ValuesFor(forms, n) != [] :: ValuesFor(forms, n);
    var firsts := map n | n in FormNames(forms) && ValuesFor(forms, n) != [] :: ValuesFor(forms, n)[0];
    var parts := map n | n in PartNames(attachments) && FirstPart(attachments, n).Some? :: FirstPart(attachments, n).value;
    assert forall n :: ValuesFor(forms, n) != [] ==> n in FormNames(forms) by {
      forall n | ValuesFor(forms, n) != [] ensures n in FormNames(forms) {
        var i :| 0 <= i < |forms| && forms[i].0 == n;
      }
    }
    assert forall n :: FirstPart(attachments, n).Some? ==> n in PartNames(attachments) by {
      forall n | FirstPart(attachments, n).Some? ensures n in PartNames(attachments) {
        FoundPartWasAttached(attachments, n);
        var i :| 0 <= i < |attachments| && attachments[i] == (n, FirstPart(attachments, n));
        assert attachments[i].0 == n;
      }
    }
    ServerRequest(None, values, firsts, parts)
  }

  /** Adding a field appends its wire texts to the values of its own name and leaves every other name's values alone. */
  lemma {:induction false} ValuesForAppend(forms: seq<(string, Value)>, e: (string, Value), name: string)
    ensures ValuesFor(forms + [e], name) == ValuesFor(forms, name) + (if e.0 == name then WireTexts(e.1) else [])
  {
    var tail := if e.0 == name then WireTexts(e.1) else [];
    if forms == [] {
      assert [e][1..] == [];
      assert ValuesFor([e], name) == tail + ValuesFor([], name);
    } else {
      var head := if forms[0].0 == name then WireTexts(forms[0].1) else [];
      assert (forms + [e])[0] == forms[0];
      assert (forms + [e])[1..] == forms[1..] + [e];
      calc {
        ValuesFor(forms + [e], name);
        head + ValuesFor(forms[1..] + [e], name);
        { ValuesForAppend(forms[1..], e, name); }
        head + (ValuesFor(forms[1..], name) + tail);
        (head + ValuesFor(forms[1..], name)) + tail;
        ValuesFor(forms, name) + tail;
      }
    }
  }

  /** A part attached under a name no earlier part used is the one the server finds. */
  lemma {:induction false} FirstPartAppend(attachments: seq<(string, Option<PartHandle>)>, name: string, h: PartHandle)
    requires NoPartNamed(attachments, name)
    ensures FirstPart(attachments + [(name, Some(h))], name) == Some(h)
  {
    if attachments != [] {
      assert (attachments + [(name, Some(h))])[1..] == attachments[1..] + [(name, Some(h))];
      FirstPartAppend(attachments[1..], name, h);
    }
  }

  /**
    Round trip of a form field: after setValue of a string (scalar target)
    or of a non-empty string array (container target) under a name no other
    field uses, getValue on the received request converts exactly that
    argument, whatever the required flag and default.
   */
  lemma FormRoundTrip(p: Processor, forms: seq<(string, Value)>, attachments: seq<(string, Option<PartHandle>)>,
                      arg: Value, convert: Converter)
    requires p.FormProcessor?
    requires NoFormNamed(forms, p.paramPath)
    requires if p.targetType.isContainer then arg.TextArray? && arg.items != [] else arg.Text?
    ensures GetValue(p, Received(forms + [(p.paramPath, arg)], attachments), convert)
            == Convert(convert, arg, p.targetType)
  {
    var req := Received(forms + [(p.paramPath, arg)], attachments);
    ValuesForAppend(forms, (p.paramPath, arg), p.paramPath);
    assert ValuesFor(forms + [(p.paramPath, arg)], p.paramPath) == WireTexts(arg);
    assert RawLookup(p, req) == arg;
  }

  /**
    An empty string array puts nothing on the wire, so on a server request
    that reads an absent name as null the parameter is missing: a required
    one fails, otherwise the default (or null) is converted instead of the
    empty array. A request that gives an empty array for an absent name
    falls under EmptyArrayIsNotMissing instead.
   */
  lemma EmptyArrayArrivesMissing(p: Processor, forms: seq<(string, Value)>, attachments: seq<(string, Option<PartHandle>)>,
                                 convert: Converter)
    requires p.FormProcessor? && p.targetType.isContainer
    requires NoFormNamed(forms, p.paramPath)
    ensures GetValue(p, Received(forms + [(p.paramPath, TextArray([]))], attachments), convert)
            == if p.required then Failure(RequiredFailure()) else Convert(convert, p.defaultValue, p.targetType)
  {
    ValuesForAppend(forms, (p.paramPath, TextArray([])), p.paramPath);
  }

  /** Round trip of a part: the handle attached by setValue under a fresh name is returned unconverted by getValue. */
  lemma PartRoundTrip(p: Processor, forms: seq<(string, Value)>, attachments: seq<(string, Option<PartHandle>)>,
                      h: PartHandle, convert: Converter)
    requires p.PartProcessor?
    requires NoPartNamed(attachments, p.paramPath)
    ensures GetValue(p, Received(forms, attachments + [(p.paramPath, Some(h))]), convert) == Success(PartValue(h))
  {
    FirstPartAppend(attachments, p.paramPath, h);
  }
}
