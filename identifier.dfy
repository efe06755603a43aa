/** `ACME_Identifier` (acme_isolator/acme/objects/identifier.py): parsing an identifier object
    of the form {"type": ..., "value": ...} (section 7.1.4 of RFC 8555). */
module Identifiers {
  import opened Wrappers
  import opened Values

  /** The type tag `ACME_Identifier_DNS` declares as the default of its `type` field: "dns"
      (section 9.7.7 of RFC 8555). That class is not itself decorated with `dataclass`, so the
      class attribute stays the `Field` object and an instance never receives the default; the
      model uses the declared default. */
  function TypeTag(t: IdentifierType): (tag: string)
    ensures t == Dns ==> tag == "dns"
  {
    match t
    case Dns => "dns"
  }

  /** `identifier()`: an identifier called as a function returns its `value`, the "value"
      of the identifier object it stands for. */
  function Call(id: Identifier): (v: Value)
    ensures v == ToDict(id).entries["value"]
  {
    id.value
  }

  /** True when `v` is a Python string equal to `s` (a URL-class string compares as a `str`). */
  predicate StrEquals(v: Value, s: string)
  {
    IsStr(v) && StrOf(v) == s
  }

  /** `ACME_Identifier.parse` as intended: a dict whose "type" is "dns" becomes a DNS
      identifier holding its "value"; the keyword arguments are exactly those two keys. */
  function Parse(v: Value): (r: Result<Identifier>)
    ensures r.Ok? <==> v.PyDict? && v.entries.Keys == {"type", "value"} && StrEquals(v.entries["type"], "dns")
    ensures r.Ok? ==> r.value.idType == Dns && r.value.value == v.entries["value"]
  {
    if !v.PyDict? then Err(TypeError)
    else if "type" !in v.entries then Err(KeyError)
    else if !StrEquals(v.entries["type"], "dns") then Err(ValueError)
    else if v.entries.Keys != {"type", "value"} then Err(TypeError)
    else Ok(Identifier(Dns, v.entries["value"]))
  }

  /** `ACME_Identifier.parse` as written: `ACME_Identifier_DNS(**identifier)` passes the key
      "type" as a keyword argument, but `type` is declared with `init=False`, so the generated
      `__init__` rejects it (and `url` and `parent`, required by `ACME_Object`, are missing). */
  function ParseAsWritten(v: Value): Result<Identifier>
  {
    if !v.PyDict? then Err(TypeError)
    else if "type" !in v.entries then Err(KeyError)
    else if !StrEquals(v.entries["type"], "dns") then Err(ValueError)
    else Err(TypeError)
  }

  /** The identifier object an identifier is parsed from. */
  function ToDict(id: Identifier): Value
  {
    PyDict(map["type" := PyStr(TypeTag(id.idType)), "value" := id.value])
  }

  /** `parse` is the inverse of the identifier object: every identifier is parsed back from its
      object, and the only dict parsed to an identifier is that identifier's object
      (up to a URL-class "type" string). */
  lemma ParseToDict(id: Identifier)
    ensures Parse(ToDict(id)) == Ok(id)
  {
    var d := ToDict(id).entries;
    assert d.Keys == {"type", "value"};
  }

  lemma ParseOnlyFromDict(v: Value, id: Identifier)
    requires Parse(v) == Ok(id)
    requires v.entries["type"].PyStr?
    ensures v == ToDict(id)
  {
    assert v.entries.Keys == {"type", "value"};
    assert v.entries == ToDict(id).entries;
  }

  /** The error cases of `parse`: a dict without "type" fails with KeyError, any other type
      than "dns" with ValueError, and a value that is not a dict cannot be subscripted. */
  lemma ParseErrors(v: Value)
    ensures v.PyDict? && "type" !in v.entries ==> Parse(v) == Err(KeyError)
    ensures v.PyDict? && "type" in v.entries && !StrEquals(v.entries["type"], "dns") ==> Parse(v) == Err(ValueError)
    ensures !v.PyDict? ==> Parse(v) == Err(TypeError)
  {
  }

  /** Calling a parsed identifier gives back the "value" of the dict it came from. */
  lemma CallAfterParse(v: Value)
    requires Parse(v).Ok?
    ensures Call(Parse(v).value) == v.entries["value"]
    ensures TypeTag(Parse(v).value.idType) == "dns"
  {
  }

  /** As written, no dict is ever parsed: where the intended `parse` yields an identifier,
      the written one raises TypeError, and elsewhere both agree. */
  lemma ParseAsWrittenNeverSucceeds(v: Value)
    ensures ParseAsWritten(v).Err?
    ensures Parse(v).Ok? ==> ParseAsWritten(v) == Err(TypeError)
    ensures Parse(v).Err? && ParseAsWritten(v) != Err(TypeError) ==> ParseAsWritten(v) == Parse(v)
  {
  }

  /** The identifier object {"type": "dns", "value": "example.com"} shows the discrepancy. */
  lemma ParseDnsExample()
    ensures var v := PyDict(map["type" := PyStr("dns"), "value" := PyStr("example.com")]);
            Parse(v) == Ok(Identifier(Dns, PyStr("example.com"))) && ParseAsWritten(v) == Err(TypeError)
  {
    var v := PyDict(map["type" := PyStr("dns"), "value" := PyStr("example.com")]);
    assert v.entries.Keys == {"type", "value"};
  }
}
