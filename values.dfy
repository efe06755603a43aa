/** The dynamically typed values the client passes around, and the shape of a mirrored
    server resource (`ACME_Object`, acme_isolator/acme/objects/base.py). */
module Values {
  import opened Wrappers
  import opened Strings

  /** The `ACME_Object` subclasses whose instances mirror server resources. */
  datatype Kind = Account | Orders | Order | Authorization | Challenge | Directory

  /** Identifier kinds; `dns` is the only one (section 9.7.7 of RFC 8555). */
  datatype IdentifierType = Dns

  /** An `ACME_Identifier` instance: its kind and its `value` field. */
  datatype Identifier = Identifier(idType: IdentifierType, value: Value)

  /** A Python `Enum` class with string values, as handed to `StatusDescriptor`. */
  datatype EnumType = EnumType(name: string, values: set<string>)

  /** A member of such an enum: the enum's name and the member's value. */
  datatype EnumMember = EnumMember(enumName: string, value: string)

  /** A Python value. Plain data decoded from JSON uses the `Py*` variants; the others are
      instances of the client's own classes. `UrlStr` is an instance of a resource's URL class
      (a `str` subclass), `Obj` a resolved resource, `ListObject` an `ElementList` instance and
      `Descriptor` the descriptor object itself, which a dataclass passes for a missing argument. */
  datatype Value =
    | PyNone
    | PyBool(b: bool)
    | PyInt(i: int)
    | PyStr(s: string)
    | PyBytes(bytes: seq<byte>)
    | PyList(items: seq<Value>)
    | PyDict(entries: map<string, Value>)
    | UrlStr(kind: Kind, url: string)
    | Obj(obj: AcmeObject)
    | Ident(id: Identifier)
    | Member(member: EnumMember)
    | ListObject(content: Kind, handle: nat)
    | Descriptor

  /** `isinstance(v, str)`: a plain string or a URL-class instance. */
  predicate IsStr(v: Value)
  {
    v.PyStr? || v.UrlStr?
  }

  function StrOf(v: Value): string
    requires IsStr(v)
  {
    if v.PyStr? then v.s else v.url
  }

  /** A value `json.loads` can produce (floating point aside). */
  predicate IsJson(v: Value)
  {
    match v
    case PyNone => true
    case PyBool(_) => true
    case PyInt(_) => true
    case PyStr(_) => true
    case PyList(items) => forall i :: 0 <= i < |items| ==> IsJson(items[i])
    case PyDict(entries) => forall k :: k in entries ==> IsJson(entries[k])
    case _ => false
  }

  /** A value `json.dumps` accepts: JSON data in which any `str` instance, a URL-class
      string included, is written as a JSON string. */
  predicate Serializable(v: Value)
  {
    match v
    case PyNone => true
    case PyBool(_) => true
    case PyInt(_) => true
    case PyStr(_) => true
    case UrlStr(_, _) => true
    case PyList(items) => forall i :: 0 <= i < |items| ==> Serializable(items[i])
    case PyDict(entries) => forall k :: k in entries ==> Serializable(entries[k])
    case _ => false
  }

  /** Whatever `json.loads` produces, `json.dumps` accepts. */
  lemma {:induction false} JsonIsSerializable(v: Value)
    requires IsJson(v)
    ensures Serializable(v)
  {
    match v
    case PyList(items) =>
      forall i | 0 <= i < |items|
        ensures Serializable(items[i])
      {
        JsonIsSerializable(items[i]);
      }
    case PyDict(entries) =>
      forall k | k in entries
        ensures Serializable(entries[k])
      {
        JsonIsSerializable(entries[k]);
      }
    case _ =>
  }

  /** What a class attribute named like a field is: one of the descriptors, or a plain class
      attribute (the default value a dataclass leaves on the class). */
  datatype ClassAttr =
    | ReferenceAttr(target: Kind)
    | ListAttr(listContent: Kind)
    | IdentifierAttr
    | IdentifierListAttr
    | StatusAttr(enumType: EnumType)
    | PlainAttr

  /** What a resource class declares:
      - `fields`: its dataclass fields, as `fields(self)` lists them;
      - `initParams`: the keyword parameters of its generated `__init__`, which are the
        fields not declared `init=False` together with its `InitVar`s;
      - `required`: the parameters without a default;
      - `attrs`: the attributes in its own class `__dict__` named like a field;
      - `requestReturnCode`: its `request_return_code`. */
  datatype Schema = Schema(
    fields: set<string>,
    initParams: set<string>,
    required: set<string>,
    attrs: map<string, ClassAttr>,
    requestReturnCode: int)

  const DefaultReturnCode: int := 200

  /** A class is well formed when
      - it declares a `StatusDescriptor` under the name "status" only, since that descriptor
        writes the key "status" whatever its attribute is called;
      - the required names are parameters of `__init__`;
      - every parameter backed by a descriptor is without default: `dataclass` reads a
        default through the class attribute, and a descriptor's `__get__` raises
        AttributeError when read from the class, so the parameter is left without one. */
  predicate ValidSchema(schema: Schema)
  {
    (forall k :: k in schema.attrs && schema.attrs[k].StatusAttr? ==> k == "status") &&
    schema.required <= schema.initParams &&
    (forall k :: k in schema.attrs && !schema.attrs[k].PlainAttr? && k in schema.initParams ==> k in schema.required)
  }

  /** A mirrored server resource. `url` and `parent` never change after construction;
      `dict` is the instance `__dict__`. */
  class AcmeObject {
    const kind: Kind
    const schema: Schema
    const url: string
    const parent: AcmeObject?
    var dict: map<string, Value>

    constructor (kind: Kind, schema: Schema, url: string, parent: AcmeObject?, dict: map<string, Value>)
      ensures this.kind == kind && this.schema == schema && this.url == url
      ensures this.parent == parent && this.dict == dict
    {
      this.kind := kind;
      this.schema := schema;
      this.url := url;
      this.parent := parent;
      this.dict := dict;
    }
  }

  /** The content of a key of an instance `__dict__`, `None` when the key is absent. */
  function Slot(d: map<string, Value>, k: string): Option<Value>
  {
    if k in d then Some(d[k]) else None
  }

  /** The dictionary with the key set to the given content, or removed for `None`. */
  function Put(d: map<string, Value>, k: string, content: Option<Value>): (r: map<string, Value>)
    ensures Slot(r, k) == content
    ensures forall j :: j != k ==> Slot(r, j) == Slot(d, j)
  {
    match content
    case Some(v) => d[k := v]
    case None => d - {k}
  }
}
