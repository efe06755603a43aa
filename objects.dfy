/** `ACME_Object` (acme_isolator/acme/objects/base.py): folding a server reply onto a resource
    and fetching a resource by URL through the register of live instances. */
module Objects {
  import opened Wrappers
  import opened Values
  import Descriptors

  /** `hold_keys`: the keys `update_fields` never writes. */
  const HoldKeys: set<string> := {"parent", "url"}

  /** The keys `update_fields` writes: dataclass fields present in the data, minus `hold_keys`. */
  function UpdateKeys(schema: Schema, data: map<string, Value>): (keys: set<string>)
    ensures forall k :: k in keys <==> k in schema.fields && k in data && k !in HoldKeys
  {
    (schema.fields * data.Keys) - HoldKeys
  }

  /** The new content of field `k` when `v` is assigned to it: stored as it is when the class
      declares no attribute of that name, through the descriptor otherwise. */
  function FieldAssign(schema: Schema, k: string, current: Option<Value>, v: Value): Result<Option<Value>>
  {
    if k in schema.attrs then Descriptors.AttrAssign(schema.attrs[k], current, v) else Ok(Some(v))
  }

  /** The new content of field `k` when the generated `__init__` of `cls(**data)` assigns `v`
      to it: a descriptor's `__set__` runs, while a plain class attribute (it has no
      `__set__`) and a field without class attribute both leave the value in the instance
      dictionary. It differs from `FieldAssign` exactly on plain class attributes, which
      `update_fields` refuses. */
  function InitAssign(schema: Schema, k: string, current: Option<Value>, v: Value): (r: Result<Option<Value>>)
    ensures !(k in schema.attrs && schema.attrs[k].PlainAttr?) ==> r == FieldAssign(schema, k, current, v)
    ensures k in schema.attrs && schema.attrs[k].PlainAttr? ==>
              r == Ok(Some(v)) && FieldAssign(schema, k, current, v) == Err(AttributeError)
  {
    if k in schema.attrs && !schema.attrs[k].PlainAttr? then Descriptors.AttrAssign(schema.attrs[k], current, v)
    else Ok(Some(v))
  }

  /** `update_fields`: each key of `UpdateKeys` is assigned in turn (in set order, which
      Python leaves unspecified). On success every such key holds what its assignment made of
      it; on failure the keys handled before the failing one keep their new content. Keys
      outside `UpdateKeys`, among them `url` and `parent`, are never touched. */
  method UpdateFields(o: AcmeObject, data: map<string, Value>) returns (r: Outcome)
    requires ValidSchema(o.schema)
    modifies o
    ensures forall k :: k !in UpdateKeys(o.schema, data) ==> Slot(o.dict, k) == Slot(old(o.dict), k)
    ensures forall k :: k in HoldKeys ==> Slot(o.dict, k) == Slot(old(o.dict), k)
    ensures r.Pass? ==> forall k :: k in UpdateKeys(o.schema, data) ==>
              FieldAssign(o.schema, k, Slot(old(o.dict), k), data[k]) == Ok(Slot(o.dict, k))
    ensures r.Fail? ==>
              exists k :: k in UpdateKeys(o.schema, data) &&
                          FieldAssign(o.schema, k, Slot(old(o.dict), k), data[k]) == Err(r.error)
    ensures forall k :: k in UpdateKeys(o.schema, data) ==>
              Slot(o.dict, k) == Slot(old(o.dict), k) ||
              FieldAssign(o.schema, k, Slot(old(o.dict), k), data[k]) == Ok(Slot(o.dict, k))
  {
    var keys := UpdateKeys(o.schema, data);
    var todo := keys;
    while todo != {}
      invariant todo <= keys
      invariant forall k :: k !in keys - todo ==> Slot(o.dict, k) == Slot(old(o.dict), k)
      invariant forall k :: k in keys - todo ==>
                  FieldAssign(o.schema, k, Slot(old(o.dict), k), data[k]) == Ok(Slot(o.dict, k))
      decreases todo
    {
      var key :| key in todo;
      assert Slot(o.dict, key) == Slot(old(o.dict), key);
      if key in o.schema.attrs {
        var out := Descriptors.SetAttr(o.schema.attrs[key], key, o, data[key]);
        if out.Fail? {
          return out;
        }
      } else {
        o.dict := o.dict[key := data[key]];
      }
      todo := todo - {key};
    }
    r := Pass;
  }

  /** The field assignments of the generated `__init__` of `cls(**data)` after `url` and
      `parent`: each key of `UpdateKeys` in turn (in field order, left unspecified here), through
      `InitAssign`. On success every such key holds what its assignment made of it; on failure
      the error is that of one such key. No other key is touched. */
  method InitFields(o: AcmeObject, data: map<string, Value>) returns (r: Outcome)
    requires ValidSchema(o.schema)
    modifies o
    ensures forall k :: k !in UpdateKeys(o.schema, data) ==> Slot(o.dict, k) == Slot(old(o.dict), k)
    ensures r.Pass? ==> forall k :: k in UpdateKeys(o.schema, data) ==>
              InitAssign(o.schema, k, Slot(old(o.dict), k), data[k]) == Ok(Slot(o.dict, k))
    ensures r.Fail? ==>
              exists k :: k in UpdateKeys(o.schema, data) &&
                          InitAssign(o.schema, k, Slot(old(o.dict), k), data[k]) == Err(r.error)
  {
    var keys := UpdateKeys(o.schema, data);
    var todo := keys;
    while todo != {}
      invariant todo <= keys
      invariant forall k :: k !in keys - todo ==> Slot(o.dict, k) == Slot(old(o.dict), k)
      invariant forall k :: k in keys - todo ==>
                  InitAssign(o.schema, k, Slot(old(o.dict), k), data[k]) == Ok(Slot(o.dict, k))
      decreases todo
    {
      var key :| key in todo;
      assert Slot(o.dict, key) == Slot(old(o.dict), key);
      if key in o.schema.attrs && !o.schema.attrs[key].PlainAttr? {
        var out := Descriptors.SetAttr(o.schema.attrs[key], key, o, data[key]);
        if out.Fail? {
          return out;
        }
      } else {
        o.dict := o.dict[key := data[key]];
      }
      todo := todo - {key};
    }
    r := Pass;
  }

  /** `_object_register`: the live resource for each URL. Nothing in the client inserts into
      it, so it is given state here. */
  class Registry {
    var objects: map<string, AcmeObject>

    ghost predicate Valid()
      reads this
    {
      forall u :: u in objects ==> objects[u].url == u
    }

    constructor (objects: map<string, AcmeObject>)
      requires forall u :: u in objects ==> objects[u].url == u
      ensures Valid() && this.objects == objects
    {
      this.objects := objects;
    }
  }

  /** A server reply as `account.post` returns it: status code and decoded body. */
  datatype Reply = Reply(status: int, body: Value)

  /** The reply body with "parent" and "url" set, as `data.update` does: "url" holds the
      argument itself, a plain `str` or an instance of a URL class. */
  function WithOrigin(body: map<string, Value>, parent: AcmeObject, url: Value): (data: map<string, Value>)
    ensures data.Keys == body.Keys + {"parent", "url"}
    ensures data["parent"] == Obj(parent) && data["url"] == url
  {
    body["parent" := Obj(parent)]["url" := url]
  }

  /** The instance dictionary `cls(**data)` leaves: `parent` and `url` as given, every other
      field of the data assigned as the generated `__init__` assigns it, nothing else. */
  ghost predicate NewInstanceDict(schema: Schema, data: map<string, Value>, d: map<string, Value>)
    requires "parent" in data && "url" in data
  {
    Slot(d, "parent") == Some(data["parent"]) && Slot(d, "url") == Some(data["url"]) &&
    (forall k :: k in UpdateKeys(schema, data) ==> InitAssign(schema, k, None, data[k]) == Ok(Slot(d, k))) &&
    (forall k :: k !in UpdateKeys(schema, data) && k !in HoldKeys ==> k !in d)
  }

  /** The dictionary `update_fields` leaves after a complete run: each key of `UpdateKeys`
      holds what `FieldAssign` made of its old content, every other key is unchanged. */
  ghost predicate UpdatedDict(schema: Schema, data: map<string, Value>, before: map<string, Value>, after: map<string, Value>)
  {
    (forall k :: k in UpdateKeys(schema, data) ==> FieldAssign(schema, k, Slot(before, k), data[k]) == Ok(Slot(after, k))) &&
    (forall k :: k !in UpdateKeys(schema, data) ==> Slot(after, k) == Slot(before, k))
  }

  /** The dictionary `update_fields` leaves when it stops early: keys outside `UpdateKeys`
      are unchanged, and each key of it is either unchanged or holds what `FieldAssign` made
      of its old content. */
  ghost predicate PartlyUpdatedDict(schema: Schema, data: map<string, Value>, before: map<string, Value>, after: map<string, Value>)
  {
    (forall k :: k in UpdateKeys(schema, data) ==>
       Slot(after, k) == Slot(before, k) || FieldAssign(schema, k, Slot(before, k), data[k]) == Ok(Slot(after, k))) &&
    (forall k :: k !in UpdateKeys(schema, data) ==> Slot(after, k) == Slot(before, k))
  }

  /** Whether `cls(**data)` gets acceptable keyword arguments: only parameters of the
      generated `__init__`, and every parameter without default. */
  predicate InitArgumentsFit(schema: Schema, data: map<string, Value>)
  {
    data.Keys <= schema.initParams && schema.required <= data.Keys
  }

  /** Some key of `UpdateKeys` whose assignment raises `e`. */
  ghost predicate FailsOn(schema: Schema, data: map<string, Value>, before: map<string, Value>, e: Error)
  {
    exists k :: k in UpdateKeys(schema, data) && FieldAssign(schema, k, Slot(before, k), data[k]) == Err(e)
  }

  /** Every key of `UpdateKeys` can be assigned by `update_fields` to an instance whose
      dictionary is `before`. */
  ghost predicate UpdateSucceeds(schema: Schema, data: map<string, Value>, before: map<string, Value>)
  {
    forall k :: k in UpdateKeys(schema, data) ==> FieldAssign(schema, k, Slot(before, k), data[k]).Ok?
  }

  /** A complete update had every key assignable; a failure on one key means not every key was. */
  lemma UpdateOutcome(schema: Schema, data: map<string, Value>, before: map<string, Value>,
                      after: map<string, Value>, e: Error)
    ensures UpdatedDict(schema, data, before, after) ==> UpdateSucceeds(schema, data, before)
    ensures FailsOn(schema, data, before, e) ==> !UpdateSucceeds(schema, data, before)
  {
  }

  /** Every key of `UpdateKeys` of a new instance can be assigned by the generated `__init__`. */
  ghost predicate InitSucceeds(schema: Schema, data: map<string, Value>)
  {
    forall k :: k in UpdateKeys(schema, data) ==> InitAssign(schema, k, None, data[k]).Ok?
  }

  /** `get_from_url`: the reply status must be the class's `request_return_code`; a URL the
      register holds gets that very instance updated by `update_fields` and returned, any
      other URL a new instance built from the reply by the generated `__init__`. `urlArg` is
      the `url` argument as the caller passes it (a plain `str` or a URL-class instance), which
      `data.update` stores; `url` is its text, which keys the register. */
  method GetFromUrl(reg: Registry, kind: Kind, schema: Schema, parent: AcmeObject, url: string, urlArg: Value, reply: Reply)
    returns (r: Result<AcmeObject>)
    requires IsStr(urlArg) && StrOf(urlArg) == url
    requires reg.Valid()
    requires ValidSchema(schema)
    requires url in reg.objects ==> ValidSchema(reg.objects[url].schema)
    modifies if url in reg.objects then {reg.objects[url]} else {}
    ensures reply.status != schema.requestReturnCode ==> r == Err(AssertionError)
    ensures reply.status == schema.requestReturnCode && !reply.body.PyDict? ==> r == Err(AttributeError)
    ensures r.Ok? ==> r.value.url == url
    ensures r.Ok? && url in reg.objects ==> r.value == reg.objects[url]
    ensures r.Ok? && url !in reg.objects ==>
              reply.body.PyDict? && fresh(r.value) && r.value.kind == kind && r.value.schema == schema && r.value.parent == parent &&
              NewInstanceDict(schema, WithOrigin(reply.body.entries, parent, urlArg), r.value.dict)
    ensures reply.status == schema.requestReturnCode && reply.body.PyDict? && url !in reg.objects ==>
              var data := WithOrigin(reply.body.entries, parent, urlArg);
              (r.Ok? <==> InitArgumentsFit(schema, data) && InitSucceeds(schema, data)) &&
              (r.Err? && InitArgumentsFit(schema, data) ==>
                 exists k :: k in UpdateKeys(schema, data) && InitAssign(schema, k, None, data[k]) == Err(r.error)) &&
              (r.Err? && !InitArgumentsFit(schema, data) ==> r.error == TypeError)
    ensures reply.status == schema.requestReturnCode && reply.body.PyDict? && url in reg.objects ==>
              var o := reg.objects[url];
              var data := WithOrigin(reply.body.entries, parent, urlArg);
              (r.Ok? <==> UpdateSucceeds(o.schema, data, old(o.dict))) &&
              (r.Ok? ==> UpdatedDict(o.schema, data, old(o.dict), o.dict)) &&
              (r.Err? ==> FailsOn(o.schema, data, old(o.dict), r.error) &&
                          PartlyUpdatedDict(o.schema, data, old(o.dict), o.dict))
    ensures !(reply.status == schema.requestReturnCode && reply.body.PyDict?) ==>
              forall u :: u in reg.objects ==> reg.objects[u].dict == old(reg.objects[u].dict)
    ensures forall u, k :: u in reg.objects && k in HoldKeys ==>
              Slot(reg.objects[u].dict, k) == Slot(old(reg.objects[u].dict), k)
  {
    if reply.status != schema.requestReturnCode {
      return Err(AssertionError);
    }
    if !reply.body.PyDict? {
      return Err(AttributeError);
    }
    var data := WithOrigin(reply.body.entries, parent, urlArg);
    if url in reg.objects {
      var o := reg.objects[url];
      var out := UpdateFields(o, data);
      UpdateOutcome(o.schema, data, old(o.dict), o.dict, if out.Fail? then out.error else TypeError);
      if out.Fail? {
        return Err(out.error);
      }
      r := Ok(o);
    } else if !InitArgumentsFit(schema, data) {
      r := Err(TypeError);
    } else {
      var o := new AcmeObject(kind, schema, url, parent, map["parent" := Obj(parent), "url" := urlArg]);
      var out := InitFields(o, data);
      if out.Fail? {
        return Err(out.error);
      }
      r := Ok(o);
    }
  }
}
