/** The field descriptors of acme_isolator/acme/objects/descriptors/: each one coerces the
    value assigned to a field and stores it in the instance `__dict__`. The assignment rules
    are functions from the field's current content and the assigned value to its new content;
    the `Set*` methods carry them out on an `AcmeObject`. */
module Descriptors {
  import opened Wrappers
  import opened Values
  import Identifiers

  /** A class object handed to a descriptor's constructor. */
  datatype ClassRef = AcmeObjectClass(kind: Kind) | ElementListClass(content: Kind) | OtherClass

  // ---------------------------------------------------------------------------------------
  // AcmeDescriptor (descriptors/base.py): a reference to another resource

  datatype ReferenceDescriptor = ReferenceDescriptor(target: Kind, name: string)

  /** `AcmeDescriptor.__init__`: only subclasses of `ACME_Object` are accepted. */
  function NewReferenceDescriptor(cls: ClassRef, name: string): (r: Result<ReferenceDescriptor>)
    ensures r.Ok? <==> cls.AcmeObjectClass?
    ensures r.Ok? ==> r.value == ReferenceDescriptor(cls.kind, name)
    ensures r.Err? ==> r.error == ValueError
  {
    if cls.AcmeObjectClass? then Ok(ReferenceDescriptor(cls.kind, name)) else Err(ValueError)
  }

  /** The field holds a resolved resource of the descriptor's type. */
  predicate IsResolved(target: Kind, current: Option<Value>)
  {
    current.Some? && current.value.Obj? && current.value.obj.kind == target
  }

  /** The URL a string or a resource of the given kind stands for. */
  function ReferenceUrl(target: Kind, v: Value): Option<string>
  {
    if IsStr(v) then Some(StrOf(v))
    else if v.Obj? && v.obj.kind == target then Some(v.obj.url)
    else None
  }

  /** `AcmeDescriptor.__set__`: the new content of the field. */
  function ReferenceAssign(target: Kind, current: Option<Value>, v: Value): (r: Result<Value>)
    ensures v == Descriptor ==> r == Err(ValueError)
    ensures IsResolved(target, current) && r.Ok? ==> r.value == current.value
    ensures !IsResolved(target, current) && r.Ok? ==>
              (v.PyStr? && r.value == UrlStr(target, v.s)) || r.value == v
  {
    if v == Descriptor then Err(ValueError)
    else if IsResolved(target, current) then
      var held := current.value.obj;
      if IsStr(v) then
        (if held.url == StrOf(v) then Ok(current.value) else Err(NotImplementedError))
      else if v.Obj? && v.obj.kind == target then
        (if held.url == v.obj.url then Ok(current.value) else Err(NotImplementedError))
      else Err(ValueError)
    else if v.PyStr? then Ok(UrlStr(target, v.s))
    else if (v.UrlStr? && v.kind == target) || (v.Obj? && v.obj.kind == target) then Ok(v)
    else Err(ValueError)
  }

  /** Once the field holds a resource, an assignment naming a different URL fails with
      NotImplementedError, and one of another type fails with ValueError. */
  lemma ReferenceResolvedErrors(target: Kind, current: Option<Value>, v: Value)
    requires IsResolved(target, current) && v != Descriptor
    ensures ReferenceUrl(target, v).Some? && ReferenceUrl(target, v).value != current.value.obj.url ==>
              ReferenceAssign(target, current, v) == Err(NotImplementedError)
    ensures ReferenceUrl(target, v).Some? && ReferenceUrl(target, v).value == current.value.obj.url ==>
              ReferenceAssign(target, current, v) == Ok(current.value)
    ensures ReferenceUrl(target, v).None? ==> ReferenceAssign(target, current, v) == Err(ValueError)
  {
  }

  /** While the field holds no resource: a plain string is wrapped in the URL class, a URL-class
      instance or a resource of the type is stored as it is, anything else fails with ValueError. */
  lemma ReferenceUnresolvedRules(target: Kind, current: Option<Value>, v: Value)
    requires !IsResolved(target, current)
    ensures v.PyStr? ==> ReferenceAssign(target, current, v) == Ok(UrlStr(target, v.s))
    ensures (v.UrlStr? && v.kind == target) || (v.Obj? && v.obj.kind == target) ==>
              ReferenceAssign(target, current, v) == Ok(v)
    ensures ReferenceAssign(target, current, v).Err? <==>
              !(v.PyStr? || (v.UrlStr? && v.kind == target) || (v.Obj? && v.obj.kind == target))
  {
  }

  /** The field after a series of assignments; a failed assignment leaves it as it was. */
  function ReferenceAssignAll(target: Kind, current: Option<Value>, vs: seq<Value>): Option<Value>
    decreases |vs|
  {
    if vs == [] then current
    else
      var next := match ReferenceAssign(target, current, vs[0])
                  case Ok(w) => Some(w)
                  case Err(_) => current;
      ReferenceAssignAll(target, next, vs[1..])
  }

  /** Upgrade monotonicity: a field that holds a resource keeps exactly that resource
      whatever is assigned to it afterwards. */
  lemma {:induction false} ResolvedIsPermanent(target: Kind, current: Option<Value>, vs: seq<Value>)
    requires IsResolved(target, current)
    ensures ReferenceAssignAll(target, current, vs) == current
    decreases |vs|
  {
    if vs != [] {
      ResolvedIsPermanent(target, current, vs[1..]);
    }
  }

  /** A field that ends up resolved got there from its starting content or from a resource
      of the type that was assigned to it; the URL it holds never changes once resolved. */
  lemma {:induction false} ResolvedComesFromAssignment(target: Kind, current: Option<Value>, vs: seq<Value>)
    requires IsResolved(target, ReferenceAssignAll(target, current, vs))
    ensures ReferenceAssignAll(target, current, vs) == current ||
            exists i :: 0 <= i < |vs| && vs[i] == ReferenceAssignAll(target, current, vs).value
    decreases |vs|
  {
    if vs != [] {
      var next := match ReferenceAssign(target, current, vs[0])
                  case Ok(w) => Some(w)
                  case Err(_) => current;
      ResolvedComesFromAssignment(target, next, vs[1..]);
      var last := ReferenceAssignAll(target, current, vs);
      if last == next {
        if next != current {
          assert vs[0] == last.value;
        }
      } else {
        var i :| 0 <= i < |vs[1..]| && vs[1..][i] == last.value;
        assert vs[i + 1] == last.value;
      }
    }
  }

  /** `AcmeDescriptor.__get__`: the content of the field; KeyError before any assignment. */
  method GetReference(d: ReferenceDescriptor, inst: AcmeObject) returns (r: Result<Value>)
    ensures r == (if d.name in inst.dict then Ok(inst.dict[d.name]) else Err(KeyError))
  {
    if d.name in inst.dict {
      r := Ok(inst.dict[d.name]);
    } else {
      r := Err(KeyError);
    }
  }

  /** `AcmeDescriptor.__set__` on an instance. */
  method SetReference(d: ReferenceDescriptor, inst: AcmeObject, v: Value) returns (r: Outcome)
    modifies inst
    ensures match ReferenceAssign(d.target, Slot(old(inst.dict), d.name), v)
            case Ok(w) => r == Pass && inst.dict == old(inst.dict)[d.name := w]
            case Err(e) => r == Fail(e) && inst.dict == old(inst.dict)
  {
    if v == Descriptor {
      return Fail(ValueError);
    }
    var current := Slot(inst.dict, d.name);
    if IsResolved(d.target, current) {
      var held := current.value.obj;
      if IsStr(v) {
        if held.url != StrOf(v) {
          return Fail(NotImplementedError);
        }
      } else if v.Obj? && v.obj.kind == d.target {
        if held.url != v.obj.url {
          return Fail(NotImplementedError);
        }
      } else {
        return Fail(ValueError);
      }
      r := Pass;
    } else if v.PyStr? {
      inst.dict := inst.dict[d.name := UrlStr(d.target, v.s)];
      r := Pass;
    } else if (v.UrlStr? && v.kind == d.target) || (v.Obj? && v.obj.kind == d.target) {
      inst.dict := inst.dict[d.name := v];
      r := Pass;
    } else {
      r := Fail(ValueError);
    }
  }

  // ---------------------------------------------------------------------------------------
  // ListDescriptor (descriptors/base.py): a collection field that is set once

  datatype ListDescriptor = ListDescriptor(content: Kind, name: string)

  /** `ListDescriptor.__init__`: only subclasses of `ElementList` are accepted. */
  function NewListDescriptor(cls: ClassRef, name: string): (r: Result<ListDescriptor>)
    ensures r.Ok? <==> cls.ElementListClass?
    ensures r.Ok? ==> r.value == ListDescriptor(cls.content, name)
    ensures r.Err? ==> r.error == ValueError
  {
    if cls.ElementListClass? then Ok(ListDescriptor(cls.content, name)) else Err(ValueError)
  }

  /** `ListDescriptor.__set__`: the new content of the field. An instance of the list class is
      stored; a plain list is handed to the list class with `parent` as a second positional
      argument, which its keyword-only `parent` rejects; any other value is ignored. */
  function ListAssign(content: Kind, current: Option<Value>, v: Value): (r: Result<Option<Value>>)
    ensures current.Some? ==> r == Err(NotImplementedError)
    ensures current.None? && r.Ok? ==> r.value.None? || r.value == Some(v)
    ensures current.None? ==> (r == Ok(Some(v)) <==> v.ListObject? && v.content == content)
    ensures current.None? ==> (r.Err? <==> v.PyList?)
  {
    if current.Some? then Err(NotImplementedError)
    else if v.ListObject? && v.content == content then Ok(Some(v))
    else if v.PyList? then Err(TypeError)
    else Ok(None)
  }

  /** Set-once: after a first assignment stores a list, every later one fails. */
  lemma ListSetOnce(content: Kind, first: Value, second: Value)
    requires ListAssign(content, None, first) == Ok(Some(first))
    ensures ListAssign(content, Some(first), second) == Err(NotImplementedError)
  {
  }

  /** `ListDescriptor.__get__` as intended: the stored list, or else a new empty instance of
      the list class (the instance `handle`), which is stored before it is returned. The result
      pairs the list read with the new content of the field. */
  function ListGet(d: ListDescriptor, current: Option<Value>, handle: nat): (r: (Value, Option<Value>))
    ensures r.1 == Some(r.0)
    ensures current.Some? ==> r.1 == current
    ensures current.None? ==> r.0 == ListObject(d.content, handle)
  {
    if current.Some? then (current.value, current)
    else (ListObject(d.content, handle), Some(ListObject(d.content, handle)))
  }

  /** `ListDescriptor.__get__` as written: the `return` sits in the branch that creates the
      list, so reading a field that already holds a list gives None. */
  function ListGetAsWritten(d: ListDescriptor, current: Option<Value>, handle: nat): (Value, Option<Value>)
  {
    if current.Some? then (PyNone, current)
    else (ListObject(d.content, handle), Some(ListObject(d.content, handle)))
  }

  /** Reading a list field twice gives the same list both times, and changes nothing the
      second time. */
  lemma ListGetStable(d: ListDescriptor, current: Option<Value>, h1: nat, h2: nat)
    ensures ListGet(d, ListGet(d, current, h1).1, h2) == ListGet(d, current, h1)
  {
  }

  /** Reading an unset list field stores a list, so every later assignment to it fails. */
  lemma ListGetBlocksAssign(d: ListDescriptor, h: nat, v: Value)
    ensures ListAssign(d.content, ListGet(d, None, h).1, v) == Err(NotImplementedError)
  {
  }

  /** As written, the first read of an unset field returns the new list and the second read
      returns None, where the intended getter returns that list again. */
  lemma ListGetTwiceAsWritten(d: ListDescriptor, h1: nat, h2: nat)
    ensures ListGetAsWritten(d, None, h1).0 == ListObject(d.content, h1)
    ensures ListGetAsWritten(d, ListGetAsWritten(d, None, h1).1, h2).0 == PyNone
    ensures ListGet(d, ListGet(d, None, h1).1, h2).0 == ListObject(d.content, h1)
  {
  }

  method GetList(d: ListDescriptor, inst: AcmeObject, handle: nat) returns (r: Value)
    modifies inst
    ensures r == ListGet(d, Slot(old(inst.dict), d.name), handle).0
    ensures inst.dict == Put(old(inst.dict), d.name, ListGet(d, Slot(old(inst.dict), d.name), handle).1)
  {
    if d.name in inst.dict {
      r := inst.dict[d.name];
    } else {
      r := ListObject(d.content, handle);
      inst.dict := inst.dict[d.name := r];
    }
  }

  method SetList(d: ListDescriptor, inst: AcmeObject, v: Value) returns (r: Outcome)
    modifies inst
    ensures match ListAssign(d.content, Slot(old(inst.dict), d.name), v)
            case Ok(w) => r == Pass && inst.dict == Put(old(inst.dict), d.name, w)
            case Err(e) => r == Fail(e) && inst.dict == old(inst.dict)
  {
    if d.name !in inst.dict {
      if v.ListObject? && v.content == d.content {
        inst.dict := inst.dict[d.name := v];
      } else if v.PyList? {
        return Fail(TypeError);
      }
      r := Pass;
    } else {
      r := Fail(NotImplementedError);
    }
  }

  // ---------------------------------------------------------------------------------------
  // IdentifierDescriptor and IdentifierListDescriptor (descriptors/identifier.py)

  /** `IdentifierDescriptor.__set__`: an identifier is stored unchanged, anything else is parsed. */
  function IdentifierAssign(v: Value): (r: Result<Value>)
    ensures v.Ident? ==> r == Ok(v)
    ensures !v.Ident? ==> match Identifiers.Parse(v)
                          case Ok(id) => r == Ok(Ident(id))
                          case Err(e) => r == Err(e)
  {
    if v.Ident? then Ok(v)
    else
      match Identifiers.Parse(v)
      case Ok(id) => Ok(Ident(id))
      case Err(e) => Err(e)
  }

  method SetIdentifier(name: string, inst: AcmeObject, v: Value) returns (r: Outcome)
    modifies inst
    ensures match IdentifierAssign(v)
            case Ok(w) => r == Pass && inst.dict == old(inst.dict)[name := w]
            case Err(e) => r == Fail(e) && inst.dict == old(inst.dict)
  {
    if v.Ident? {
      inst.dict := inst.dict[name := v];
      r := Pass;
    } else {
      var parsed := Identifiers.Parse(v);
      match parsed
      case Ok(id) =>
        inst.dict := inst.dict[name := Ident(id)];
        r := Pass;
      case Err(e) =>
        r := Fail(e);
    }
  }

  /** The getters of both identifier descriptors: the content of the field. */
  method GetIdentifier(name: string, inst: AcmeObject) returns (r: Result<Value>)
    ensures r == (if name in inst.dict then Ok(inst.dict[name]) else Err(KeyError))
  {
    if name in inst.dict {
      r := Ok(inst.dict[name]);
    } else {
      r := Err(KeyError);
    }
  }

  /** One element of an identifier list: kept when it is an identifier, parsed when it is a
      dict, ValueError otherwise. */
  function IdentifierElement(e: Value): Result<Identifier>
  {
    if e.Ident? then Ok(e.id)
    else if e.PyDict? then Identifiers.Parse(e)
    else Err(ValueError)
  }

  /** The identifiers of a list, in order; the first element that fails decides the error. */
  function IdentifierList(items: seq<Value>): (r: Result<seq<Identifier>>)
    ensures r.Ok? ==> |r.value| == |items|
    ensures r.Ok? ==> forall i :: 0 <= i < |items| ==> IdentifierElement(items[i]) == Ok(r.value[i])
    ensures r.Err? ==> exists i :: 0 <= i < |items| && IdentifierElement(items[i]) == Err(r.error) &&
                                   forall j :: 0 <= j < i ==> IdentifierElement(items[j]).Ok?
    ensures r.Ok? <==> forall i :: 0 <= i < |items| ==> IdentifierElement(items[i]).Ok?
    decreases |items|
  {
    if items == [] then Ok([])
    else
      match IdentifierElement(items[0])
      case Err(e) => Err(e)
      case Ok(first) =>
        match IdentifierList(items[1..])
        case Err(e) =>
          assert forall j :: 1 <= j < |items| ==> items[j] == items[1..][j - 1];
          Err(e)
        case Ok(rest) =>
          assert forall j :: 1 <= j < |items| ==> items[j] == items[1..][j - 1];
          Ok([first] + rest)
  }

  function AsValues(ids: seq<Identifier>): (r: seq<Value>)
    ensures |r| == |ids| && forall i :: 0 <= i < |ids| ==> r[i] == Ident(ids[i])
  {
    seq(|ids|, i requires 0 <= i < |ids| => Ident(ids[i]))
  }

  /** `IdentifierListDescriptor.__set__`: the stored list, or the error. */
  function IdentifierListAssign(v: Value): (r: Result<Value>)
    ensures !v.PyList? ==> r == Err(ValueError)
    ensures r.Ok? ==> r.value.PyList? && |r.value.items| == |v.items|
  {
    if !v.PyList? then Err(ValueError)
    else
      match IdentifierList(v.items)
      case Ok(ids) => Ok(PyList(AsValues(ids)))
      case Err(e) => Err(e)
  }

  /** Identifiers in the assigned list are kept as they are, at the same position. */
  lemma IdentifierListKeepsIdentifiers(v: Value, i: int)
    requires IdentifierListAssign(v).Ok? && 0 <= i < |v.items| && v.items[i].Ident?
    ensures IdentifierListAssign(v).value.items[i] == v.items[i]
  {
    var ids := IdentifierList(v.items).value;
    assert IdentifierElement(v.items[i]) == Ok(ids[i]);
  }

  /** Dicts in the assigned list are replaced, at the same position, by what `parse` makes of them. */
  lemma IdentifierListParsesDicts(v: Value, i: int)
    requires IdentifierListAssign(v).Ok? && 0 <= i < |v.items| && v.items[i].PyDict?
    ensures Identifiers.Parse(v.items[i]).Ok?
    ensures IdentifierListAssign(v).value.items[i] == Ident(Identifiers.Parse(v.items[i]).value)
  {
    var ids := IdentifierList(v.items).value;
    assert IdentifierElement(v.items[i]) == Ok(ids[i]);
  }

  /** A list with an element that is neither an identifier nor a dict is refused. */
  lemma IdentifierListRejectsOthers(v: Value, i: int)
    requires v.PyList? && 0 <= i < |v.items| && !v.items[i].Ident? && !v.items[i].PyDict?
    ensures IdentifierListAssign(v).Err?
  {
    assert IdentifierElement(v.items[i]).Err?;
  }

  /** `IdentifierListDescriptor.__set__` builds the list element by element and stores it only
      once every element has been converted. */
  method SetIdentifierList(name: string, inst: AcmeObject, v: Value) returns (r: Outcome)
    modifies inst
    ensures match IdentifierListAssign(v)
            case Ok(w) => r == Pass && inst.dict == old(inst.dict)[name := w]
            case Err(e) => r == Fail(e) && inst.dict == old(inst.dict)
  {
    if !v.PyList? {
      return Fail(ValueError);
    }
    var l: seq<Identifier> := [];
    var i := 0;
    while i < |v.items|
      invariant 0 <= i <= |v.items|
      invariant |l| == i
      invariant forall j :: 0 <= j < i ==> IdentifierElement(v.items[j]) == Ok(l[j])
    {
      var e := v.items[i];
      if e.Ident? {
        l := l + [e.id];
      } else if e.PyDict? {
        var parsed := Identifiers.Parse(e);
        if parsed.Err? {
          IdentifierListFirstError(v.items, i);
          return Fail(parsed.error);
        }
        l := l + [parsed.value];
      } else {
        IdentifierListFirstError(v.items, i);
        return Fail(ValueError);
      }
      i := i + 1;
    }
    IdentifierListAllOk(v.items, l);
    inst.dict := inst.dict[name := PyList(AsValues(l))];
    r := Pass;
  }

  /** The error of the list is that of its first failing element. */
  lemma {:induction false} IdentifierListFirstError(items: seq<Value>, i: int)
    requires 0 <= i < |items| && IdentifierElement(items[i]).Err?
    requires forall j :: 0 <= j < i ==> IdentifierElement(items[j]).Ok?
    ensures IdentifierList(items) == Err(IdentifierElement(items[i]).error)
    decreases i
  {
    if i > 0 {
      IdentifierListFirstError(items[1..], i - 1);
    }
  }

  lemma {:induction false} IdentifierListAllOk(items: seq<Value>, l: seq<Identifier>)
    requires |l| == |items| && forall j :: 0 <= j < |items| ==> IdentifierElement(items[j]) == Ok(l[j])
    ensures IdentifierList(items) == Ok(l)
    decreases |items|
  {
    if items != [] {
      forall j | 0 <= j < |items[1..]|
        ensures IdentifierElement(items[1..][j]) == Ok(l[1..][j])
      {
        assert items[1..][j] == items[j + 1];
      }
      IdentifierListAllOk(items[1..], l[1..]);
      assert IdentifierElement(items[0]) == Ok(l[0]);
      assert l == [l[0]] + l[1..];
    }
  }

  // ---------------------------------------------------------------------------------------
  // StatusDescriptor (descriptors/status.py)

  datatype StatusDescriptor = StatusDescriptor(enumType: EnumType, name: string)

  /** `StatusDescriptor.__init__`: the `name` argument is ignored, the key is always "status". */
  function NewStatusDescriptor(enumType: EnumType, name: string): (d: StatusDescriptor)
    ensures d.enumType == enumType && d.name == "status"
  {
    StatusDescriptor(enumType, "status")
  }

  /** `enumType(value)` for a string: the member with that value, ValueError if there is none. */
  function EnumLookup(e: EnumType, s: string): (r: Result<EnumMember>)
    ensures r.Ok? <==> s in e.values
    ensures r.Ok? ==> r.value.enumName == e.name && r.value.value == s
  {
    if s in e.values then Ok(EnumMember(e.name, s)) else Err(ValueError)
  }

  /** `StatusDescriptor.__set__`: the new content of "status". */
  function StatusAssign(e: EnumType, v: Value): (r: Result<Value>)
    ensures v.PyStr? ==> (r.Ok? <==> v.s in e.values) && (r.Ok? ==> r.value == Member(EnumMember(e.name, v.s)))
    ensures v.Member? && v.member.enumName == e.name ==> r == Ok(v)
    ensures !v.PyStr? && !(v.Member? && v.member.enumName == e.name) ==> r == Err(ValueError)
  {
    if v.PyStr? then
      match EnumLookup(e, v.s)
      case Ok(m) => Ok(Member(m))
      case Err(err) => Err(err)
    else if v.Member? && v.member.enumName == e.name then Ok(v)
    else Err(ValueError)
  }

  method SetStatus(d: StatusDescriptor, inst: AcmeObject, v: Value) returns (r: Outcome)
    requires d.name == "status"
    modifies inst
    ensures match StatusAssign(d.enumType, v)
            case Ok(w) => r == Pass && inst.dict == old(inst.dict)["status" := w]
            case Err(e) => r == Fail(e) && inst.dict == old(inst.dict)
  {
    if v.PyStr? {
      var m := EnumLookup(d.enumType, v.s);
      if m.Err? {
        return Fail(m.error);
      }
      inst.dict := inst.dict[d.name := Member(m.value)];
    } else if v.Member? && v.member.enumName == d.enumType.name {
      inst.dict := inst.dict[d.name := v];
    } else {
      return Fail(ValueError);
    }
    r := Pass;
  }

  method GetStatus(d: StatusDescriptor, inst: AcmeObject) returns (r: Result<Value>)
    requires d.name == "status"
    ensures r == (if "status" in inst.dict then Ok(inst.dict["status"]) else Err(KeyError))
  {
    if d.name in inst.dict {
      r := Ok(inst.dict[d.name]);
    } else {
      r := Err(KeyError);
    }
  }

  // ---------------------------------------------------------------------------------------
  // The descriptors as `update_fields` sees them

  /** The new content of a field named `name` that the class declares as `attr`, when `v` is
      assigned to it through the class attribute (a plain class attribute has no `__set__`). */
  function AttrAssign(attr: ClassAttr, current: Option<Value>, v: Value): Result<Option<Value>>
  {
    match attr
    case ReferenceAttr(target) =>
      (match ReferenceAssign(target, current, v) case Ok(w) => Ok(Some(w)) case Err(e) => Err(e))
    case ListAttr(content) => ListAssign(content, current, v)
    case IdentifierAttr =>
      (match IdentifierAssign(v) case Ok(w) => Ok(Some(w)) case Err(e) => Err(e))
    case IdentifierListAttr =>
      (match IdentifierListAssign(v) case Ok(w) => Ok(Some(w)) case Err(e) => Err(e))
    case StatusAttr(e) =>
      (match StatusAssign(e, v) case Ok(w) => Ok(Some(w)) case Err(err) => Err(err))
    case PlainAttr => Err(AttributeError)
  }

  /** Assigning `v` through the class attribute `attr` named `name`; `name` is "status" for a
      status descriptor in a well-formed class. */
  method SetAttr(attr: ClassAttr, name: string, inst: AcmeObject, v: Value) returns (r: Outcome)
    requires attr.StatusAttr? ==> name == "status"
    modifies inst
    ensures match AttrAssign(attr, Slot(old(inst.dict), name), v)
            case Ok(w) => r == Pass && inst.dict == Put(old(inst.dict), name, w)
            case Err(e) => r == Fail(e) && inst.dict == old(inst.dict)
  {
    match attr
    case ReferenceAttr(target) =>
      r := SetReference(ReferenceDescriptor(target, name), inst, v);
    case ListAttr(content) =>
      r := SetList(ListDescriptor(content, name), inst, v);
    case IdentifierAttr =>
      r := SetIdentifier(name, inst, v);
    case IdentifierListAttr =>
      r := SetIdentifierList(name, inst, v);
    case StatusAttr(e) =>
      r := SetStatus(NewStatusDescriptor(e, name), inst, v);
    case PlainAttr =>
      r := Fail(AttributeError);
  }
}
