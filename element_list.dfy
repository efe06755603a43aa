/** `ElementList` (acme_isolator/acme/objects/base.py): the set of resources of one kind that
    a parent resource lists, keyed by URL. A member is known by its URL only (an instance of
    the URL class) or resolved to the fetched resource. */
module ElementLists {
  import opened Wrappers
  import opened Values
  import Objects

  datatype Element = Unresolved(url: string) | Resolved(obj: AcmeObject)

  function UrlOf(e: Element): string
  {
    match e
    case Unresolved(u) => u
    case Resolved(o) => o.url
  }

  function Urls(es: seq<Element>): (us: seq<string>)
    ensures |us| == |es| && forall i :: 0 <= i < |es| ==> us[i] == UrlOf(es[i])
  {
    seq(|es|, i requires 0 <= i < |es| => UrlOf(es[i]))
  }

  lemma UrlsAppend(a: seq<Element>, b: seq<Element>)
    ensures Urls(a + b) == Urls(a) + Urls(b)
  {
  }

  lemma UrlsHead(es: seq<Element>)
    requires es != []
    ensures forall v :: v in Urls(es) <==> v == UrlOf(es[0]) || v in Urls(es[1..])
    ensures forall k :: 0 <= k < |es| - 1 ==> es[1..][k] == es[k + 1]
  {
    assert Urls(es) == [UrlOf(es[0])] + Urls(es[1..]);
  }

  /** No URL occurs twice. */
  ghost predicate Distinct(us: seq<string>)
  {
    forall u :: multiset(us)[u] <= 1
  }

  /** The URL `__find_element` compares for a value of an accepted type: a plain string, an
      instance of the content class's URL class, or a resource of the content class. */
  function LookupUrl(content: Kind, v: Value): Option<string>
  {
    match v
    case PyStr(s) => Some(s)
    case UrlStr(k, s) => if k == content then Some(s) else None
    case Obj(o) => if o.kind == content then Some(o.url) else None
    case _ => None
  }

  /** The first position holding the URL. */
  function IndexOfUrl(es: seq<Element>, u: string): (r: Option<nat>)
    ensures r.Some? ==> r.value < |es| && UrlOf(es[r.value]) == u &&
                        forall j :: 0 <= j < r.value ==> UrlOf(es[j]) != u
    ensures r.None? <==> u !in Urls(es)
    decreases |es|
  {
    if es == [] then None
    else if UrlOf(es[0]) == u then Some(0)
    else
      var rest := IndexOfUrl(es[1..], u);
      UrlsHead(es);
      if rest.None? then None else Some(rest.value + 1)
  }

  /** `__find_element`: TypeError for a value of another type, else the position of the URL. */
  function Find(content: Kind, es: seq<Element>, v: Value): Result<Option<nat>>
  {
    match LookupUrl(content, v)
    case None => Err(TypeError)
    case Some(u) => Ok(IndexOfUrl(es, u))
  }

  function RemoveAt(es: seq<Element>, i: nat): (r: seq<Element>)
    requires i < |es|
    ensures |r| == |es| - 1
    ensures Urls(r) == Urls(es)[..i] + Urls(es)[i + 1..]
    ensures multiset(Urls(r)) == multiset(Urls(es)) - multiset{UrlOf(es[i])}
  {
    var r := es[..i] + es[i + 1..];
    var us := Urls(es);
    assert us == us[..i] + [us[i]] + us[i + 1..];
    assert Urls(r) == us[..i] + us[i + 1..];
    r
  }

  /** `add`, as intended. An absent resource is appended, an absent plain string appended as
      an instance of the URL class, and an absent URL-class instance refused with ValueError
      (the code tests `type(value) is str`). A resource whose URL is held by a URL-class
      instance replaces it: the instance is deleted and the resource appended. A resource whose
      URL is held by a resolved resource fails with NotImplementedError. A URL that is already
      present changes nothing. A value of any other type fails in the membership test. */
  function Added(content: Kind, es: seq<Element>, v: Value): Result<seq<Element>>
  {
    match LookupUrl(content, v)
    case None => Err(TypeError)
    case Some(u) =>
      match IndexOfUrl(es, u)
      case None =>
        if v.Obj? then Ok(es + [Resolved(v.obj)])
        else if v.PyStr? then Ok(es + [Unresolved(v.s)])
        else Err(ValueError)
      case Some(i) =>
        if v.Obj? then
          (if es[i].Unresolved? then Ok(RemoveAt(es, i) + [Resolved(v.obj)]) else Err(NotImplementedError))
        else Ok(es)
  }

  /** `add` as written: the branch for a URL already present tests
      `type(value) is self.content_type.url_class | str`, and the type of a value is never the
      union object `url_class | str`, so a present URL falls through to ValueError. */
  function AddAsWritten(content: Kind, es: seq<Element>, v: Value): Result<seq<Element>>
  {
    match LookupUrl(content, v)
    case None => Err(TypeError)
    case Some(u) =>
      match IndexOfUrl(es, u)
      case None =>
        if v.Obj? then Ok(es + [Resolved(v.obj)])
        else if v.PyStr? then Ok(es + [Unresolved(v.s)])
        else Err(ValueError)
      case Some(i) =>
        if v.Obj? then
          (if es[i].Unresolved? then Ok(RemoveAt(es, i) + [Resolved(v.obj)]) else Err(NotImplementedError))
        else Err(ValueError)
  }

  /** The two differ exactly on a string or URL-class instance whose URL is already present. */
  lemma AddAsWrittenRejectsPresentUrl(content: Kind, es: seq<Element>, v: Value)
    ensures LookupUrl(content, v).Some? && !v.Obj? && LookupUrl(content, v).value in Urls(es) ==>
              Added(content, es, v) == Ok(es) && AddAsWritten(content, es, v) == Err(ValueError)
    ensures !(LookupUrl(content, v).Some? && !v.Obj? && LookupUrl(content, v).value in Urls(es)) ==>
              AddAsWritten(content, es, v) == Added(content, es, v)
  {
  }

  /** Adding the same URL string twice: the second call raises as written. */
  lemma AddTwiceExample(content: Kind)
    ensures var once := Added(content, [], PyStr("https://ca.example/order/1"));
            once == Ok([Unresolved("https://ca.example/order/1")]) &&
            Added(content, once.value, PyStr("https://ca.example/order/1")) == once &&
            AddAsWritten(content, once.value, PyStr("https://ca.example/order/1")) == Err(ValueError)
  {
    var u := "https://ca.example/order/1";
    var es := [Unresolved(u)];
    assert [] + [Unresolved(u)] == es;
    assert IndexOfUrl(es, u) == Some(0);
  }

  lemma DistinctAppend(us: seq<string>, u: string)
    requires Distinct(us) && u !in us
    ensures Distinct(us + [u])
  {
    assert multiset(us + [u]) == multiset(us) + multiset{u};
  }

  lemma DistinctShrink(us: seq<string>, vs: seq<string>)
    requires Distinct(us) && multiset(vs) <= multiset(us)
    ensures Distinct(vs)
  {
    forall x
      ensures multiset(vs)[x] <= 1
    {
      assert multiset(vs)[x] <= multiset(us)[x];
    }
  }

  /** Removing a member of a list without repeated URLs removes its URL altogether. */
  lemma RemoveAtDistinct(es: seq<Element>, i: nat)
    requires i < |es| && Distinct(Urls(es))
    ensures Distinct(Urls(RemoveAt(es, i)))
    ensures UrlOf(es[i]) !in Urls(RemoveAt(es, i))
  {
    var us := Urls(es);
    var u := UrlOf(es[i]);
    assert us[i] == u;
    assert u in multiset(us);
    DistinctShrink(us, Urls(RemoveAt(es, i)));
    assert multiset(Urls(RemoveAt(es, i)))[u] == multiset(us)[u] - 1;
  }

  /** `add` keeps every URL at most once. */
  lemma AddKeepsDistinct(content: Kind, es: seq<Element>, v: Value)
    requires Distinct(Urls(es)) && Added(content, es, v).Ok?
    ensures Distinct(Urls(Added(content, es, v).value))
  {
    var u := LookupUrl(content, v).value;
    match IndexOfUrl(es, u)
    case None =>
      var e := if v.Obj? then Resolved(v.obj) else Unresolved(v.s);
      assert UrlOf(e) == u;
      assert Added(content, es, v).value == es + [e];
      UrlsAppend(es, [e]);
      assert Urls([e]) == [u];
      DistinctAppend(Urls(es), u);
    case Some(i) =>
      if v.Obj? {
        var rest := RemoveAt(es, i);
        assert Added(content, es, v).value == rest + [Resolved(v.obj)];
        RemoveAtDistinct(es, i);
        UrlsAppend(rest, [Resolved(v.obj)]);
        assert Urls([Resolved(v.obj)]) == [u];
        DistinctAppend(Urls(rest), u);
      } else {
        assert Added(content, es, v).value == es;
      }
  }

  /** After a successful `add` the URL is a member; the length grows by one for an absent URL
      and stays for an upgrade or a URL already present. */
  lemma AddMembership(content: Kind, es: seq<Element>, v: Value)
    requires Added(content, es, v).Ok?
    ensures LookupUrl(content, v).value in Urls(Added(content, es, v).value)
    ensures |Added(content, es, v).value| == if LookupUrl(content, v).value in Urls(es) then |es| else |es| + 1
  {
    var u := LookupUrl(content, v).value;
    var r := Added(content, es, v).value;
    assert UrlOf(r[|r| - 1]) == u || r == es;
    if r == es {
      var i := IndexOfUrl(es, u).value;
      assert Urls(es)[i] == u;
    }
  }

  /** An upgrade replaces the URL-class instance by the resource, keeping the length and the
      set of URLs; a resolved member is never replaced. */
  lemma AddUpgradesInPlace(content: Kind, es: seq<Element>, o: AcmeObject)
    requires o.kind == content && Distinct(Urls(es))
    requires o.url in Urls(es)
    ensures var i := IndexOfUrl(es, o.url).value;
            es[i].Unresolved? ==>
              Added(content, es, Obj(o)).Ok? &&
              |Added(content, es, Obj(o)).value| == |es| &&
              Resolved(o) in Added(content, es, Obj(o)).value &&
              Unresolved(o.url) !in Added(content, es, Obj(o)).value &&
              multiset(Urls(Added(content, es, Obj(o)).value)) == multiset(Urls(es))
    ensures var i := IndexOfUrl(es, o.url).value;
            es[i].Resolved? ==> Added(content, es, Obj(o)) == Err(NotImplementedError)
  {
    var i := IndexOfUrl(es, o.url).value;
    if es[i].Unresolved? {
      var rest := RemoveAt(es, i);
      var r := rest + [Resolved(o)];
      assert Added(content, es, Obj(o)) == Ok(r);
      assert r[|r| - 1] == Resolved(o);
      UpgradeKeepsUrls(es, i, o);
      UpgradeDropsUrl(es, i, o);
    }
  }

  lemma UpgradeKeepsUrls(es: seq<Element>, i: nat, o: AcmeObject)
    requires i < |es| && UrlOf(es[i]) == o.url
    ensures multiset(Urls(RemoveAt(es, i) + [Resolved(o)])) == multiset(Urls(es))
  {
    var rest := RemoveAt(es, i);
    UrlsAppend(rest, [Resolved(o)]);
    assert Urls([Resolved(o)]) == [o.url];
    assert Urls(es)[i] == o.url;
    assert o.url in multiset(Urls(es));
  }

  lemma UpgradeDropsUrl(es: seq<Element>, i: nat, o: AcmeObject)
    requires i < |es| && UrlOf(es[i]) == o.url && Distinct(Urls(es))
    ensures Unresolved(o.url) !in RemoveAt(es, i) + [Resolved(o)]
  {
    var rest := RemoveAt(es, i);
    RemoveAtDistinct(es, i);
  }

  /** `remove`: TypeError for another type, KeyError for an absent URL, else the member with
      the URL is deleted. */
  function Removed(content: Kind, es: seq<Element>, v: Value): Result<seq<Element>>
  {
    match Find(content, es, v)
    case Err(e) => Err(e)
    case Ok(None) => Err(KeyError)
    case Ok(Some(i)) => Ok(RemoveAt(es, i))
  }

  /** `discard`: `remove` with KeyError turned into doing nothing. */
  function Discarded(content: Kind, es: seq<Element>, v: Value): (r: Result<seq<Element>>)
    ensures Removed(content, es, v) == Err(KeyError) ==> r == Ok(es)
    ensures Removed(content, es, v) != Err(KeyError) ==> r == Removed(content, es, v)
  {
    match Removed(content, es, v)
    case Err(KeyError) => Ok(es)
    case other => other
  }

  /** `remove` deletes exactly one member, the one with the URL: the length drops by one, the
      URL is no longer present, and every other URL stays, in order. */
  lemma RemoveDeletesExactlyOne(content: Kind, es: seq<Element>, v: Value)
    requires Distinct(Urls(es)) && Removed(content, es, v).Ok?
    ensures var u := LookupUrl(content, v).value;
            var r := Removed(content, es, v).value;
            |r| == |es| - 1 && u !in Urls(r) && Distinct(Urls(r)) &&
            multiset(Urls(r)) == multiset(Urls(es)) - multiset{u} &&
            exists i :: 0 <= i < |es| && UrlOf(es[i]) == u && r == es[..i] + es[i + 1..]
  {
    var u := LookupUrl(content, v).value;
    var i := IndexOfUrl(es, u).value;
    assert multiset(Urls(es))[u] >= 1;
  }

  /** An absent URL: `remove` raises KeyError and `discard` leaves the list as it is. */
  lemma RemoveAbsent(content: Kind, es: seq<Element>, v: Value)
    requires LookupUrl(content, v).Some? && LookupUrl(content, v).value !in Urls(es)
    ensures Removed(content, es, v) == Err(KeyError)
    ensures Discarded(content, es, v) == Ok(es)
  {
  }

  /** The resolved members, in order. */
  function ResolvedPart(es: seq<Element>): (r: seq<Element>)
    ensures |r| <= |es|
    ensures forall e :: e in r ==> e.Resolved? && e in es
    decreases |es|
  {
    if es == [] then []
    else (if es[0].Resolved? then [es[0]] else []) + ResolvedPart(es[1..])
  }

  /** The URLs of the unresolved members, in order. */
  function UnresolvedUrls(es: seq<Element>): (r: seq<string>)
    ensures |r| == |es| - |ResolvedPart(es)|
    ensures forall u :: u in r ==> Unresolved(u) in es
    decreases |es|
  {
    if es == [] then []
    else (if es[0].Unresolved? then [es[0].url] else []) + UnresolvedUrls(es[1..])
  }

  /** Splitting a list into its resolved members and its unresolved URLs keeps every URL. */
  lemma {:induction false} PartitionKeepsUrls(es: seq<Element>)
    ensures multiset(Urls(ResolvedPart(es)) + UnresolvedUrls(es)) == multiset(Urls(es))
    decreases |es|
  {
    if es != [] {
      PartitionKeepsUrls(es[1..]);
      PartitionStep(es);
      UrlsCons(es);
    }
  }

  /** The first member goes to one side of the split, the rest is split alike. */
  lemma PartitionStep(es: seq<Element>)
    requires es != []
    ensures multiset(Urls(ResolvedPart(es)) + UnresolvedUrls(es)) ==
            multiset{UrlOf(es[0])} + multiset(Urls(ResolvedPart(es[1..])) + UnresolvedUrls(es[1..]))
  {
    var rp, uu := ResolvedPart(es[1..]), UnresolvedUrls(es[1..]);
    var r, u := ResolvedPart(es), UnresolvedUrls(es);
    if es[0].Resolved? {
      assert r == [es[0]] + rp;
      assert r[1..] == rp;
      UrlsCons(r);
      MultisetStep(UrlOf(es[0]), Urls(r), Urls(rp), u, uu);
    } else {
      assert r == rp;
      assert u == [UrlOf(es[0])] + uu;
      MultisetStep(UrlOf(es[0]), Urls(r), Urls(rp), u, uu);
    }
  }

  /** One URL more on either side of a split is one URL more in the whole. */
  lemma MultisetStep(x: string, a: seq<string>, a': seq<string>, b: seq<string>, b': seq<string>)
    requires (multiset(a) == multiset{x} + multiset(a') && b == b') || (a == a' && b == [x] + b')
    ensures multiset(a + b) == multiset{x} + multiset(a' + b')
  {
    if a == a' && b == [x] + b' {
      assert multiset(b) == multiset{x} + multiset(b');
    }
  }

  /** The URLs of a non-empty list: the first one and those of the rest. */
  lemma UrlsCons(es: seq<Element>)
    requires es != []
    ensures multiset(Urls(es)) == multiset{UrlOf(es[0])} + multiset(Urls(es[1..]))
  {
    assert Urls(es) == [UrlOf(es[0])] + Urls(es[1..]);
  }

  /** The list of resources of one content class. */
  class ElementList {
    const content: Kind
    const schema: Schema
    const parent: AcmeObject
    var elements: seq<Element>

    ghost predicate Valid()
      reads this
    {
      Distinct(Urls(elements))
    }

    constructor (content: Kind, schema: Schema, parent: AcmeObject)
      ensures Valid() && elements == []
      ensures this.content == content && this.schema == schema && this.parent == parent
    {
      this.content := content;
      this.schema := schema;
      this.parent := parent;
      elements := [];
    }

    /** `__find_element`: scans the list by index for the URL. */
    method FindElement(v: Value) returns (r: Result<Option<nat>>)
      ensures r == Find(content, elements, v)
      ensures r.Ok? && r.value.Some? ==> UrlOf(elements[r.value.value]) == LookupUrl(content, v).value
    {
      var url: string;
      match v {
        case PyStr(s) => url := s;
        case UrlStr(k, s) =>
          if k != content {
            return Err(TypeError);
          }
          url := s;
        case Obj(o) =>
          if o.kind != content {
            return Err(TypeError);
          }
          url := o.url;
        case _ =>
          return Err(TypeError);
      }
      var i := 0;
      while i < |elements|
        invariant 0 <= i <= |elements|
        invariant forall j :: 0 <= j < i ==> UrlOf(elements[j]) != url
      {
        if UrlOf(elements[i]) == url {
          return Ok(Some(i));
        }
        i := i + 1;
      }
      r := Ok(None);
    }

    /** `__contains__`: membership by URL, whatever form the member and the value take. */
    method Contains(v: Value) returns (r: Result<bool>)
      ensures LookupUrl(content, v).None? ==> r == Err(TypeError)
      ensures LookupUrl(content, v).Some? ==> r == Ok(LookupUrl(content, v).value in Urls(elements))
    {
      var found := FindElement(v);
      match found {
        case Err(e) => r := Err(e);
        case Ok(i) => r := Ok(i.Some?);
      }
    }

    /** `__len__`. */
    method Length() returns (n: nat)
      ensures n == |elements|
    {
      n := |elements|;
    }

    /** `add`. */
    method Add(v: Value) returns (r: Outcome)
      requires Valid()
      modifies this
      ensures Valid()
      ensures match Added(content, old(elements), v)
              case Ok(es) => r == Pass && elements == es
              case Err(e) => r == Fail(e) && elements == old(elements)
    {
      if Added(content, elements, v).Ok? {
        AddKeepsDistinct(content, elements, v);
      }
      var found := FindElement(v);
      if found.Err? {
        return Fail(found.error);
      }
      match found.value {
        case None =>
          if v.Obj? {
            elements := elements + [Resolved(v.obj)];
          } else if v.PyStr? {
            elements := elements + [Unresolved(v.s)];
          } else {
            return Fail(ValueError);
          }
        case Some(i) =>
          if v.Obj? {
            if elements[i].Unresolved? {
              elements := RemoveAt(elements, i);
              elements := elements + [Resolved(v.obj)];
            } else {
              return Fail(NotImplementedError);
            }
          }
      }
      r := Pass;
    }

    /** `__post_init__`: the initial items are added one after the other; the first failure
        stops it, leaving the items added so far. */
    method AddAll(items: seq<Value>) returns (r: Outcome)
      requires Valid()
      modifies this
      ensures Valid()
      ensures r == AddAllOutcome(content, old(elements), items)
      ensures r.Pass? ==> elements == AddAllResult(content, old(elements), items)
    {
      var i := 0;
      while i < |items|
        invariant 0 <= i <= |items| && Valid()
        invariant AddAllOutcome(content, old(elements), items) == AddAllOutcome(content, elements, items[i..])
        invariant AddAllResult(content, old(elements), items) == AddAllResult(content, elements, items[i..])
      {
        assert items[i..] == [items[i]] + items[i + 1..];
        var out := Add(items[i]);
        if out.Fail? {
          return out;
        }
        i := i + 1;
      }
      r := Pass;
    }

    /** `remove`. */
    method Remove(v: Value) returns (r: Outcome)
      requires Valid()
      modifies this
      ensures Valid()
      ensures match Removed(content, old(elements), v)
              case Ok(es) => r == Pass && elements == es
              case Err(e) => r == Fail(e) && elements == old(elements)
    {
      var found := FindElement(v);
      match found {
        case Err(e) => r := Fail(e);
        case Ok(None) => r := Fail(KeyError);
        case Ok(Some(i)) =>
          elements := RemoveAt(elements, i);
          r := Pass;
      }
    }

    /** `discard`. */
    method Discard(v: Value) returns (r: Outcome)
      requires Valid()
      modifies this
      ensures Valid()
      ensures match Discarded(content, old(elements), v)
              case Ok(es) => r == Pass && elements == es
              case Err(e) => r == Fail(e) && elements == old(elements)
    {
      r := Remove(v);
      if r == Fail(KeyError) {
        r := Pass;
      }
    }

    /** `request_all_elements`: the resolved members are kept, in order, and each URL-only
        member is fetched (`get_from_url` on the content class, `replies[i]` being the server's
        answer for the i-th of them); the fetched resources follow the kept ones, in the order
        of their URLs. A failed fetch leaves the list as it was. Registered resources change
        only when their URL is fetched, never in their hold keys, and on success each fetched
        one is updated from its reply. */
    method RequestAllElements(reg: Objects.Registry, replies: seq<Objects.Reply>)
      returns (r: Outcome, ghost fetched: seq<Element>)
      requires Valid() && reg.Valid()
      requires ValidSchema(schema) && forall u :: u in reg.objects ==> ValidSchema(reg.objects[u].schema)
      requires |replies| == |UnresolvedUrls(elements)|
      modifies this, reg.objects.Values
      ensures r.Pass? <==>
                AllSucceed(reg.objects, UnresolvedUrls(old(elements)), replies,
                           old(DictsAt(reg.objects, UnresolvedUrls(elements))))
      ensures r.Fail? ==> elements == old(elements)
      ensures r.Pass? ==> Valid() && elements == ResolvedPart(old(elements)) + fetched && |elements| == |old(elements)|
      ensures r.Pass? ==> Fetched(fetched, UnresolvedUrls(old(elements)), reg.objects)
      ensures r.Pass? ==> NewOfContent(fetched, UnresolvedUrls(old(elements)), reg.objects)
      ensures r.Pass? ==>
                var todo := UnresolvedUrls(old(elements));
                forall j :: 0 <= j < |todo| && todo[j] !in reg.objects ==>
                  fresh(fetched[j].obj) && BuiltFrom(fetched[j].obj, todo[j], replies[j])
      ensures forall u :: u in reg.objects ==>
                Evolved(reg.objects[u].schema, UnresolvedUrls(old(elements)), replies, u,
                        old(reg.objects[u].dict), reg.objects[u].dict, r.Pass?)
    {
      var kept := ResolvedPart(elements);
      var todo := UnresolvedUrls(elements);
      UnresolvedDistinct(elements);
      var got := FetchAll(reg, todo, replies, reg.objects, DictsAt(reg.objects, todo));
      if got.Err? {
        return Fail(got.error), [];
      }
      RequestedList(elements, got.value, reg.objects);
      elements := kept + got.value;
      r, fetched := Pass, got.value;
    }

    /** `gather` over `request_element` for distinct URLs: the first URL is fetched, then
        the rest, and the first failure stops it. `known` is the register and `befores[j]` the
        dictionary registered under `urls[j]` beforehand. It succeeds exactly when every fetch
        does; a URL not yet registered then yields a new resource built from its reply, and
        each registered resource has evolved as `Evolved` says. */
    method FetchAll(reg: Objects.Registry, urls: seq<string>, replies: seq<Objects.Reply>,
                    ghost known: map<string, AcmeObject>, ghost befores: seq<map<string, Value>>)
      returns (r: Result<seq<Element>>)
      requires reg.Valid() && known == reg.objects && |replies| == |urls| && Distinct(urls)
      requires |befores| == |urls| && forall j :: 0 <= j < |urls| ==> befores[j] == DictAt(known, urls[j])
      requires ValidSchema(schema) && forall u :: u in known ==> ValidSchema(known[u].schema)
      modifies known.Values
      decreases |urls|
      ensures r.Ok? <==> AllSucceed(known, urls, replies, befores)
      ensures r.Ok? ==> Fetched(r.value, urls, known)
      ensures r.Ok? ==> NewOfContent(r.value, urls, known)
      ensures r.Ok? ==> forall j :: 0 <= j < |urls| && urls[j] !in known ==>
                fresh(r.value[j].obj) && BuiltFrom(r.value[j].obj, urls[j], replies[j])
      ensures forall u :: u in known ==>
                Evolved(known[u].schema, urls, replies, u, old(known[u].dict), known[u].dict, r.Ok?)
    {
      if urls == [] {
        return Ok([]);
      }
      var u := urls[0];
      DistinctTail(urls);
      var got := RequestElement(reg, u, replies[0]);
      forall v | v in known && v != u
        ensures known[v].dict == old(known[v].dict)
      {
        assert known[v].url != u;
      }
      if got.Err? {
        return Err(got.error);
      }
      label mid:
      var rest := FetchAll(reg, urls[1..], replies[1..], known, befores[1..]);
      forall v | v in known
        ensures Evolved(known[v].schema, urls, replies, v, old(known[v].dict), known[v].dict, rest.Ok?)
      {
        if v == u {
          EvolvedHead(known[v].schema, urls, replies, old(known[v].dict), old@mid(known[v].dict), known[v].dict, rest.Ok?);
        } else {
          EvolvedTail(known[v].schema, urls, replies, v, old(known[v].dict), known[v].dict, rest.Ok?);
        }
      }
      if rest.Err? {
        return rest;
      }
      FetchedCons(Resolved(got.value), rest.value, urls, known);
      NewOfContentCons(Resolved(got.value), rest.value, urls, known);
      r := Ok([Resolved(got.value)] + rest.value);
      forall j | 0 <= j < |urls| && urls[j] !in known
        ensures fresh(r.value[j].obj) && BuiltFrom(r.value[j].obj, urls[j], replies[j])
      {
        if j > 0 {
          assert r.value[j] == rest.value[j - 1] && urls[1..][j - 1] == urls[j] && replies[1..][j - 1] == replies[j];
        }
      }
    }

    /** How the dictionary of the resource registered under `u` (with schema `s`) went from
        `before` to `after` while `urls` were fetched with `replies`: untouched when `u` is not
        among them, its hold keys always kept, and updated from its reply when the fetch as a
        whole succeeded (`ok`). */
    ghost predicate Evolved(s: Schema, urls: seq<string>, replies: seq<Objects.Reply>, u: string,
                            before: map<string, Value>, after: map<string, Value>, ok: bool)
      requires |replies| == |urls|
    {
      (u !in urls ==> after == before) &&
      Slot(after, "parent") == Slot(before, "parent") && Slot(after, "url") == Slot(before, "url") &&
      (ok ==> forall j :: 0 <= j < |urls| && urls[j] == u ==> RefreshedFrom(s, content, parent, u, replies[j], before, after))
    }

    /** The first URL's resource: refreshed by its own fetch, then left alone by the rest. */
    lemma EvolvedHead(s: Schema, urls: seq<string>, replies: seq<Objects.Reply>,
                      before: map<string, Value>, mid: map<string, Value>, after: map<string, Value>, ok: bool)
      requires |replies| == |urls| && urls != [] && urls[0] !in urls[1..]
      requires Slot(mid, "parent") == Slot(before, "parent") && Slot(mid, "url") == Slot(before, "url")
      requires RefreshedFrom(s, content, parent, urls[0], replies[0], before, mid)
      requires Evolved(s, urls[1..], replies[1..], urls[0], mid, after, ok)
      ensures Evolved(s, urls, replies, urls[0], before, after, ok)
    {
      forall j | 0 < j < |urls| ensures urls[j] != urls[0] {
        assert urls[j] == urls[1..][j - 1];
      }
    }

    /** Any other resource: untouched by the first fetch, then as the rest leave it. */
    lemma EvolvedTail(s: Schema, urls: seq<string>, replies: seq<Objects.Reply>, u: string,
                      before: map<string, Value>, after: map<string, Value>, ok: bool)
      requires |replies| == |urls| && urls != [] && u != urls[0]
      requires Evolved(s, urls[1..], replies[1..], u, before, after, ok)
      ensures Evolved(s, urls, replies, u, before, after, ok)
    {
      forall j | 0 < j < |urls| && urls[j] == u && ok
        ensures RefreshedFrom(s, content, parent, u, replies[j], before, after)
      {
        assert urls[1..][j - 1] == urls[j] && replies[1..][j - 1] == replies[j];
      }
    }

    /** Whether `get_from_url` on the content class succeeds for `url` and `reply`: the status
        is the class's return code, the body a dict, and then either every key of a registered
        resource (whose dictionary is `before`) can be assigned by `update_fields`, or the
        reply fits the generated `__init__` of a new instance. */
    ghost predicate FetchSucceeds(known: map<string, AcmeObject>, url: string, reply: Objects.Reply,
                                  before: map<string, Value>)
    {
      reply.status == schema.requestReturnCode && reply.body.PyDict? &&
      var data := Objects.WithOrigin(reply.body.entries, parent, UrlStr(content, url));
      if url in known then Objects.UpdateSucceeds(known[url].schema, data, before)
      else Objects.InitArgumentsFit(schema, data) && Objects.InitSucceeds(schema, data)
    }

    /** Whether fetching each URL in turn succeeds, `befores[j]` being the dictionary of the
        resource registered under `urls[j]` before any fetch. */
    ghost predicate AllSucceed(known: map<string, AcmeObject>, urls: seq<string>, replies: seq<Objects.Reply>,
                               befores: seq<map<string, Value>>)
      requires |replies| == |urls| == |befores|
      decreases |urls|
    {
      urls == [] ||
      (FetchSucceeds(known, urls[0], replies[0], befores[0]) &&
       AllSucceed(known, urls[1..], replies[1..], befores[1..]))
    }

    /** Fetching in turn succeeds exactly when every single fetch does. */
    lemma {:induction false} AllSucceedEach(known: map<string, AcmeObject>, urls: seq<string>,
                                            replies: seq<Objects.Reply>, befores: seq<map<string, Value>>)
      requires |replies| == |urls| == |befores|
      ensures AllSucceed(known, urls, replies, befores) <==>
              forall j :: 0 <= j < |urls| ==> FetchSucceeds(known, urls[j], replies[j], befores[j])
      decreases |urls|
    {
      if urls != [] {
        AllSucceedEach(known, urls[1..], replies[1..], befores[1..]);
        assert forall j :: 1 <= j < |urls| ==> urls[1..][j - 1] == urls[j] && replies[1..][j - 1] == replies[j] &&
                                               befores[1..][j - 1] == befores[j];
      }
    }

    /** `o`'s dictionary is the one `cls(**data)` builds from the reply for `url`. */
    ghost predicate BuiltFrom(o: AcmeObject, url: string, reply: Objects.Reply)
      reads o
    {
      reply.body.PyDict? &&
      Objects.NewInstanceDict(schema, Objects.WithOrigin(reply.body.entries, parent, UrlStr(content, url)), o.dict)
    }

    /** The resources fetched for URLs the register does not hold are of the content class,
        with this list's schema and parent. */
    ghost predicate NewOfContent(fs: seq<Element>, urls: seq<string>, known: map<string, AcmeObject>)
      requires |fs| == |urls|
    {
      forall j :: 0 <= j < |urls| && urls[j] !in known ==>
        fs[j].Resolved? && fs[j].obj.kind == content && fs[j].obj.schema == schema && fs[j].obj.parent == parent
    }

    lemma NewOfContentCons(e: Element, fs: seq<Element>, urls: seq<string>, known: map<string, AcmeObject>)
      requires urls != [] && |fs| == |urls| - 1 && NewOfContent(fs, urls[1..], known)
      requires urls[0] !in known ==> e.Resolved? && e.obj.kind == content && e.obj.schema == schema && e.obj.parent == parent
      ensures NewOfContent([e] + fs, urls, known)
    {
      assert forall j :: 1 <= j < |urls| ==> ([e] + fs)[j] == fs[j - 1] && urls[j] == urls[1..][j - 1];
    }

    /** `request_element`: `get_from_url` on the content class with this list's parent. A
        registered resource is updated from the reply, never in its hold keys, and no other
        resource changes; any other URL gets a new resource built from the reply. */
    method RequestElement(reg: Objects.Registry, url: string, reply: Objects.Reply) returns (r: Result<AcmeObject>)
      requires reg.Valid()
      requires ValidSchema(schema) && (url in reg.objects ==> ValidSchema(reg.objects[url].schema))
      modifies if url in reg.objects then {reg.objects[url]} else {}
      ensures r.Ok? <==> FetchSucceeds(reg.objects, url, reply, old(DictAt(reg.objects, url)))
      ensures reply.status != schema.requestReturnCode ==> r == Err(AssertionError)
      ensures reply.status == schema.requestReturnCode && !reply.body.PyDict? ==> r == Err(AttributeError)
      ensures r.Ok? ==> r.value.url == url && (url in reg.objects ==> r.value == reg.objects[url])
      ensures r.Ok? && url !in reg.objects ==>
                fresh(r.value) && r.value.kind == content && r.value.schema == schema && r.value.parent == parent &&
                BuiltFrom(r.value, url, reply)
      ensures url in reg.objects ==>
                forall k :: k in Objects.HoldKeys ==>
                  Slot(reg.objects[url].dict, k) == Slot(old(reg.objects[url].dict), k)
      ensures r.Ok? && url in reg.objects ==>
                RefreshedFrom(reg.objects[url].schema, content, parent, url, reply, old(reg.objects[url].dict), reg.objects[url].dict)
    {
      r := Objects.GetFromUrl(reg, content, schema, parent, url, UrlStr(content, url), reply);
    }
  }

  /** The URL-only members of a list without repeated URLs have distinct URLs. */
  lemma UnresolvedDistinct(es: seq<Element>)
    requires Distinct(Urls(es))
    ensures Distinct(UnresolvedUrls(es))
  {
    PartitionKeepsUrls(es);
    DistinctShrink(Urls(es), UnresolvedUrls(es));
  }

  /** The resolved members followed by the resources fetched for the URL-only ones form a
      list of the same length, still without repeated URLs, with each part in place. */
  lemma RequestedList(es: seq<Element>, fetched: seq<Element>, known: map<string, AcmeObject>)
    requires Distinct(Urls(es)) && Fetched(fetched, UnresolvedUrls(es), known)
    ensures var next := ResolvedPart(es) + fetched;
            Distinct(Urls(next)) && |next| == |es| &&
            next[..|ResolvedPart(es)|] == ResolvedPart(es) && next[|ResolvedPart(es)|..] == fetched
  {
    var kept := ResolvedPart(es);
    PartitionKeepsUrls(es);
    FetchedUrls(fetched, UnresolvedUrls(es), known);
    UrlsAppend(kept, fetched);
    assert (kept + fetched)[|kept|..] == fetched;
  }

  /** The fields of a registered resource went from `before` to `after` as `update_fields`
      folds the reply for `url`, passed as an instance of `content`'s URL class, onto them. */
  ghost predicate RefreshedFrom(schema: Schema, content: Kind, parent: AcmeObject, url: string, reply: Objects.Reply,
                                before: map<string, Value>, after: map<string, Value>)
  {
    reply.body.PyDict? && Objects.UpdatedDict(schema, Objects.WithOrigin(reply.body.entries, parent, UrlStr(content, url)), before, after)
  }

  /** The dictionary of the resource registered under `u`, empty when there is none. */
  function DictAt(known: map<string, AcmeObject>, u: string): map<string, Value>
    reads known.Values
  {
    if u in known then known[u].dict else map[]
  }

  /** The dictionaries registered under each of `urls`, as `DictAt` gives them. */
  function DictsAt(known: map<string, AcmeObject>, urls: seq<string>): (ds: seq<map<string, Value>>)
    reads known.Values
    ensures |ds| == |urls| && forall j :: 0 <= j < |urls| ==> ds[j] == DictAt(known, urls[j])
    decreases |urls|
  {
    if urls == [] then []
    else
      var rest := DictsAt(known, urls[1..]);
      assert forall j :: 1 <= j < |urls| ==> urls[j] == urls[1..][j - 1];
      [DictAt(known, urls[0])] + rest
  }

  /** Dropping the head of a sequence without repeats leaves one without it. */
  lemma DistinctTail(us: seq<string>)
    requires Distinct(us) && us != []
    ensures Distinct(us[1..]) && us[0] !in us[1..]
  {
    assert us == [us[0]] + us[1..];
    assert multiset(us) == multiset{us[0]} + multiset(us[1..]);
    DistinctShrink(us, us[1..]);
    assert multiset(us)[us[0]] == 1 + multiset(us[1..])[us[0]];
  }

  /** `fs` are the resources fetched for `urls`, one by one and in order; a URL already
      registered yields the registered instance. */
  ghost predicate Fetched(fs: seq<Element>, urls: seq<string>, known: map<string, AcmeObject>)
  {
    |fs| == |urls| &&
    forall j :: 0 <= j < |fs| ==>
      fs[j].Resolved? && fs[j].obj.url == urls[j] && (urls[j] in known ==> fs[j].obj == known[urls[j]])
  }

  /** A resource fetched for the first URL followed by those fetched for the rest. */
  lemma FetchedCons(e: Element, fs: seq<Element>, urls: seq<string>, known: map<string, AcmeObject>)
    requires urls != [] && e.Resolved? && e.obj.url == urls[0] && (urls[0] in known ==> e.obj == known[urls[0]])
    requires Fetched(fs, urls[1..], known)
    ensures Fetched([e] + fs, urls, known)
  {
    assert forall j :: 1 <= j < |urls| ==> ([e] + fs)[j] == fs[j - 1] && urls[j] == urls[1..][j - 1];
  }

  lemma FetchedUrls(fs: seq<Element>, urls: seq<string>, known: map<string, AcmeObject>)
    requires Fetched(fs, urls, known)
    ensures Urls(fs) == urls
  {
  }

  /** Whether `__post_init__` over the items passes. */
  function AddAllOutcome(content: Kind, es: seq<Element>, items: seq<Value>): Outcome
    decreases |items|
  {
    if items == [] then Pass
    else
      match Added(content, es, items[0])
      case Err(e) => Fail(e)
      case Ok(next) => AddAllOutcome(content, next, items[1..])
  }

  /** The list after `__post_init__`, when it passes. */
  function AddAllResult(content: Kind, es: seq<Element>, items: seq<Value>): seq<Element>
    decreases |items|
  {
    if items == [] then es
    else
      match Added(content, es, items[0])
      case Err(_) => es
      case Ok(next) => AddAllResult(content, next, items[1..])
  }

  /** A list built from plain URL strings holds each distinct URL once, unresolved. */
  lemma {:induction false} AddAllStrings(content: Kind, es: seq<Element>, urls: seq<string>)
    requires Distinct(Urls(es))
    ensures AddAllOutcome(content, es, seq(|urls|, i requires 0 <= i < |urls| => PyStr(urls[i]))) == Pass
    ensures var r := AddAllResult(content, es, seq(|urls|, i requires 0 <= i < |urls| => PyStr(urls[i])));
            Distinct(Urls(r)) && forall u :: u in urls ==> u in Urls(r)
    decreases |urls|
  {
    var vs := seq(|urls|, i requires 0 <= i < |urls| => PyStr(urls[i]));
    if urls != [] {
      var next := Added(content, es, vs[0]).value;
      AddKeepsDistinct(content, es, vs[0]);
      AddMembership(content, es, vs[0]);
      var rest := seq(|urls[1..]|, i requires 0 <= i < |urls[1..]| => PyStr(urls[1..][i]));
      assert vs[1..] == rest;
      AddAllStrings(content, next, urls[1..]);
      AddAllKeepsMembers(content, next, rest, urls[0]);
    }
  }

  /** Adding never drops a URL. */
  lemma {:induction false} AddAllKeepsMembers(content: Kind, es: seq<Element>, items: seq<Value>, u: string)
    requires u in Urls(es)
    ensures u in Urls(AddAllResult(content, es, items))
    decreases |items|
  {
    if items != [] {
      match Added(content, es, items[0]) {
        case Err(_) =>
        case Ok(next) =>
          AddKeepsMembers(content, es, items[0], u);
          AddAllKeepsMembers(content, next, items[1..], u);
      }
    }
  }

  lemma AddKeepsMembers(content: Kind, es: seq<Element>, v: Value, u: string)
    requires u in Urls(es) && Added(content, es, v).Ok?
    ensures u in Urls(Added(content, es, v).value)
  {
    var w := LookupUrl(content, v).value;
    match IndexOfUrl(es, w)
    case None =>
      var k :| 0 <= k < |es| && Urls(es)[k] == u;
      var r := Added(content, es, v).value;
      assert r[k] == es[k];
      assert Urls(r)[k] == u;
    case Some(i) =>
      if v.Obj? {
        var rest := RemoveAt(es, i);
        UrlsAppend(rest, [Resolved(v.obj)]);
        if u == w {
          assert Urls([Resolved(v.obj)])[0] == u;
        } else {
          RemoveAtKeeps(es, i, u);
        }
      }
  }

  /** Deleting one position keeps every URL held elsewhere. */
  lemma RemoveAtKeeps(es: seq<Element>, i: nat, u: string)
    requires i < |es| && u in Urls(es) && u != UrlOf(es[i])
    ensures u in Urls(RemoveAt(es, i))
  {
    var us := Urls(es);
    var k :| 0 <= k < |us| && us[k] == u;
    if k < i {
      assert us[..i][k] == u;
    } else {
      assert us[i + 1..][k - i - 1] == u;
    }
  }
}
