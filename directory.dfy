/** The directory resource of section 7.1.1 of RFC 8555 (`ACME_Directory`,
    acme_isolator/acme/objects/directory.py): the endpoint URLs a client starts from. */
module Directories {
  import opened Wrappers
  import opened Strings
  import opened Values
  import Problems

  /** The dataclass fields of `ACME_Directory`, inherited ones included. */
  const ClassFields: set<string> :=
    {"url", "parent", "newNonce", "newAccount", "newOrder", "revokeCert", "keyChange", "website", "newAuthz"}

  /** The keyword arguments without a default besides `url`: `meta` is an init-only
      variable without one. */
  const RequiredArgs: set<string> := {"newNonce", "newAccount", "newOrder", "revokeCert", "keyChange", "meta"}

  /** The endpoint fields `__iter__` reports, in the order the instance dictionary holds them. */
  const EndpointNames: seq<string> := ["newNonce", "newAccount", "newOrder", "revokeCert", "keyChange", "newAuthz"]

  const DirectoryErrorText: string := "Error while getting directory data"

  /** The keyword arguments `get_directory` passes besides `url`: the reply's keys that are
      class fields, and `meta`. */
  function Arguments(j: map<string, Value>): (args: map<string, Value>)
    ensures args.Keys <= j.Keys && args.Keys <= ClassFields + {"meta"}
    ensures forall k :: k in j && (k in ClassFields || k == "meta") ==> k in args && args[k] == j[k]
  {
    map k | k in j && (k in ClassFields || k == "meta") :: j[k]
  }

  /** Any other key of the reply has no effect on the arguments. */
  lemma ArgumentsIgnoreOtherKeys(j: map<string, Value>, k: string, v: Value)
    requires k !in ClassFields && k != "meta"
    ensures Arguments(j[k := v]) == Arguments(j)
    ensures Arguments(j - {k}) == Arguments(j)
  {
  }

  /** The decision of `__post_init__`: `website` is replaced by `meta["website"]` when `meta`
      is not None and has that key. `in` on a string tests for a substring and on a list for
      an element, and subscripting either with a string raises TypeError; a number is not a
      container at all. */
  function WebsiteFrom(meta: Value): (r: Result<Option<Value>>)
    requires IsJson(meta)
    ensures r == Ok(None) <==> meta.PyNone? || (meta.PyDict? && "website" !in meta.entries) ||
                               (meta.PyStr? && !HasSubstring(meta.s, "website")) ||
                               (meta.PyList? && PyStr("website") !in meta.items)
    ensures r.Ok? && r.value.Some? <==> meta.PyDict? && "website" in meta.entries
    ensures r.Ok? && r.value.Some? ==> r.value.value == meta.entries["website"]
  {
    match meta
    case PyNone => Ok(None)
    case PyDict(e) => if "website" in e then Ok(Some(e["website"])) else Ok(None)
    case PyStr(s) => if HasSubstring(s, "website") then Err(TypeError) else Ok(None)
    case PyList(items) => if PyStr("website") in items then Err(TypeError) else Ok(None)
    case _ => Err(TypeError)
  }

  /** A pair on its own when its value is not None, nothing otherwise. */
  function Present(p: (string, Value)): (r: seq<(string, Value)>)
    ensures r == [] <==> p.1 == PyNone
    ensures r != [] ==> r == [p]
  {
    if p.1 != PyNone then [p] else []
  }

  /** The `(name, value)` pairs of `pairs` whose value is not None, in order
      (`NotNoneAppend`). */
  function NotNone(pairs: seq<(string, Value)>): (r: seq<(string, Value)>)
    ensures forall i :: 0 <= i < |r| ==> r[i] in pairs && r[i].1 != PyNone
    ensures forall i :: 0 <= i < |pairs| && pairs[i].1 != PyNone ==> pairs[i] in r
    ensures |r| <= |pairs|
  {
    if pairs == [] then []
    else Present(pairs[0]) + NotNone(pairs[1..])
  }

  /** Filtering keeps order: the pairs of a concatenation are those of each part, in turn. */
  lemma {:induction false} NotNoneAppend(a: seq<(string, Value)>, b: seq<(string, Value)>)
    ensures NotNone(a + b) == NotNone(a) + NotNone(b)
    decreases |a|
  {
    if a != [] {
      assert (a + b)[0] == a[0] && (a + b)[1..] == a[1..] + b;
      NotNoneAppend(a[1..], b);
      assert NotNone(a + b) == Present(a[0]) + (NotNone(a[1..]) + NotNone(b));
    } else {
      assert a + b == b;
    }
  }

  lemma NotNoneCons(p: (string, Value), rest: seq<(string, Value)>)
    ensures NotNone([p] + rest) == Present(p) + NotNone(rest)
  {
    assert ([p] + rest)[1..] == rest;
  }

  /** The non-None pairs of six pairs, one after another. */
  lemma NotNoneSix(p0: (string, Value), p1: (string, Value), p2: (string, Value),
                   p3: (string, Value), p4: (string, Value), p5: (string, Value))
    ensures NotNone([p0, p1, p2, p3, p4, p5]) ==
            Present(p0) + (Present(p1) + (Present(p2) + (Present(p3) + (Present(p4) + Present(p5)))))
  {
    var s5 := [p5];
    var s4 := [p4] + s5;
    var s3 := [p3] + s4;
    var s2 := [p2] + s3;
    var s1 := [p1] + s2;
    var s0 := [p0] + s1;
    assert s0 == [p0, p1, p2, p3, p4, p5];
    assert NotNone(s5) == Present(p5) by { NotNoneCons(p5, []); assert s5 == [p5] + []; }
    NotNoneCons(p4, s5);
    NotNoneCons(p3, s4);
    NotNoneCons(p2, s3);
    NotNoneCons(p1, s2);
    NotNoneCons(p0, s1);
  }

  /** An `ACME_Directory` instance. Only `website` changes after construction. */
  class Directory {
    const url: string
    const parent: Value
    const newNonce: Value
    const newAccount: Value
    const newOrder: Value
    const revokeCert: Value
    const keyChange: Value
    var website: Value
    const newAuthz: Value

    /** The generated dataclass `__init__`, defaults already filled in by the caller. */
    constructor (url: string, parent: Value, newNonce: Value, newAccount: Value, newOrder: Value,
                 revokeCert: Value, keyChange: Value, website: Value, newAuthz: Value)
      ensures this.url == url && this.parent == parent && this.newNonce == newNonce
      ensures this.newAccount == newAccount && this.newOrder == newOrder
      ensures this.revokeCert == revokeCert && this.keyChange == keyChange
      ensures this.website == website && this.newAuthz == newAuthz
    {
      this.url := url;
      this.parent := parent;
      this.newNonce := newNonce;
      this.newAccount := newAccount;
      this.newOrder := newOrder;
      this.revokeCert := revokeCert;
      this.keyChange := keyChange;
      this.website := website;
      this.newAuthz := newAuthz;
    }

    /** The value of an endpoint field. */
    function Endpoint(name: string): Value
      requires name in EndpointNames
    {
      if name == "newNonce" then newNonce
      else if name == "newAccount" then newAccount
      else if name == "newOrder" then newOrder
      else if name == "revokeCert" then revokeCert
      else if name == "keyChange" then keyChange
      else newAuthz
    }

    /** `__iter__`: the endpoint fields whose value is not None, as `(name, value)` pairs; the
        URL of the directory itself, its parent and `website` are never reported. */
    function Endpoints(): (pairs: seq<(string, Value)>)
      ensures forall i :: 0 <= i < |pairs| ==>
                pairs[i].0 in EndpointNames && pairs[i].1 == Endpoint(pairs[i].0) && pairs[i].1 != PyNone
      ensures forall n :: n in EndpointNames && Endpoint(n) != PyNone ==> (n, Endpoint(n)) in pairs
      ensures |pairs| <= |EndpointNames|
    {
      var all := [("newNonce", newNonce), ("newAccount", newAccount), ("newOrder", newOrder),
                  ("revokeCert", revokeCert), ("keyChange", keyChange), ("newAuthz", newAuthz)];
      assert forall n :: n in EndpointNames ==> (n, Endpoint(n)) in all by {
        forall n | n in EndpointNames
          ensures (n, Endpoint(n)) in all
        {
          var k :| 0 <= k < 6 && EndpointNames[k] == n;
          assert all[k] == (n, Endpoint(n));
        }
      }
      NotNone(all)
    }

    /** `__post_init__`. */
    method PostInit(meta: Value) returns (r: Outcome)
      requires IsJson(meta)
      modifies this
      ensures WebsiteFrom(meta).Err? ==> r == Fail(WebsiteFrom(meta).error) && website == old(website)
      ensures WebsiteFrom(meta) == Ok(None) ==> r == Pass && website == old(website)
      ensures WebsiteFrom(meta).Ok? && WebsiteFrom(meta).value.Some? ==> r == Pass && website == WebsiteFrom(meta).value.value
    {
      r := Pass;
      if meta != PyNone {
        var contains: bool;
        match meta {
          case PyDict(e) => contains := "website" in e;
          case PyStr(s) => contains := HasSubstring(s, "website");
          case PyList(items) => contains := PyStr("website") in items;
          case _ => return Fail(TypeError);
        }
        if contains {
          if !meta.PyDict? {
            return Fail(TypeError);
          }
          website := meta.entries["website"];
        }
      }
    }
  }

  /** `get_directory`, given the reply's status and decoded JSON body. `dumps` is
      `json.dumps`, which renders the body into the error message. */
  method GetDirectory(url: string, status: int, j: Value, dumps: Value -> string) returns (r: Result<Directory>)
    requires IsJson(j)
    ensures status != 200 ==>
              r == Err(UnexpectedResponse(status, Problems.UnexpectedMessage(status, Some(dumps(j)), Some(DirectoryErrorText))))
    ensures status == 200 && !j.PyDict? ==> r == Err(AttributeError)
    ensures r.Ok? <==> status == 200 && j.PyDict? && "url" !in j.entries && RequiredArgs <= j.entries.Keys &&
                       WebsiteFrom(j.entries["meta"]).Ok?
    ensures r.Ok? ==> fresh(r.value) && r.value.url == url
    ensures r.Ok? ==> var e := j.entries;
              r.value.newNonce == e["newNonce"] && r.value.newAccount == e["newAccount"] &&
              r.value.newOrder == e["newOrder"] && r.value.revokeCert == e["revokeCert"] &&
              r.value.keyChange == e["keyChange"] &&
              r.value.newAuthz == Problems.Get(e, "newAuthz", PyNone) &&
              r.value.parent == Problems.Get(e, "parent", PyNone)
    ensures r.Ok? ==> var e := j.entries;
              r.value.website == match WebsiteFrom(e["meta"]).value
                                 case Some(w) => w
                                 case None => Problems.Get(e, "website", PyStr(""))
  {
    if status != 200 {
      return Err(UnexpectedResponse(status, Problems.UnexpectedMessage(status, Some(dumps(j)), Some(DirectoryErrorText))));
    }
    if !j.PyDict? {
      return Err(AttributeError);
    }
    var args := Arguments(j.entries);
    if "url" in args || !(RequiredArgs <= args.Keys) {
      return Err(TypeError);
    }
    var d := new Directory(url, Problems.Get(args, "parent", PyNone), args["newNonce"], args["newAccount"],
                           args["newOrder"], args["revokeCert"], args["keyChange"],
                           Problems.Get(args, "website", PyStr("")), Problems.Get(args, "newAuthz", PyNone));
    assert IsJson(j.entries["meta"]);
    var out := d.PostInit(args["meta"]);
    if out.Fail? {
      return Err(out.error);
    }
    r := Ok(d);
  }

  /** `__iter__` reports the endpoints in the order the instance dictionary holds them (the
      order the generated `__init__` assigns the fields), each at most once, and exactly those
      that are not None. */
  lemma EndpointsInOrder(d: Directory)
    ensures d.Endpoints() ==
            Present(("newNonce", d.newNonce)) + (Present(("newAccount", d.newAccount)) +
            (Present(("newOrder", d.newOrder)) + (Present(("revokeCert", d.revokeCert)) +
            (Present(("keyChange", d.keyChange)) + Present(("newAuthz", d.newAuthz))))))
  {
    NotNoneSix(("newNonce", d.newNonce), ("newAccount", d.newAccount), ("newOrder", d.newOrder),
               ("revokeCert", d.revokeCert), ("keyChange", d.keyChange), ("newAuthz", d.newAuthz));
  }

  /** A directory whose reply has no `newAuthz` never reports it, so it reports at most the
      five required endpoints. */
  lemma NoNewAuthzWithoutKey(d: Directory, j: map<string, Value>)
    requires d.newAuthz == Problems.Get(j, "newAuthz", PyNone) && "newAuthz" !in j
    ensures forall i :: 0 <= i < |d.Endpoints()| ==> d.Endpoints()[i].0 != "newAuthz"
    ensures |d.Endpoints()| <= 5
  {
    var all := [("newNonce", d.newNonce), ("newAccount", d.newAccount), ("newOrder", d.newOrder),
                ("revokeCert", d.revokeCert), ("keyChange", d.keyChange), ("newAuthz", d.newAuthz)];
    NotNoneDropsLast(all);
  }

  lemma NotNoneDropsLast(pairs: seq<(string, Value)>)
    requires |pairs| > 0 && pairs[|pairs| - 1].1 == PyNone
    ensures |NotNone(pairs)| <= |pairs| - 1
    decreases |pairs|
  {
    if |pairs| > 1 {
      assert pairs[1..][|pairs[1..]| - 1] == pairs[|pairs| - 1];
      NotNoneDropsLast(pairs[1..]);
    }
  }
}
