/** The problem-document exceptions of acme_isolator/acme/objects/exceptions.py: the problem
    types of section 6.7 of RFC 8555, their registry, the construction of an exception from a
    problem document (with the subproblems of section 6.7.1), and the message of
    `UnexpectedResponseException`. */
module Problems {
  import opened Wrappers
  import opened Strings
  import opened Values

  /** `ACME_ProblemException` and its subclasses, in declaration order. */
  datatype ProblemClass =
    | Base
    | AccountDoesNotExist
    | AlreadyRevoked
    | BadCSR
    | BadNonce
    | BadPublicKey
    | BadRevocationReason
    | BadSignatureAlgorithm
    | Caa
    | Compound
    | Connection
    | Dns
    | ExternalAccountRequired
    | IncorrectResponse
    | InvalidContact
    | Malformed
    | OrderNotReady
    | RateLimited
    | RejectedIdentifier
    | ServerInternal
    | Tls
    | Unauthorized
    | UnsupportedContact
    | UnsupportedIdentifier
    | UserActionRequired

  /** The base class's `type`, which prefixes every problem type. */
  const Prefix: string := "urn:ietf:params:acme:error"

  /** The subclasses, in the order their class statements run `__init_subclass__`. */
  const Subclasses: seq<ProblemClass> := [
    AccountDoesNotExist, AlreadyRevoked, BadCSR, BadNonce, BadPublicKey, BadRevocationReason,
    BadSignatureAlgorithm, Caa, Compound, Connection, ProblemClass.Dns, ExternalAccountRequired,
    IncorrectResponse, InvalidContact, Malformed, OrderNotReady, RateLimited, RejectedIdentifier,
    ServerInternal, Tls, Unauthorized, UnsupportedContact, UnsupportedIdentifier, UserActionRequired]

  /** The `type` a subclass declares in its body, before `__init_subclass__` prefixes it. */
  function Suffix(c: ProblemClass): string
    requires c != Base
  {
    match c
    case AccountDoesNotExist => "accountDoesNotExist"
    case AlreadyRevoked => "alreadyRevoked"
    case BadCSR => "badCSR"
    case BadNonce => "badNonce"
    case BadPublicKey => "badPublicKey"
    case BadRevocationReason => "badRevocationReason"
    case BadSignatureAlgorithm => "badSignatureAlgorithm"
    case Caa => "caa"
    case Compound => "compound"
    case Connection => "connection"
    case Dns => "dns"
    case ExternalAccountRequired => "externalAccountRequired"
    case IncorrectResponse => "incorrectResponse"
    case InvalidContact => "invalidContact"
    case Malformed => "malformed"
    case OrderNotReady => "orderNotReady"
    case RateLimited => "rateLimited"
    case RejectedIdentifier => "rejectedIdentifier"
    case ServerInternal => "serverInternal"
    case Tls => "tls"
    case Unauthorized => "unauthorized"
    case UnsupportedContact => "unsupportedContact"
    case UnsupportedIdentifier => "unsupportedIdentifier"
    case UserActionRequired => "userActionRequired"
  }

  /** The class a declared suffix belongs to (sorted by length first, so that only suffixes
      of equal length are compared). */
  function ClassOfSuffix(s: string): (c: Option<ProblemClass>)
    ensures c.Some? ==> c.value != Base
  {
    if |s| == 3 then
      (if s == "caa" then Some(Caa)
      else if s == "dns" then Some(ProblemClass.Dns)
      else if s == "tls" then Some(Tls)
      else None)
    else if |s| == 6 then (if s == "badCSR" then Some(BadCSR) else None)
    else if |s| == 8 then
      (if s == "badNonce" then Some(BadNonce)
      else if s == "compound" then Some(Compound)
      else None)
    else if |s| == 9 then (if s == "malformed" then Some(Malformed) else None)
    else if |s| == 10 then (if s == "connection" then Some(Connection) else None)
    else if |s| == 11 then (if s == "rateLimited" then Some(RateLimited) else None)
    else if |s| == 12 then
      (if s == "badPublicKey" then Some(BadPublicKey)
      else if s == "unauthorized" then Some(Unauthorized)
      else None)
    else if |s| == 13 then (if s == "orderNotReady" then Some(OrderNotReady) else None)
    else if |s| == 14 then
      (if s == "alreadyRevoked" then Some(AlreadyRevoked)
      else if s == "invalidContact" then Some(InvalidContact)
      else if s == "serverInternal" then Some(ServerInternal)
      else None)
    else if |s| == 17 then (if s == "incorrectResponse" then Some(IncorrectResponse) else None)
    else if |s| == 18 then
      (if s == "rejectedIdentifier" then Some(RejectedIdentifier)
      else if s == "unsupportedContact" then Some(UnsupportedContact)
      else if s == "userActionRequired" then Some(UserActionRequired)
      else None)
    else if |s| == 19 then
      (if s == "accountDoesNotExist" then Some(AccountDoesNotExist)
      else if s == "badRevocationReason" then Some(BadRevocationReason)
      else None)
    else if |s| == 21 then
      (if s == "badSignatureAlgorithm" then Some(BadSignatureAlgorithm)
      else if s == "unsupportedIdentifier" then Some(UnsupportedIdentifier)
      else None)
    else if |s| == 23 then (if s == "externalAccountRequired" then Some(ExternalAccountRequired) else None)
    else None
  }

  /** Each suffix names its own class, so no two subclasses declare the same suffix. */
  lemma SuffixesDistinct(c: ProblemClass)
    requires c != Base
    ensures ClassOfSuffix(Suffix(c)) == Some(c)
  {
    var n := |Suffix(c)|;
    if n <= 8 {
      SuffixDistinctUpTo8(c);
    } else if n <= 13 {
      SuffixDistinctUpTo13(c);
    } else if n <= 18 {
      SuffixDistinctUpTo18(c);
    } else {
      SuffixDistinctFrom19(c);
    }
  }

  // Suffixes of equal length differ at the position given.

  lemma SuffixDistinctUpTo8(c: ProblemClass)
    requires c != Base && |Suffix(c)| <= 8
    ensures ClassOfSuffix(Suffix(c)) == Some(c)
  {
    match c
    case Dns => assert "dns"[0] != "caa"[0];
    case Tls => assert "tls"[0] != "caa"[0] && "tls"[0] != "dns"[0];
    case Compound => assert "compound"[0] != "badNonce"[0];
    case _ =>
  }

  lemma SuffixDistinctUpTo13(c: ProblemClass)
    requires c != Base && 8 < |Suffix(c)| <= 13
    ensures ClassOfSuffix(Suffix(c)) == Some(c)
  {
    match c
    case Unauthorized => assert "unauthorized"[0] != "badPublicKey"[0];
    case _ =>
  }

  lemma SuffixDistinctUpTo18(c: ProblemClass)
    requires c != Base && 13 < |Suffix(c)| <= 18
    ensures ClassOfSuffix(Suffix(c)) == Some(c)
  {
    match c
    case InvalidContact => assert "invalidContact"[0] != "alreadyRevoked"[0];
    case ServerInternal =>
      assert "serverInternal"[0] != "alreadyRevoked"[0] && "serverInternal"[0] != "invalidContact"[0];
    case UnsupportedContact => assert "unsupportedContact"[0] != "rejectedIdentifier"[0];
    case UserActionRequired =>
      assert "userActionRequired"[0] != "rejectedIdentifier"[0] && "userActionRequired"[1] != "unsupportedContact"[1];
    case _ =>
  }

  lemma SuffixDistinctFrom19(c: ProblemClass)
    requires c != Base && 18 < |Suffix(c)|
    ensures ClassOfSuffix(Suffix(c)) == Some(c)
  {
    match c
    case BadRevocationReason => assert "badRevocationReason"[0] != "accountDoesNotExist"[0];
    case UnsupportedIdentifier => assert "unsupportedIdentifier"[0] != "badSignatureAlgorithm"[0];
    case _ =>
  }

  /** `description`: a class attribute of every subclass. The base class only annotates it. */
  function Description(c: ProblemClass): Option<string>
  {
    match c
    case Base => None
    case AccountDoesNotExist => Some("The request specified an account that does not exist")
    case AlreadyRevoked => Some("The request specified a certificate to be revoked that has already been revoked")
    case BadCSR => Some("The CSR is unacceptable (e.g., due to a short key)")
    case BadNonce => Some("The client sent an unacceptable anti-replay nonce")
    case BadPublicKey => Some("The JWS was signed by a public key the server does not support")
    case BadRevocationReason => Some("The revocation reason provided is not allowed by the server")
    case BadSignatureAlgorithm => Some("The JWS was signed with an algorithm the server does not support")
    case Caa => Some("Certification Authority Authorization (CAA) records forbid the CA from issuing a certificate")
    case Compound => Some("Specific error conditions are indicated in the \"subproblems\" array")
    case Connection => Some("The server could not connect to validation target")
    case Dns => Some("There was a problem with a DNS query during identifier validation")
    case ExternalAccountRequired => Some("The request must include a value for the \"externalAccountBinding\" field")
    case IncorrectResponse => Some("Response received didn't match the challenge's requirements")
    case InvalidContact => Some("A contact URL for an account was invalid")
    case Malformed => Some("The request message was malformed")
    case OrderNotReady => Some("The request attempted to finalize an order that is not ready to be finalized")
    case RateLimited => Some("The request exceeds a rate limit")
    case RejectedIdentifier => Some("The server will not issue certificates for the identifier")
    case ServerInternal => Some("The server experienced an internal error")
    case Tls => Some("The server received a TLS error during validation")
    case Unauthorized => Some("The client lacks sufficient authorization")
    case UnsupportedContact => Some("A contact URL for an account used an unsupported protocol scheme")
    case UnsupportedIdentifier => Some("identifier is of an unsupported type")
    case UserActionRequired => Some("Visit the \"instance\" URL and take actions specified there")
  }

  /** The class attribute `type` once the class statement has run: the base class keeps the
      prefix, a subclass gets the prefix, a colon and its suffix. */
  function TypeOf(c: ProblemClass): string
  {
    if c == Base then Prefix else Prefix + ":" + Suffix(c)
  }

  /** Every problem type starts with the prefix; a subclass's continues with a colon and
      its suffix, which can be read back. */
  lemma TypeOfShape(c: ProblemClass)
    ensures |TypeOf(c)| >= |Prefix| && TypeOf(c)[..|Prefix|] == Prefix
    ensures c != Base ==> |TypeOf(c)| > |Prefix| + 1 && TypeOf(c)[|Prefix|] == ':' &&
                          TypeOf(c)[|Prefix| + 1..] == Suffix(c)
  {
    if c != Base {
      assert TypeOf(c) == Prefix + ":" + Suffix(c);
      assert (Prefix + ":" + Suffix(c))[|Prefix| + 1..] == Suffix(c);
    }
  }

  /** No two classes have the same problem type. */
  lemma TypeOfInjective(c: ProblemClass, d: ProblemClass)
    ensures TypeOf(c) == TypeOf(d) ==> c == d
  {
    TypeOfShape(c);
    TypeOfShape(d);
    if TypeOf(c) == TypeOf(d) && c != Base && d != Base {
      SuffixesDistinct(c);
      SuffixesDistinct(d);
    }
  }

  /** `__init_subclass__` run by each class statement in turn: the class's `type` gets the
      prefix and the class is entered into `_problem_type_registry` under it. */
  method Register(classes: seq<ProblemClass>) returns (registry: map<string, ProblemClass>)
    requires Base !in classes
    ensures forall c :: c in classes ==> TypeOf(c) in registry && registry[TypeOf(c)] == c
    ensures forall t :: t in registry ==> registry[t] in classes && TypeOf(registry[t]) == t
  {
    registry := map[];
    var i := 0;
    while i < |classes|
      invariant 0 <= i <= |classes|
      invariant forall d :: d in classes[..i] ==> TypeOf(d) in registry && registry[TypeOf(d)] == d
      invariant forall t :: t in registry ==> registry[t] in classes[..i] && TypeOf(registry[t]) == t
    {
      var c := classes[i];
      RegisterStep(registry, classes[..i], c);
      assert classes[..i + 1] == classes[..i] + [c];
      registry := registry[TypeOf(c) := c];
      i := i + 1;
    }
    assert classes[..i] == classes;
  }

  /** Entering a class keeps every class entered before under its own type. */
  lemma RegisterStep(registry: map<string, ProblemClass>, done: seq<ProblemClass>, c: ProblemClass)
    requires forall d :: d in done ==> TypeOf(d) in registry && registry[TypeOf(d)] == d
    ensures forall d :: d in done ==> TypeOf(d) in registry[TypeOf(c) := c] && registry[TypeOf(c) := c][TypeOf(d)] == d
  {
    forall d | d in done
      ensures registry[TypeOf(c) := c][TypeOf(d)] == d
    {
      TypeOfInjective(c, d);
    }
  }

  /** The registry after all the subclasses are declared: every subclass is found under its
      own problem type (no declaration overwrites another), and the base class's type is not
      a key. */
  method RegisterSubclasses() returns (registry: map<string, ProblemClass>)
    ensures forall c :: c in Subclasses ==> TypeOf(c) in registry && registry[TypeOf(c)] == c
    ensures forall t :: t in registry ==> registry[t] != Base && TypeOf(registry[t]) == t
    ensures Prefix !in registry
  {
    registry := Register(Subclasses);
    if Prefix in registry {
      TypeOfInjective(registry[Prefix], Base);
    }
  }

  /** A constructed problem exception: its class, `type`, `detail` (also the exception's
      message), `identifier`, the notes added in order, and the nested exceptions grouped as
      `__cause__` when the document has `subproblems`. */
  datatype Problem = Problem(
    cls: ProblemClass,
    ptype: Value,
    detail: Value,
    identifier: Value,
    notes: seq<string>,
    subproblems: Option<seq<Problem>>)

  /** `data.get(key, default)` on a dictionary. */
  function Get(entries: map<string, Value>, key: string, default: Value): Value
  {
    if key in entries then entries[key] else default
  }

  /** `add_note` accepts only strings. */
  function NoteOf(v: Value): Result<string>
  {
    if IsStr(v) then Ok(StrOf(v)) else Err(TypeError)
  }

  /** `ACME_ProblemException.__init__` on an instance of `c`. `render` is Python's `str()`
      of a value that is not a string, used when formatting the problem-type note. With
      `asWritten`, reading `description` on the base class raises AttributeError, as the base
      class only annotates it; otherwise the base class has no description. */
  function Make(c: ProblemClass, data: Value, render: Value -> string, asWritten: bool): (r: Result<Problem>)
    ensures r.Ok? ==> data.PyDict? && "detail" in data.entries
    ensures r.Ok? ==> r.value.cls == c && r.value.detail == data.entries["detail"]
    ensures r.Ok? ==> r.value.ptype == TypeField(c, data.entries)
    ensures r.Ok? ==> r.value.identifier == Get(data.entries, "identifier", PyNone)
    ensures r.Ok? ==> Notes(c, r.value.ptype, r.value.detail, r.value.identifier, render, asWritten) == Ok(r.value.notes)
    ensures r.Ok? ==> ("subproblems" in data.entries <==> r.value.subproblems.Some?)
    decreases data, 0
  {
    if !data.PyDict? then
      Err(if c == Base then AttributeError else TypeError)
    else if "detail" !in data.entries then
      Err(KeyError)
    else
      var e := data.entries;
      var ptype := TypeField(c, e);
      var identifier := Get(e, "identifier", PyNone);
      var notes :- Notes(c, ptype, e["detail"], identifier, render, asWritten);
      var subproblems :- if "subproblems" in e then Grouped(e["subproblems"], render, asWritten) else Ok(None);
      Ok(Problem(c, ptype, e["detail"], identifier, notes, subproblems))
  }

  /** `type`: the base class reads it from the document, a subclass keeps its class's. */
  function TypeField(c: ProblemClass, e: map<string, Value>): Value
  {
    if c == Base then Get(e, "type", PyStr(Prefix)) else PyStr(TypeOf(c))
  }

  /** The `add_note` calls, in order; any note that is not a string raises TypeError. */
  function Notes(c: ProblemClass, ptype: Value, detail: Value, identifier: Value,
                 render: Value -> string, asWritten: bool): (r: Result<seq<string>>)
    ensures r.Ok? ==> |r.value| >= 2 && IsStr(detail) && r.value[1] == StrOf(detail)
    ensures r.Ok? ==> r.value[0] == "problem type: " + (if IsStr(ptype) then StrOf(ptype) else render(ptype))
    ensures r.Ok? ==> Description(c).Some? ==> |r.value| >= 3 && r.value[2] == Description(c).value
    ensures r.Ok? ==> identifier != PyNone ==> IsStr(identifier) && r.value[|r.value| - 1] == StrOf(identifier)
    ensures r.Ok? ==> |r.value| == 2 + (if Description(c).Some? then 1 else 0) + (if identifier != PyNone then 1 else 0)
    ensures c == Base && asWritten && IsStr(detail) ==> r == Err(AttributeError)
  {
    var typeNote := "problem type: " + (if IsStr(ptype) then StrOf(ptype) else render(ptype));
    var detailNote :- NoteOf(detail);
    if c == Base && asWritten then Err(AttributeError)
    else
      var descriptionNotes := if Description(c).Some? then [Description(c).value] else [];
      var identifierNotes :- if identifier == PyNone then Ok([]) else
                               var n :- NoteOf(identifier); Ok([n]);
      Ok([typeNote, detailNote] + descriptionNotes + identifierNotes)
  }

  /** `__cause__`: the subproblems grouped; an exception group cannot be empty. */
  function Grouped(v: Value, render: Value -> string, asWritten: bool): (r: Result<Option<seq<Problem>>>)
    ensures r.Ok? ==> r.value.Some? && r.value.value != []
    decreases v, 2
  {
    var subs :- Subproblems(v, render, asWritten);
    if subs == [] then Err(ValueError) else Ok(Some(subs))
  }

  /** The list comprehension over `data["subproblems"]`, each entry built as a base-class
      problem. Iterating a string, bytes or a dictionary yields strings, integers or keys, none
      of which has `get`; any other non-list is not iterable. */
  function Subproblems(v: Value, render: Value -> string, asWritten: bool): (r: Result<seq<Problem>>)
    ensures v.PyList? && r.Ok? ==> |r.value| == |v.items|
    ensures v.PyList? && r.Ok? ==>
              forall j :: 0 <= j < |v.items| ==> Make(Base, v.items[j], render, asWritten) == Ok(r.value[j])
    decreases v, 1
  {
    match v
    case PyList(items) => MakeAll(v, 0, render, asWritten)
    case PyStr(s) => if s == [] then Ok([]) else Err(AttributeError)
    case UrlStr(_, s) => if s == [] then Ok([]) else Err(AttributeError)
    case PyBytes(b) => if b == [] then Ok([]) else Err(AttributeError)
    case PyDict(m) => if m == map[] then Ok([]) else Err(AttributeError)
    case _ => Err(TypeError)
  }

  /** The base-class problems for `list.items[i..]`, stopping at the first exception. */
  function MakeAll(list: Value, i: nat, render: Value -> string, asWritten: bool): (r: Result<seq<Problem>>)
    requires list.PyList? && i <= |list.items|
    ensures r.Ok? ==> |r.value| == |list.items| - i
    ensures r.Ok? ==> forall j :: i <= j < |list.items| ==>
              Make(Base, list.items[j], render, asWritten) == Ok(r.value[j - i])
    decreases list, 0, |list.items| - i
  {
    if i == |list.items| then Ok([])
    else
      var first := Make(Base, list.items[i], render, asWritten);
      if first.Err? then Err(first.error)
      else
        var rest := MakeAll(list, i + 1, render, asWritten);
        if rest.Err? then Err(rest.error)
        else
          ConsShift(first.value, rest.value);
          Ok([first.value] + rest.value)
  }

  lemma ConsShift<T>(x: T, s: seq<T>)
    ensures ([x] + s)[0] == x
    ensures forall k :: 0 <= k < |s| ==> ([x] + s)[k + 1] == s[k]
  {
  }

  /** The exception an instance of `c` is, with the base class's missing description
      treated as None. */
  function Init(c: ProblemClass, data: Value, render: Value -> string): Result<Problem>
  {
    Make(c, data, render, false)
  }

  /** The exception as written. */
  function InitAsWritten(c: ProblemClass, data: Value, render: Value -> string): Result<Problem>
  {
    Make(c, data, render, true)
  }

  /** Only the base class reads `type` from the document, defaulting to the prefix; a
      subclass keeps its own problem type whatever the document says. */
  lemma TypeComesFromClass(c: ProblemClass, data: Value, render: Value -> string)
    requires Init(c, data, render).Ok?
    ensures c != Base ==> Init(c, data, render).value.ptype == PyStr(TypeOf(c))
    ensures c == Base ==> Init(c, data, render).value.ptype == Get(data.entries, "type", PyStr(Prefix))
  {
  }

  /** A document without `detail` fails with KeyError, whatever the class. */
  lemma DetailRequired(c: ProblemClass, data: map<string, Value>, render: Value -> string)
    requires "detail" !in data
    ensures Init(c, PyDict(data), render) == Err(KeyError)
    ensures InitAsWritten(c, PyDict(data), render) == Err(KeyError)
  {
  }

  /** A list of subproblems gives one nested base-class problem per entry, in order; an empty
      list fails, as an exception group cannot be empty. */
  lemma SubproblemsInOrder(c: ProblemClass, data: Value, render: Value -> string)
    requires data.PyDict? && "subproblems" in data.entries && data.entries["subproblems"].PyList?
    requires Init(c, data, render).Ok?
    ensures var subs := data.entries["subproblems"].items;
            var p := Init(c, data, render).value;
            subs != [] && p.subproblems.Some? && |p.subproblems.value| == |subs| &&
            forall j :: 0 <= j < |subs| ==> Init(Base, subs[j], render) == Ok(p.subproblems.value[j])
  {
    var e := data.entries;
    var g := Grouped(e["subproblems"], render, false);
    assert g.Ok?;
    assert Init(c, data, render).value.subproblems == g.value;
  }

  /** The base class as written never constructs from a document that has `detail` as a
      string: reading its description raises AttributeError. */
  lemma BaseAsWrittenFails(data: map<string, Value>, render: Value -> string)
    requires "detail" in data && IsStr(data["detail"])
    ensures InitAsWritten(Base, PyDict(data), render) == Err(AttributeError)
  {
  }

  /** So as written a compound problem with a subproblem never constructs, while with the
      base class's description taken as None it does. */
  lemma CompoundAsWrittenFails(render: Value -> string)
    ensures var sub := PyDict(map["detail" := PyStr("bad contact")]);
            var doc := PyDict(map["detail" := PyStr("two errors"), "subproblems" := PyList([sub])]);
            InitAsWritten(Compound, doc, render) == Err(AttributeError) &&
            Init(Compound, doc, render).Ok? && Init(Base, sub, render).Ok? &&
            Init(Compound, doc, render).value.subproblems == Some([Init(Base, sub, render).value])
  {
    var sub := PyDict(map["detail" := PyStr("bad contact")]);
    var list := PyList([sub]);
    var doc := PyDict(map["detail" := PyStr("two errors"), "subproblems" := list]);
    assert InitAsWritten(Base, sub, render) == Err(AttributeError);
    assert MakeAll(list, 0, render, true) == Err(AttributeError);
    var p := Init(Base, sub, render);
    assert p.Ok?;
    assert MakeAll(list, 1, render, false) == Ok([]);
    assert Make(Base, list.items[0], render, false) == p;
    assert [p.value] + [] == [p.value];
    assert MakeAll(list, 0, render, false) == Ok([p.value]);
    assert Grouped(list, render, false) == Ok(Some([p.value]));
    assert doc.entries["subproblems"] == list;
  }

  /** As written, a subclass document whose own notes succeed and whose first subproblem
      is a dictionary with a string `detail` raises AttributeError: that subproblem is built
      as the base class, which reads the missing `description`. */
  lemma {:induction false} CompoundAsWrittenFailsAll(c: ProblemClass, data: map<string, Value>, render: Value -> string)
    requires c != Base && "detail" in data && IsStr(data["detail"])
    requires var id := Get(data, "identifier", PyNone); id == PyNone || IsStr(id)
    requires "subproblems" in data && data["subproblems"].PyList? && data["subproblems"].items != []
    requires var first := data["subproblems"].items[0];
             first.PyDict? && "detail" in first.entries && IsStr(first.entries["detail"])
    ensures InitAsWritten(c, PyDict(data), render) == Err(AttributeError)
  {
    SubclassNotesSucceed(c, TypeField(c, data), data["detail"], Get(data, "identifier", PyNone), render);
    GroupedAsWrittenFails(data["subproblems"], render);
  }

  lemma SubclassNotesSucceed(c: ProblemClass, ptype: Value, detail: Value, identifier: Value, render: Value -> string)
    requires c != Base && IsStr(detail) && (identifier == PyNone || IsStr(identifier))
    ensures Notes(c, ptype, detail, identifier, render, true).Ok?
  {
  }

  lemma GroupedAsWrittenFails(list: Value, render: Value -> string)
    requires list.PyList? && list.items != []
    requires var first := list.items[0];
             first.PyDict? && "detail" in first.entries && IsStr(first.entries["detail"])
    ensures Grouped(list, render, true) == Err(AttributeError)
  {
    BaseAsWrittenFails(list.items[0].entries, render);
    assert MakeAll(list, 0, render, true) == Err(AttributeError);
  }

  /** `UnexpectedResponseException.__init__`: the message is the prefix
      `Unexpected Response (status: <code>)` followed by `msg` when one is given, else by the
      JSON text of the response when there is one; with neither there is no message.
      `responseJson` is `json.dumps` of the response. */
  function UnexpectedMessage(code: int, responseJson: Option<string>, msg: Option<string>): (m: Option<string>)
    ensures msg.Some? ==> m == Some(UnexpectedPrefix(code) + ": " + msg.value)
    ensures msg.None? && responseJson.Some? ==> m == Some(UnexpectedPrefix(code) + ": " + responseJson.value)
    ensures m.None? <==> msg.None? && responseJson.None?
  {
    if msg.None? && responseJson.Some? then Some(UnexpectedPrefix(code) + ": " + responseJson.value)
    else if msg.Some? then Some(UnexpectedPrefix(code) + ": " + msg.value)
    else None
  }

  function UnexpectedPrefix(code: int): string
  {
    "Unexpected Response (status: " + IntToString(code) + ")"
  }

  /** The status code can be read back from the message. */
  lemma UnexpectedMessageNamesStatus(code: int, responseJson: Option<string>, msg: Option<string>)
    requires UnexpectedMessage(code, responseJson, msg).Some?
    ensures var m := UnexpectedMessage(code, responseJson, msg).value;
            var n := |"Unexpected Response (status: "|;
            |m| > n + |IntToString(code)| &&
            m[..n] == "Unexpected Response (status: " &&
            m[n..n + |IntToString(code)|] == IntToString(code) &&
            m[n + |IntToString(code)|] == ')'
  {
    var rest := if msg.Some? then msg.value else responseJson.value;
    Parts("Unexpected Response (status: ", IntToString(code), ")", ": ", rest);
  }

  /** The parts of `a + b + c + d + e` can be read back by position. */
  lemma Parts(a: string, b: string, c: string, d: string, e: string)
    requires |c| == 1
    ensures var m := a + b + c + d + e;
            |m| > |a| + |b| && m[..|a|] == a && m[|a|..|a| + |b|] == b && m[|a| + |b|] == c[0]
  {
    var m := a + b + c + d + e;
    assert m[..|a|] == a;
    assert m[|a|..|a| + |b|] == b;
  }
}
