# A verified model of the acme_isolator ACME client core

acme_isolator is a Python client for the ACME protocol of RFC 8555. This project models its core
in Dafny and proves properties of the model. The modelled parts:

- the resource mirror `ACME_Object`:
  - `update_fields` with its `hold_keys`;
  - `get_from_url`, which reuses the register of live instances;
  - `ElementList`, a set of resources keyed by URL. Each member is held either as a URL-class
    string or as the resolved resource.
- the field descriptors that coerce assignments:
  - resource references, set once;
  - lists, set once;
  - identifiers and identifier lists;
  - status enums.
- identifier parsing, and the directory resource (section 7.1.1 of RFC 8555).
- the problem-document exceptions (section 6.7 of RFC 8555): the registry of problem types and
  the construction of an exception from a problem document.
- the flattened JWS envelope of a request (section 6.2 of RFC 8555, RFC 7515): base64url,
  the JWK of a P-256 key (section 6.2.1 of RFC 7518), the protected header and the signing input.
- the pool of anti-replay nonces (section 6.5 of RFC 8555).

How Python maps to the model:

- A dynamically typed Python value is the datatype `Values.Value`.
- A raised exception is `Err`/`Fail` of `Wrappers.Error`.
- A live resource is the class `Values.AcmeObject`. Its `dict` field is the instance `__dict__`, so
  the register and the element lists share instances by reference.
- `ElementList` and `NonceManager` are classes whose methods update their fields in place. Each
  method is proved against a pure function of the old state; the lemmas are stated about those
  functions.
- Network replies, the JSON text of a value, `str()` of a value and the ECDSA signature are
  parameters.

Files:

- `wrappers.dfy`: results and exceptions.
- `strings.dfy`: octets and decimal rendering of integers.
- `values.dfy`: Python values, resource schemas, `AcmeObject`.
- `identifier.dfy`, `descriptors.dfy`, `objects.dfy`, `element_list.dfy`, `problems.dfy`,
  `directory.dfy`, `base64.dfy`, `jws.dfy`, `nonce.dfy`: one module each.

## Model

| member | source | states |
|---|---|---|
| Values.AcmeObject.constructor | acme_isolator/acme/objects/base.py:43-49 | A new resource holds its kind, schema, URL, parent and field dictionary as given. |
| Values.Put | acme_isolator/acme/objects/base.py:97 | Writing one key of an instance dictionary sets that key and leaves every other key as it was. |
| Identifiers.TypeTag | acme_isolator/acme/objects/identifier.py:23-24 | The DNS identifier class carries the type tag "dns", the default it declares for `type`. |
| Identifiers.Parse | acme_isolator/acme/objects/identifier.py:14-19 | `parse` succeeds exactly on a dict whose keys are "type" and "value" with "type" equal to "dns", and the identifier then holds that "value". |
| Identifiers.ParseAsWritten | acme_isolator/acme/objects/identifier.py:14-19 | `parse` as written. `ParseAsWrittenNeverSucceeds` proves it never succeeds: where the corrected parse succeeds it raises TypeError, because the keyword `type` is an `init=False` field; elsewhere it fails either with TypeError or with the corrected parse's error. |
| Identifiers.ParseToDict | acme_isolator/acme/objects/identifier.py:14-19 | Round trip: every identifier is parsed back from its own identifier object. |
| Identifiers.ParseOnlyFromDict | acme_isolator/acme/objects/identifier.py:14-19 | Converse: a dict that parses to an identifier, with a plain-string "type", is that identifier's object. |
| Identifiers.ParseErrors | acme_isolator/acme/objects/identifier.py:15-19 | Missing "type" raises KeyError; another type than "dns" raises ValueError; a non-dict raises TypeError. |
| Identifiers.Call | acme_isolator/acme/objects/identifier.py:11-12 | Calling an identifier returns the "value" of the identifier object it stands for (`ToDict`). |
| Identifiers.CallAfterParse | acme_isolator/acme/objects/identifier.py:11-12 | Calling a parsed identifier returns the "value" of its dict, and its type tag is "dns". |
| Identifiers.ParseAsWrittenNeverSucceeds | acme_isolator/acme/objects/identifier.py:16-17 | As written, `parse` never returns an identifier: where the intended one succeeds it raises TypeError, and elsewhere the two agree. |
| Identifiers.ParseDnsExample | acme_isolator/acme/objects/identifier.py:17 | {"type": "dns", "value": "example.com"} parses as intended but raises TypeError as written. |
| Descriptors.NewReferenceDescriptor | acme_isolator/acme/objects/descriptors/base.py:8-12 | The reference descriptor accepts exactly the `ACME_Object` subclasses; anything else raises ValueError. |
| Descriptors.ReferenceAssign | acme_isolator/acme/objects/descriptors/base.py:20-38 | The descriptor object itself raises ValueError. A resolved field never changes. An unresolved field takes a string of the right kind or a resource of the right kind. |
| Descriptors.ReferenceResolvedErrors | acme_isolator/acme/objects/descriptors/base.py:23-31 | Once the field holds a resource: another URL raises NotImplementedError, the same URL is accepted without change, and any other type raises ValueError. |
| Descriptors.ReferenceUnresolvedRules | acme_isolator/acme/objects/descriptors/base.py:32-38 | Before that: a plain string is wrapped in the URL class, and a URL-class string or resource of the right kind is stored as it is. It fails exactly for the other values. |
| Descriptors.ResolvedIsPermanent | acme_isolator/acme/objects/descriptors/base.py:23-31 | Upgrade monotonicity: after any series of assignments, a resolved field holds the same resource. |
| Descriptors.ResolvedComesFromAssignment | acme_isolator/acme/objects/descriptors/base.py:20-38 | A field that ends up resolved held that resource from the start or received it in one of the assignments. |
| Descriptors.GetReference | acme_isolator/acme/objects/descriptors/base.py:17-18 | The getter returns the stored content, or raises KeyError before any assignment. |
| Descriptors.SetReference | acme_isolator/acme/objects/descriptors/base.py:20-38 | The setter stores what `ReferenceAssign` gives and touches no other key. On an error it changes nothing. |
| Descriptors.NewListDescriptor | acme_isolator/acme/objects/descriptors/base.py:42-46 | The list descriptor accepts exactly the `ElementList` subclasses; anything else raises ValueError. |
| Descriptors.ListAssign | acme_isolator/acme/objects/descriptors/base.py:56-64 | A field that is already set raises NotImplementedError. An unset field stores an instance of the list class. A plain list raises TypeError, because the list class's keyword-only `parent` is passed positionally. Any other value leaves the field unset. |
| Descriptors.ListSetOnce | acme_isolator/acme/objects/descriptors/base.py:56-64 | Set-once: after a first assignment stores a list, every later assignment fails. |
| Descriptors.ListGet | acme_isolator/acme/objects/descriptors/base.py:48-54 | The getter returns the stored list, or else stores a new empty instance of the list class and returns it. The field always holds what was returned. |
| Descriptors.ListGetAsWritten | acme_isolator/acme/objects/descriptors/base.py:48-54 | The getter as written, with `return l` inside the else branch. `ListGetTwiceAsWritten` proves that the first read creates and returns the list, and that the second read returns None. |
| Descriptors.ListGetStable | acme_isolator/acme/objects/descriptors/base.py:48-54 | Reading a list field twice gives the same list, and the second read changes nothing. |
| Descriptors.ListGetBlocksAssign | acme_isolator/acme/objects/descriptors/base.py:48-64 | After a read has created the list, every assignment to the field raises NotImplementedError. |
| Descriptors.ListGetTwiceAsWritten | acme_isolator/acme/objects/descriptors/base.py:49-54 | As written, the first read of an unset field returns the new list and the second returns None. The intended getter returns the same list again. |
| Descriptors.GetList | acme_isolator/acme/objects/descriptors/base.py:48-54 | The getter on an instance returns what `ListGet` gives and stores its new content. |
| Descriptors.SetList | acme_isolator/acme/objects/descriptors/base.py:56-64 | The setter stores what `ListAssign` gives and touches no other key. |
| Descriptors.IdentifierAssign | acme_isolator/acme/objects/descriptors/identifier.py:6-10 | An identifier is stored unchanged; any other value is stored as what `parse` makes of it, or the parse error is raised (uses the corrected parse). |
| Descriptors.SetIdentifier | acme_isolator/acme/objects/descriptors/identifier.py:6-10 | The setter stores what `IdentifierAssign` gives and touches no other key. |
| Descriptors.GetIdentifier | acme_isolator/acme/objects/descriptors/identifier.py:14-15 | The getter returns the stored content, or raises KeyError. |
| Descriptors.IdentifierList | acme_isolator/acme/objects/descriptors/identifier.py:23-32 | The list is built element by element and has the same length. It succeeds exactly when every element does, and an error is that of a failing element. |
| Descriptors.IdentifierListAssign | acme_isolator/acme/objects/descriptors/identifier.py:22-34 | A non-list raises ValueError; the stored list has one entry per element (uses the corrected parse). |
| Descriptors.IdentifierListKeepsIdentifiers | acme_isolator/acme/objects/descriptors/identifier.py:26-27 | An identifier in the list is kept at its position. |
| Descriptors.IdentifierListParsesDicts | acme_isolator/acme/objects/descriptors/identifier.py:28-29 | A dict in the list is replaced, at its position, by its parsed identifier. |
| Descriptors.IdentifierListRejectsOthers | acme_isolator/acme/objects/descriptors/identifier.py:30-31 | A list holding an element that is neither an identifier nor a dict is refused. |
| Descriptors.SetIdentifierList | acme_isolator/acme/objects/descriptors/identifier.py:22-34 | The setter stores the list only once it is complete; on an error it changes nothing. |
| Descriptors.IdentifierListFirstError | acme_isolator/acme/objects/descriptors/identifier.py:25-31 | The error raised is that of the first failing element. |
| Descriptors.IdentifierListAllOk | acme_isolator/acme/objects/descriptors/identifier.py:24-32 | When every element yields its identifier, the list is exactly those identifiers in order. |
| Descriptors.NewStatusDescriptor | acme_isolator/acme/objects/descriptors/status.py:5-7 | The `name` argument is ignored: the key is always "status". |
| Descriptors.EnumLookup | acme_isolator/acme/objects/descriptors/status.py:11 | `enumType(value)` finds the member with that value exactly when there is one. |
| Descriptors.StatusAssign | acme_isolator/acme/objects/descriptors/status.py:9-15 | A string becomes its enum member, or raises ValueError when no member has that value. A member of the enum is kept. Anything else raises ValueError. |
| Descriptors.SetStatus | acme_isolator/acme/objects/descriptors/status.py:9-15 | The setter writes "status" as `StatusAssign` says and touches no other key. |
| Descriptors.GetStatus | acme_isolator/acme/objects/descriptors/status.py:17-18 | The getter returns the stored status, or raises KeyError. |
| Descriptors.SetAttr | acme_isolator/acme/objects/base.py:94-95 | Assigning through a class attribute dispatches to that attribute's descriptor. |
| Descriptors.AttrAssign | acme_isolator/acme/objects/base.py:94-95 | The new content of a field assigned through its class attribute. A reference, list, identifier, identifier-list or status descriptor applies its own `__set__` rules. A plain class attribute has no `__set__`, so it raises AttributeError. `SetAttr` is proved to write exactly this result. |
| Objects.UpdateKeys | acme_isolator/acme/objects/base.py:92 | Definition of the key set of base.py:92 (the dataclass fields present in the data, minus `hold_keys`), used as the reference for `UpdateFields` and `GetFromUrl`; it is a definition, not a proved property. |
| Objects.FieldAssign | acme_isolator/acme/objects/base.py:94-97 | A key the class declares as an attribute goes through `AttrAssign`. Any other key is stored as given. `UpdateFields` is proved to write this result for every key, and `InitAssign` is proved equal to it except on plain class attributes. |
| Objects.UpdateFields | acme_isolator/acme/objects/base.py:85-97 | Keys outside that set, `url` and `parent` among them, never change. On success every written key holds what its assignment makes of it. A failure is the error of one of the keys. |
| Objects.WithOrigin | acme_isolator/acme/objects/base.py:75 | The reply data gains "parent" and "url", set to the parent and to the `url` argument exactly as the caller passed it: a plain `str` from a direct call, the URL-class element from `request_element`. |
| Objects.Registry.constructor | acme_isolator/acme/objects/base.py:24 | The register maps each URL to a resource with that URL. |
| Objects.InitAssign | acme_isolator/acme/objects/base.py:80 | The generated `__init__` of `cls(**data)` assigns a field as `update_fields` does, except that a plain class attribute does not refuse the value: it is stored, where `update_fields` raises AttributeError. |
| Objects.InitFields | acme_isolator/acme/objects/base.py:80 | The `__init__` assignments leave every key outside `UpdateKeys` unchanged. On success each such key holds what `InitAssign` makes of it. A failure is the error of one of the keys. |
| Objects.GetFromUrl | acme_isolator/acme/objects/base.py:63-81 | A status other than the class's return code raises AssertionError. A reply body that is not a dict raises AttributeError. A URL the register holds yields that very instance, updated as `update_fields` updates it. The update succeeds exactly when every written key's `FieldAssign` succeeds (`UpdateSucceeds`). On success every written key holds its `FieldAssign` result and every other key is unchanged, or the error is that of one written key, and then every written key either is unchanged or holds its `FieldAssign` result while every other key is unchanged. Any other URL yields a new instance with the given `url` and `parent`; its "url" slot holds the argument as passed. Its construction succeeds exactly when every reply key is a parameter of the generated `__init__` (`Schema.initParams`: the fields not declared `init=False`, plus the `InitVar`s), every required parameter is present and every key's `InitAssign` succeeds, and each key then holds its `InitAssign` result. Unknown or missing keys raise TypeError. The hold keys of registered instances never change. |
| ElementLists.IndexOfUrl | acme_isolator/acme/objects/base.py:146-152 | The scan returns the first position holding the URL, and None exactly when the URL is absent. |
| ElementLists.LookupUrl | acme_isolator/acme/objects/base.py:141-145 | The URL compared for an accepted value: a str, the content class's URL-class instance, or a resource of the content class. Every other value gives None, which `Find`, `Added` and `Removed` turn into TypeError. |
| ElementLists.Find | acme_isolator/acme/objects/base.py:132-152 | `__find_element` gives TypeError for a value of another type, and otherwise the first position holding its URL (`IndexOfUrl`). `ElementList.FindElement` is proved to compute it. |
| ElementLists.Added | acme_isolator/acme/objects/base.py:164-189 | The intended `add`. The lemmas prove that a successful add keeps the URLs distinct (`AddKeepsDistinct`). After it the URL is present, and the length grows by one exactly when the URL was absent (`AddMembership`). A resource replaces its URL-class entry, and a resolved duplicate raises NotImplementedError (`AddUpgradesInPlace`). |
| ElementLists.AddAsWritten | acme_isolator/acme/objects/base.py:164-189 | `add` as written. `AddAsWrittenRejectsPresentUrl` proves it agrees with `Added` except on a str or URL-class value whose URL is present, where it raises ValueError instead of changing nothing. |
| ElementLists.Removed | acme_isolator/acme/objects/base.py:191-196 | `remove`. A value of another type raises TypeError and an absent URL raises KeyError (`RemoveAbsent`). Otherwise exactly the entry with that URL is deleted and the other URLs stay in order (`RemoveDeletesExactlyOne`). |
| ElementLists.RemoveAt | acme_isolator/acme/objects/base.py:194 | `del` removes one position: the length drops by one and exactly that URL leaves the multiset of URLs. |
| ElementLists.AddAsWrittenRejectsPresentUrl | acme_isolator/acme/objects/base.py:186-189 | Re-adding a present URL as a string is a no-op as intended but raises ValueError as written. On every other input the two agree. |
| ElementLists.AddTwiceExample | acme_isolator/acme/objects/base.py:172-189 | Adding the same URL string twice: the second call changes nothing as intended and raises ValueError as written. |
| ElementLists.AddKeepsDistinct | acme_isolator/acme/objects/base.py:164-189 | `add` keeps every URL in the list at most once. |
| ElementLists.AddMembership | acme_isolator/acme/objects/base.py:172-183 | After `add` the URL is present. The length grows by one for a new URL and stays the same otherwise. |
| ElementLists.AddUpgradesInPlace | acme_isolator/acme/objects/base.py:179-185 | A resource whose URL is held as a URL-class string replaces it: same length, same URLs, the string gone. One already held as a resource raises NotImplementedError. |
| ElementLists.UpgradeKeepsUrls | acme_isolator/acme/objects/base.py:182-183 | Deleting the URL-class string and appending the resource keeps the multiset of URLs. |
| ElementLists.UpgradeDropsUrl | acme_isolator/acme/objects/base.py:182-183 | After the upgrade no URL-class string with that URL remains. |
| ElementLists.Discarded | acme_isolator/acme/objects/base.py:198-202 | `discard` is `remove` with KeyError turned into no change. |
| ElementLists.RemoveDeletesExactlyOne | acme_isolator/acme/objects/base.py:191-194 | `remove` deletes exactly the member with the URL: the length drops by one, the URL is gone, every other URL stays in order. |
| ElementLists.RemoveAbsent | acme_isolator/acme/objects/base.py:191-202 | An absent URL: `remove` raises KeyError and `discard` changes nothing. |
| ElementLists.ResolvedPart | acme_isolator/acme/objects/base.py:225-227 | The resolved members kept by `request_all_elements` all come from the list. |
| ElementLists.UnresolvedUrls | acme_isolator/acme/objects/base.py:228-229 | One URL to fetch for each member that is not resolved. |
| ElementLists.PartitionKeepsUrls | acme_isolator/acme/objects/base.py:222-231 | Splitting the list into resolved members and URLs to fetch keeps the multiset of URLs. |
| ElementLists.ElementList.constructor | acme_isolator/acme/objects/base.py:118-120 | A new list is empty and has no repeated URL. |
| ElementLists.ElementList.FindElement | acme_isolator/acme/objects/base.py:132-152 | The index loop finds the first member with the URL; a value of another type raises TypeError. |
| ElementLists.ElementList.Contains | acme_isolator/acme/objects/base.py:155-156 | Membership is decided by URL; a value of another type raises TypeError. |
| ElementLists.ElementList.Length | acme_isolator/acme/objects/base.py:161-162 | The length is the number of members. |
| ElementLists.ElementList.Add | acme_isolator/acme/objects/base.py:164-189 | The list becomes what `Added` gives, with no repeated URL; on an error it is unchanged. |
| ElementLists.ElementList.AddAll | acme_isolator/acme/objects/base.py:128-130 | `__post_init__` adds the items in order and stops at the first error. |
| ElementLists.ElementList.Remove | acme_isolator/acme/objects/base.py:191-196 | The list becomes what `Removed` gives; on an error it is unchanged. |
| ElementLists.ElementList.Discard | acme_isolator/acme/objects/base.py:198-202 | The list becomes what `Discarded` gives. |
| ElementLists.ElementList.RequestAllElements | acme_isolator/acme/objects/base.py:218-231 | The operation succeeds exactly when the fetch of every unresolved URL succeeds (`AllSucceed`, with the dictionaries the resources held before). On success the resolved members come first, in order. They are followed by one fetched resource per unresolved URL, carrying those URLs in order. The length is unchanged and no URL repeats. A registered URL yields the registered instance. A URL the register does not hold yields a new resource of the content class, with the list's schema and parent and the dictionary `cls(**data)` builds from its reply (`NewOfContent`, `BuiltFrom`). A failure leaves the list as it was. Registered resources whose URL was not fetched keep their whole dictionary, no hold key of any registered resource changes, and on success each fetched registered resource holds its reply as `update_fields` writes it (`Evolved`). |
| ElementLists.ElementList.FetchAll | acme_isolator/acme/objects/base.py:229-230 | `gather` over distinct URLs: the first URL is fetched, then the rest, and the first failure stops it. It succeeds exactly when every URL's fetch succeeds (`AllSucceed`). On success there is one resource per URL, in order, carrying that URL. A registered URL yields the registered instance, and any other URL a new resource of the content class built from its reply. Registered resources outside the URLs keep their dictionary, hold keys never change, and on success each fetched registered resource holds its reply as `update_fields` writes it (`Evolved`). |
| ElementLists.ElementList.RequestElement | acme_isolator/acme/objects/base.py:207-216 | `request_element` fetches one URL through `get_from_url` with the list's content class and parent, passing the URL-class element itself as `url`, so the reply data's "url" is that URL-class string. A status other than the class's return code raises AssertionError, and a body that is not a dict raises AttributeError. It succeeds exactly when `FetchSucceeds`: for a registered URL every written key's `FieldAssign` succeeds, and for any other URL every reply key is an `__init__` parameter, every required one is present and every `InitAssign` succeeds. A result carries that URL. For a registered URL it is the registered instance, updated from the reply, with its hold keys unchanged. For any other URL it is a new resource of the content class with the list's schema and parent, holding what `cls(**data)` builds from the reply. |
| ElementLists.ElementList.AllSucceedEach | acme_isolator/acme/objects/base.py:229-230 | All the fetches of `gather` succeed (`AllSucceed`, defined by recursion) exactly when the fetch of each URL, taken by index, succeeds. |
| Objects.UpdateOutcome | acme_isolator/acme/objects/base.py:90-95 | An update that ends in `UpdatedDict` had every written key's `FieldAssign` succeed, and an update that fails on a key did not. |
| ElementLists.FetchedUrls | acme_isolator/acme/objects/base.py:231 | The fetched resources have exactly the URLs that were fetched. |
| ElementLists.AddAllStrings | acme_isolator/acme/objects/base.py:128-130 | A list built from plain URL strings succeeds and holds every URL once. |
| ElementLists.AddAllKeepsMembers | acme_isolator/acme/objects/base.py:128-130 | Adding items never drops a URL already present. |
| ElementLists.AddKeepsMembers | acme_isolator/acme/objects/base.py:164-189 | A successful `add` keeps every URL already present. |
| Problems.ClassOfSuffix | acme_isolator/acme/objects/exceptions.py:51-168 | Each declared `type` suffix names one subclass, never the base class. |
| Problems.Description | acme_isolator/acme/objects/exceptions.py:51-168 | The `description` of each subclass, and None for the base class. `Notes` adds it as the third note exactly when it is present. |
| Problems.TypeOf | acme_isolator/acme/objects/exceptions.py:11-35 | The base class's type is the prefix, and `__init_subclass__` turns a subclass's suffix into prefix, ":", suffix. `TypeOfShape` and `TypeOfInjective` prove that the suffix can be read back and that distinct classes get distinct types. |
| Problems.SuffixesDistinct | acme_isolator/acme/objects/exceptions.py:51-168 | The suffixes are pairwise distinct: each suffix leads back to its own class. |
| Problems.TypeOfShape | acme_isolator/acme/objects/exceptions.py:33-36 | Every problem type starts with "urn:ietf:params:acme:error"; a subclass's is that prefix, ":" and its suffix. |
| Problems.TypeOfInjective | acme_isolator/acme/objects/exceptions.py:33-36 | Distinct classes have distinct problem types. |
| Problems.Register | acme_isolator/acme/objects/exceptions.py:33-36 | The registry maps each registered class's type to that class and holds nothing else. |
| Problems.RegisterSubclasses | acme_isolator/acme/objects/exceptions.py:33-168 | After the subclass statements each subclass is found under its own type, no registration is overwritten, and the bare prefix is not a key. |
| Problems.Make | acme_isolator/acme/objects/exceptions.py:17-31 | A built exception requires a dict with "detail". It keeps its class, the detail, the type field, the identifier (None when absent) and the notes. It has subproblems exactly when the document has "subproblems". |
| Problems.TypeField | acme_isolator/acme/objects/exceptions.py:18-19 | An instance's `type`: the document's "type" (default the prefix) for the base class, and the class's own type for a subclass. `Make` is proved to store it, and `TypeComesFromClass` states the two cases. |
| Problems.NoteOf | acme_isolator/acme/objects/exceptions.py:23-28 | `add_note` accepts a string and raises TypeError for anything else. `Notes` is proved to succeed only with a string detail, which becomes the second note. |
| Problems.Init | acme_isolator/acme/objects/exceptions.py:17-31 | The intended constructor. `DetailRequired` proves that a missing "detail" raises KeyError, `TypeComesFromClass` fixes the type, and `SubproblemsInOrder` proves that the subproblems are built in input order. |
| Problems.InitAsWritten | acme_isolator/acme/objects/exceptions.py:17-31 | The constructor as written. `description` is only annotated, so reading it on the base class raises AttributeError. `BaseAsWrittenFails` proves this for every base-class document with a string detail. `CompoundAsWrittenFailsAll` proves it for every subclass document whose own notes succeed and whose first subproblem is a dict with a string detail; `CompoundAsWrittenFails` is one such document. Other compound documents can fail as written with other errors: ValueError for an empty list, KeyError for a subproblem without "detail". |
| Problems.Notes | acme_isolator/acme/objects/exceptions.py:23-28 | Notes in order: "problem type: " and the type, then the detail, then the description when there is one, then the identifier when it is not None. As written the base class raises AttributeError. |
| Problems.Grouped | acme_isolator/acme/objects/exceptions.py:29-31 | The cause groups a non-empty list of subproblems; an empty one raises ValueError. |
| Problems.Subproblems | acme_isolator/acme/objects/exceptions.py:30 | One base-class problem per list entry, in input order. |
| Problems.MakeAll | acme_isolator/acme/objects/exceptions.py:30 | Entry `j` of the result is the problem built from entry `j` of the list. |
| Problems.TypeComesFromClass | acme_isolator/acme/objects/exceptions.py:18-19 | Only the base class reads "type" from the document, defaulting to the prefix; a subclass keeps its own type. |
| Problems.DetailRequired | acme_isolator/acme/objects/exceptions.py:20 | A document without "detail" raises KeyError. |
| Problems.SubproblemsInOrder | acme_isolator/acme/objects/exceptions.py:29-31 | The subproblems are the entries of "subproblems", each built as a base-class problem, in input order. |
| Problems.BaseAsWrittenFails | acme_isolator/acme/objects/exceptions.py:25 | As written, building the base class from a document with a string detail raises AttributeError. |
| Problems.CompoundAsWrittenFailsAll | acme_isolator/acme/objects/exceptions.py:25-31 | As written, a subclass document with a string detail, a string or absent identifier, and a first subproblem that is a dict with a string detail raises AttributeError. |
| Problems.CompoundAsWrittenFails | acme_isolator/acme/objects/exceptions.py:29-31 | A compound problem with one subproblem raises AttributeError as written and builds as intended. |
| Problems.UnexpectedMessage | acme_isolator/acme/objects/exceptions.py:174-183 | The message is the status prefix and ": msg". Without `msg` it is the prefix and ": " and the response JSON. With neither there is no message. |
| Problems.UnexpectedPrefix | acme_isolator/acme/objects/exceptions.py:178 | The prefix "Unexpected Response (status: ", the decimal code, and ")". `UnexpectedMessageNamesStatus` proves that every message starts with it. |
| Problems.UnexpectedMessageNamesStatus | acme_isolator/acme/objects/exceptions.py:178-183 | Every message starts with "Unexpected Response (status: ", the decimal status code and ")". |
| Directories.Arguments | acme_isolator/acme/objects/directory.py:45-46 | Construction uses exactly the JSON keys that are class fields or "meta", with their values. |
| Directories.ArgumentsIgnoreOtherKeys | acme_isolator/acme/objects/directory.py:45-46 | Adding or removing any other top-level key changes nothing. |
| Directories.WebsiteFrom | acme_isolator/acme/objects/directory.py:24-26 | `website` is taken from meta["website"] exactly when meta is a dict with that key. It is left as it was exactly for None, a dict without the key, a string without the substring "website" and a list without that element. Every other meta raises TypeError. |
| Directories.NotNone | acme_isolator/acme/objects/directory.py:29 | Exactly the pairs whose value is not None are kept. |
| Directories.NotNoneAppend | acme_isolator/acme/objects/directory.py:29 | The filter keeps order: the kept pairs of a concatenation are those of the first part followed by those of the second. |
| Directories.EndpointsInOrder | acme_isolator/acme/objects/directory.py:14-29 | Iteration yields the endpoints in the order the instance dictionary holds them (newNonce, newAccount, newOrder, revokeCert, keyChange, newAuthz), each once, exactly when its value is not None. |
| Directories.Directory.constructor | acme_isolator/acme/objects/directory.py:14-22 | The directory holds the endpoint URLs, `website` and `parent` as given. |
| Directories.Directory.Endpoints | acme_isolator/acme/objects/directory.py:28-29 | Iteration yields exactly the (name, url) pairs of the six endpoint names whose URL is not None. |
| Directories.Directory.Endpoint | acme_isolator/acme/objects/directory.py:29 | The value of a named endpoint field. `Endpoints` is proved to yield the pair (name, `Endpoint(name)`) exactly for the names whose value is not None. |
| Directories.Directory.PostInit | acme_isolator/acme/objects/directory.py:24-26 | `website` is set from meta as `WebsiteFrom` says. |
| Directories.GetDirectory | acme_isolator/acme/objects/directory.py:32-46 | A status other than 200 raises the unexpected-response error with the directory message. Success happens exactly for a dict with the required keys, no "url" key and a `meta` that `__post_init__` accepts. The fields then equal the JSON values; `newAuthz` defaults to None, and `website` to "" unless meta supplies it. |
| Directories.NoNewAuthzWithoutKey | acme_isolator/acme/objects/directory.py:21-29 | Without "newAuthz" in the reply, iteration never yields it and yields at most five endpoints. |
| Directories.NotNoneDropsLast | acme_isolator/acme/objects/directory.py:29 | When the last pair's value is None, the filter keeps at most one pair fewer than it is given. |
| Base64.Padded | acme_isolator/acme/request/jws.py:21 | `urlsafe_b64encode` text has a length that is a multiple of 4 and holds only alphabet characters and "=". |
| Base64.Unpadded | acme_isolator/acme/request/jws.py:21 | The unpadded text is in the base64url alphabet and ceil(4n/3) characters long. |
| Base64.EncodeIsUnpadded | acme_isolator/acme/request/jws.py:20-21 | `_encode` is the unpadded base64url text of section 2 of RFC 7515: alphabet only, no "=", ceil(4n/3) characters. |
| Base64.Encode | acme_isolator/acme/request/jws.py:20-21 | `_encode`: the padded text with "=" stripped. `EncodeIsUnpadded` proves that it is the unpadded base64url text, and `DecodeEncode` proves that decoding gives the octets back. |
| Base64.DecodeEncode | acme_isolator/acme/request/jws.py:20-21 | Round trip: decoding undoes `_encode`. |
| Base64.UnpaddedRoundTrip | acme_isolator/acme/request/jws.py:21 | Decoding undoes the unpadded encoding, group by group. |
| Base64.Ascii | acme_isolator/acme/request/jws.py:29 | `.encode("ascii")` gives one octet per character, equal to its code. |
| Jws.BigEndian | acme_isolator/acme/request/jws.py:51-52 | `k` octets whose big-endian value is the number. |
| Jws.ToBytes32 | acme_isolator/acme/request/jws.py:51-52 | `to_bytes(32, "big")` raises OverflowError exactly outside [0, 2^256), and otherwise gives 32 octets whose value is the number. |
| Jws.Dumps | acme_isolator/acme/request/jws.py:24 | `json.dumps` succeeds exactly on the values it can serialise (`Serializable`: JSON data in which any `str` instance, a URL-class string included, counts as a string) and raises TypeError otherwise. |
| Values.JsonIsSerializable | acme_isolator/acme/request/jws.py:24 | Everything `json.loads` can produce, `json.dumps` accepts. |
| Jws.JwkAsWritten | acme_isolator/acme/request/jws.py:48-52 | As written, the JWK exists exactly when both coordinates fit in 32 octets (`to_bytes` raises OverflowError otherwise); "crv" is "P-256", and `x` and `y` are bytes, so `dumps` refuses the JWK. |
| Jws.Coordinate | acme_isolator/acme/request/jws.py:51-52 | A coordinate encodes exactly when it fits in 32 octets. The base64url text then decodes to exactly the 32 octets `to_bytes(32, "big")` gives, whose big-endian value is the coordinate (section 6.2.1.2 of RFC 7518). |
| Jws.Jwk | acme_isolator/acme/request/jws.py:48-52 | The JWK exists exactly when both coordinates fit in 32 octets. It is JSON with exactly "crv", "x" and "y"; "crv" is "P-256", and "x"/"y" each decode to 32 octets whose big-endian value is the coordinate. |
| Jws.KeyObject | acme_isolator/acme/request/jws.py:50-52 | The key object holds the curve and the two encoded coordinates. |
| Jws.AlgOrDefault | acme_isolator/acme/request/jws.py:17 | An omitted `alg` is "ES256"; a given one is kept. |
| Jws.NewJwsJwk | acme_isolator/acme/request/jws.py:44-52 | A `JwsJwk` keeps its nonce, URL and payload, and its header's "alg" is "ES256" when no `alg` is given. Construction succeeds exactly when both public coordinates fit in 32 octets, as written and as intended. The stored `jwk` is the one `__post_init__` computes from the key's public numbers: `Jwk(x, y)`, which is JSON data, or as written `JwkAsWritten(x, y)`, which `dumps` refuses. |
| Jws.NewJwsKid | acme_isolator/acme/request/jws.py:59-66 | A `JwsKid` keeps its nonce, URL and payload; its header's "alg" is "ES256" and its "kid" is None when those are omitted, and a given `kid` is kept. |
| Jws.CreateHeaders | acme_isolator/acme/request/jws.py:39-67 | The header has "alg", "nonce" and "url" equal to the builder's fields, plus exactly one of "jwk" and "kid". |
| Jws.CreatePayload | acme_isolator/acme/request/jws.py:33-37 | Bytes pass unchanged; anything else is serialised as JSON. |
| Jws.PayloadSegment | acme_isolator/acme/request/jws.py:25-28 | The payload segment is "" for None (POST-as-GET, section 6.3 of RFC 8555). Bytes are encoded as they are. Any other payload succeeds exactly when `dumps` accepts it (`Serializable`, URL-class strings included), and is then the base64url of its JSON text. Any segment is base64url text, and for a payload that is not None it decodes back to `create_payload()`. |
| Jws.SigningInput | acme_isolator/acme/request/jws.py:29 | The signing input is the ASCII of the header, ".", then the payload. |
| Jws.Build | acme_isolator/acme/request/jws.py:23-31 | On success the output is the JSON of the envelope, whose header and payload are the segments signed; every failure is TypeError. |
| Jws.Envelope | acme_isolator/acme/request/jws.py:31 | The dictionary `build` serialises: "protected", "payload" and "signature". `EnvelopeIsJson` proves that it is JSON data once the signature is base64url text. As written, the signature is bytes. |
| Jws.EnvelopeIsJson | acme_isolator/acme/request/jws.py:31 | With the signature as base64url text, the envelope's three entries are strings, so `dumps` accepts it. |
| Jws.HeadersSerializable | acme_isolator/acme/request/jws.py:24 | When `dumps` accepts the JWK, or the `kid` is None or any string (a URL-class account URL included), `dumps` accepts the header dictionary. |
| Jws.BuildAsWrittenFails | acme_isolator/acme/request/jws.py:30-31 | As written, `build` always raises TypeError. |
| Jws.JwkAsWrittenHeaderFails | acme_isolator/acme/request/jws.py:24 | A header carrying a JWK that `dumps` refuses, as the as-written one is, is refused too. |
| Jws.BuildSucceeds | acme_isolator/acme/request/jws.py:23-31 | With base64url text for the key and the signature, a JWS whose payload `dumps` accepts, or bytes, and whose `kid` is None or any string, builds. |
| Nonces.AfterEnter | acme_isolator/acme/request/nonce.py:21-24 | Entering sets `initialized` and leaves the queue and the fetches. |
| Nonces.AfterExit | acme_isolator/acme/request/nonce.py:26-31 | Exiting cancels every fetch, leaves the queue and clears `initialized`. |
| Nonces.AfterPut | acme_isolator/acme/request/nonce.py:48-49 | `put_nonce` appends at the back of the queue. |
| Nonces.AfterRequest | acme_isolator/acme/request/nonce.py:45-46 | `_request_nonce` adds exactly one new fetch. |
| Nonces.AfterGet | acme_isolator/acme/request/nonce.py:51-59 | `get_nonce` raises AssertionError outside the block. Otherwise it returns the front nonce and removes it. On an empty queue it schedules one fetch and suspends. |
| Nonces.AfterResume | acme_isolator/acme/request/nonce.py:57 | A suspended `get_nonce` receives the front nonce as soon as one is queued. |
| Nonces.AfterFetch | acme_isolator/acme/request/nonce.py:33-43 | Status 200 enqueues the `Replay-Nonce` header; another status raises ConnectionError and enqueues nothing. The fetch always leaves `tasks`. |
| Nonces.AfterCancel | acme_isolator/acme/request/nonce.py:40-43 | A cancelled fetch enqueues nothing and leaves `tasks`. |
| Nonces.Scheduled | acme_isolator/acme/request/nonce.py:64 | `k` requests add `k` distinct new fetches and change nothing else. |
| Nonces.AfterRefill | acme_isolator/acme/request/nonce.py:61-64 | Refill schedules 10 fetches only inside the block with no fetch in flight and an empty queue; otherwise it changes nothing. |
| Nonces.PutAllAppends | acme_isolator/acme/request/nonce.py:48-49 | Successive puts append in order. |
| Nonces.DrainFrontFirst | acme_isolator/acme/request/nonce.py:51-54 | Successive gets return queued nonces front first, one per call. |
| Nonces.FifoOrder | acme_isolator/acme/request/nonce.py:48-54 | FIFO: nonces come back after those already queued, in the order they were put, each exactly once. |
| Nonces.EmptyGetWaitsForFetch | acme_isolator/acme/request/nonce.py:55-57 | On an empty queue, `get_nonce` schedules exactly one fetch, and the suspended call receives that fetch's nonce. |
| Nonces.FailedFetchLeavesWaiter | acme_isolator/acme/request/nonce.py:36-39 | A failed fetch raises ConnectionError and the waiter stays suspended. |
| Nonces.AnsweredQueues | acme_isolator/acme/request/nonce.py:36-37 | Answered fetches queue their nonces in answer order and leave `tasks`. |
| Nonces.ContextScenario | tests/acme/test_nonce.py:42-52 | Enter, refill and ten answered fetches queue ten nonces; `get_nonce` returns the first and leaves nine; exit clears the flag. |
| Nonces.NonceManager.constructor | acme_isolator/acme/request/nonce.py:15-19 | A new manager has an empty queue, no fetch in flight, and `initialized` false. |
| Nonces.NonceManager.Enter | acme_isolator/acme/request/nonce.py:21-24 | The state becomes `AfterEnter` of the old state. |
| Nonces.NonceManager.Exit | acme_isolator/acme/request/nonce.py:26-31 | The state becomes `AfterExit` of the old state. |
| Nonces.NonceManager.PutNonce | acme_isolator/acme/request/nonce.py:48-49 | The state becomes `AfterPut` of the old state. |
| Nonces.NonceManager.RequestNonce | acme_isolator/acme/request/nonce.py:45-46 | The new fetch gets a fresh identifier; the state becomes `AfterRequest` of the old state. |
| Nonces.NonceManager.GetNonce | acme_isolator/acme/request/nonce.py:51-59 | The result and the new state are `AfterGet` of the old state. |
| Nonces.NonceManager.Resume | acme_isolator/acme/request/nonce.py:57 | The result and the new state are `AfterResume` of the old state. |
| Nonces.NonceManager.FetchDone | acme_isolator/acme/request/nonce.py:33-43 | The outcome and the new state are `AfterFetch` of the old state. |
| Nonces.NonceManager.FetchCancelled | acme_isolator/acme/request/nonce.py:40-43 | The outcome and the new state are `AfterCancel` of the old state. |
| Nonces.NonceManager.RefillTick | acme_isolator/acme/request/nonce.py:61-64 | One turn of the refill loop, whose request loop ends in `AfterRefill` of the old state. |

## Left out

- `ACME_Identifier` is declared as `class ACME_Identifier(ABC, ACME_Object)` (acme_isolator/acme/objects/identifier.py:7). `ABC` comes before its own subclass `ACME_Object`, so Python cannot build a method resolution order and the module would not import. The model assumes the class exists.
- `UnexpectedResponseException.convert_exception` returns the exception itself (acme_isolator/acme/objects/exceptions.py:185-186). The model therefore raises the unexpected-response error directly.
- `ACME_ProblemException.parse_problem` tests the literal key "type" and indexes with the builtin `type`, so it never dispatches. It is not modelled.
- Network access is replaced by inputs:
  - `account.post` is a `Reply` parameter;
  - the directory GET is the status and JSON parameters of `GetDirectory`;
  - the HEAD request of `_fetch_nonce` is the `FetchDone` parameters.
- `AcmeUrlBase.request_object`, `get_update` and `update_all_elements` are network refreshes without state of their own, so they are not modelled.
- Asynchronous scheduling is not modelled as such. Each step the event loop can take is a separate operation, and the order among them is the caller's:
  - `gather`, `Lock`, task creation and cancellation;
  - the order in which `request_all_elements` fetches;
  - the turns of `refill_loop`.
- A fetch task cancelled before it starts never reaches its `finally`, so it stays in `tasks`. `NonceManager.Exit` assumes every cancelled fetch removes itself. In that case `await gather(*self.tasks)` (acme_isolator/acme/request/nonce.py:30) also raises CancelledError, so `self.initialized = False` (line 31) never runs and the flag stays set; the model does not capture this.
- `NonceManager.GetNonce`: `queue.task_done()` in the `finally` of `get_nonce` is not modelled, and neither is cancelling a caller while it waits in `await self.queue.get()` (acme_isolator/acme/request/nonce.py:57). Such a cancellation reaches the `finally` with no nonce taken, and `task_done()` then raises ValueError in place of the CancelledError when no queued item is left unfinished. Without cancellation, `task_done()` only matters for `Queue.join`, which the client never calls.
- `Objects.Registry`: nothing in the client inserts into `_object_register`, so the register is given state.
- `ElementLists.ElementList.RequestAllElements` holds `list_lock` for the whole operation. The source enters that asyncio lock with a plain `with` (acme_isolator/acme/objects/base.py:222), which an asyncio lock does not support. The model follows the evident intent of holding it.
- `ElementList.__iter__` (acme_isolator/acme/objects/base.py:158-159) returns nothing, so the list cannot be iterated. It is not modelled.
- `Objects.GetFromUrl`: a new instance gets no value for the fields the reply omits, where the generated `__init__` would assign their dataclass defaults. Only plain fields can have a default: `dataclass` reads a default through the class attribute, and a descriptor's `__get__` (acme_isolator/acme/objects/descriptors/base.py:17-18) raises AttributeError when read from the class, so a descriptor-backed field is left without a default and a reply without it raises TypeError. `Values.ValidSchema` therefore requires every descriptor-backed field to be in `Schema.required`.
- `Descriptors.ListAssign`: the diagnostic `print` of the list class and the value's type (acme_isolator/acme/objects/descriptors/base.py:61) is console output only and is not modelled.
- `Identifiers.TypeTag`: `ACME_Identifier_DNS` is not decorated with `dataclass` (acme_isolator/acme/objects/identifier.py:23-24), so its `type` class attribute is the `Field` object and an instance never holds "dns". The model uses the declared default.
- An `ElementList` stored in a resource field is an opaque handle (`ListObject`). The model does not connect it to the `ElementList` class.
- `ElementLists.ElementList.AddAll`: `__post_init__` takes the items as a list. A None argument, which the annotation allows, would raise TypeError when iterated; this is not modelled.
- `ElementLists.ElementList.RequestAllElements`: `gather` runs the fetches concurrently, and the model runs them in list order. The first failing fetch stops the model's operation and leaves the list as it was. With `gather` the other fetches still run, and they may update registered resources. On failure the model states only that resources outside the fetched URLs and all hold keys are unchanged.
- The JSON text of a value, `str()` of a value and the ECDSA signature come from libraries. They are the parameters `serialize`, `dumps`, `render` and `sign`.
- The signature from `cryptography` is DER-encoded, while section 3.4 of RFC 7518 asks for the raw `r || s` octets. The model keeps the signature opaque.
- `Directories.GetDirectory` and `Directories.WebsiteFrom` require the reply to be JSON data. A reply body that is not JSON makes `resp.json` raise, and that case is not modelled.
- Floating-point JSON numbers are not part of `Value`.
- `session.py`, and the record-only modules `order.py`, `authorization.py`, `challenge.py`, `account.py` and `accounts.py`, are not part of this model.
- Python class machinery is replaced by explicit sum types (`Kind`, `ClassAttr`, `ProblemClass`). This covers `__init_subclass__` generating URL classes and `content_type`.

## Findings

| source | as written | input that shows it | evidently intended | confidence | as-written member | corrected member |
|---|---|---|---|---|---|---|
| acme_isolator/acme/objects/base.py:186 | `type(value) is url_class \| str` compares a type with a union object, which is never true, so re-adding a present URL string raises ValueError | `add("https://ca.example/order/1")` twice | a URL already present is accepted without change | not executed | ElementLists.AddTwiceExample | ElementLists.AddKeepsDistinct |
| acme_isolator/acme/objects/exceptions.py:25 | the base class only annotates `description`, so reading it raises AttributeError | `ACME_ProblemException({"detail": "x"})`, and any compound problem whose first subproblem is a dict with a string detail | the base class has no description (None) | not executed | Problems.CompoundAsWrittenFailsAll | Problems.SubproblemsInOrder |
| acme_isolator/acme/objects/identifier.py:17 | `ACME_Identifier_DNS(**identifier)` passes `type`, a field declared with `init=False`, so `parse` raises TypeError | `parse({"type": "dns", "value": "example.com"})` | a DNS identifier with that value | not executed | Identifiers.ParseAsWrittenNeverSucceeds | Identifiers.ParseToDict |
| acme_isolator/acme/objects/descriptors/base.py:54 | `return l` sits inside the `else` branch, so reading a list field that is already set returns None | reading the same list field twice | the stored list is returned | not executed | Descriptors.ListGetTwiceAsWritten | Descriptors.ListGetStable |
| acme_isolator/acme/request/jws.py:31 | the signature (and the JWK's `x`/`y`, lines 51-52) are bytes, which `json.dumps` rejects, so `build` always raises TypeError | any `JwsJwk(...).build()`, as in tests/acme/test_jws.py:21-22 | base64url text, as section 7.2.2 of RFC 7515 and section 6.2.1 of RFC 7518 require | not executed | Jws.BuildAsWrittenFails | Jws.BuildSucceeds |
