/** The client-side object model: field descriptors and the resource classes that
    own them (`tastypieclient/fields.py`, `tastypieclient/resources.py`; the file
    `tastypie-client/fields.py` is the same text). The two files call each other,
    so they share one module.

    A field descriptor is a `Field` whose `kind` stands for its Python subclass.
    Assigning to `instance.<name>` is `Field.Set`, reading it is `Field.Get` (or
    `Field.Resolve` for a deferred relation), and `del instance.<name>` is
    `Field.Delete`. A resource class is a `ResourceClass` built by the metaclass
    (its constructor); an instance is a `Resource` with the `__dict__` its fields
    write to. */
module Fields {
  import opened Wrappers
  import opened Json
  import opened Strings
  import opened Urls
  import opened Uuids
  import opened Subclasses
  import opened Network

  /** What `dateutil.parser.parse` returns. The parser itself is a parameter. */
  datatype DateTime = DateTime(year: int, month: int, day: int, hour: int, minute: int, second: int)

  /** The Python values that reach a field. */
  datatype Value =
    | Null
    | Bool(b: bool)
    | Int(i: int)
    | Str(s: string)
    | List(items: seq<Value>)
    | Dict(entries: map<string, Value>)
    | UuidVal(u: Uuid)
    | DateTimeVal(d: DateTime)
    | Deferreds(list: DeferredList)
    | Object(obj: Resource)

  /** `DeferredList(deferred_fields, instance, owner)`. */
  datatype DeferredList = DeferredList(fields: seq<Field>, instance: Resource, owner: Option<ResourceClass>)

  /** The value `json.loads` produces for a JSON document. */
  function FromJson(j: Json): Value {
    match j
    case JNull => Null
    case JBool(b) => Bool(b)
    case JInt(i) => Int(i)
    case JStr(s) => Str(s)
    case JArray(items) => List(seq(|items|, i requires 0 <= i < |items| => FromJson(items[i])))
    case JObject(members) => Dict(map k | k in members :: FromJson(members[k]))
  }

  /** The keyword arguments `**data` of a decoded JSON object. */
  function Kwargs(members: map<string, Json>): map<string, Value> {
    map k | k in members :: FromJson(members[k])
  }

  /** Python's `not v`. A `DeferredList` is falsy when it holds no field; UUIDs,
      datetimes and resource objects are always true. */
  predicate Falsy(v: Value) {
    match v
    case Null => true
    case Bool(b) => !b
    case Int(i) => i == 0
    case Str(s) => s == ""
    case List(items) => items == []
    case Dict(entries) => entries == map[]
    case Deferreds(list) => list.fields == []
    case _ => false
  }

  datatype Error =
    | NonNullable(field: string)        // "'<name>' on '<owner>' is non-nullable"
    | ReadOnly(field: string)           // "'<name>' on '<owner>' is read-only"
    | MissingAttribute(field: string)   // `__get__` with nothing stored
    | RequiredKwarg(field: string)      // "'<name>' is a required kwarg"
    | NotAUuid                          // "<v> cannot be converted to a UUID."
    | BadlyFormedUuid                   // raised by `uuid.UUID`
    | BadDateTime                       // "Cannot parse datetime <v>", or the parser's own error
    | NotAUrl                           // "DeferredFields should bet set as a URL"
    | NotAList                          // "ToManyFields must get a list"
    | IndexOutOfRange                   // `deferred_fields[index]`
    | FetchFailed(url: string)          // the request or the JSON decoding failed
    | NotAMapping                       // `**data` where data is not a JSON object
    | DuplicateBaseUrl                  // `base_url` given twice to the constructor
    | NoResourceClass                   // calling a `related_resource_class` of None
    | MissingListEndpoint(cls: string)  // a registered class without a string `list_endpoint`

  // ------------------------------------------------------------- value coercions

  function BoolText(b: bool): string {
    if b then "True" else "False"
  }

  /** `unicode(v)`. Exact for None, booleans, integers, strings and UUIDs; the
      text of the other values is a fixed stand-in. */
  function Text(v: Value): string {
    match v
    case Null => "None"
    case Bool(b) => BoolText(b)
    case Int(i) => IntToString(i)
    case Str(s) => s
    case UuidVal(u) => Format(u)
    case _ => "<object>"
  }

  /** `CharField.__set__` before the base checks: falsy becomes `''`, anything else
      its text. */
  function CharCoerce(v: Value): (r: Value)
    ensures r.Str?
    ensures Falsy(v) <==> r == Str("")
    ensures v.Str? ==> r == v
  {
    if Falsy(v) then Str("") else Str(Text(v))
  }

  /** `BooleanField.__set__` before the base checks, as written: every string, even
      "false", becomes True, because the assignment after the `'false'` test always
      runs. */
  function BooleanCoerce(v: Value): (r: Value)
    ensures r == Null <==> v == Null
    ensures r != Null ==> r.Bool?
  {
    if v.Str? then Bool(true)
    else if v == Null then Null
    else Bool(!Falsy(v))
  }

  /** `BooleanField.__set__` as its `'false'` test intends it. */
  function BooleanCoerceIntended(v: Value): (r: Value)
    ensures r == Null <==> v == Null
    ensures r != Null ==> r.Bool?
  {
    if v.Str? then Bool(Lower(v.s) != "false")
    else if v == Null then Null
    else Bool(!Falsy(v))
  }

  /** `UUIDField.__set__` before the base checks. */
  function UuidCoerce(v: Value): (r: Result<Value, Error>)
    ensures Falsy(v) || v.UuidVal? ==> r == Ok(v)
    ensures r.Ok? && !Falsy(v) ==> r.value.UuidVal?
    ensures !Falsy(v) && !v.UuidVal? && !v.Str? ==> r == Err(NotAUuid)
  {
    if Falsy(v) || v.UuidVal? then Ok(v)
    else if v.Str? then
      match Parse(v.s)
      case Some(u) => Ok(UuidVal(u))
      case None => Err(BadlyFormedUuid)
    else Err(NotAUuid)
  }

  /** A `UUIDField` given the text of a UUID stores that UUID. */
  lemma UuidOfText(u: Uuid)
    ensures UuidCoerce(Str(Format(u))) == Ok(UuidVal(u))
  {
    ParseFormat(u);
  }

  /** `DateTimeField.__set__` before the base checks: a true value must be a string
      the parser accepts; falsy values pass unchanged. */
  function DateTimeCoerce(v: Value, parseDate: string -> Option<DateTime>): (r: Result<Value, Error>)
    ensures Falsy(v) ==> r == Ok(v)
    ensures !Falsy(v) ==> (r.Ok? <==> v.Str? && parseDate(v.s).Some?)
    ensures r.Ok? && !Falsy(v) ==> r.value == DateTimeVal(parseDate(v.s).value)
  {
    if Falsy(v) then Ok(v)
    else if v.Str? then
      match parseDate(v.s)
      case Some(d) => Ok(DateTimeVal(d))
      case None => Err(BadDateTime)
    else Err(BadDateTime)
  }

  /** `DeferredField.__set__` before the base checks, as written: only strings, so
      None is rejected even for a nullable field. */
  function DeferredCoerce(v: Value): (r: Result<Value, Error>)
    ensures r.Ok? <==> v.Str?
    ensures r.Ok? ==> r.value == v
  {
    if v.Str? then Ok(v) else Err(NotAUrl)
  }

  /** `DeferredField.__set__` as a nullable relation intends it: None is left to
      the base nullable check. */
  function DeferredCoerceIntended(v: Value): (r: Result<Value, Error>)
    ensures r.Ok? <==> v.Str? || v == Null
    ensures r.Ok? ==> r.value == v
  {
    if v.Str? || v == Null then Ok(v) else Err(NotAUrl)
  }

  // ------------------------------------------------------ the base descriptor

  datatype Kind = Plain | Char | Boolean | UuidKind | DateTimeKind | Deferred | ToMany

  /** The keyword arguments of `Field.__init__`. */
  datatype Options = Options(blank: bool, nullable: bool, readonly: bool, unique: bool,
                             required: bool, helpText: string)

  const DefaultOptions := Options(false, false, false, false, false, "")

  /** `Field.__get__` on an instance dictionary. */
  function Lookup(name: string, dict: map<string, Value>): Result<Value, Error> {
    if name in dict then Ok(dict[name]) else Err(MissingAttribute(name))
  }

  /** The read-only guard: a value other than None is already stored. */
  predicate Locked(name: string, options: Options, dict: map<string, Value>) {
    options.readonly && name in dict && dict[name] != Null
  }

  /** `Field.__set__`: the nullable check, then the read-only check, then the write. */
  function Assign(name: string, options: Options, dict: map<string, Value>, v: Value): Result<map<string, Value>, Error> {
    if !options.nullable && v == Null then Err(NonNullable(name))
    else if Locked(name, options, dict) then Err(ReadOnly(name))
    else Ok(dict[name := v])
  }

  /** The conversion a field of each kind applies before the base checks, as the
      code is written. */
  function Coerce(kind: Kind, v: Value, parseDate: string -> Option<DateTime>): Result<Value, Error> {
    match kind
    case Plain => Ok(v)
    case Char => Ok(CharCoerce(v))
    case Boolean => Ok(BooleanCoerce(v))
    case UuidKind => UuidCoerce(v)
    case DateTimeKind => DateTimeCoerce(v, parseDate)
    case Deferred => DeferredCoerce(v)
    case ToMany => Ok(v)
  }

  /** The new instance dictionary after `instance.<name> = v`, for every kind but
      `ToMany`. */
  function SetResult(kind: Kind, name: string, options: Options, dict: map<string, Value>, v: Value,
                     parseDate: string -> Option<DateTime>): Result<map<string, Value>, Error> {
    match Coerce(kind, v, parseDate)
    case Ok(c) => Assign(name, options, dict, c)
    case Err(e) => Err(e)
  }

  /** How an outcome and a new dictionary follow from a computed result. */
  predicate Applied(res: Result<map<string, Value>, Error>, before: map<string, Value>,
                    after: map<string, Value>, r: Outcome<Error>) {
    match res
    case Ok(d) => after == d && r == Pass
    case Err(e) => after == before && r == Fail(e)
  }

  /** Only `name` and private (`_`-prefixed) keys may have changed. */
  ghost predicate KeepsOthers(before: map<string, Value>, after: map<string, Value>, name: string) {
    forall k :: k != name && !StartsWith(k, "_") ==>
      (k in after <==> k in before) && (k in before ==> after[k] == before[k])
  }

  /** What a successful assignment of `v` leaves under the field's name. */
  predicate Stored(kind: Kind, v: Value, stored: Value, parseDate: string -> Option<DateTime>) {
    if kind == ToMany then
      if Falsy(v) then stored == v
      else (stored.Deferreds? &&
            (v.List? ==> |stored.list.fields| == |v.items|) && (!v.List? ==> stored.list.fields == []))
    else Coerce(kind, v, parseDate) == Ok(stored)
  }

  /** A field that is not nullable refuses None and the instance keeps its value. */
  lemma NonNullableRejectsNone(name: string, options: Options, dict: map<string, Value>)
    requires !options.nullable
    ensures Assign(name, options, dict, Null) == Err(NonNullable(name))
  {
  }

  /** A read-only field accepts an assignment while it holds nothing or None,
      whenever the nullable check lets the value through. */
  lemma ReadOnlyFirstAssignment(name: string, options: Options, dict: map<string, Value>, v: Value)
    requires options.readonly && (name !in dict || dict[name] == Null)
    requires options.nullable || v != Null
    ensures Assign(name, options, dict, v) == Ok(dict[name := v])
  {
  }

  /** A read-only field takes one value other than None and refuses every later one. */
  lemma ReadOnlySetOnce(name: string, options: Options, dict: map<string, Value>, v: Value, w: Value)
    requires options.readonly && v != Null
    requires Assign(name, options, dict, v).Ok?
    ensures Assign(name, options, Assign(name, options, dict, v).value, w).Err?
  {
  }

  /** An accepted value reads back as written, and every other key keeps its value. */
  lemma AssignThenLookup(name: string, options: Options, dict: map<string, Value>, v: Value)
    requires Assign(name, options, dict, v).Ok?
    ensures Lookup(name, Assign(name, options, dict, v).value) == Ok(v)
    ensures forall k :: k in dict && k != name ==> Assign(name, options, dict, v).value[k] == dict[k]
  {
  }

  /** A `CharField` never holds None: a falsy value becomes the empty string, so the
      nullable check never refuses it. */
  lemma CharNeverNull(name: string, options: Options, dict: map<string, Value>, v: Value,
                      parseDate: string -> Option<DateTime>)
    ensures SetResult(Char, name, options, dict, v, parseDate) != Err(NonNullable(name))
    ensures SetResult(Char, name, options, dict, v, parseDate).Ok? ==>
      SetResult(Char, name, options, dict, v, parseDate).value[name].Str?
  {
  }

  /** As written, `BooleanField` stores True for every string, "false" in any case
      included. */
  lemma BooleanFalseTextIsTrue(name: string, options: Options, dict: map<string, Value>, s: string,
                               parseDate: string -> Option<DateTime>)
    ensures BooleanCoerce(Str(s)) == Bool(true)
    ensures !Locked(name, options, dict) ==>
      SetResult(Boolean, name, options, dict, Str(s), parseDate) == Ok(dict[name := Bool(true)])
  {
  }

  /** The lower case of the spellings a boolean field is given. */
  lemma LowerOfFalse()
    ensures Lower("false") == "false" && Lower("False") == "false" && Lower("FALSE") == "false"
    ensures Lower("true") == "true"
  {
    LowerOfLowerCase("false");
    LowerOfLowerCase("true");
    assert Lower("False") == "false" by {
      assert forall i :: 0 <= i < 5 ==> Lower("False")[i] == "false"[i];
    }
    assert Lower("FALSE") == "false" by {
      assert forall i :: 0 <= i < 5 ==> Lower("FALSE")[i] == "false"[i];
    }
  }

  /** As intended, "false" in any case is False, other strings are True, and every
      value that is not a string is treated as written. */
  lemma BooleanFalseTextIsFalse(v: Value)
    ensures BooleanCoerceIntended(Str("false")) == Bool(false)
    ensures BooleanCoerceIntended(Str("False")) == Bool(false)
    ensures BooleanCoerceIntended(Str("FALSE")) == Bool(false)
    ensures BooleanCoerceIntended(Str("true")) == Bool(true)
    ensures v.Str? ==> (BooleanCoerceIntended(v) == Bool(false) <==> Lower(v.s) == "false")
    ensures v.Str? ==> BooleanCoerceIntended(v).Bool?
    ensures !v.Str? ==> BooleanCoerceIntended(v) == BooleanCoerce(v)
  {
    LowerOfFalse();
  }

  /** As written, a relation refuses None whatever its options: an instance whose
      to-one relation is null, or absent from the keyword arguments, cannot be built. */
  lemma RelationRejectsNone(name: string, options: Options, dict: map<string, Value>,
                            parseDate: string -> Option<DateTime>)
    ensures DeferredCoerce(Null) == Err(NotAUrl)
    ensures SetResult(Deferred, name, options, dict, Null, parseDate) == Err(NotAUrl)
  {
  }

  /** `DeferredField.__set__` as a nullable relation intends it: the conversion lets
      None through to the base checks. */
  function DeferredAssignIntended(name: string, options: Options, dict: map<string, Value>, v: Value)
    : Result<map<string, Value>, Error>
  {
    match DeferredCoerceIntended(v)
    case Ok(c) => Assign(name, options, dict, c)
    case Err(e) => Err(e)
  }

  /** As intended, None on a relation is decided by its nullable option alone, and a
      URL is treated as written. */
  lemma RelationNullable(name: string, options: Options, dict: map<string, Value>, v: Value,
                         parseDate: string -> Option<DateTime>)
    ensures options.nullable && !Locked(name, options, dict) ==>
      DeferredAssignIntended(name, options, dict, Null) == Ok(dict[name := Null])
    ensures !options.nullable ==> DeferredAssignIntended(name, options, dict, Null) == Err(NonNullable(name))
    ensures v != Null ==> DeferredAssignIntended(name, options, dict, v) == SetResult(Deferred, name, options, dict, v, parseDate)
  {
  }

  // ---------------------------------------------------------- relation keys

  /** `"_deferred_%s_%s" % (name, i)`: where `ToManyField` stores URL number i. */
  function DeferredKey(name: string, i: nat): (k: string)
    ensures StartsWith(k, "_")
  {
    "_deferred_" + name + "_" + NatToString(i)
  }

  lemma DeferredKeyInjective(name: string, i: nat, j: nat)
    requires DeferredKey(name, i) == DeferredKey(name, j)
    ensures i == j
  {
    var p := "_deferred_" + name + "_";
    assert DeferredKey(name, i)[|p|..] == NatToString(i);
    assert DeferredKey(name, j)[|p|..] == NatToString(j);
    NatToStringInjective(i, j);
  }

  /** The instance dictionary after the first n URLs of a list are stored. */
  function WriteUrls(name: string, dict: map<string, Value>, items: seq<Value>, n: nat): map<string, Value>
    requires n <= |items|
  {
    if n == 0 then dict else WriteUrls(name, dict, items, n - 1)[DeferredKey(name, n - 1) := items[n - 1]]
  }

  /** URL i is stored under `_deferred_<name>_<i>`. */
  lemma {:induction false} WriteUrlsStores(name: string, dict: map<string, Value>, items: seq<Value>, n: nat, j: nat)
    requires j < n <= |items|
    ensures DeferredKey(name, j) in WriteUrls(name, dict, items, n)
    ensures WriteUrls(name, dict, items, n)[DeferredKey(name, j)] == items[j]
  {
    if j < n - 1 {
      WriteUrlsStores(name, dict, items, n - 1, j);
      if DeferredKey(name, n - 1) == DeferredKey(name, j) {
        DeferredKeyInjective(name, n - 1, j);
      }
    }
  }

  /** Every other key, including the keys of a longer earlier list, is left as it was. */
  lemma {:induction false} WriteUrlsKeeps(name: string, dict: map<string, Value>, items: seq<Value>, n: nat, k: string)
    requires n <= |items|
    requires forall i :: 0 <= i < n ==> k != DeferredKey(name, i)
    ensures k in WriteUrls(name, dict, items, n) <==> k in dict
    ensures k in dict ==> WriteUrls(name, dict, items, n)[k] == dict[k]
  {
    if n > 0 {
      WriteUrlsKeeps(name, dict, items, n - 1, k);
    }
  }

  /** `_deferred_<name>_<j>` keys of an earlier, longer list survive a shorter one. */
  lemma LeftoverKeysSurvive(name: string, dict: map<string, Value>, items: seq<Value>, j: nat)
    requires |items| <= j && DeferredKey(name, j) in dict
    ensures DeferredKey(name, j) in WriteUrls(name, dict, items, |items|)
    ensures WriteUrls(name, dict, items, |items|)[DeferredKey(name, j)] == dict[DeferredKey(name, j)]
  {
    forall i | 0 <= i < |items|
      ensures DeferredKey(name, j) != DeferredKey(name, i)
    {
      if DeferredKey(name, j) == DeferredKey(name, i) {
        DeferredKeyInjective(name, j, i);
      }
    }
    WriteUrlsKeeps(name, dict, items, |items|, DeferredKey(name, j));
  }

  lemma WriteUrlsKeepsPublic(name: string, dict: map<string, Value>, items: seq<Value>, n: nat)
    requires n <= |items|
    ensures KeepsOthers(dict, WriteUrls(name, dict, items, n), name)
  {
    forall k | k != name && !StartsWith(k, "_")
      ensures var w := WriteUrls(name, dict, items, n);
              (k in w <==> k in dict) && (k in dict ==> w[k] == dict[k])
    {
      WriteUrlsKeeps(name, dict, items, n, k);
    }
  }

  /** Where a stored relation URL is fetched from: joined to the instance's base URL
      when it has no network location. */
  function Target(baseUrl: string, url: string): string {
    if Netloc(url) == "" then UrlJoin(baseUrl, url) else url
  }

  /** The usual case: TastyPie returns a path, and it is fetched from the host of
      the instance's base URL. */
  lemma TargetOfPath(baseUrl: string, path: string)
    requires Split(baseUrl).scheme != ""
    requires StartsWith(path, "/") && !StartsWith(path, "//")
    ensures Target(baseUrl, path) == BaseHost(baseUrl) + path
    ensures Netloc(Target(baseUrl, path)) == Netloc(baseUrl)
    ensures Path(Target(baseUrl, path)) == PathOf(path)
  {
    SplitOfPath(path);
    JoinAbsolutePath(baseUrl, path);
  }

  /** The URL a relation stores, when a read would fetch it. */
  function PendingUrl(name: string, dict: map<string, Value>): Option<string> {
    if name in dict && !Falsy(dict[name]) && dict[name].Str? then Some(dict[name].s) else None
  }

  // ---------------------------------------------------------- the registry

  /** An attribute of a class body: a field (it has `contribute_to_class`) or a
      plain value. */
  datatype Attr = FieldAttr(field: Field) | PlainAttr(value: Value)

  function AttrFields(attrs: map<string, Attr>): set<Field> {
    set n | n in attrs && attrs[n].FieldAttr? :: attrs[n].field
  }

  /** Every class of the registry (`Resource.__subclasses__()`, recursively). */
  function Classes(forest: seq<Tree<ResourceClass>>): set<ResourceClass> {
    set c | c in Nodes(forest)
  }

  function RelatedOf(fields: seq<Field>): set<ResourceClass>
    reads fields
  {
    set f | f in fields && f.related.Some? :: f.related.value
  }

  /** The field descriptors of some classes: the state that constructing an
      instance of one of them may touch. */
  function Descriptors(classes: set<ResourceClass>): set<Field> {
    set c, f | c in classes && f in c.fields.Values :: f
  }

  /** The `list_endpoint` a class has, itself or by inheritance, when it is a string. */
  function Endpoint(c: ResourceClass): Option<string> {
    match c.listEndpoint
    case Some(PlainAttr(Str(e))) => Some(e)
    case _ => None
  }

  predicate Matches(c: ResourceClass, path: string) {
    Endpoint(c).Some? && StartsWith(path, Endpoint(c).value)
  }

  predicate Misses(c: ResourceClass, path: string) {
    Endpoint(c).Some? && !StartsWith(path, Endpoint(c).value)
  }

  /** The first class, in the given order, whose `list_endpoint` is a prefix of the
      path; `None` when none is; an error at the first class without a string
      `list_endpoint` before a match. */
  function FirstMatch(order: seq<ResourceClass>, path: string): Result<Option<ResourceClass>, Error> {
    if order == [] then Ok(None)
    else
      match Endpoint(order[0])
      case None => Err(MissingListEndpoint(order[0].name))
      case Some(e) => if StartsWith(path, e) then Ok(Some(order[0])) else FirstMatch(order[1..], path)
  }

  /** The class found is the first that matches, after classes that all miss; none
      is found exactly when every class misses; an error comes from a class without
      an endpoint, after classes that all miss. */
  lemma {:induction false} FirstMatchSpec(order: seq<ResourceClass>, path: string)
    ensures FirstMatch(order, path).Ok? && FirstMatch(order, path).value.Some? ==>
      exists i :: (0 <= i < |order| && order[i] == FirstMatch(order, path).value.value &&
                   Matches(order[i], path) && forall j :: 0 <= j < i ==> Misses(order[j], path))
    ensures FirstMatch(order, path) == Ok(None) <==> forall j :: 0 <= j < |order| ==> Misses(order[j], path)
    ensures FirstMatch(order, path).Err? ==>
      exists i :: (0 <= i < |order| && Endpoint(order[i]).None? &&
                   forall j :: 0 <= j < i ==> Misses(order[j], path))
  {
    if order != [] {
      FirstMatchSpec(order[1..], path);
      var r := FirstMatch(order, path);
      var rest := FirstMatch(order[1..], path);
      assert forall j :: 1 <= j < |order| ==> order[j] == order[1..][j - 1];
      if Endpoint(order[0]).Some? && !StartsWith(path, Endpoint(order[0]).value) {
        assert r == rest;
        if rest.Ok? && rest.value.Some? {
          var i :| 0 <= i < |order[1..]| && order[1..][i] == rest.value.value && Matches(order[1..][i], path) &&
                   forall j :: 0 <= j < i ==> Misses(order[1..][j], path);
          assert Matches(order[i + 1], path) && forall j :: 0 <= j < i + 1 ==> Misses(order[j], path);
        }
        if rest.Err? {
          var i :| 0 <= i < |order[1..]| && Endpoint(order[1..][i]).None? &&
                   forall j :: 0 <= j < i ==> Misses(order[1..][j], path);
          assert Endpoint(order[i + 1]).None? && forall j :: 0 <= j < i + 1 ==> Misses(order[j], path);
        }
      }
    }
  }

  /** `DeferredField.get_related_resource_class`: a worklist that starts with the
      direct subclasses of `Resource` and is extended, while it is walked, by the
      subclasses of each class visited; so classes are tried breadth first. */
  method GetRelatedResourceClass(forest: seq<Tree<ResourceClass>>, uri: string)
    returns (r: Result<Option<ResourceClass>, Error>)
    ensures r == FirstMatch(BreadthFirst(forest), Path(uri))
  {
    var path := Path(uri);
    var subclasses := forest;
    var i := 0;
    while i < |subclasses|
      invariant 0 <= i <= |subclasses|
      invariant FirstMatch(BreadthFirst(subclasses[i..]), path) == FirstMatch(BreadthFirst(forest), path)
      decreases ForestSize(subclasses[i..])
    {
      var next := subclasses[i + 1..] + subclasses[i].subclasses;
      ForestSizeNext(subclasses[i..]);
      assert subclasses[i..][1..] == subclasses[i + 1..];
      var order := BreadthFirst(subclasses[i..]);
      assert order == [subclasses[i].node] + BreadthFirst(next);
      assert order[1..] == BreadthFirst(next);
      var c := subclasses[i].node;
      match Endpoint(c) {
        case None =>
          return Err(MissingListEndpoint(c.name));
        case Some(e) =>
          if StartsWith(path, e) {
            return Ok(Some(c));
          }
      }
      subclasses := subclasses + subclasses[i].subclasses;
      i := i + 1;
      assert subclasses[i..] == next;
    }
    assert subclasses[i..] == [];
    return Ok(None);
  }

  /** The class found by the walk is a registered class. */
  lemma FoundClassIsRegistered(forest: seq<Tree<ResourceClass>>, path: string)
    requires FirstMatch(BreadthFirst(forest), path).Ok?
    requires FirstMatch(BreadthFirst(forest), path).value.Some?
    ensures FirstMatch(BreadthFirst(forest), path).value.value in Classes(forest)
  {
    FirstMatchSpec(BreadthFirst(forest), path);
    BreadthFirstVisitsAll(forest);
    var c := FirstMatch(BreadthFirst(forest), path).value.value;
    assert c in multiset(BreadthFirst(forest));
  }

  // ------------------------------------------------------------ descriptors

  class Field {
    /** The attribute name; "" until the field is attached to a class (None in Python). */
    var name: string
    /** The class the field was last attached to. */
    var owner: Option<ResourceClass>
    const kind: Kind
    const options: Options
    /** `related_resource_class` of a `DeferredField` or `ToManyField`. */
    var related: Option<ResourceClass>
    /** `DeferredField.instance`: the resolved object, shared by every instance of
        the owning class, since it lives on the descriptor. */
    var cache: Option<Resource>
    /** `ToManyField.base_url`. */
    var baseUrl: Option<string>

    constructor (kind: Kind, options: Options, related: Option<ResourceClass>)
      ensures name == "" && owner == None
      ensures this.kind == kind && this.options == options && this.related == related
      ensures cache == None && baseUrl == None
    {
      name := "";
      owner := None;
      this.kind := kind;
      this.options := options;
      this.related := related;
      cache := None;
      baseUrl := None;
    }

    /** `contribute_to_class`: a field keeps a name it already has. */
    method ContributeToClass(cls: ResourceClass, n: string)
      modifies this`name, this`owner
      ensures name == (if old(name) == "" then n else old(name))
      ensures owner == Some(cls)
    {
      if name == "" {
        name := n;
      }
      owner := Some(cls);
    }

    /** `Field.__get__`: the value stored under the field's name. */
    function Get(inst: Resource): Result<Value, Error>
      reads this`name, inst`dict
    {
      Lookup(name, inst.dict)
    }

    /** `instance.<name> = v`: the subclass conversion, then the guarded write. A
        deferred relation first drops its cached object; a to-many relation expands
        a list of URLs into one deferred relation per URL. */
    method Set(inst: Resource, v: Value, parseDate: string -> Option<DateTime>) returns (r: Outcome<Error>)
      modifies inst`dict, this`cache, this`baseUrl
      ensures kind != ToMany ==>
        Applied(SetResult(kind, name, options, old(inst.dict), v, parseDate), old(inst.dict), inst.dict, r)
      ensures kind != ToMany ==> baseUrl == old(baseUrl)
      ensures kind != Deferred ==> cache == old(cache)
      ensures kind == Deferred ==> cache == (if v.Str? then None else old(cache))
      ensures KeepsOthers(old(inst.dict), inst.dict, name)
      ensures r.Pass? ==> name in inst.dict && Stored(kind, v, inst.dict[name], parseDate)
      ensures kind == ToMany && r.Pass? && !Falsy(v) ==>
        name in inst.dict && inst.dict[name].Deferreds? && forall g :: g in inst.dict[name].list.fields ==> fresh(g)
    {
      if kind == ToMany {
        r := ToManySet(inst, v);
        return;
      }
      if kind == Deferred {
        r := DeferredSet(inst, v);
        return;
      }
      var c := Coerce(kind, v, parseDate);
      if c.Err? {
        return Fail(c.error);
      }
      var d := Assign(name, options, inst.dict, c.value);
      if d.Err? {
        return Fail(d.error);
      }
      inst.dict := d.value;
      r := Pass;
    }

    /** `DeferredField.__set__`: only a URL is accepted, None included in the
        refusal; the cached object is dropped before the base checks. */
    method DeferredSet(inst: Resource, v: Value) returns (r: Outcome<Error>)
      modifies inst`dict, this`cache
      ensures Applied(SetResult(Deferred, name, options, old(inst.dict), v, NoDates), old(inst.dict), inst.dict, r)
      ensures !v.Str? ==> r == Fail(NotAUrl) && cache == old(cache)
      ensures v.Str? ==> cache == None
    {
      if !v.Str? {
        return Fail(NotAUrl);
      }
      Delete();
      var d := Assign(name, options, inst.dict, v);
      if d.Err? {
        return Fail(d.error);
      }
      inst.dict := d.value;
      r := Pass;
    }

    /** `ToManyField.__set__`. A falsy value goes straight to the base checks. Any
        other value first records the instance's base URL on the descriptor and
        must be a list (a `DeferredList` is one, but iterating it yields nothing).
        The URLs are expanded by `ExpandUrls`; then the list of new relations is
        stored under the field's name by the base checks. */
    method ToManySet(inst: Resource, v: Value) returns (r: Outcome<Error>)
      requires kind == ToMany
      modifies inst`dict, this`baseUrl
      ensures Falsy(v) ==>
        baseUrl == old(baseUrl) && Applied(Assign(name, options, old(inst.dict), v), old(inst.dict), inst.dict, r)
      ensures !Falsy(v) ==> baseUrl == Some(inst.baseUrl)
      ensures !Falsy(v) && !v.List? && !v.Deferreds? ==> r == Fail(NotAList) && inst.dict == old(inst.dict)
      ensures !Falsy(v) && v.List? && !AllStrings(v.items) ==>
        r == Fail(NotAUrl) &&
        inst.dict == WriteUrls(name, old(inst.dict), v.items, FirstNonString(v.items))
      ensures !Falsy(v) && (v.List? ==> AllStrings(v.items)) && (v.List? || v.Deferreds?) ==>
        var urls := if v.List? then v.items else [];
        var written := WriteUrls(name, old(inst.dict), urls, |urls|);
        (Locked(name, options, written) ==> r == Fail(ReadOnly(name)) && inst.dict == written) &&
        (!Locked(name, options, written) ==>
          r == Pass && name in inst.dict && inst.dict == written[name := inst.dict[name]] &&
          inst.dict[name].Deferreds? && inst.dict[name].list.instance == inst &&
          inst.dict[name].list.owner == owner && Expands(inst.dict[name].list.fields, name, |urls|, related))
      ensures KeepsOthers(old(inst.dict), inst.dict, name)
      ensures r.Pass? ==> name in inst.dict && Stored(ToMany, v, inst.dict[name], NoDates)
      ensures r.Pass? && !Falsy(v) ==>
        name in inst.dict && inst.dict[name].Deferreds? && forall g :: g in inst.dict[name].list.fields ==> fresh(g)
    {
      if Falsy(v) {
        var d := Assign(name, options, inst.dict, v);
        if d.Err? {
          return Fail(d.error);
        }
        inst.dict := d.value;
        return Pass;
      }
      baseUrl := Some(inst.baseUrl);
      if !v.List? && !v.Deferreds? {
        return Fail(NotAList);
      }
      var urls := if v.List? then v.items else [];
      var deferreds, ok := ExpandUrls(inst, urls);
      if !ok {
        return Fail(NotAUrl);
      }
      ghost var written := inst.dict;
      var d := Assign(name, options, inst.dict, Deferreds(DeferredList(deferreds, inst, owner)));
      if d.Err? {
        return Fail(d.error);
      }
      inst.dict := d.value;
      r := Pass;
    }

    /** The loop of `ToManyField.__set__`: URL i is stored under
        `_deferred_<name>_<i>` by a new deferred relation. A non-string URL stops
        the loop with the earlier ones already stored. */
    method ExpandUrls(inst: Resource, urls: seq<Value>) returns (deferreds: seq<Field>, ok: bool)
      modifies inst`dict
      ensures ok == AllStrings(urls)
      ensures inst.dict == WriteUrls(name, old(inst.dict), urls, FirstNonString(urls))
      ensures ok ==> Expands(deferreds, name, |urls|, related)
      ensures forall f :: f in deferreds ==> fresh(f)
      ensures KeepsOthers(old(inst.dict), inst.dict, name)
    {
      deferreds := [];
      var i := 0;
      while i < |urls|
        invariant 0 <= i <= |urls|
        invariant forall j :: 0 <= j < i ==> urls[j].Str?
        invariant inst.dict == WriteUrls(name, old(inst.dict), urls, i)
        invariant Expands(deferreds, name, i, related)
        invariant forall f :: f in deferreds ==> fresh(f)
      {
        var field, out := NewDeferred(inst, DeferredKey(name, i), related, urls[i]);
        if out.Fail? {
          FirstNonStringIs(urls, i);
          WriteUrlsKeepsPublic(name, old(inst.dict), urls, i);
          return deferreds, false;
        }
        ExpandsAppend(deferreds, field, name, i, related);
        deferreds := deferreds + [field];
        i := i + 1;
      }
      WriteUrlsKeepsPublic(name, old(inst.dict), urls, |urls|);
      ok := true;
    }

    /** `DeferredField.__delete__`: only the cached object is dropped; the stored
        URL stays, so the next read fetches again. */
    method Delete()
      modifies this`cache
      ensures cache == None
    {
      cache := None;
    }

    /** What a read of this relation would fetch depends only on its cache, its
        name and the instance's attributes. */
    twostate lemma SameFetch(inst: Resource)
      requires cache == old(cache) && name == old(name) && inst.dict == old(inst.dict)
      ensures PendingFetch(this, inst) == old(PendingFetch(this, inst))
    {
    }

    /** `DeferredField.__get__`. A cached object is returned whatever the instance
        (the cache is on the descriptor). Otherwise the stored URL is read: a falsy
        one is returned as it is; a URL is joined to the instance's base URL when it
        has no host, fetched once, its class found (the declared one, or by the
        registry walk, remembered on the descriptor) and an instance of that class
        built from the fetched fields with the same base URL, cached and returned. */
    method Resolve(inst: Resource, forest: seq<Tree<ResourceClass>>, net: Service,
                   parseDate: string -> Option<DateTime>) returns (r: Result<Value, Error>)
      modifies this`cache, this`related, net`log
      modifies Descriptors(Classes(forest) + RelatedOf([this]))`cache
      modifies Descriptors(Classes(forest) + RelatedOf([this]))`baseUrl
      ensures net.log == old(net.log) + old(PendingFetch(this, inst))
      ensures old(cache).Some? ==> r == Ok(Object(old(cache).value)) && cache == old(cache)
      ensures old(cache).None? && name !in inst.dict ==> r == Err(MissingAttribute(name))
      ensures old(cache).None? && name in inst.dict && Falsy(inst.dict[name]) ==> r == Ok(inst.dict[name])
      ensures old(cache).None? && r.Ok? && r.value.Object? ==>
        cache == Some(r.value.obj) && fresh(r.value.obj) && r.value.obj.baseUrl == inst.baseUrl
      ensures old(cache).None? && !(r.Ok? && r.value.Object?) ==> cache == None
      ensures old(related).Some? ==> related == old(related)
      ensures old(cache).None? && r.Ok? && r.value.Object? && old(related).Some? ==>
        r.value.obj.cls == old(related).value
      ensures old(cache).None? && r.Ok? && r.value.Object? && old(related).None? ==>
        related == Some(r.value.obj.cls) && PendingUrl(name, inst.dict).Some? &&
        FirstMatch(BreadthFirst(forest), Path(Target(inst.baseUrl, PendingUrl(name, inst.dict).value)))
          == Ok(Some(r.value.obj.cls))
    {
      if cache.Some? {
        return Ok(Object(cache.value));
      }
      var stored := Lookup(name, inst.dict);
      if stored.Err? {
        return Err(stored.error);
      }
      var value := stored.value;
      if Falsy(value) {
        return Ok(value);
      }
      if !value.Str? {
        return Err(NotAUrl);
      }
      assert PendingUrl(name, inst.dict) == Some(value.s);
      var target := Target(inst.baseUrl, value.s);
      var data := net.Get(target);
      if data.None? {
        return Err(FetchFailed(target));
      }
      ghost var reach := Classes(forest) + RelatedOf([this]);
      if related.None? {
        var found := GetRelatedResourceClass(forest, target);
        if found.Err? {
          return Err(found.error);
        }
        if found.value.Some? {
          FoundClassIsRegistered(forest, Path(target));
        }
        related := found.value;
      }
      if !data.value.JObject? {
        return Err(NotAMapping);
      }
      if "base_url" in data.value.members {
        return Err(DuplicateBaseUrl);
      }
      if related.None? {
        return Err(NoResourceClass);
      }
      var cls := related.value;
      assert cls in reach;
      DescriptorsOfMember(cls, reach);
      var made := Instantiate(cls, inst.baseUrl, Kwargs(data.value.members), parseDate);
      if made.Err? {
        return Err(made.error);
      }
      cache := Some(made.value);
      return Ok(Object(made.value));
    }
  }

  /** One step of the loop of `ToManyField.__set__`: a new deferred relation named
      `key` is given the URL, which must be a string. */
  method NewDeferred(inst: Resource, key: string, related: Option<ResourceClass>, url: Value)
    returns (field: Field, r: Outcome<Error>)
    modifies inst`dict
    ensures fresh(field)
    ensures field.name == key && field.kind == Deferred && field.options == DefaultOptions
    ensures field.related == related && field.owner == None && field.cache == None
    ensures url.Str? ==> r == Pass && inst.dict == old(inst.dict)[key := url]
    ensures !url.Str? ==> r.Fail? && inst.dict == old(inst.dict)
  {
    field := new Field(Deferred, DefaultOptions, related);
    field.name := key;
    r := field.DeferredSet(inst, url);
  }

  /** The date parser handed to the relations a to-many assignment creates; they
      never parse dates. */
  function NoDates(s: string): Option<DateTime> {
    None
  }

  predicate AllStrings(items: seq<Value>) {
    forall j :: 0 <= j < |items| ==> items[j].Str?
  }

  /** The index of the first item that is not a string (`|items|` if none). */
  function FirstNonString(items: seq<Value>): (n: nat)
    ensures n <= |items|
    ensures forall j :: 0 <= j < n ==> items[j].Str?
    ensures n < |items| ==> !items[n].Str?
  {
    if items == [] then 0
    else if !items[0].Str? then 0
    else 1 + FirstNonString(items[1..])
  }

  lemma FirstNonStringIs(items: seq<Value>, i: nat)
    requires i < |items| && !items[i].Str?
    requires forall j :: 0 <= j < i ==> items[j].Str?
    ensures FirstNonString(items) == i
  {
  }

  /** The relations a to-many assignment creates: one new deferred relation per URL,
      named after its key, unattached, uncached, with the to-many field's class. */
  predicate Expands(fields: seq<Field>, name: string, n: nat, related: Option<ResourceClass>)
    reads fields
  {
    |fields| == n && Distinct(fields) &&
    forall i :: 0 <= i < n ==>
      fields[i].name == DeferredKey(name, i) && fields[i].kind == Deferred &&
      fields[i].options == DefaultOptions && fields[i].related == related &&
      fields[i].owner == None && fields[i].cache == None
  }

  /** The URL a read of `f` on `inst` would fetch (none when it is cached or unset). */
  function PendingFetch(f: Field, inst: Resource): seq<string>
    reads f`cache, f`name, inst`dict
  {
    if f.cache.None? && PendingUrl(f.name, inst.dict).Some? then
      [Target(inst.baseUrl, PendingUrl(f.name, inst.dict).value)]
    else []
  }

  lemma DescriptorsMono(a: set<ResourceClass>, b: set<ResourceClass>)
    requires a <= b
    ensures Descriptors(a) <= Descriptors(b)
  {
  }

  lemma DescriptorsOfMember(c: ResourceClass, classes: set<ResourceClass>)
    requires c in classes
    ensures c.fields.Values <= Descriptors(classes)
  {
  }

  // ---------------------------------------------------------- deferred lists

  /** `len(deferred_list)`: a list of relations is falsy exactly when it is empty. */
  function Length(dl: DeferredList): (n: nat)
    ensures n == 0 <==> Falsy(Deferreds(dl))
  {
    |dl.fields|
  }

  /** The position `seq[index]` reads in a sequence of length n: a negative index
      counts from the end; `None` where Python raises `IndexError`. */
  function PyIndex(index: int, n: nat): (r: Option<nat>)
    ensures r.Some? <==> -(n as int) <= index < n
    ensures r.Some? ==> r.value < n && (if index < 0 then r.value == index + n else r.value == index)
  {
    if 0 <= index < n then Some(index)
    else if -(n as int) <= index < 0 then Some(index + n)
    else None
  }

  /** One bound of `seq[start:stop]`: counted from the end when negative, then
      clamped to the sequence. */
  function SliceBound(x: Option<int>, default: nat, n: nat): (b: nat)
    requires default <= n
    ensures b <= n
    ensures x.None? ==> b == default
    ensures x.Some? && 0 <= x.value <= n ==> b == x.value
    ensures x.Some? && -(n as int) <= x.value < 0 ==> b == x.value + n
  {
    match x
    case None => default
    case Some(i) =>
      if i < 0 then (if i + n < 0 then 0 else i + n)
      else if i > n then n
      else i
  }

  /** The positions `seq[start:stop]` reads, from `lo` up to `hi`. */
  function SliceBounds(start: Option<int>, stop: Option<int>, n: nat): (r: (nat, nat))
    ensures r.0 <= r.1 <= n
    ensures start.None? && stop.None? ==> r == (0, n)
  {
    var lo := SliceBound(start, 0, n);
    var hi := SliceBound(stop, n, n);
    (lo, if hi < lo then lo else hi)
  }

  function FieldSet(fields: seq<Field>): set<Field> {
    set f | f in fields
  }

  /** The relations of a list are distinct and are no descriptor of a class: the
      relations a to-many assignment creates are new objects. */
  predicate Apart(fields: seq<Field>, classes: set<ResourceClass>) {
    Distinct(fields) && forall f :: f in fields ==> f !in Descriptors(classes)
  }

  /** No relation occurs twice in the list. */
  predicate Distinct(fields: seq<Field>) {
    fields == [] || (fields[0] !in fields[1..] && Distinct(fields[1..]))
  }

  /** One more relation, the next in order, keeps a list of relations well formed. */
  lemma ExpandsAppend(fields: seq<Field>, f: Field, name: string, n: nat, related: Option<ResourceClass>)
    requires Expands(fields, name, n, related) && f !in fields
    requires f.name == DeferredKey(name, n) && f.kind == Deferred && f.options == DefaultOptions
    requires f.related == related && f.owner == None && f.cache == None
    ensures Expands(fields + [f], name, n + 1, related)
  {
    DistinctAppend(fields, f);
  }

  lemma {:induction false} DistinctAppend(fields: seq<Field>, f: Field)
    requires Distinct(fields) && f !in fields
    ensures Distinct(fields + [f])
  {
    if fields != [] {
      assert (fields + [f])[1..] == fields[1..] + [f];
      DistinctAppend(fields[1..], f);
    }
  }

  lemma {:induction false} DistinctOthers(fields: seq<Field>, k: nat)
    requires Distinct(fields) && k < |fields|
    ensures forall j :: 0 <= j < |fields| && j != k ==> fields[j] != fields[k]
  {
    if k == 0 {
      assert forall j :: 1 <= j < |fields| ==> fields[j] == fields[1..][j - 1];
    } else {
      DistinctOthers(fields[1..], k - 1);
      assert fields[k] == fields[1..][k - 1];
      assert forall j :: 1 <= j < |fields| ==> fields[j] == fields[1..][j - 1];
    }
  }

  /** The URLs that reading the relations `lo` up to `hi` fetches, in order. */
  function PendingFetches(fields: seq<Field>, inst: Resource, lo: nat, hi: nat): seq<string>
    requires lo <= hi <= |fields|
    reads FieldSet(fields)`cache, FieldSet(fields)`name, inst`dict
    decreases hi - lo
  {
    if hi == lo then [] else PendingFetches(fields, inst, lo, hi - 1) + PendingFetch(fields[hi - 1], inst)
  }

  /** Each relation adds its own fetches to those of the relations before it. */
  lemma PendingFetchesSteps(fields: seq<Field>, inst: Resource, lo: nat, hi: nat)
    requires lo <= hi <= |fields|
    ensures forall k :: lo <= k < hi ==>
      PendingFetches(fields, inst, lo, k + 1) == PendingFetches(fields, inst, lo, k) + PendingFetch(fields[k], inst)
  {
  }

  /** Resolves relation k of a list; the other relations are left as they are. */
  method ResolveAt(dl: DeferredList, k: nat, forest: seq<Tree<ResourceClass>>, net: Service,
                   parseDate: string -> Option<DateTime>, ghost reach: set<ResourceClass>, ghost descriptors: set<Field>)
    returns (r: Result<Value, Error>)
    requires k < |dl.fields| && Classes(forest) <= reach && Descriptors(reach) <= descriptors
    requires forall j :: 0 <= j < |dl.fields| && j != k ==> dl.fields[j] != dl.fields[k]
    requires forall f :: f in dl.fields ==> f !in descriptors
    requires dl.fields[k].related.Some? ==> dl.fields[k].related.value in reach
    modifies {dl.fields[k]}`cache, {dl.fields[k]}`related, net`log
    modifies descriptors`cache, descriptors`baseUrl
    ensures net.log == old(net.log) + old(PendingFetch(dl.fields[k], dl.instance))
    ensures old(dl.fields[k].cache).Some? ==> r == Ok(Object(old(dl.fields[k].cache).value))
    ensures r.Ok? && r.value.Object? ==> dl.fields[k].cache == Some(r.value.obj)
    ensures forall j :: 0 <= j < |dl.fields| && j != k ==>
      dl.fields[j].cache == old(dl.fields[j].cache) && dl.fields[j].related == old(dl.fields[j].related)
  {
    var f := dl.fields[k];
    assert RelatedOf([f]) <= reach;
    DescriptorsMono(Classes(forest) + RelatedOf([f]), reach);
    r := f.Resolve(dl.instance, forest, net, parseDate);
  }

  /** `deferred_list[index]`: resolves the one relation at that position. */
  method GetItem(dl: DeferredList, index: int, forest: seq<Tree<ResourceClass>>, net: Service,
                 parseDate: string -> Option<DateTime>) returns (r: Result<Value, Error>)
    requires Apart(dl.fields, Classes(forest) + RelatedOf(dl.fields))
    modifies FieldSet(dl.fields)`cache, FieldSet(dl.fields)`related, net`log
    modifies Descriptors(Classes(forest) + RelatedOf(dl.fields))`cache
    modifies Descriptors(Classes(forest) + RelatedOf(dl.fields))`baseUrl
    ensures PyIndex(index, |dl.fields|).None? ==> r == Err(IndexOutOfRange) && net.log == old(net.log)
    ensures PyIndex(index, |dl.fields|).Some? ==>
      var k := PyIndex(index, |dl.fields|).value;
      net.log == old(net.log) + old(PendingFetch(dl.fields[k], dl.instance)) &&
      (old(dl.fields[k].cache).Some? ==> r == Ok(Object(old(dl.fields[k].cache).value))) &&
      (r.Ok? && r.value.Object? ==> dl.fields[k].cache == Some(r.value.obj))
    ensures forall j :: 0 <= j < |dl.fields| && PyIndex(index, |dl.fields|) != Some(j) ==>
      dl.fields[j].cache == old(dl.fields[j].cache) && dl.fields[j].related == old(dl.fields[j].related)
  {
    var k := PyIndex(index, |dl.fields|);
    if k.None? {
      return Err(IndexOutOfRange);
    }
    ghost var reach := Classes(forest) + RelatedOf(dl.fields);
    assert dl.fields[k.value] in dl.fields;
    DistinctOthers(dl.fields, k.value);
    r := ResolveAt(dl, k.value, forest, net, parseDate, reach, Descriptors(reach));
  }

  /** `DeferredList.__getitem__` given a slice object, `deferred_list[slice(start,
      stop)]`: resolves the relations of the slice in order; a failure stops the
      walk. */
  method GetSlice(dl: DeferredList, start: Option<int>, stop: Option<int>, forest: seq<Tree<ResourceClass>>,
                  net: Service, parseDate: string -> Option<DateTime>) returns (r: Result<seq<Value>, Error>)
    requires Apart(dl.fields, Classes(forest) + RelatedOf(dl.fields))
    modifies FieldSet(dl.fields)`cache, FieldSet(dl.fields)`related, net`log
    modifies Descriptors(Classes(forest) + RelatedOf(dl.fields))`cache
    modifies Descriptors(Classes(forest) + RelatedOf(dl.fields))`baseUrl
    ensures r.Ok? ==> |r.value| == SliceBounds(start, stop, |dl.fields|).1 - SliceBounds(start, stop, |dl.fields|).0
    ensures r.Ok? ==>
      net.log == old(net.log) +
        old(PendingFetches(dl.fields, dl.instance, SliceBounds(start, stop, |dl.fields|).0, SliceBounds(start, stop, |dl.fields|).1))
    ensures forall j :: 0 <= j < |dl.fields| && !(SliceBounds(start, stop, |dl.fields|).0 <= j < SliceBounds(start, stop, |dl.fields|).1) ==>
      dl.fields[j].cache == old(dl.fields[j].cache) && dl.fields[j].related == old(dl.fields[j].related)
  {
    var (lo, hi) := SliceBounds(start, stop, |dl.fields|);
    ghost var reach := Classes(forest) + RelatedOf(dl.fields);
    assert forall j :: 0 <= j < |dl.fields| && dl.fields[j].related.Some? ==> dl.fields[j].related.value in reach;
    r := ResolveRange(dl, lo, hi, forest, net, parseDate, reach, Descriptors(reach));
  }

  /** Resolves the relations `lo` up to `hi` of a list in order, stopping at the
      first failure. */
  method ResolveRange(dl: DeferredList, lo: nat, hi: nat, forest: seq<Tree<ResourceClass>>, net: Service,
                      parseDate: string -> Option<DateTime>, ghost reach: set<ResourceClass>,
                      ghost descriptors: set<Field>)
    returns (r: Result<seq<Value>, Error>)
    requires lo <= hi <= |dl.fields|
    requires Distinct(dl.fields) && Classes(forest) <= reach && Descriptors(reach) <= descriptors
    requires forall f :: f in dl.fields ==> f !in descriptors
    requires forall j :: 0 <= j < |dl.fields| && dl.fields[j].related.Some? ==> dl.fields[j].related.value in reach
    modifies FieldSet(dl.fields)`cache, FieldSet(dl.fields)`related, net`log
    modifies descriptors`cache, descriptors`baseUrl
    ensures r.Ok? ==> |r.value| == hi - lo
    ensures r.Ok? ==> net.log == old(net.log) + old(PendingFetches(dl.fields, dl.instance, lo, hi))
    ensures forall j :: 0 <= j < |dl.fields| && !(lo <= j < hi) ==>
      dl.fields[j].cache == old(dl.fields[j].cache) && dl.fields[j].related == old(dl.fields[j].related)
  {
    var values: seq<Value> := [];
    var k := lo;
    ghost var fetched: seq<string> := [];
    PendingFetchesSteps(dl.fields, dl.instance, lo, hi);
    while k < hi
      invariant lo <= k <= hi
      invariant |values| == k - lo
      invariant fetched == old(PendingFetches(dl.fields, dl.instance, lo, k))
      invariant net.log == old(net.log) + fetched
      invariant forall j :: 0 <= j < |dl.fields| && !(lo <= j < k) ==>
        dl.fields[j].cache == old(dl.fields[j].cache) && dl.fields[j].related == old(dl.fields[j].related)
    {
      assert dl.fields[k] in dl.fields;
      ghost var fetch := old(PendingFetch(dl.fields[k], dl.instance));
      assert old(PendingFetches(dl.fields, dl.instance, lo, k + 1)) == fetched + fetch;
      dl.fields[k].SameFetch(dl.instance);
      DistinctOthers(dl.fields, k);
      AppendAssociative(old(net.log), fetched, fetch);
      var v := ResolveAt(dl, k, forest, net, parseDate, reach, descriptors);
      if v.Err? {
        return Err(v.error);
      }
      values := values + [v.value];
      fetched := fetched + fetch;
      k := k + 1;
    }
    return Ok(values);
  }

  // ---------------------------------------------------------------- classes

  /** Each registered field is named after its key. */
  predicate WellNamed(c: ResourceClass)
    reads c.fields.Values`name
  {
    forall n :: n in c.fields ==> c.fields[n].name == n
  }

  /** No field object is listed under two names. */
  predicate Unshared(attrs: map<string, Attr>) {
    forall n, m :: n in attrs && m in attrs && attrs[n].FieldAttr? && attrs[n] == attrs[m] ==> n == m
  }

  /** `name(f1, f2, ...)` with the field names sorted. */
  function DocString(name: string, fieldNames: set<string>): string {
    name + "(" + Join(", ", SortedKeys(fieldNames)) + ")"
  }

  /** A class's fields by attribute name; the names are public. */
  type FieldMap = m: map<string, Field> | forall n :: n in m ==> !StartsWith(n, "_") witness map[]

  class ResourceClass {
    const name: string
    /** The attributes of the class body, `__module__` removed. */
    const attrs: map<string, Attr>
    /** `list_endpoint`, found on the class or inherited from its base. */
    const listEndpoint: Option<Attr>
    /** `_fields`: the attributes that are fields and whose names do not start with
        `_`. A class's own attributes only: nothing is inherited from its base. */
    const fields: FieldMap

    /** `ResourceMetaClass.__new__` with `add_to_class` for each attribute of the
        body, in the dictionary's iteration order. */
    constructor (name: string, parent: Option<ResourceClass>, attrs: map<string, Attr>)
      modifies AttrFields(attrs)`name, AttrFields(attrs)`owner
      ensures this.name == name && this.attrs == attrs
      ensures fields == map n | n in attrs && attrs[n].FieldAttr? && !StartsWith(n, "_") :: attrs[n].field
      ensures listEndpoint ==
        (if "list_endpoint" in attrs then Some(attrs["list_endpoint"])
         else if parent.Some? then parent.value.listEndpoint else None)
      ensures forall f :: f in AttrFields(attrs) ==> f.owner == Some(this)
      ensures forall f :: f in AttrFields(attrs) && old(f.name) != "" ==> f.name == old(f.name)
      ensures forall f :: f in AttrFields(attrs) && old(f.name) == "" ==>
        f.name in attrs && attrs[f.name] == FieldAttr(f)
      ensures Unshared(attrs) && (forall f :: f in AttrFields(attrs) ==> old(f.name) == "") ==> WellNamed(this)
    {
      this.name := name;
      this.attrs := attrs;
      listEndpoint :=
        if "list_endpoint" in attrs then Some(attrs["list_endpoint"])
        else if parent.Some? then parent.value.listEndpoint else None;
      fields := map n | n in attrs && attrs[n].FieldAttr? && !StartsWith(n, "_") :: attrs[n].field;
      new;
      ghost var members := AttrFields(attrs);
      var todo := attrs.Keys;
      while todo != {}
        invariant todo <= attrs.Keys
        invariant forall n :: n in attrs && n !in todo && attrs[n].FieldAttr? ==> attrs[n].field.owner == Some(this)
        invariant forall f :: f in members && old(f.name) != "" ==> f.name == old(f.name)
        invariant forall f :: f in members && old(f.name) == "" && f.name != "" ==>
          f.name in attrs && attrs[f.name] == FieldAttr(f)
        invariant forall f :: f in members && old(f.name) == "" && f.name == "" ==>
          forall n :: n in attrs && n !in todo && attrs[n] == FieldAttr(f) ==> n == ""
        decreases |todo|
      {
        var n :| n in todo;
        match attrs[n] {
          case FieldAttr(f) =>
            f.ContributeToClass(this, n);
          case PlainAttr(_) =>
        }
        todo := todo - {n};
      }
      forall f | f in members && old(f.name) == "" && f.name == ""
        ensures f.name in attrs && attrs[f.name] == FieldAttr(f)
      {
        var n :| n in attrs && attrs[n].FieldAttr? && attrs[n].field == f;
      }
    }

    /** `__doc__`: the body's docstring, or `Name(f1, f2, ...)` when it has none. */
    function Doc(): Attr {
      if "__doc__" in attrs && attrs["__doc__"] != PlainAttr(Null) then attrs["__doc__"]
      else PlainAttr(Str(DocString(name, fields.Keys)))
    }
  }

  /** A class whose body has no docstring is documented as `Name(f1, f2, ...)`: its
      name, then the names of its fields, each once, in increasing order. */
  lemma UndocumentedClassDoc(c: ResourceClass)
    requires "__doc__" !in c.attrs
    ensures exists names :: (StrictlyIncreasing(names) && (forall k :: k in names <==> k in c.fields) &&
                             c.Doc() == PlainAttr(Str(c.name + "(" + Join(", ", names) + ")")))
  {
    var names := SortedKeys(c.fields.Keys);
    assert StrictlyIncreasing(names) && (forall k :: k in names <==> k in c.fields);
  }

  /** The docstring of an undocumented class with the fields `title` and `body`. */
  lemma DocStringOfTwoFields()
    ensures DocString("Entry", {"title", "body"}) == "Entry(body, title)"
  {
    var s := {"title", "body"};
    assert LexLess("body", "title");
    assert IsLeast("body", s);
    SortedKeysHead(s);
    LeastUnique(s);
    assert s - {"body"} == {"title"};
    SortedKeysHead({"title"});
    assert {"title"} - {"title"} == {};
    assert SortedKeys(s) == ["body", "title"];
  }

  // ------------------------------------------------------------- instances

  /** `instance.__dict__` after `Resource.__init__`: every field of the class holds
      what assigning its keyword argument (None when absent) stores. */
  predicate Populated(o: Resource, kwargs: map<string, Value>, parseDate: string -> Option<DateTime>)
    reads o
  {
    forall n :: n in o.cls.fields ==>
      n in o.dict && Stored(o.cls.fields[n].kind, Arg(kwargs, n), o.dict[n], parseDate)
  }

  /** `kwargs.get(name, None)`. */
  function Arg(kwargs: map<string, Value>, n: string): Value {
    if n in kwargs then kwargs[n] else Null
  }

  /** As written, a to-one relation missing from the keyword arguments is assigned
      None, which `DeferredField.__set__` refuses: no instance of such a class is
      ever populated, so `Resource.Init` cannot pass for it. */
  lemma AbsentRelationNotPopulated(o: Resource, kwargs: map<string, Value>,
                                   parseDate: string -> Option<DateTime>, n: string)
    requires n in o.cls.fields && o.cls.fields[n].kind == Deferred && n !in kwargs
    ensures !Populated(o, kwargs, parseDate)
  {
  }

  class Resource {
    const cls: ResourceClass
    const baseUrl: string
    /** `__dict__`, apart from `base_url`. */
    var dict: map<string, Value>

    /** `self.base_url = base_url`: stored before any field is assigned, since a
        to-many field reads it during its assignment. */
    constructor (cls: ResourceClass, baseUrl: string)
      ensures this.cls == cls && this.baseUrl == baseUrl && dict == map[]
    {
      this.cls := cls;
      this.baseUrl := baseUrl;
      dict := map[];
    }

    /** `setattr(self, f.name, v)`: the assignment goes through the field's descriptor. */
    method SetAttr(f: Field, v: Value, parseDate: string -> Option<DateTime>) returns (r: Outcome<Error>)
      modifies this`dict, f`cache, f`baseUrl
      ensures KeepsOthers(old(dict), dict, f.name)
      ensures r.Pass? ==> f.name in dict && Stored(f.kind, v, dict[f.name], parseDate)
      ensures f.cache == None || f.cache == old(f.cache)
      ensures f.kind == ToMany && r.Pass? && !Falsy(v) ==>
        f.name in dict && dict[f.name].Deferreds? && forall g :: g in dict[f.name].list.fields ==> fresh(g)
    {
      r := f.Set(this, v, parseDate);
    }

    /** The loop of `Resource.__init__`: in the iteration order of `_fields`, a
        missing required keyword argument fails, and every field is assigned its
        keyword argument or None. */
    method Init(kwargs: map<string, Value>, parseDate: string -> Option<DateTime>) returns (r: Outcome<Error>)
      modifies this`dict, cls.fields.Values`cache, cls.fields.Values`baseUrl
      ensures r.Pass? ==> forall n :: n in cls.fields && cls.fields[n].options.required ==> n in kwargs
      ensures r.Pass? && WellNamed(cls) ==> Populated(this, kwargs, parseDate)
      ensures r.Pass? && WellNamed(cls) ==>
        forall k :: k in dict && !StartsWith(k, "_") ==> k in cls.fields || k in old(dict)
      ensures forall f :: f in cls.fields.Values ==> f.cache == None || f.cache == old(f.cache)
    {
      var fields := cls.fields;
      ghost var named := WellNamed(cls);
      ghost var start := dict;
      ghost var descriptors := fields.Values;
      var todo := fields.Keys;
      while todo != {}
        invariant todo <= fields.Keys
        invariant forall n :: n in fields && n !in todo && fields[n].options.required ==> n in kwargs
        invariant named ==> WellNamed(cls) && Assigned(fields, todo, kwargs, parseDate, start, dict)
        invariant forall g :: g in descriptors ==> g.cache == None || g.cache == old(g.cache)
        decreases |todo|
      {
        var n :| n in todo;
        var f := fields[n];
        if f.options.required && n !in kwargs {
          return Fail(RequiredKwarg(n));
        }
        ghost var before := dict;
        var out := SetAttr(f, Arg(kwargs, n), parseDate);
        if out.Fail? {
          return out;
        }
        if named {
          AssignedStep(fields, todo, n, kwargs, parseDate, start, before, dict);
        }
        todo := todo - {n};
      }
      r := Pass;
    }
  }

  /** The fields not `pending` hold what their keyword argument makes of them, and
      every other public attribute of `after` was already in `start`. */
  ghost predicate Assigned(fields: map<string, Field>, pending: set<string>, kwargs: map<string, Value>,
                           parseDate: string -> Option<DateTime>, start: map<string, Value>, after: map<string, Value>)
  {
    (forall n :: n in fields && n !in pending ==>
       n in after && Stored(fields[n].kind, Arg(kwargs, n), after[n], parseDate)) &&
    (forall k :: k in after && !StartsWith(k, "_") ==> (k in fields && k !in pending) || k in start)
  }

  lemma AssignedStep(fields: map<string, Field>, pending: set<string>, n: string, kwargs: map<string, Value>,
                     parseDate: string -> Option<DateTime>, start: map<string, Value>,
                     before: map<string, Value>, after: map<string, Value>)
    requires forall m :: m in fields ==> !StartsWith(m, "_")
    requires Assigned(fields, pending, kwargs, parseDate, start, before)
    requires n in fields && KeepsOthers(before, after, n)
    requires n in after && Stored(fields[n].kind, Arg(kwargs, n), after[n], parseDate)
    ensures Assigned(fields, pending - {n}, kwargs, parseDate, start, after)
  {
    forall m | m in fields && m !in pending - {n}
      ensures m in after && Stored(fields[m].kind, Arg(kwargs, m), after[m], parseDate)
    {
      if m != n {
        assert after[m] == before[m];
      }
    }
  }

  /** `cls(base_url, **kwargs)`. */
  method Instantiate(cls: ResourceClass, baseUrl: string, kwargs: map<string, Value>,
                     parseDate: string -> Option<DateTime>) returns (r: Result<Resource, Error>)
    modifies cls.fields.Values`cache, cls.fields.Values`baseUrl
    ensures "base_url" in kwargs ==> r == Err(DuplicateBaseUrl)
    ensures r.Ok? ==> fresh(r.value) && r.value.cls == cls && r.value.baseUrl == baseUrl
    ensures r.Ok? && WellNamed(cls) ==> Populated(r.value, kwargs, parseDate)
    ensures r.Ok? ==> forall n :: n in cls.fields && cls.fields[n].options.required ==> n in kwargs
    ensures forall f :: f in cls.fields.Values ==> f.cache == None || f.cache == old(f.cache)
  {
    if "base_url" in kwargs {
      return Err(DuplicateBaseUrl);
    }
    var o := new Resource(cls, baseUrl);
    var out := o.Init(kwargs, parseDate);
    if out.Fail? {
      return Err(out.error);
    }
    return Ok(o);
  }
}
