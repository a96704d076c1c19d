/** The generator of client modules (`tastypie-client/client_builder.py`): it reads
    the entry points and the schemas a TastyPie service publishes and writes one
    resource class per entry point, with a field line-group per schema field, through
    `CodeGeneratorBackend`, a line buffer that tracks the indentation level and is
    flushed to the output stream when its `with` block ends. */
module ClientBuilder {
  import opened Wrappers
  import opened Json
  import opened Strings
  import opened Urls
  import opened Uuids
  import opened Network

  datatype BuildError =
    | NotAnObject                        // subscripting or iterating JSON that is not an object
    | MissingKey(key: string)            // `KeyError` on a schema document
    | BadKeyword                         // an unexpected or repeated keyword argument
    | MissingType(field: string)         // a field declaration without `type`
    | UnknownType(field: string)         // `KeyError` in the table of field types
    | HelpTextNotAString(field: string)  // `.replace` on a help text that is not a string
    | NotAUrl                            // `urljoin` on a schema reference that is not a string
    | FetchFailed(url: string)           // the request or the JSON decoding failed
    | NoSchemaAttribute(attr: string)    // the class `Schema` has no `default_format`
    | DedentAtZero                       // "internal error in code generator"

  /** `not v` for a decoded JSON value. */
  predicate JsonFalsy(j: Json) {
    match j
    case JNull => true
    case JBool(b) => !b
    case JInt(i) => i == 0
    case JStr(s) => s == ""
    case JArray(items) => items == []
    case JObject(members) => members == map[]
  }

  /** `"%s" % v`. Exact for None, booleans, integers and strings; lists and objects
      get a fixed stand-in. */
  function PyStr(j: Json): string {
    match j
    case JNull => NoneText
    case JBool(b) => if b then TrueText else FalseText
    case JInt(i) => IntToString(i)
    case JStr(s) => s
    case _ => ObjectText
  }

  const NoneText := "None"
  const TrueText := "True"
  const FalseText := "False"
  const ObjectText := "<object>"

  // ---------------------------------------------------------------- client

  datatype Client = Client(baseHost: string, baseUrl: string)

  /** `Client(base_url)`: the base host is the scheme and host of the base URL. */
  function NewClient(baseUrl: string): (c: Client)
    ensures c.baseUrl == baseUrl
    ensures Split(baseUrl).scheme != "" ==>
      Split(c.baseHost) == Parts(Split(baseUrl).scheme, Split(baseUrl).netloc, "")
  {
    if Split(baseUrl).scheme != "" then
      BaseHostKeepsHost(baseUrl);
      Client(BaseHost(baseUrl), baseUrl)
    else Client(BaseHost(baseUrl), baseUrl)
  }

  /** The URL a schema reference is fetched from (`urljoin(base_host, schema_url)`);
      `None` where `urljoin` raises. */
  function SchemaUrl(client: Client, ref: Json): Option<string> {
    if JsonFalsy(ref) then Some(client.baseHost)
    else if ref.JStr? then Some(UrlJoin(client.baseHost, ref.s))
    else None
  }

  /** A schema path published by the service is fetched from the base host. */
  lemma SchemaUrlOfPath(baseUrl: string, path: string)
    requires Split(baseUrl).scheme != ""
    requires StartsWith(path, "/") && !StartsWith(path, "//")
    ensures SchemaUrl(NewClient(baseUrl), JStr(path)) == Some(NewClient(baseUrl).baseHost + path)
    ensures Netloc(SchemaUrl(NewClient(baseUrl), JStr(path)).value) == Netloc(baseUrl)
  {
    var host := NewClient(baseUrl).baseHost;
    assert Split(host).scheme == Split(baseUrl).scheme;
    JoinAbsolutePath(host, path);
    assert BaseHost(host) == host;
    assert UrlJoin(host, path) == host + path;
    assert Netloc(host + path) == Split(host).netloc;
  }

  // ---------------------------------------------------------------- schemas

  /** A field of a schema (`Field(client, name=key, **value)`). */
  datatype SchemaField = SchemaField(name: string, typ: Json, relatedType: Json, default: Json,
                                     blank: Json, nullable: Json, unique: Json, readonly: Json,
                                     helpText: Json)

  /** The keyword parameters of the builder's `Field.__init__` besides `client` and `name`. */
  const FieldKeywords: set<string> :=
    {"type", "related_type", "default", "blank", "nullable", "unique", "readonly", "help_text"}

  function Keyword(decl: map<string, Json>, key: string, default: Json): Json {
    if key in decl then decl[key] else default
  }

  /** `Field(client, name=name, **decl)`: the declaration must be an object whose
      keys are keyword parameters and that gives `type`; the others default. */
  function NewSchemaField(name: string, decl: Json): (r: Result<SchemaField, BuildError>)
    ensures r.Ok? <==> decl.JObject? && decl.members.Keys <= FieldKeywords && "type" in decl.members
    ensures r.Ok? ==> r.value.name == name && r.value.typ == decl.members["type"]
    ensures r.Ok? ==> r.value.relatedType == (if "related_type" in decl.members then decl.members["related_type"] else JNull)
    ensures r.Ok? ==> r.value.default == (if "default" in decl.members then decl.members["default"] else JNull)
    ensures r.Ok? ==> r.value.blank == (if "blank" in decl.members then decl.members["blank"] else JBool(false))
    ensures r.Ok? ==> r.value.nullable == (if "nullable" in decl.members then decl.members["nullable"] else JBool(false))
    ensures r.Ok? ==> r.value.unique == (if "unique" in decl.members then decl.members["unique"] else JBool(false))
    ensures r.Ok? ==> r.value.readonly == (if "readonly" in decl.members then decl.members["readonly"] else JBool(false))
    ensures r.Ok? ==> r.value.helpText == (if "help_text" in decl.members then decl.members["help_text"] else JStr(""))
  {
    if !decl.JObject? then Err(NotAnObject)
    else if !(decl.members.Keys <= FieldKeywords) then Err(BadKeyword)
    else if "type" !in decl.members then Err(MissingType(name))
    else
      var m := decl.members;
      Ok(SchemaField(name, m["type"], Keyword(m, "related_type", JNull), Keyword(m, "default", JNull),
                     Keyword(m, "blank", JBool(false)), Keyword(m, "nullable", JBool(false)),
                     Keyword(m, "unique", JBool(false)), Keyword(m, "readonly", JBool(false)),
                     Keyword(m, "help_text", JStr(""))))
  }

  datatype Schema = Schema(detailMethods: Json, listMethods: Json, defaultFormat: Json, defaultLimit: Json,
                           fields: map<string, SchemaField>)

  /** The first declaration, in the given key order, that is not a valid field. */
  function FirstBadField(decls: map<string, Json>, keys: seq<string>): (r: Option<BuildError>)
    requires forall i :: 0 <= i < |keys| ==> keys[i] in decls
    ensures r.None? <==> forall i :: 0 <= i < |keys| ==> NewSchemaField(keys[i], decls[keys[i]]).Ok?
  {
    if keys == [] then None
    else
      match NewSchemaField(keys[0], decls[keys[0]])
      case Err(e) => Some(e)
      case Ok(_) =>
        var rest := FirstBadField(decls, keys[1..]);
        assert forall i :: 1 <= i < |keys| ==> keys[i] == keys[1..][i - 1];
        rest
  }

  /** `{key: Field(client, name=key, **value) for key, value in fields.iteritems()}`.
      When several declarations are bad, Python reports the first in the
      dictionary's iteration order, which is not fixed; the model reports the
      first by name. */
  function SchemaFields(decls: map<string, Json>): (r: Result<map<string, SchemaField>, BuildError>)
    ensures r.Ok? ==> r.value.Keys == decls.Keys
  {
    var keys := SortedKeys(decls.Keys);
    match FirstBadField(decls, keys)
    case Some(e) => Err(e)
    case None =>
      assert forall k :: k in decls ==> k in keys;
      Ok(map k | k in decls :: NewSchemaField(k, decls[k]).value)
  }

  /** The field map is made exactly when every declaration makes a field, and then
      holds, under each name, the field that name's declaration makes. */
  lemma SchemaFieldsSpec(decls: map<string, Json>)
    ensures SchemaFields(decls).Ok? <==> forall k :: k in decls ==> NewSchemaField(k, decls[k]).Ok?
    ensures SchemaFields(decls).Ok? ==>
      forall k :: k in decls ==> Ok(SchemaFields(decls).value[k]) == NewSchemaField(k, decls[k])
  {
    var keys := SortedKeys(decls.Keys);
    if FirstBadField(decls, keys).Some? {
      var i :| 0 <= i < |keys| && NewSchemaField(keys[i], decls[keys[i]]).Err?;
      assert keys[i] in decls;
    }
  }

  function Member(data: map<string, Json>, key: string): Result<Json, BuildError> {
    if key in data then Ok(data[key]) else Err(MissingKey(key))
  }

  /** The document is an object with the five keys `Schema.__init__` reads, its
      `fields` an object of declarations. */
  predicate HasSchemaKeys(data: Json) {
    data.JObject? && "allowed_detail_http_methods" in data.members && "allowed_list_http_methods" in data.members &&
    "default_format" in data.members && "default_limit" in data.members &&
    "fields" in data.members && data.members["fields"].JObject?
  }

  /** The body of `Schema.__init__` once the document is fetched: five keys read in
      order, then every field declaration. */
  function SchemaFromDocument(data: Json): (r: Result<Schema, BuildError>)
    ensures r.Ok? <==> HasSchemaKeys(data) &&
                       forall k :: k in data.members["fields"].members ==>
                         NewSchemaField(k, data.members["fields"].members[k]).Ok?
    ensures r.Ok? ==> r.value.fields.Keys == data.members["fields"].members.Keys
    ensures r.Ok? ==> forall k :: k in r.value.fields ==>
      r.value.fields[k].name == k && Ok(r.value.fields[k]) == NewSchemaField(k, data.members["fields"].members[k])
    ensures r.Ok? ==> r.value.detailMethods == data.members["allowed_detail_http_methods"] &&
                      r.value.listMethods == data.members["allowed_list_http_methods"] &&
                      r.value.defaultFormat == data.members["default_format"] &&
                      r.value.defaultLimit == data.members["default_limit"]
    ensures data.JObject? && "allowed_detail_http_methods" !in data.members ==>
      r == Err(MissingKey("allowed_detail_http_methods"))
    ensures data.JObject? && "allowed_detail_http_methods" in data.members &&
            "allowed_list_http_methods" !in data.members ==>
      r == Err(MissingKey("allowed_list_http_methods"))
  {
    if !data.JObject? then Err(NotAnObject)
    else
      var m := data.members;
      if "allowed_detail_http_methods" !in m then Err(MissingKey("allowed_detail_http_methods"))
      else if "allowed_list_http_methods" !in m then Err(MissingKey("allowed_list_http_methods"))
      else if "default_format" !in m then Err(MissingKey("default_format"))
      else if "default_limit" !in m then Err(MissingKey("default_limit"))
      else if "fields" !in m then Err(MissingKey("fields"))
      else if !m["fields"].JObject? then Err(NotAnObject)
      else
        match SchemaFields(m["fields"].members)
        case Err(e) => Err(e)
        case Ok(fields) =>
          SchemaFieldsSpec(m["fields"].members);
          Ok(Schema(m["allowed_detail_http_methods"], m["allowed_list_http_methods"],
                    m["default_format"], m["default_limit"], fields))
  }

  /** The schema a reference names, given what the service answers at each URL. */
  function FetchedSchema(client: Client, answer: string -> Option<Json>, ref: Json): Result<Schema, BuildError> {
    match SchemaUrl(client, ref)
    case None => Err(NotAUrl)
    case Some(url) =>
      match answer(url)
      case None => Err(FetchFailed(url))
      case Some(data) => SchemaFromDocument(data)
  }

  /** `Schema(client, schema_url)`: one request, to the reference joined to the base host. */
  method LoadSchema(client: Client, ref: Json, net: Service) returns (r: Result<Schema, BuildError>)
    modifies net`log
    ensures r == FetchedSchema(client, net.answer, ref)
    ensures SchemaUrl(client, ref).None? ==> r == Err(NotAUrl) && net.log == old(net.log)
    ensures SchemaUrl(client, ref).Some? ==> net.log == old(net.log) + [SchemaUrl(client, ref).value]
  {
    var url := SchemaUrl(client, ref);
    if url.None? {
      return Err(NotAUrl);
    }
    var data := net.Get(url.value);
    if data.None? {
      return Err(FetchFailed(url.value));
    }
    r := SchemaFromDocument(data.value);
  }

  function Pairs(fields: map<string, SchemaField>, keys: seq<string>): seq<(string, SchemaField)>
    requires forall i :: 0 <= i < |keys| ==> keys[i] in fields
  {
    if keys == [] then [] else [(keys[0], fields[keys[0]])] + Pairs(fields, keys[1..])
  }

  lemma {:induction false} PairsOfKeys(fields: map<string, SchemaField>, keys: seq<string>)
    requires forall i :: 0 <= i < |keys| ==> keys[i] in fields
    ensures |Pairs(fields, keys)| == |keys|
    ensures forall i :: 0 <= i < |keys| ==> Pairs(fields, keys)[i] == (keys[i], fields[keys[i]])
  {
    if keys != [] {
      PairsOfKeys(fields, keys[1..]);
    }
  }

  /** `Schema.field_list`: the fields as (name, field) pairs, sorted by name. */
  function FieldList(fields: map<string, SchemaField>): seq<(string, SchemaField)> {
    Pairs(fields, SortedKeys(fields.Keys))
  }

  /** Every field once, with its own name, in increasing name order. */
  lemma FieldListSorted(fields: map<string, SchemaField>)
    ensures |FieldList(fields)| == |fields|
    ensures forall i :: 0 <= i < |fields| ==>
      FieldList(fields)[i].0 in fields && fields[FieldList(fields)[i].0] == FieldList(fields)[i].1
    ensures forall k :: k in fields ==> exists i :: 0 <= i < |fields| && FieldList(fields)[i].0 == k
    ensures forall i, j :: 0 <= i < j < |fields| ==> LexLess(FieldList(fields)[i].0, FieldList(fields)[j].0)
  {
    var keys := SortedKeys(fields.Keys);
    PairsOfKeys(fields, keys);
    assert forall k :: k in fields ==> k in keys;
  }

  // ------------------------------------------------------ field classes

  const FieldTypes: map<string, string> :=
    map["boolean" := "BooleanField", "string" := "CharField", "to_one" := "DeferredField",
        "to_many" := "ToManyField", "datetime" := "DateTimeField"]

  /** The classes the import block of a generated module imports. */
  const ImportedFieldClasses: set<string> :=
    {"CharField", "BooleanField", "DateTimeField", "DeferredField", "ToManyField", "UUIDField"}

  const UuidSuffix := "uuid"
  const UuidFieldClass := "UUIDField"
  const RelatedType := "related"

  function LookupType(field: string, t: Json): Result<string, BuildError> {
    if t.JStr? && t.s in FieldTypes then Ok(FieldTypes[t.s]) else Err(UnknownType(field))
  }

  /** The class a schema field is generated as: a name ending in `uuid` wins over any
      type, a `related` field uses its `related_type`, other types the table. */
  function FieldClass(f: SchemaField): Result<string, BuildError> {
    if EndsWith(f.name, UuidSuffix) then Ok(UuidFieldClass)
    else if f.typ == JStr(RelatedType) then LookupType(f.name, f.relatedType)
    else LookupType(f.name, f.typ)
  }

  /** A field becomes a `UUIDField` exactly when its name ends in `uuid`. */
  lemma UuidFieldExactlyBySuffix(f: SchemaField)
    ensures FieldClass(f) == Ok("UUIDField") <==> EndsWith(f.name, "uuid")
  {
    if !EndsWith(f.name, "uuid") {
      assert "UUIDField" !in FieldTypes.Values;
    }
  }

  /** Every class a generated field names is imported by the generated module. */
  lemma FieldClassesAreImported(f: SchemaField)
    requires FieldClass(f).Ok?
    ensures FieldClass(f).value in ImportedFieldClasses
  {
    assert FieldTypes.Values <= ImportedFieldClasses;
  }

  /** A related field's class is that of its related type, whatever its `type` says
      when its name ends in `uuid`. */
  lemma RelatedToOneIsDeferred(f: SchemaField)
    requires f.typ == JStr("related") && f.relatedType == JStr("to_one")
    ensures FieldClass(f) == Ok(if EndsWith(f.name, "uuid") then "UUIDField" else "DeferredField")
  {
  }

  /** Apart from a `uuid` name, a field can be generated exactly when the type that
      decides it (`related_type` for a related field, `type` otherwise) is in the
      table; any other type, a related field without `related_type` among them,
      fails with the field's name. */
  lemma UnknownTypeFails(f: SchemaField)
    requires !EndsWith(f.name, "uuid")
    ensures var t := if f.typ == JStr("related") then f.relatedType else f.typ;
      (FieldClass(f).Err? <==> !(t.JStr? && t.s in FieldTypes)) &&
      (FieldClass(f).Err? ==> FieldClass(f) == Err(UnknownType(f.name))) &&
      (FieldClass(f).Ok? ==> FieldClass(f).value == FieldTypes[t.s])
    ensures f.typ == JStr("integer") || (f.typ == JStr("related") && f.relatedType == JNull) ==>
      FieldClass(f) == Err(UnknownType(f.name))
  {
  }

  // ------------------------------------------------------------- help text

  /** `s.replace('"', '\\"')`, as written: backslashes and line breaks are left as
      they are. */
  function EscapeQuotes(s: string): (r: string)
    ensures |r| >= |s|
  {
    if s == [] then "" else (if s[0] == '"' then "\\\"" else [s[0]]) + EscapeQuotes(s[1..])
  }

  /** The escaping a double-quoted Python literal needs: backslash, quote and the two
      line-break characters are escaped. */
  function EscapeHelpText(s: string): (r: string)
    ensures |r| >= |s|
  {
    if s == [] then ""
    else
      (if s[0] == '\\' then "\\\\"
       else if s[0] == '"' then "\\\""
       else if s[0] == '\n' then "\\n"
       else if s[0] == '\r' then "\\r"
       else [s[0]]) + EscapeHelpText(s[1..])
  }

  /** Escape letters whose meaning this model does not decode. */
  predicate IsUnreadEscape(c: char) {
    c in "abfvxuUN01234567"
  }

  /** The text Python reads from `"<body>"` on one line. `None` when the body is not a
      complete literal: an unescaped quote or line break ends it early, or a final
      backslash escapes the closing quote; also for the escapes of `IsUnreadEscape`. */
  function ReadLiteral(body: string): Option<string>
    decreases |body|
  {
    if body == [] then Some("")
    else if body[0] == '"' || body[0] == '\n' || body[0] == '\r' then None
    else if body[0] != '\\' then
      match ReadLiteral(body[1..])
      case Some(rest) => Some([body[0]] + rest)
      case None => None
    else if |body| == 1 || IsUnreadEscape(body[1]) then None
    else
      var c := body[1];
      var decoded :=
        if c == 'n' then "\n"
        else if c == 'r' then "\r"
        else if c == 't' then "\t"
        else if c == '\\' || c == '"' || c == '\'' then [c]
        else ['\\', c];
      match ReadLiteral(body[2..])
      case Some(rest) => Some(decoded + rest)
      case None => None
  }

  /** The help text a generated module reads back is the schema's. */
  lemma {:induction false} EscapeHelpTextRoundTrip(s: string)
    ensures ReadLiteral(EscapeHelpText(s)) == Some(s)
  {
    if s != [] {
      EscapeHelpTextRoundTrip(s[1..]);
      var tail := EscapeHelpText(s[1..]);
      var c := s[0];
      if c == '\\' || c == '"' || c == '\n' || c == '\r' {
        var code := if c == '\n' then 'n' else if c == '\r' then 'r' else c;
        assert EscapeHelpText(s) == ['\\', code] + tail;
        ReadEscaped(code, tail, s[1..]);
      } else {
        assert EscapeHelpText(s) == [c] + tail;
        ReadPlain(c, tail, s[1..]);
      }
      assert [c] + s[1..] == s;
    }
  }

  /** One escape read back, ahead of a body that reads as `rest`. */
  lemma ReadEscaped(code: char, tail: string, rest: string)
    requires code == '\\' || code == '"' || code == 'n' || code == 'r'
    requires ReadLiteral(tail) == Some(rest)
    ensures ReadLiteral(['\\', code] + tail) ==
      Some([if code == 'n' then '\n' else if code == 'r' then '\r' else code] + rest)
  {
    var e := ['\\', code] + tail;
    assert !IsUnreadEscape(code);
    assert e[1] == code && e[2..] == tail;
  }

  /** One plain character read back, ahead of a body that reads as `rest`. */
  lemma ReadPlain(c: char, tail: string, rest: string)
    requires c != '\\' && c != '"' && c != '\n' && c != '\r'
    requires ReadLiteral(tail) == Some(rest)
    ensures ReadLiteral([c] + tail) == Some([c] + rest)
  {
    assert ([c] + tail)[1..] == tail;
  }

  /** As written, text without backslashes or line breaks reads back unchanged. */
  lemma {:induction false} EscapeQuotesPlainText(s: string)
    requires forall i :: 0 <= i < |s| ==> s[i] != '\\' && s[i] != '\n' && s[i] != '\r'
    ensures ReadLiteral(EscapeQuotes(s)) == Some(s)
  {
    if s != [] {
      EscapeQuotesPlainText(s[1..]);
      var e := EscapeQuotes(s);
      var tail := EscapeQuotes(s[1..]);
      var c := s[0];
      if c == '"' {
        assert e == ['\\', '"'] + tail;
        assert !IsUnreadEscape('"');
        assert e[2..] == tail;
      } else {
        assert e == [c] + tail;
        assert e[1..] == tail;
      }
      assert ReadLiteral(e) == Some([c] + s[1..]);
      assert [c] + s[1..] == s;
    }
  }

  /** As written, a help text ending in a backslash escapes the closing quote of
      the generated literal, and one with a line break splits it: neither generated
      module can be read. */
  lemma EscapeQuotesBreaks()
    ensures ReadLiteral(EscapeQuotes("C:\\")) == None
    ensures ReadLiteral(EscapeQuotes("a\nb")) == None
  {
    assert EscapeQuotes("C:\\") == "C:\\";
    assert ReadLiteral("\\") == None;
    assert ReadLiteral(":\\") == None;
    assert EscapeQuotes("a\nb") == "a\nb";
    assert ReadLiteral("\nb") == None;
  }

  // ---------------------------------------------------------------- names

  /** `s.title()` on ASCII letters: a letter after a letter is lowered, any other
      letter raised. */
  function Title(s: string): (r: string)
    ensures |r| == |s|
  {
    TitleAfter(s, false)
  }

  function TitleAfter(s: string, afterLetter: bool): (r: string)
    ensures |r| == |s|
  {
    if s == [] then ""
    else
      var c := s[0];
      var d := if !IsCased(c) then c else if afterLetter then LowerChar(c) else UpperChar(c);
      [d] + TitleAfter(s[1..], IsCased(c))
  }

  lemma {:induction false} TitleAfterAt(s: string, afterLetter: bool, i: nat)
    requires i < |s|
    ensures var before := if i == 0 then afterLetter else IsCased(s[i - 1]);
      TitleAfter(s, afterLetter)[i] ==
        (if !IsCased(s[i]) then s[i] else if before then LowerChar(s[i]) else UpperChar(s[i]))
  {
    if i > 0 {
      TitleAfterAt(s[1..], IsCased(s[0]), i - 1);
      assert TitleAfter(s, afterLetter)[i] == TitleAfter(s[1..], IsCased(s[0]))[i - 1];
    }
  }

  /** Each character of `s.title()`, from its own position: a word starts at every
      letter that does not follow a letter (after `_`, a digit or the start). */
  lemma TitleAt(s: string, i: nat)
    requires i < |s|
    ensures Title(s)[i] ==
      (if !IsCased(s[i]) then s[i]
       else if i > 0 && IsCased(s[i - 1]) then LowerChar(s[i]) else UpperChar(s[i]))
  {
    TitleAfterAt(s, false, i);
  }

  /** `name.title().replace("_", "")`: the generated class name. */
  function ClassName(name: string): (r: string)
    ensures forall i :: 0 <= i < |r| ==> r[i] != '_'
  {
    RemoveChar(Title(name), '_')
  }

  /** A one-word name is capitalised. */
  lemma ClassNameOfWord()
    ensures ClassName("entry") == "Entry"
  {
    assert "entry"[1..] == "ntry" && "ntry"[1..] == "try" && "try"[1..] == "ry" && "ry"[1..] == "y";
    assert TitleAfter("y", true) == "y";
    assert TitleAfter("ry", true) == "ry";
    assert TitleAfter("try", true) == "try";
    assert TitleAfter("ntry", true) == "ntry";
    assert Title("entry") == "Entry";
    RemoveCharAbsent("Entry", '_');
  }

  /** Each word of a name with underscores is capitalised and the underscores go. */
  lemma ClassNameOfWords()
    ensures ClassName("a_b") == "AB"
  {
    assert "a_b"[1..] == "_b" && "_b"[1..] == "b";
    assert TitleAfter("b", false) == "B";
    assert TitleAfter("_b", true) == "_B";
    assert Title("a_b") == "A_B";
    assert "A_B"[1..] == "_B" && "_B"[1..] == "B";
    var x := RemoveChar("_B", '_');
    assert x == "B";
    assert RemoveChar("A_B", '_') == "A" + x;
  }

  // ------------------------------------------------------- generated lines

  const Tab := "    "

  // Fragments of the generated text.
  const Quote := "'"
  const Comma := ","
  const Assign := " = "
  const OpenCall := "("
  const CloseCall := ")"
  const HelpTextOpen := "help_text=\""
  const HelpTextClose := "\","
  const BlankKey := "blank="
  const NullableKey := "nullable="
  const ReadonlyKey := "readonly="
  const UniqueKey := "unique="
  const ListEndpointOpen := "list_endpoint = '"
  const DefaultFormatOpen := "default_format = '"
  const DefaultLimitOpen := "default_limit = "
  const ClassOpen := "class "
  const ResourceBase := "(Resource):"
  const DefaultFormatAttr := "default_format"

  /** One buffered line: `tab_chars * level + s + "\n"`. */
  function Line(tab: string, level: nat, s: string): string {
    Repeat(tab, level) + s + "\n"
  }

  function Lines(tab: string, level: nat, texts: seq<string>): (r: seq<string>)
    ensures |r| == |texts|
    ensures forall i :: 0 <= i < |r| ==> r[i] == Line(tab, level, texts[i])
  {
    seq(|texts|, i requires 0 <= i < |texts| => Line(tab, level, texts[i]))
  }

  lemma LinesAppend(tab: string, level: nat, a: seq<string>, b: seq<string>)
    ensures Lines(tab, level, a + b) == Lines(tab, level, a) + Lines(tab, level, b)
  {
  }

  /** The line that opens a field: `<name> = <class>(`. */
  function FieldHeader(name: string, cls: string): string {
    name + Assign + cls + OpenCall
  }

  /** The six lines of one field, before indentation. */
  function FieldLines(f: SchemaField): (r: Result<seq<string>, BuildError>)
    ensures r.Ok? ==> |r.value| == 6
    ensures FieldClass(f).Err? ==> r == Err(FieldClass(f).error)
  {
    match FieldClass(f)
    case Err(e) => Err(e)
    case Ok(cls) =>
      if !f.helpText.JStr? then Err(HelpTextNotAString(f.name))
      else
        Ok([FieldHeader(f.name, cls),
            HelpTextOpen + EscapeQuotes(f.helpText.s) + HelpTextClose,
            BlankKey + PyStr(f.blank) + Comma,
            NullableKey + PyStr(f.nullable) + Comma,
            ReadonlyKey + PyStr(f.readonly) + Comma,
            UniqueKey + PyStr(f.unique) + CloseCall])
  }

  /** A field as buffered at `level`: its first line there, the keyword lines one
      level deeper. */
  function FieldText(tab: string, level: nat, f: SchemaField): (r: Result<seq<string>, BuildError>)
    ensures r.Ok? <==> FieldLines(f).Ok?
    ensures r.Ok? ==> |r.value| == 6
  {
    match FieldLines(f)
    case Err(e) => Err(e)
    case Ok(l) =>
      Ok([Line(tab, level, l[0]), Line(tab, level + 1, l[1]), Line(tab, level + 1, l[2]),
          Line(tab, level + 1, l[3]), Line(tab, level + 1, l[4]), Line(tab, level + 1, l[5])])
  }

  /** What `write_field` has buffered when it returns or raises: nothing when the
      field cannot be classified, only its first line when its help text is not a
      string, otherwise the whole field. */
  function FieldWritten(tab: string, level: nat, f: SchemaField): (w: seq<string>)
    ensures FieldText(tab, level, f).Ok? ==> w == FieldText(tab, level, f).value
    ensures FieldClass(f).Err? ==> w == []
    ensures FieldClass(f).Ok? && !f.helpText.JStr? ==> w == [Line(tab, level, FieldHeader(f.name, FieldClass(f).value))]
  {
    match FieldClass(f)
    case Err(_) => []
    case Ok(cls) =>
      if !f.helpText.JStr? then [Line(tab, level, FieldHeader(f.name, cls))]
      else FieldText(tab, level, f).value
  }

  /** The fields of a list buffered one after the other; the first error stops. */
  function FieldsText(tab: string, level: nat, fields: seq<(string, SchemaField)>): Result<seq<string>, BuildError> {
    if fields == [] then Ok([])
    else
      match FieldsText(tab, level, fields[..|fields| - 1])
      case Err(e) => Err(e)
      case Ok(before) =>
        match FieldText(tab, level, fields[|fields| - 1].1)
        case Err(e) => Err(e)
        case Ok(last) => Ok(before + last)
  }

  /** What the loop over the fields has buffered when it ends or a field raises: the
      fields before the first failing one, then what that one buffered. */
  function FieldsWritten(tab: string, level: nat, fields: seq<(string, SchemaField)>): (w: seq<string>)
    ensures FieldsText(tab, level, fields).Ok? ==> w == FieldsText(tab, level, fields).value
  {
    if fields == [] then []
    else
      match FieldsText(tab, level, fields[..|fields| - 1])
      case Err(_) => FieldsWritten(tab, level, fields[..|fields| - 1])
      case Ok(before) => before + FieldWritten(tab, level, fields[|fields| - 1].1)
  }

  /** Blocks joined one after the other; the first error stops. */
  function ConcatResults<T, E>(parts: seq<Result<seq<T>, E>>): Result<seq<T>, E> {
    if parts == [] then Ok([])
    else
      match ConcatResults(parts[..|parts| - 1])
      case Err(e) => Err(e)
      case Ok(before) =>
        match parts[|parts| - 1]
        case Err(e) => Err(e)
        case Ok(last) => Ok(before + last)
  }

  /** Joined blocks of six items each: block `i` sits at `6 * i`. */
  lemma {:induction false} ConcatResultsBlocks<T, E>(parts: seq<Result<seq<T>, E>>)
    requires ConcatResults(parts).Ok?
    requires forall i :: 0 <= i < |parts| && parts[i].Ok? ==> |parts[i].value| == 6
    ensures forall i :: 0 <= i < |parts| ==> parts[i].Ok?
    ensures |ConcatResults(parts).value| == 6 * |parts|
    ensures forall i :: 0 <= i < |parts| ==> ConcatResults(parts).value[6 * i..6 * i + 6] == parts[i].value
  {
    if parts != [] {
      var n := |parts| - 1;
      var init := parts[..n];
      ConcatResultsBlocks(init);
      var before := ConcatResults(init).value;
      var last := parts[n].value;
      var all := ConcatResults(parts).value;
      assert all == before + last;
      forall i | 0 <= i < |parts|
        ensures parts[i].Ok? && all[6 * i..6 * i + 6] == parts[i].value
      {
        if i < n {
          assert parts[i] == init[i];
          assert all[6 * i..6 * i + 6] == before[6 * i..6 * i + 6];
        } else {
          assert all[6 * i..6 * i + 6] == last;
        }
      }
    }
  }

  /** The blocks of the fields of a list, each on its own. */
  function FieldTexts(tab: string, level: nat, fields: seq<(string, SchemaField)>): (r: seq<Result<seq<string>, BuildError>>)
    ensures |r| == |fields|
    ensures forall i :: 0 <= i < |fields| ==> r[i] == FieldText(tab, level, fields[i].1)
  {
    seq(|fields|, i requires 0 <= i < |fields| => FieldText(tab, level, fields[i].1))
  }

  lemma {:induction false} FieldsTextIsConcat(tab: string, level: nat, fields: seq<(string, SchemaField)>)
    ensures FieldsText(tab, level, fields) == ConcatResults(FieldTexts(tab, level, fields))
  {
    if fields != [] {
      var n := |fields| - 1;
      FieldsTextIsConcat(tab, level, fields[..n]);
      assert FieldTexts(tab, level, fields)[..n] == FieldTexts(tab, level, fields[..n]);
    }
  }

  /** Six lines per field, in the order of the list. */
  lemma FieldsTextLength(tab: string, level: nat, fields: seq<(string, SchemaField)>)
    requires FieldsText(tab, level, fields).Ok?
    ensures |FieldsText(tab, level, fields).value| == 6 * |fields|
    ensures forall i :: 0 <= i < |fields| ==>
      FieldText(tab, level, fields[i].1).Ok? &&
      FieldsText(tab, level, fields).value[6 * i..6 * i + 6] == FieldText(tab, level, fields[i].1).value
  {
    FieldsTextIsConcat(tab, level, fields);
    ConcatResultsBlocks(FieldTexts(tab, level, fields));
  }

  /** The buffered class constants: `list_endpoint`, `default_format`,
      `default_limit` and a blank line, in that order. */
  function ConstantLines(listEndpoint: Json, schema: SchemaSlot): (r: Result<seq<string>, BuildError>)
    ensures r.Ok? <==> schema.Loaded?
    ensures r.Ok? ==> |r.value| == 4
  {
    match schema
    case SchemaClass => Err(NoSchemaAttribute(DefaultFormatAttr))
    case Loaded(s) =>
      Ok([ListEndpointLine(listEndpoint),
          DefaultFormatOpen + PyStr(s.defaultFormat) + Quote,
          DefaultLimitOpen + PyStr(s.defaultLimit),
          ""])
  }

  function ListEndpointLine(listEndpoint: Json): string {
    ListEndpointOpen + PyStr(listEndpoint) + Quote
  }

  function ClassHeader(name: string): string {
    ClassOpen + ClassName(name) + ResourceBase
  }

  /** The body of a resource class buffered at `level`: the constants, then the
      fields in name order; the first error stops. */
  function ClassBody(tab: string, level: nat, res: GenResource): Result<seq<string>, BuildError> {
    match ConstantLines(res.listEndpoint, res.schema)
    case Err(e) => Err(e)
    case Ok(constants) =>
      match FieldsText(tab, level, FieldList(res.schema.schema.fields))
      case Err(e) => Err(e)
      case Ok(fields) => Ok(Lines(tab, level, constants) + fields)
  }

  /** What the class body has buffered when it ends or raises: only the
      `list_endpoint` line when the schema is the class, otherwise the constants and
      what the fields buffered. */
  function ClassBodyWritten(tab: string, level: nat, res: GenResource): (w: seq<string>)
    ensures ClassBody(tab, level, res).Ok? ==> w == ClassBody(tab, level, res).value
    ensures res.schema.SchemaClass? ==> w == [Line(tab, level, ListEndpointLine(res.listEndpoint))]
  {
    match ConstantLines(res.listEndpoint, res.schema)
    case Err(_) => [Line(tab, level, ListEndpointLine(res.listEndpoint))]
    case Ok(constants) => Lines(tab, level, constants) + FieldsWritten(tab, level, FieldList(res.schema.schema.fields))
  }

  /** A resource class buffered at `level`: the class line, then the body one level
      deeper. */
  function ClassText(tab: string, level: nat, res: GenResource): Result<seq<string>, BuildError> {
    match ClassBody(tab, level + 1, res)
    case Err(e) => Err(e)
    case Ok(body) => Ok([Line(tab, level, ClassHeader(res.name))] + body)
  }

  /** What a class generator has buffered when it ends or raises: the class line,
      then what the body buffered. */
  function ClassWritten(tab: string, level: nat, res: GenResource): (w: seq<string>)
    ensures ClassText(tab, level, res).Ok? ==> w == ClassText(tab, level, res).value
    ensures |w| > 0 && w[0] == Line(tab, level, ClassHeader(res.name))
  {
    [Line(tab, level, ClassHeader(res.name))] + ClassBodyWritten(tab, level + 1, res)
  }

  /** What a resource class generator flushes. */
  function Source(res: GenResource): Result<seq<string>, BuildError> {
    ClassText(Tab, 0, res)
  }

  /** The generated source of a resource: its class line, its four constant lines,
      then the text of its fields sorted by name (laid out by `FieldsTextLength`). */
  lemma SourceLayout(res: GenResource)
    requires Source(res).Ok?
    ensures res.schema.Loaded?
    ensures var text := Source(res).value;
      var fields := FieldList(res.schema.schema.fields);
      |text| == 5 + 6 * |fields| &&
      text[0] == Line(Tab, 0, ClassHeader(res.name)) &&
      text[1..5] == Lines(Tab, 1, ConstantLines(res.listEndpoint, res.schema).value) &&
      FieldsText(Tab, 1, fields).Ok? && text[5..] == FieldsText(Tab, 1, fields).value
  {
    var fl := FieldList(res.schema.schema.fields);
    FieldsTextLength(Tab, 1, fl);
    var constants := Lines(Tab, 1, ConstantLines(res.listEndpoint, res.schema).value);
    var text := Source(res).value;
    assert text == [Line(Tab, 0, ClassHeader(res.name))] + (constants + FieldsText(Tab, 1, fl).value);
    HeadThenParts(Line(Tab, 0, ClassHeader(res.name)), constants, FieldsText(Tab, 1, fl).value);
  }

  lemma HeadThenParts<T>(x: T, a: seq<T>, b: seq<T>)
    ensures ([x] + (a + b))[0] == x
    ensures ([x] + (a + b))[1..|a| + 1] == a
    ensures ([x] + (a + b))[|a| + 1..] == b
  {
  }

  /** The first line of a field's block names the field and its class. */
  lemma FieldTextFirstLine(tab: string, level: nat, f: SchemaField)
    requires FieldText(tab, level, f).Ok?
    ensures FieldClass(f).Ok? && f.helpText.JStr?
    ensures FieldText(tab, level, f).value[0] == Line(tab, level, f.name + " = " + FieldClass(f).value + "(")
    ensures FieldText(tab, level, f).value[1] ==
      Line(tab, level + 1, "help_text=\"" + EscapeQuotes(f.helpText.s) + "\",")
  {
  }

  // -------------------------------------------------------------- resources

  /** What the builder's `Resource` keeps as its schema. */
  datatype SchemaSlot = SchemaClass | Loaded(schema: Schema)

  /** The `schema` argument: a `Schema` object, or a reference to fetch. */
  datatype SchemaArg = SchemaObject(schema: Schema) | SchemaRef(ref: Json)

  datatype GenResource = GenResource(name: string, listEndpoint: Json, schema: SchemaSlot)

  /** The schema `Resource.__init__` keeps, as written: given a `Schema` object it
      keeps the class `Schema` (line 77). */
  function KeptSchemaAsWritten(arg: SchemaArg, fetched: Schema): SchemaSlot {
    if arg.SchemaObject? then SchemaClass else Loaded(fetched)
  }

  /** The schema `Resource.__init__` is meant to keep: the object it is given. */
  function KeptSchema(arg: SchemaArg, fetched: Schema): (r: SchemaSlot)
    ensures r.Loaded?
  {
    if arg.SchemaObject? then Loaded(arg.schema) else Loaded(fetched)
  }

  /** As written, a resource given a `Schema` object cannot write its class
      constants: the class `Schema` has no `default_format`. */
  lemma SchemaObjectBreaksConstants(listEndpoint: Json, s: Schema, fetched: Schema)
    ensures ConstantLines(listEndpoint, KeptSchemaAsWritten(SchemaObject(s), fetched)) ==
      Err(NoSchemaAttribute("default_format"))
  {
  }

  /** As intended, every resource can write its class constants, and one given a
      `Schema` object writes that schema's format and limit. */
  lemma KeptSchemaWritesConstants(listEndpoint: Json, arg: SchemaArg, fetched: Schema)
    ensures ConstantLines(listEndpoint, KeptSchema(arg, fetched)).Ok?
    ensures arg.SchemaObject? ==>
      ConstantLines(listEndpoint, KeptSchema(arg, fetched)).value[1] ==
        "default_format = '" + PyStr(arg.schema.defaultFormat) + "'" &&
      ConstantLines(listEndpoint, KeptSchema(arg, fetched)).value[2] ==
        "default_limit = " + PyStr(arg.schema.defaultLimit)
  {
  }

  /** The resource made from a fetched schema, or the error fetching it raised. */
  function Made(name: string, listEndpoint: Json, fetched: Result<Schema, BuildError>): Result<GenResource, BuildError> {
    match fetched
    case Err(e) => Err(e)
    case Ok(s) => Ok(GenResource(name, listEndpoint, Loaded(s)))
  }

  /** `Resource(client, name, list_endpoint, schema)`: a reference is loaded at once;
      a `Schema` object is replaced by the class `Schema`, as written. */
  method NewResource(client: Client, name: string, listEndpoint: Json, schema: SchemaArg, net: Service)
    returns (r: Result<GenResource, BuildError>)
    modifies net`log
    ensures schema.SchemaObject? ==>
      r == Ok(GenResource(name, listEndpoint, SchemaClass)) && net.log == old(net.log)
    ensures schema.SchemaRef? ==> r == Made(name, listEndpoint, FetchedSchema(client, net.answer, schema.ref))
    ensures schema.SchemaRef? && SchemaUrl(client, schema.ref).None? ==> net.log == old(net.log)
    ensures schema.SchemaRef? && SchemaUrl(client, schema.ref).Some? ==>
      net.log == old(net.log) + [SchemaUrl(client, schema.ref).value]
  {
    if schema.SchemaObject? {
      return Ok(GenResource(name, listEndpoint, KeptSchemaAsWritten(schema, schema.schema)));
    }
    var loaded := LoadSchema(client, schema.ref, net);
    if loaded.Err? {
      return Err(loaded.error);
    }
    r := Ok(GenResource(name, listEndpoint, KeptSchemaAsWritten(schema, loaded.value)));
  }

  /** The keyword arguments an entry point must supply, no more and no fewer. */
  const EntryKeys: set<string> := {"list_endpoint", "schema"}

  /** What `Resource(client, name, **entry)` makes of one entry point: the entry
      must be an object holding exactly `list_endpoint` and `schema`, and the schema
      reference is fetched. */
  function EntryResource(client: Client, answer: string -> Option<Json>, name: string, entry: Json)
    : (r: Result<GenResource, BuildError>)
    ensures r.Ok? ==> r.value.name == name && r.value.schema.Loaded?
  {
    if !entry.JObject? then Err(NotAnObject)
    else if entry.members.Keys != EntryKeys then Err(BadKeyword)
    else Made(name, entry.members["list_endpoint"], FetchedSchema(client, answer, entry.members["schema"]))
  }

  // ------------------------------------------------------------- the backend

  /** The stream a generator flushes to: the chunks written so far. */
  class OutStream {
    var text: seq<string>

    constructor ()
      ensures text == []
    {
      text := [];
    }
  }

  /** `CodeGeneratorBackend`. */
  class CodeGenerator {
    var code: seq<string>
    const tabChars: string
    var level: nat
    const out: OutStream

    constructor (tabChars: string, out: OutStream)
      ensures code == [] && level == 0 && this.tabChars == tabChars && this.out == out
    {
      code := [];
      this.tabChars := tabChars;
      level := 0;
      this.out := out;
    }

    /** `write`: one line, indented to the current level, is buffered. */
    method Write(s: string)
      modifies this`code
      ensures code == old(code) + [Line(tabChars, level, s)]
    {
      code := code + [Repeat(tabChars, level) + s + "\n"];
    }

    method Indent()
      modifies this`level
      ensures level == old(level) + 1
    {
      level := level + 1;
    }

    /** `dedent`: refused at level 0. */
    method Dedent() returns (r: Outcome<BuildError>)
      modifies this`level
      ensures old(level) == 0 ==> r == Fail(DedentAtZero) && level == 0
      ensures old(level) > 0 ==> r == Pass && level == old(level) - 1
    {
      if level == 0 {
        return Fail(DedentAtZero);
      }
      level := level - 1;
      r := Pass;
    }

    /** `__exit__`: the buffer is written to the stream, also when the block raised. */
    method Exit()
      modifies out`text
      ensures out.text == old(out.text) + code
    {
      out.text := out.text + code;
    }
  }

  /** `Field.write_field`: nothing is buffered when the field cannot be classified;
      a help text that is not a string fails after the first line and the indent. */
  method WriteField(f: SchemaField, cg: CodeGenerator) returns (r: Outcome<BuildError>)
    modifies cg`code, cg`level
    ensures FieldClass(f).Err? ==> r == Fail(FieldClass(f).error) && cg.code == old(cg.code) && cg.level == old(cg.level)
    ensures r.Pass? <==> FieldText(cg.tabChars, old(cg.level), f).Ok?
    ensures r.Pass? ==> cg.code == old(cg.code) + FieldText(cg.tabChars, old(cg.level), f).value && cg.level == old(cg.level)
    ensures r.Fail? ==> r.error == FieldText(cg.tabChars, old(cg.level), f).error
    ensures FieldClass(f).Ok? && !f.helpText.JStr? ==>
      r == Fail(HelpTextNotAString(f.name)) && cg.level == old(cg.level) + 1 &&
      cg.code == old(cg.code) + [Line(cg.tabChars, old(cg.level), FieldHeader(f.name, FieldClass(f).value))]
    ensures cg.code == old(cg.code) + FieldWritten(cg.tabChars, old(cg.level), f)
  {
    var cls := FieldClass(f);
    if cls.Err? {
      return Fail(cls.error);
    }
    cg.Write(FieldHeader(f.name, cls.value));
    cg.Indent();
    if !f.helpText.JStr? {
      return Fail(HelpTextNotAString(f.name));
    }
    cg.Write(HelpTextOpen + EscapeQuotes(f.helpText.s) + HelpTextClose);
    cg.Write(BlankKey + PyStr(f.blank) + Comma);
    cg.Write(NullableKey + PyStr(f.nullable) + Comma);
    cg.Write(ReadonlyKey + PyStr(f.readonly) + Comma);
    cg.Write(UniqueKey + PyStr(f.unique) + CloseCall);
    r := cg.Dedent();
  }

  /** `Resource._write_fields`: the fields in the order of the list. */
  method WriteFields(fields: seq<(string, SchemaField)>, cg: CodeGenerator) returns (r: Outcome<BuildError>)
    modifies cg`code, cg`level
    ensures r.Pass? <==> FieldsText(cg.tabChars, old(cg.level), fields).Ok?
    ensures r.Pass? ==> cg.code == old(cg.code) + FieldsText(cg.tabChars, old(cg.level), fields).value &&
                        cg.level == old(cg.level)
    ensures r.Fail? ==> r.error == FieldsText(cg.tabChars, old(cg.level), fields).error
    ensures |cg.code| >= |old(cg.code)| && cg.code[..|old(cg.code)|] == old(cg.code)
    ensures cg.code == old(cg.code) + FieldsWritten(cg.tabChars, old(cg.level), fields)
  {
    ghost var tab, level, start := cg.tabChars, cg.level, cg.code;
    var i := 0;
    while i < |fields|
      invariant 0 <= i <= |fields|
      invariant FieldsText(tab, level, fields[..i]).Ok?
      invariant cg.code == start + FieldsText(tab, level, fields[..i]).value
      invariant cg.level == level
    {
      ghost var before := cg.code;
      var out := WriteField(fields[i].1, cg);
      if out.Fail? {
        FieldsTextPrefixError(tab, level, fields, i);
        FieldsWrittenAtError(tab, level, fields, i);
        AppendAssociative(start, FieldsText(tab, level, fields[..i]).value, FieldWritten(tab, level, fields[i].1));
        assert cg.code[..|start|] == before[..|start|];
        return out;
      }
      FieldsTextStep(tab, level, fields, i);
      AppendAssociative(start, FieldsText(tab, level, fields[..i]).value, FieldText(tab, level, fields[i].1).value);
      i := i + 1;
    }
    assert fields[..i] == fields;
    r := Pass;
  }

  lemma FieldsTextStep(tab: string, level: nat, fields: seq<(string, SchemaField)>, i: nat)
    requires i < |fields|
    requires FieldsText(tab, level, fields[..i]).Ok? && FieldText(tab, level, fields[i].1).Ok?
    ensures FieldsText(tab, level, fields[..i + 1]) ==
      Ok(FieldsText(tab, level, fields[..i]).value + FieldText(tab, level, fields[i].1).value)
  {
    var prefix := fields[..i + 1];
    assert prefix[..|prefix| - 1] == fields[..i];
    assert prefix[|prefix| - 1] == fields[i];
  }

  /** A field that fails makes the whole list fail with its error. */
  lemma {:induction false} FieldsTextPrefixError(tab: string, level: nat, fields: seq<(string, SchemaField)>, i: nat)
    requires i < |fields|
    requires FieldsText(tab, level, fields[..i]).Ok?
    requires FieldText(tab, level, fields[i].1).Err?
    ensures FieldsText(tab, level, fields).Err?
    ensures FieldsText(tab, level, fields).error == FieldText(tab, level, fields[i].1).error
    decreases |fields|
  {
    assert fields[..i + 1][..i] == fields[..i];
    if i + 1 < |fields| {
      var init := fields[..|fields| - 1];
      assert init[..i] == fields[..i];
      assert init[i] == fields[i];
      FieldsTextPrefixError(tab, level, init, i);
    } else {
      assert fields[..i] == fields[..|fields| - 1];
    }
  }

  /** A field that fails leaves buffered the fields before it and what it buffered
      itself, whatever follows it in the list. */
  lemma {:induction false} FieldsWrittenAtError(tab: string, level: nat, fields: seq<(string, SchemaField)>, i: nat)
    requires i < |fields|
    requires FieldsText(tab, level, fields[..i]).Ok?
    requires FieldText(tab, level, fields[i].1).Err?
    ensures FieldsWritten(tab, level, fields) ==
      FieldsText(tab, level, fields[..i]).value + FieldWritten(tab, level, fields[i].1)
    decreases |fields|
  {
    if i + 1 < |fields| {
      var init := fields[..|fields| - 1];
      assert init[..i] == fields[..i];
      assert init[i] == fields[i];
      FieldsTextPrefixError(tab, level, init, i);
      FieldsWrittenAtError(tab, level, init, i);
    } else {
      assert fields[..i] == fields[..|fields| - 1];
    }
  }

  /** `Resource._write_class_constants`: the first line is written before the schema
      is read. */
  method WriteClassConstants(listEndpoint: Json, schema: SchemaSlot, cg: CodeGenerator) returns (r: Outcome<BuildError>)
    modifies cg`code
    ensures r.Pass? <==> schema.Loaded?
    ensures r.Pass? ==> cg.code == old(cg.code) + Lines(cg.tabChars, cg.level, ConstantLines(listEndpoint, schema).value)
    ensures r.Fail? ==> (r == Fail(NoSchemaAttribute(DefaultFormatAttr)) &&
      cg.code == old(cg.code) + [Line(cg.tabChars, cg.level, ListEndpointLine(listEndpoint))])
  {
    cg.Write(ListEndpointLine(listEndpoint));
    if schema.SchemaClass? {
      return Fail(NoSchemaAttribute(DefaultFormatAttr));
    }
    cg.Write(DefaultFormatOpen + PyStr(schema.schema.defaultFormat) + Quote);
    cg.Write(DefaultLimitOpen + PyStr(schema.schema.defaultLimit));
    cg.Write("");
    r := Pass;
  }

  /** `Resource._write_generated_source`: a new generator writes the class line,
      indents, writes the constants and the fields, dedents, and is flushed at the end
      of its block, also when a step raised. */
  method WriteGeneratedSource(res: GenResource, out: OutStream) returns (r: Outcome<BuildError>)
    modifies out`text
    ensures r.Pass? <==> Source(res).Ok?
    ensures r.Pass? ==> out.text == old(out.text) + Source(res).value
    ensures r.Fail? ==> r.error == Source(res).error
    ensures |out.text| > |old(out.text)| && out.text[..|old(out.text)|] == old(out.text) &&
            out.text[|old(out.text)|] == Line(Tab, 0, ClassHeader(res.name))
    ensures out.text == old(out.text) + ClassWritten(Tab, 0, res)
  {
    ghost var written := ClassWritten(Tab, 0, res);
    var cg := new CodeGenerator(Tab, out);
    r := WriteClass(res, cg);
    assert cg.code == written;
    cg.Exit();
    PrefixOfAppend(old(out.text), written);
  }

  /** The class line, then the body one level deeper. */
  method WriteClass(res: GenResource, cg: CodeGenerator) returns (r: Outcome<BuildError>)
    modifies cg`code, cg`level
    ensures r.Pass? <==> ClassText(cg.tabChars, old(cg.level), res).Ok?
    ensures r.Pass? ==> cg.code == old(cg.code) + ClassText(cg.tabChars, old(cg.level), res).value &&
                        cg.level == old(cg.level)
    ensures r.Fail? ==> r.error == ClassText(cg.tabChars, old(cg.level), res).error
    ensures |cg.code| > |old(cg.code)| &&
            cg.code[..|old(cg.code)| + 1] == old(cg.code) + [Line(cg.tabChars, old(cg.level), ClassHeader(res.name))]
    ensures cg.code == old(cg.code) + ClassWritten(cg.tabChars, old(cg.level), res)
  {
    cg.Write(ClassHeader(res.name));
    ghost var header := cg.code;
    cg.Indent();
    ghost var body := ClassBody(cg.tabChars, cg.level, res);
    assert cg.level == old(cg.level) + 1;
    r := WriteClassBody(res, cg);
    assert r.Pass? <==> body.Ok?;
    if r.Pass? {
      assert cg.code == header + body.value;
      AppendAssociative(old(cg.code), [Line(cg.tabChars, old(cg.level), ClassHeader(res.name))], body.value);
      r := cg.Dedent();
    } else {
      assert r.error == body.error;
      AppendAssociative(old(cg.code), [Line(cg.tabChars, old(cg.level), ClassHeader(res.name))],
                        ClassBodyWritten(cg.tabChars, old(cg.level) + 1, res));
    }
  }

  lemma PrefixOfAppend<T>(a: seq<T>, b: seq<T>)
    ensures (a + b)[..|a|] == a
    ensures |b| > 0 ==> (a + b)[|a|] == b[0]
  {
  }

  /** The class body: the constants, then the fields in name order. */
  method WriteClassBody(res: GenResource, cg: CodeGenerator) returns (r: Outcome<BuildError>)
    modifies cg`code, cg`level
    ensures r.Pass? <==> ClassBody(cg.tabChars, old(cg.level), res).Ok?
    ensures r.Pass? ==> cg.code == old(cg.code) + ClassBody(cg.tabChars, old(cg.level), res).value &&
                        cg.level == old(cg.level)
    ensures r.Fail? ==> r.error == ClassBody(cg.tabChars, old(cg.level), res).error
    ensures |cg.code| >= |old(cg.code)| && cg.code[..|old(cg.code)|] == old(cg.code)
    ensures cg.code == old(cg.code) + ClassBodyWritten(cg.tabChars, old(cg.level), res)
  {
    ghost var tab, level, start := cg.tabChars, cg.level, cg.code;
    r := WriteClassConstants(res.listEndpoint, res.schema, cg);
    if r.Pass? {
      ghost var constants := Lines(tab, level, ConstantLines(res.listEndpoint, res.schema).value);
      var fields := FieldList(res.schema.schema.fields);
      r := WriteFields(fields, cg);
      AppendAssociative(start, constants, FieldsWritten(tab, level, fields));
    }
    PrefixOfAppend(start, ClassBodyWritten(tab, level, res));
  }

  /** The lines `_write_import_block` writes. */
  const ImportLines: seq<string> := [
    "from tastypieclient.fields import CharField",
    "from tastypieclient.fields import BooleanField",
    "from tastypieclient.fields import DateTimeField",
    "from tastypieclient.fields import DeferredField",
    "from tastypieclient.fields import ToManyField",
    "from tastypieclient.fields import UUIDField",
    "from tastypieclient.resources import Resource",
    ""]

  method WriteImportBlock(out: OutStream)
    modifies out`text
    ensures out.text == old(out.text) + Lines(Tab, 0, ImportLines)
  {
    var cg := new CodeGenerator(Tab, out);
    var i := 0;
    while i < |ImportLines|
      invariant 0 <= i <= |ImportLines|
      invariant cg.code == Lines(Tab, 0, ImportLines[..i]) && cg.level == 0
      invariant out.text == old(out.text)
    {
      cg.Write(ImportLines[i]);
      i := i + 1;
    }
    assert ImportLines[..i] == ImportLines;
    cg.Exit();
  }

  /** `ClientBuilder._write_resource`: the class, then two blank lines from a second
      generator; nothing more once the class failed. */
  method WriteResource(res: GenResource, out: OutStream) returns (r: Outcome<BuildError>)
    modifies out`text
    ensures r.Pass? <==> Chunk(res).Ok?
    ensures r.Pass? ==> out.text == old(out.text) + Chunk(res).value
    ensures r.Fail? ==> r.error == Chunk(res).error
    ensures |out.text| > |old(out.text)| && out.text[..|old(out.text)|] == old(out.text) &&
            out.text[|old(out.text)|] == Line(Tab, 0, ClassHeader(res.name))
    ensures out.text == old(out.text) + ChunkWritten(res)
  {
    r := WriteGeneratedSource(res, out);
    if r.Fail? {
      return;
    }
    ghost var text := out.text;
    var cg := new CodeGenerator(Tab, out);
    cg.Write("");
    cg.Write("");
    assert Line(Tab, 0, "") == "\n";
    assert cg.code == BlankLines;
    cg.Exit();
    AppendAssociative(old(out.text), Source(res).value, BlankLines);
    PrefixOfAppend(text, BlankLines);
  }

  /** The two blank lines that follow every class. */
  const BlankLines: seq<string> := ["\n", "\n"]

  /** The text written for one resource: its class, then two blank lines. */
  function Chunk(res: GenResource): Result<seq<string>, BuildError> {
    match Source(res)
    case Err(e) => Err(e)
    case Ok(text) => Ok(text + BlankLines)
  }

  /** What `_write_resource` has written when it returns or raises: the flushed
      class, then the blank lines only when the class did not fail. */
  function ChunkWritten(res: GenResource): (w: seq<string>)
    ensures Chunk(res).Ok? ==> w == Chunk(res).value
    ensures Chunk(res).Err? ==> w == ClassWritten(Tab, 0, res)
  {
    match Source(res)
    case Err(_) => ClassWritten(Tab, 0, res)
    case Ok(text) => text + BlankLines
  }

  /** The text written for a list of resources, one chunk after the other; the
      first class that fails stops the text. */
  function ModuleText(resources: seq<GenResource>): Result<seq<string>, BuildError> {
    ConcatMap(resources, Chunk)
  }

  /** The parts `f` makes of the items, joined in order; the first error stops. */
  function ConcatMap<T, U, E>(items: seq<T>, f: T -> Result<seq<U>, E>): Result<seq<U>, E> {
    if items == [] then Ok([])
    else
      match ConcatMap(items[..|items| - 1], f)
      case Err(e) => Err(e)
      case Ok(before) =>
        match f(items[|items| - 1])
        case Err(e) => Err(e)
        case Ok(last) => Ok(before + last)
  }

  lemma ConcatMapStep<T, U, E>(items: seq<T>, f: T -> Result<seq<U>, E>, i: nat)
    requires i < |items|
    requires ConcatMap(items[..i], f).Ok? && f(items[i]).Ok?
    ensures ConcatMap(items[..i + 1], f) == Ok(ConcatMap(items[..i], f).value + f(items[i]).value)
  {
    var prefix := items[..i + 1];
    assert prefix[..|prefix| - 1] == items[..i];
    assert prefix[|prefix| - 1] == items[i];
  }

  /** An item that fails makes the whole join fail with its error. */
  lemma {:induction false} ConcatMapPrefixError<T, U, E>(items: seq<T>, f: T -> Result<seq<U>, E>, i: nat)
    requires i < |items|
    requires ConcatMap(items[..i], f).Ok?
    requires f(items[i]).Err?
    ensures ConcatMap(items, f).Err?
    ensures ConcatMap(items, f).error == f(items[i]).error
    decreases |items|
  {
    assert items[..i + 1][..i] == items[..i];
    if i + 1 < |items| {
      var init := items[..|items| - 1];
      assert init[..i] == items[..i];
      assert init[i] == items[i];
      ConcatMapPrefixError(init, f, i);
    } else {
      assert items[..i] == items[..|items| - 1];
    }
  }

  /** What the loop over the resources has written when it ends or a class raises:
      the resources before the first failing one, then what that one wrote. */
  function ModuleWritten(resources: seq<GenResource>): (w: seq<string>)
    ensures ModuleText(resources).Ok? ==> w == ModuleText(resources).value
  {
    if resources == [] then []
    else
      match ModuleText(resources[..|resources| - 1])
      case Err(_) => ModuleWritten(resources[..|resources| - 1])
      case Ok(before) => before + ChunkWritten(resources[|resources| - 1])
  }

  lemma ModuleTextStep(resources: seq<GenResource>, i: nat)
    requires i < |resources|
    requires ModuleText(resources[..i]).Ok? && Chunk(resources[i]).Ok?
    ensures ModuleText(resources[..i + 1]) == Ok(ModuleText(resources[..i]).value + Chunk(resources[i]).value)
  {
    ConcatMapStep(resources, Chunk, i);
  }

  /** A resource whose class fails makes the whole module fail with its error. */
  lemma ModuleTextPrefixError(resources: seq<GenResource>, i: nat)
    requires i < |resources|
    requires ModuleText(resources[..i]).Ok? && Chunk(resources[i]).Err?
    ensures ModuleText(resources).Err? && ModuleText(resources).error == Chunk(resources[i]).error
  {
    ConcatMapPrefixError(resources, Chunk, i);
  }

  /** A resource whose class fails leaves written the resources before it and its
      own flushed class, whatever follows it in the list. */
  lemma {:induction false} ModuleWrittenAtError(resources: seq<GenResource>, i: nat)
    requires i < |resources|
    requires ModuleText(resources[..i]).Ok? && Chunk(resources[i]).Err?
    ensures ModuleWritten(resources) == ModuleText(resources[..i]).value + ChunkWritten(resources[i])
    decreases |resources|
  {
    if i + 1 < |resources| {
      var init := resources[..|resources| - 1];
      assert init[..i] == resources[..i];
      assert init[i] == resources[i];
      ModuleTextPrefixError(init, i);
      ModuleWrittenAtError(init, i);
    } else {
      assert resources[..i] == resources[..|resources| - 1];
    }
  }

  /** The `for resource in resources` loop of `generate_client`. */
  method WriteResources(resources: seq<GenResource>, out: OutStream) returns (r: Outcome<BuildError>)
    modifies out`text
    ensures r.Pass? <==> ModuleText(resources).Ok?
    ensures r.Pass? ==> out.text == old(out.text) + ModuleText(resources).value
    ensures r.Fail? ==> r.error == ModuleText(resources).error
    ensures |out.text| >= |old(out.text)| && out.text[..|old(out.text)|] == old(out.text)
    ensures out.text == old(out.text) + ModuleWritten(resources)
  {
    var i := 0;
    ghost var written: seq<string> := [];
    while i < |resources|
      invariant 0 <= i <= |resources|
      invariant ModuleText(resources[..i]) == Ok(written)
      invariant out.text == old(out.text) + written
    {
      var done := WriteResource(resources[i], out);
      if done.Fail? {
        ModuleTextPrefixError(resources, i);
        ModuleWrittenAtError(resources, i);
        AppendAssociative(old(out.text), written, ChunkWritten(resources[i]));
        PrefixOfAppend(old(out.text), written);
        return done;
      }
      ModuleTextStep(resources, i);
      AppendAssociative(old(out.text), written, Chunk(resources[i]).value);
      written := written + Chunk(resources[i]).value;
      i := i + 1;
    }
    assert resources[..i] == resources;
    r := Pass;
  }

  /** The resources made so far: one per listed entry point, each from its own entry. */
  ghost predicate AllMade(client: Client, answer: string -> Option<Json>, entries: map<string, Json>,
                          order: seq<string>, resources: seq<GenResource>) {
    |resources| == |order| &&
    forall i :: 0 <= i < |order| ==> (order[i] in entries &&
      EntryResource(client, answer, order[i], entries[order[i]]) == Ok(resources[i]))
  }

  lemma AllMadeStep(client: Client, answer: string -> Option<Json>, entries: map<string, Json>,
                    order: seq<string>, resources: seq<GenResource>, name: string, res: GenResource)
    requires AllMade(client, answer, entries, order, resources)
    requires name in entries && EntryResource(client, answer, name, entries[name]) == Ok(res)
    ensures AllMade(client, answer, entries, order + [name], resources + [res])
  {
    var order', resources' := order + [name], resources + [res];
    forall i | 0 <= i < |order'|
      ensures order'[i] in entries && EntryResource(client, answer, order'[i], entries[order'[i]]) == Ok(resources'[i])
    {
      if i < |order| {
        assert order'[i] == order[i] && resources'[i] == resources[i];
      }
    }
  }

  /** The list comprehension of `generate_client`: one resource per entry point, in
      the dictionary's order (reported in `order`); the first entry that fails stops. */
  method CollectResources(client: Client, entries: map<string, Json>, net: Service)
    returns (r: Result<seq<GenResource>, BuildError>, order: seq<string>)
    modifies net`log
    ensures |net.log| >= |old(net.log)| && net.log[..|old(net.log)|] == old(net.log)
    ensures r.Ok? ==>
      |order| == |entries| && |r.value| == |order| &&
      (forall k :: k in order <==> k in entries) &&
      (forall i :: 0 <= i < |order| ==> (order[i] in entries &&
        EntryResource(client, net.answer, order[i], entries[order[i]]) == Ok(r.value[i]))) &&
      |net.log| == |old(net.log)| + |order|
    ensures r.Err? ==>
      exists k :: k in entries && k !in order && EntryResource(client, net.answer, k, entries[k]) == Err(r.error)
  {
    order := [];
    var todo := entries.Keys;
    var resources: seq<GenResource> := [];
    while todo != {}
      invariant todo <= entries.Keys
      invariant |order| + |todo| == |entries|
      invariant forall k :: k in order <==> k in entries && k !in todo
      invariant AllMade(client, net.answer, entries, order, resources)
      invariant |net.log| == |old(net.log)| + |order| && net.log[..|old(net.log)|] == old(net.log)
      decreases |todo|
    {
      var name :| name in todo;
      var entry := entries[name];
      if !entry.JObject? {
        return Err(NotAnObject), order;
      }
      if entry.members.Keys != EntryKeys {
        return Err(BadKeyword), order;
      }
      ghost var logBefore := net.log;
      var res := NewResource(client, name, entry.members["list_endpoint"], SchemaRef(entry.members["schema"]), net);
      assert net.log[..|old(net.log)|] == logBefore[..|old(net.log)|];
      if res.Err? {
        return Err(res.error), order;
      }
      AllMadeStep(client, net.answer, entries, order, resources, name, res.value);
      resources := resources + [res.value];
      order := order + [name];
      todo := todo - {name};
    }
    r := Ok(resources);
  }

  /** `ClientBuilder.generate_client`, with the output file as a stream: the entry
      points are fetched from the base URL and one resource is made per entry point;
      only then is the file written: the import block, then every resource. */
  method GenerateClient(client: Client, net: Service, out: OutStream)
    returns (r: Outcome<BuildError>, order: seq<string>, resources: seq<GenResource>)
    modifies net`log, out`text
    ensures |net.log| >= |old(net.log)| + 1 && net.log[..|old(net.log)| + 1] == old(net.log) + [client.baseUrl]
    ensures net.answer(client.baseUrl).None? ==> r == Fail(FetchFailed(client.baseUrl)) && out.text == old(out.text)
    ensures out.text != old(out.text) ==>
      net.answer(client.baseUrl).Some? && net.answer(client.baseUrl).value.JObject? &&
      var entries := net.answer(client.baseUrl).value.members;
      |order| == |entries| && |resources| == |order| &&
      (forall k :: k in order <==> k in entries) &&
      (forall i :: 0 <= i < |order| ==> (order[i] in entries &&
        EntryResource(client, net.answer, order[i], entries[order[i]]) == Ok(resources[i]))) &&
      |out.text| >= |old(out.text)| + |ImportLines| &&
      out.text[..|old(out.text)| + |ImportLines|] == old(out.text) + Lines(Tab, 0, ImportLines)
    ensures r.Pass? ==> (out.text != old(out.text) && ModuleText(resources).Ok? &&
      out.text == old(out.text) + Lines(Tab, 0, ImportLines) + ModuleText(resources).value)
    ensures out.text != old(out.text) ==>
      r.Pass? == ModuleText(resources).Ok? &&
      (r.Fail? ==> r.error == ModuleText(resources).error) &&
      out.text == old(out.text) + Lines(Tab, 0, ImportLines) + ModuleWritten(resources)
  {
    order, resources := [], [];
    var data := net.Get(client.baseUrl);
    if data.None? {
      return Fail(FetchFailed(client.baseUrl)), order, resources;
    }
    if !data.value.JObject? {
      return Fail(NotAnObject), order, resources;
    }
    ghost var logAfterGet := net.log;
    var made;
    made, order := CollectResources(client, data.value.members, net);
    assert net.log[..|old(net.log)| + 1] == logAfterGet[..|old(net.log)| + 1];
    if made.Err? {
      return Fail(made.error), order, resources;
    }
    resources := made.value;
    WriteImportBlock(out);
    ghost var afterImports := out.text;
    r := WriteResources(resources, out);
    assert out.text[..|afterImports|] == afterImports;
    assert |Lines(Tab, 0, ImportLines)| == |ImportLines| > 0;
  }
}
