# tastypie client: a Dafny model

The repository has two parts.

- **A runtime library** for clients of a TastyPie REST service.
  - A `Resource` subclass declares typed fields: text, boolean, date-time, UUID, a deferred relation to one object, and a relation to many objects.
  - The `ResourceMetaClass` registers those fields on the class and writes a docstring listing them.
  - Assigning to a field coerces the value, enforces the `nullable` and `readonly` options, and stores it in the instance's dictionary.
  - Reading a deferred relation fetches the related object over HTTP. If no related class was given, it is inferred from the registered `Resource` subclasses, and the fetched object is cached.
- **A generator** (`client_builder.py`).
  - It reads the service's entry points and each resource's schema.
  - It then writes a Python module with one `Resource` subclass per entry point, through a small indenting code-generator backend.

The Dafny modules follow that structure:

- `Fields` (`fields.dfy`) models `fields.py` (the two copies in the repository are identical) and `tastypieclient/resources.py`.
- `ClientBuilder` (`client_builder.dfy`) models `tastypie-client/client_builder.py`.
- `Strings`, `Urls` and `Uuids` model the parts of Python's `str`, `urlparse`/`urljoin` and `uuid` that the core relies on.
- `Subclasses` models the class hierarchy that `Resource.__subclasses__()` walks.
- `Network` models `requests.get` followed by `json.loads`, as a service with a fixed answer per URL and a log of requested URLs.
- `Wrappers` and `Json` hold shared value types.

Python exceptions become `Err`/`Fail` values carrying an error datatype.

Objects whose attributes the source updates in place are classes with `modifies` frames:
- a field descriptor (`Field`);
- a resource class (`ResourceClass`);
- a resource instance (`Resource`);
- the code generator (`CodeGenerator`);
- the output stream (`OutStream`).

The pure parts are functions: coercions, schema decoding, the generated text, and the class search order. Each writing method is proved to produce exactly the text of a specification function, for example `Source`, `Chunk` or `ModuleText`. The properties are proved about those functions.

The model follows the code as it is written. Where the code evidently misbehaves, the stateful model keeps the written behaviour, and a corrected definition with its proved property sits beside it (see "## Findings"). Some behaviours of the code that the model keeps:

- **Relation cache.** A deferred relation's cache is kept on the descriptor (`fields.py:304`, `328`, `344`), so every instance of the class shares it. `Field.cache` models it.
- **Class search order.** The related class is searched over a worklist that is extended with each class's subclasses (`fields.py:319-325`). A class's subclasses are therefore visited after its siblings: the order is breadth-first.
- **No matching class.** When no class matches, the search yields `None`, and calling it fails: `NoResourceClass`.
- **Unset attribute.** Reading an attribute that was never set raises `AttributeError` (`MissingAttribute`). A stored falsy value is returned as it is.
- **Entry-point order.** The generated classes follow the iteration order of the decoded JSON object. `CollectResources` and `GenerateClient` return that order (`order`).
- **Partial output.** A code generator flushes its buffer when its `with` block ends, also when a step inside raised (`client_builder.py:189-190`). The functions named `...Written` (`FieldWritten` up to `ModuleWritten`) give the text that is then in the buffer or the file, and every writer is proved to produce exactly that text, whether it succeeds or fails.

## Model

| member | source | states |
|---|---|---|
| `Fields.CharCoerce` | tastypie-client/fields.py:197-201 | A `CharField` always stores text. The text is empty exactly when the value given is falsy, and text passes unchanged. |
| `Fields.UuidCoerce` | tastypie-client/fields.py:185-194 | Falsy values and UUIDs pass unchanged. Any other accepted value becomes a UUID. A true value that is neither text nor a UUID is refused. |
| `Fields.UuidOfText` | tastypie-client/fields.py:190-191 | Setting a `UUIDField` to the canonical text of a UUID stores that UUID. |
| `Fields.DateTimeCoerce` | tastypie-client/fields.py:215-223 | Falsy values pass unchanged. A true value is accepted exactly when it is text the date parser accepts, and the parsed date is stored. |
| `Fields.DeferredCoerce` | tastypie-client/fields.py:348-351 | As written: a deferred relation accepts exactly text values (URLs), unchanged. |
| `Fields.DeferredCoerceIntended` | tastypie-client/fields.py:348-351 | Corrected: a deferred relation accepts text values and `None`, unchanged. |
| `Fields.BooleanCoerce` | tastypie-client/fields.py:204-212 | As written: `None` is kept, and every other value becomes a boolean. |
| `Fields.BooleanCoerceIntended` | tastypie-client/fields.py:204-212 | Corrected: `None` is kept, and every other value becomes a boolean. What each string becomes is stated by `BooleanFalseTextIsFalse`. |
| `Fields.BooleanFalseTextIsTrue` | tastypie-client/fields.py:206-209 | As written, every string becomes `True`, `"false"` in any case included, and a field that is not locked stores `True`. |
| `Fields.BooleanFalseTextIsFalse` | tastypie-client/fields.py:206-211 | Corrected: a string becomes `False` exactly when its lower case is `false`, and `True` otherwise. Non-text values are converted as written. |
| `Fields.NonNullableRejectsNone` | tastypie-client/fields.py:170-172 | Assigning `None` to a non-nullable field fails with the non-nullable error. |
| `Fields.ReadOnlyFirstAssignment` | tastypie-client/fields.py:170-182 | A read-only field that holds nothing or `None` accepts any value the nullable check lets through, and stores it. |
| `Fields.ReadOnlySetOnce` | tastypie-client/fields.py:176-180 | Once a read-only field holds a value other than `None`, every later assignment fails. |
| `Fields.AssignThenLookup` | tastypie-client/fields.py:120-124 | A value that was assigned reads back unchanged, and every other key of the instance dictionary is untouched. |
| `Fields.CharNeverNull` | tastypie-client/fields.py:197-201 | A `CharField` never reports the non-nullable error, because `None` is turned into text first. What it stores is text. |
| `Fields.RelationRejectsNone` | tastypie-client/fields.py:350-351 | As written, `None` is refused by a deferred relation, whatever its options. |
| `Fields.RelationNullable` | tastypie-client/fields.py:348-354 | Corrected: given `None`, a nullable relation that is not locked stores it, and a non-nullable one refuses it with the non-nullable error. A value other than `None` is handled as written. |
| `Fields.DeferredKey` | tastypie-client/fields.py:283 | The key of the i-th expanded URL starts with `_`, so it is never a public field name. |
| `Fields.DeferredKeyInjective` | tastypie-client/fields.py:283 | Different positions give different keys. |
| `Fields.WriteUrlsStores` | tastypie-client/fields.py:280-285 | After expanding a list, the i-th URL is stored under the i-th key. |
| `Fields.WriteUrlsKeeps` | tastypie-client/fields.py:280-285 | Expanding a list leaves every key other than the written ones exactly as it was. |
| `Fields.LeftoverKeysSurvive` | tastypie-client/fields.py:280-287 | Keys written for a longer earlier list are not removed by a shorter one. |
| `Fields.WriteUrlsKeepsPublic` | tastypie-client/fields.py:280-285 | Expanding a list changes no public attribute of the instance. |
| `Fields.FirstNonString` | tastypie-client/fields.py:281-284 | The expansion stops at the first URL that is not text, and every earlier one is text. |
| `Fields.TargetOfPath` | tastypie-client/fields.py:336-338 | A path without a host is fetched from the instance's base host, on the base URL's host, with the path kept. |
| `Fields.FirstMatchSpec` | tastypie-client/fields.py:321-325 | The search finds the first class, in search order, whose list endpoint prefixes the path, after only misses. It finds nothing exactly when every class misses. It fails only at a class with no list endpoint, reached after misses. |
| `Fields.GetRelatedResourceClass` | tastypie-client/fields.py:307-325 | The worklist loop yields the first match over the breadth-first order of the subclass forest, on the path of the URI. |
| `Fields.FoundClassIsRegistered` | tastypie-client/fields.py:319-325 | A class that is found is one of the registered subclasses. |
| `Subclasses.BreadthFirstVisitsAll` | tastypie-client/fields.py:320-324 | The worklist visits every class of the forest exactly once (as a multiset). |
| `Subclasses.BreadthFirstStartsWithQueue` | tastypie-client/fields.py:320-324 | The direct subclasses are visited first, in their order. |
| `Subclasses.BreadthFirstIsNotDepthFirst` | tastypie-client/fields.py:320-324 | For a concrete forest, the extended-list walk differs from a depth-first walk. |
| `Subclasses.ForestSizeNext` | tastypie-client/fields.py:321-324 | Replacing the head of the worklist by its subclasses shrinks the remaining work, so the walk ends. |
| `Fields.Field.constructor` | tastypie-client/fields.py:12-44 | A new field has no name, no owner and no cached object, with the given options and related class. |
| `Fields.Field.ContributeToClass` | tastypie-client/fields.py:67-70 | A field keeps the name it already has, or else takes the attribute name. Its owner becomes the class. |
| `Fields.Field.Set` | tastypie-client/fields.py:126-182 | Assignment stores the value as the field's own `__set__` converts it as written, or reports the error without changing the dictionary. Only the field's own key changes. A deferred relation drops its cache exactly when given a URL. |
| `Fields.Field.DeferredSet` | tastypie-client/fields.py:348-354 | As written, a relation accepts only a URL: `None` and every other non-text value fail, and nothing changes. A URL clears the cache and then goes through the nullable and read-only checks. |
| `Fields.Field.ToManySet` | tastypie-client/fields.py:272-287 | A falsy value is assigned as it is. Otherwise the field records the instance's base URL and refuses non-lists. Each URL is written under its own key, stopping at the first non-text URL. A list of deferred relations, one per URL, is stored, and no other public key changes. |
| `Fields.Field.ExpandUrls` | tastypie-client/fields.py:280-285 | The expansion writes URLs up to the first non-text one. It succeeds exactly when all are text, and then builds one fresh relation per URL. |
| `Fields.NewDeferred` | tastypie-client/fields.py:282-284 | A fresh relation is named by its key and stores its URL, or fails without change when the URL is not text. |
| `Fields.Field.Delete` | tastypie-client/fields.py:356-361 | Deleting a relation only clears its cache. |
| `Fields.Field.SameFetch` | tastypie-client/fields.py:327-340 | What a read would fetch depends only on the cache, the name and the instance dictionary. |
| `Fields.Field.Resolve` | tastypie-client/fields.py:327-346 | A cached object is returned without a fetch. A missing attribute fails, and a falsy value is returned as it is. Otherwise exactly the pending URL is fetched and an object is built on the instance's base URL and cached. Its class is the given one, or the first match for the URL's path, which is then remembered. |
| `Fields.Length` | tastypie-client/fields.py:237-238 | A list of relations has length zero exactly when it is falsy. |
| `Fields.PyIndex` | tastypie-client/fields.py:245-246 | Python indexing: an index is valid in `-n..n-1`, and a negative one counts from the end. |
| `Fields.SliceBound` | tastypie-client/fields.py:241-243 | Python slice bounds: a missing bound takes its default, and negative bounds count from the end, clamped to the list. |
| `Fields.SliceBounds` | tastypie-client/fields.py:241-243 | A slice's bounds are ordered within the list, and `[:]` is the whole list. |
| `Fields.ResolveAt` | tastypie-client/fields.py:245-246 | Resolving one element fetches exactly that element's pending URL and caches the result. Every other element is untouched. |
| `Fields.GetItem` | tastypie-client/fields.py:240-246 | Indexing out of range fails without a fetch. Otherwise only the indexed relation is resolved, and nothing else changes. |
| `Fields.ResolveRange` | tastypie-client/fields.py:242-243 | Resolving a range fetches the pending URLs of that range in order, returns one value per element, and touches no element outside it. |
| `Fields.GetSlice` | tastypie-client/fields.py:241-243 | Indexing with a slice object resolves exactly the sliced relations, in order, one value each. Elements outside it are untouched. |
| `Fields.ResourceClass.constructor` | tastypieclient/resources.py:2-41 | The class's fields are exactly its public field attributes, and every field attribute is owned by the class. Unnamed fields take their attribute name. The list endpoint is its own or inherited. Fresh unshared fields leave the class well named. |
| `Fields.UndocumentedClassDoc` | tastypieclient/resources.py:15-18 | A class without a docstring gets `Name(f1, f2, ...)`, with its field names in strictly increasing order. |
| `Fields.DocStringOfTwoFields` | tastypieclient/resources.py:15-18 | For example, fields `title` and `body` give the docstring `Entry(body, title)`. |
| `Fields.Resource.constructor` | tastypieclient/resources.py:59 | A new instance has its class, its base URL and an empty dictionary. |
| `Fields.Resource.SetAttr` | tastypieclient/resources.py:63 | Setting one attribute through its descriptor stores the value as that field's `__set__` converts it, and changes no other public key. |
| `Fields.Resource.Init` | tastypieclient/resources.py:60-63 | Success means every required field was given. Every field then holds what its `__set__` stores for its argument, or for `None` when the argument is absent. No other public key appears. |
| `Fields.AbsentRelationNotPopulated` | tastypieclient/resources.py:60-63 | As written, an instance whose class has a to-one relation missing from the keyword arguments is never populated, because the `None` assigned to it is refused. So `Init` and `Instantiate` fail for it. |
| `Fields.Instantiate` | tastypieclient/resources.py:47-64 | Constructing with an explicit `base_url` keyword fails. A success is a fresh instance of the class on the base URL, populated from the keywords as `Init` states, with all required fields given. |
| `Network.Service.Get` | tastypie-client/fields.py:340 | A fetch returns the service's answer for the URL and appends the URL to the log. |
| `Strings.SortedKeys` | tastypieclient/resources.py:18 | `sorted` of a set of names: every name once, in strictly increasing order. |
| `Strings.SortedKeysHead` | tastypieclient/resources.py:18 | A sorted list starts with the least name, followed by the sorted rest. |
| `Strings.LexLessTotal` | tastypie-client/client_builder.py:126 | Python's string order is total. |
| `Strings.LexLessTransitive` | tastypie-client/client_builder.py:126 | Python's string order is transitive. |
| `Strings.NatToStringInjective` | tastypie-client/fields.py:283 | Different counters print differently. |
| `Strings.Repeat` | tastypie-client/client_builder.py:193 | `tab_chars * level` has `level` times the length of `tab_chars`. |
| `Urls.BaseHostKeepsHost` | tastypie-client/client_builder.py:17-18 | The base host keeps the scheme and host of the base URL, with an empty path. |
| `Urls.JoinAbsolutePath` | tastypie-client/fields.py:336-338 | Joining an absolute path to a base URL keeps the base's scheme and host and takes the path. |
| `Urls.SplitOfPath` | tastypie-client/fields.py:336 | A bare path has no host, so it is joined onto the base. |
| `Urls.SplitParts` | tastypie-client/fields.py:336 | `urlparse` yields a well-formed scheme and host. |
| `Uuids.ParseFormat` | tastypie-client/fields.py:190-191 | The text of a UUID parses back to the same UUID. |
| `Uuids.ParseBraces` | tastypie-client/fields.py:190-191 | The braced form names the same UUID. |
| `ClientBuilder.NewClient` | tastypie-client/client_builder.py:16-19 | The client keeps its base URL, and its base host has that URL's scheme and host. |
| `ClientBuilder.SchemaUrlOfPath` | tastypie-client/client_builder.py:115-116 | A schema path is fetched from the base host, on the base URL's host. |
| `ClientBuilder.NewSchemaField` | tastypie-client/client_builder.py:130-144 | A field declaration is accepted exactly when it is an object of known keywords that has a `type`. Each keyword is taken from the declaration when given. Otherwise `related_type` and `default` are `None`, `blank`, `nullable`, `unique` and `readonly` are false, and `help_text` is empty. |
| `ClientBuilder.FirstBadField` | tastypie-client/client_builder.py:121-122 | No error is found exactly when every declaration is accepted. |
| `ClientBuilder.SchemaFields` | tastypie-client/client_builder.py:121-122 | The schema has exactly the declared field names. |
| `ClientBuilder.SchemaFieldsSpec` | tastypie-client/client_builder.py:121-122 | The fields are built exactly when every declaration is accepted, and each is built from its own declaration. |
| `ClientBuilder.SchemaFromDocument` | tastypie-client/client_builder.py:117-122 | A schema is built exactly when the document has all five keys, its `fields` is an object, and every declaration is accepted. The schema has exactly the declared field names, each built from its own declaration, and copies both method lists, the format and the limit. A missing `allowed_detail_http_methods` fails on that key, and then a missing `allowed_list_http_methods` on that one. |
| `ClientBuilder.LoadSchema` | tastypie-client/client_builder.py:111-122 | Loading fetches exactly the joined schema URL once, or nothing when the reference is not a URL. |
| `ClientBuilder.FieldListSorted` | tastypie-client/client_builder.py:124-126 | `field_list` lists every field once with its own value, in strictly increasing name order. |
| `ClientBuilder.UuidFieldExactlyBySuffix` | tastypie-client/client_builder.py:156-157 | A field becomes a `UUIDField` exactly when its name ends in `uuid`. |
| `ClientBuilder.FieldClassesAreImported` | tastypie-client/client_builder.py:149-161 | Every field class the generator writes is imported by the generated module. |
| `ClientBuilder.RelatedToOneIsDeferred` | tastypie-client/client_builder.py:158-159 | A to-one relation becomes a `DeferredField`, unless its name ends in `uuid`. |
| `ClientBuilder.UnknownTypeFails` | tastypie-client/client_builder.py:149-161 | For a name not ending in `uuid`: classification fails with the unknown-type error exactly when the deciding type (`related_type` for a relation, else `type`) is not in the type table. Otherwise it gives that type's class. |
| `ClientBuilder.EscapeQuotesPlainText` | tastypie-client/client_builder.py:167-168 | As written, the escaping is correct for help text without backslashes or line breaks. |
| `ClientBuilder.EscapeQuotesBreaks` | tastypie-client/client_builder.py:167-168 | As written, help text ending in a backslash, or holding a line break, yields an unreadable literal. |
| `ClientBuilder.EscapeHelpTextRoundTrip` | tastypie-client/client_builder.py:167-168 | Corrected: the written literal reads back as exactly the help text. |
| `ClientBuilder.TitleAt` | tastypie-client/client_builder.py:95-96 | `str.title()`: a cased character is upper case at the start of a word and lower case after a cased character. |
| `ClientBuilder.ClassName` | tastypie-client/client_builder.py:95-96 | A generated class name contains no underscore. |
| `ClientBuilder.ClassNameOfWord` | tastypie-client/client_builder.py:95-96 | For example, `entry` becomes `Entry`. |
| `ClientBuilder.ClassNameOfWords` | tastypie-client/client_builder.py:95-96 | For example, `a_b` becomes `AB`. |
| `ClientBuilder.Lines` | tastypie-client/client_builder.py:192-193 | Each text becomes one line at the given indentation. |
| `ClientBuilder.FieldLines` | tastypie-client/client_builder.py:163-172 | A field is written as six lines, and an unknown type fails before anything is written. |
| `ClientBuilder.FieldWritten` | tastypie-client/client_builder.py:146-173 | What a field leaves in the buffer: nothing for an unknown type, only the header line for non-text help text, and otherwise its whole text. |
| `ClientBuilder.FieldTextFirstLine` | tastypie-client/client_builder.py:163-168 | A field's text opens with `name = Class(`, then, one level deeper, the help text with only its double quotes escaped, as written. |
| `ClientBuilder.FieldsTextLength` | tastypie-client/client_builder.py:88-91 | The fields' text is six lines per field, in `field_list` order, each block that field's text. |
| `ClientBuilder.FieldsWritten` | tastypie-client/client_builder.py:88-91 | What the fields leave in the buffer: their whole text when none fails. |
| `ClientBuilder.FieldsWrittenAtError` | tastypie-client/client_builder.py:88-91 | When a field fails, the buffer holds the text of the fields before it, then what that field buffered, whatever follows it. |
| `ClientBuilder.ConstantLines` | tastypie-client/client_builder.py:81-86 | The constants are four lines, written exactly when a schema with a format and a limit is held. |
| `ClientBuilder.SourceLayout` | tastypie-client/client_builder.py:93-107 | A class is its header line, four constant lines one level in, then six lines per field in sorted order. |
| `ClientBuilder.ClassBodyWritten` | tastypie-client/client_builder.py:81-91 | What a class body leaves in the buffer: only the `list_endpoint` line when the schema is the class `Schema`, and its whole text when nothing fails. |
| `ClientBuilder.ClassWritten` | tastypie-client/client_builder.py:93-107 | What a class leaves in the buffer: always its header line first, and its whole text when nothing fails. |
| `ClientBuilder.KeptSchema` | tastypie-client/client_builder.py:76-79 | Corrected: a resource always holds a schema. |
| `ClientBuilder.SchemaObjectBreaksConstants` | tastypie-client/client_builder.py:76-77 | As written, a resource given a `Schema` object cannot write its constants, because it keeps the class `Schema` instead. |
| `ClientBuilder.KeptSchemaWritesConstants` | tastypie-client/client_builder.py:76-79 | Corrected: every resource writes its constants, and one given a `Schema` object writes that schema's format and limit. |
| `ClientBuilder.NewResource` | tastypie-client/client_builder.py:65-79 | As written, a resource given a `Schema` object keeps the class `Schema`, without a fetch. Otherwise it loads its schema by fetching exactly the joined URL. |
| `ClientBuilder.EntryResource` | tastypie-client/client_builder.py:54-55 | The resource built for an entry point carries its name and a loaded schema. |
| `ClientBuilder.CodeGenerator.constructor` | tastypie-client/client_builder.py:180-184 | A new backend has no code, level zero, and the given tab and stream. |
| `ClientBuilder.CodeGenerator.Write` | tastypie-client/client_builder.py:192-193 | Writing appends one line, indented by the current level. |
| `ClientBuilder.CodeGenerator.Indent` | tastypie-client/client_builder.py:195-196 | Indenting raises the level by one. |
| `ClientBuilder.CodeGenerator.Dedent` | tastypie-client/client_builder.py:198-201 | Dedenting at level zero fails and changes nothing. Otherwise it lowers the level by one. |
| `ClientBuilder.CodeGenerator.Exit` | tastypie-client/client_builder.py:189-190 | Leaving the `with` block appends all collected lines to the stream. |
| `ClientBuilder.WriteField` | tastypie-client/client_builder.py:146-173 | A field writes exactly its text at the current level and restores the level. An unknown type writes nothing. Non-text help text fails after the header line, one level deeper. In every case the buffer grows by exactly `FieldWritten`. |
| `ClientBuilder.WriteFields` | tastypie-client/client_builder.py:88-91 | The loop writes exactly the fields' text, or stops with the first field's error. In every case the buffer grows by exactly `FieldsWritten`. |
| `ClientBuilder.FieldsTextPrefixError` | tastypie-client/client_builder.py:88-91 | The first field that fails decides the error of the whole. |
| `ClientBuilder.WriteClassConstants` | tastypie-client/client_builder.py:81-86 | The constants are written exactly when a schema is held. Otherwise only the endpoint line is written before the attribute error. |
| `ClientBuilder.WriteClass` | tastypie-client/client_builder.py:95-107 | The class text is written exactly, starting with its header line. In every case the buffer grows by exactly `ClassWritten`. |
| `ClientBuilder.WriteClassBody` | tastypie-client/client_builder.py:97-107 | The body is written exactly, one level in, and the level is restored. In every case the buffer grows by exactly `ClassBodyWritten`. |
| `ClientBuilder.WriteGeneratedSource` | tastypie-client/client_builder.py:93-107 | The stream receives exactly the class's source. On a failure, what was buffered before it is flushed all the same: the stream grows by exactly `ClassWritten`, which starts with the header line. |
| `ClientBuilder.WriteImportBlock` | tastypie-client/client_builder.py:34-43 | The import block is exactly the seven imports and a blank line. |
| `ClientBuilder.WriteResource` | tastypie-client/client_builder.py:45-49 | A resource writes its class followed by two blank lines. When the class fails, only its flushed part is written (`ChunkWritten`). |
| `ClientBuilder.ChunkWritten` | tastypie-client/client_builder.py:45-49 | What a resource writes: its class and two blank lines when the class succeeds, and only the flushed part of the class otherwise. |
| `ClientBuilder.WriteResources` | tastypie-client/client_builder.py:60-61 | The loop writes exactly the module text of all resources, or stops with the first resource's error. In every case the stream grows by exactly `ModuleWritten`. |
| `ClientBuilder.ModuleWritten` | tastypie-client/client_builder.py:60-61 | What the resources write: the whole module text when none fails. |
| `ClientBuilder.ModuleWrittenAtError` | tastypie-client/client_builder.py:60-61 | When a resource fails, the file holds the text of the resources before it, then what that resource wrote, whatever follows it. |
| `ClientBuilder.CollectResources` | tastypie-client/client_builder.py:54-55 | Every entry point gives one resource, built from its own entry and one schema fetch each. A failure names an entry point that fails. |
| `ClientBuilder.GenerateClient` | tastypie-client/client_builder.py:51-61 | The entry points are fetched first, and a failed fetch writes nothing. Once anything is written, the output is the import block followed by `ModuleWritten` of the resources, and the outcome is the module text's. On success that is the import block followed by every resource's class. |

## Left out

- HTTP and JSON decoding. `requests.get(...).content` followed by `json.loads` is a `Network.Service` with a fixed answer per URL. An undecodable answer is `None`.
- The output file. `generate_client` opens `<name>.py.<timestamp>` using the current time. In Python 2 the list comprehension at client_builder.py:54-55 rebinds `name`, so the file is named after the last entry point in iteration order, and after the argument only when there is none. The model writes to an `OutStream` that holds lines, and leaves out the file name and the clock.
- Encoding on output. Python 2's `fp.writelines` raises on non-ASCII `unicode` text. The `OutStream` accepts any text, so that failure is not modelled.
- The date parser. `dateutil`'s `parse` is a parameter. Its `AttributeError`, which the source turns into `ValueError`, and its own `ValueError` are both `BadDateTime`.
- UUID parsing. `uuid.UUID(text)` keeps only what the core needs: the optional `urn:uuid:` prefix, braces, hyphens and 32 hexadecimal digits. Other argument forms of `uuid.UUID` are not modelled.
- URL parsing. `urlparse` and `urljoin` cover scheme, host and path. Relative paths, `..` segments, parameters and fragments are resolved only as far as the path keeps them.
- Python's descriptor protocol and metaclass. These are explicit calls (`Field.Set`, `Field.Resolve`, `ResourceClass` constructor). Attributes that are not fields stay in the class's `attrs`.
- The conversions `unicode(value)` and `bool(value)` of arbitrary objects. Lists, dictionaries and objects have a stand-in text; the conversion of other values is exact.
- `DeferredList.__repr__` and `__str__` (fields.py:248-253). These are display only.
- Slices with a step. A `DeferredList` slice takes a start and a stop.
- Fields.GetSlice: it models `__getitem__` given a slice object (fields.py:241-243). Simple slice syntax `dl[a:b]` in Python 2 calls the inherited `list.__getslice__` instead. `DeferredList.__init__` never fills the list's own storage, so that call returns `[]` without a fetch; this path is not modelled.
- Dictionary iteration order. It is arbitrary in the model: `ResourceClass` registration order, `Resource.__init__`'s loop, schema construction and entry points. When several entries would fail, which error is reported is not fixed.
- The `blank` option. Its check is commented out in the source (fields.py:173-175), so it has no effect.
- A field's name before it is attached. Python's `None` is modelled as `""`, so an unattached to-many field writes its URLs under `_deferred__<i>` where Python writes `_deferred_None_<i>`.
- Error message texts. Errors carry the field name, not the owner class's name.
- Weak references and garbage collection behind `__subclasses__()`. The registry is a forest given as a parameter.
- `tastypieclient/client_generator.py`, the `Client` stub at `tastypieclient/resources.py:67-71`, and the Django test service. These are not part of this model.
- Fields.BooleanCoerce: its contract gives only the shape of the result (None kept, otherwise a boolean). `BooleanFalseTextIsTrue` states, for every string, that it becomes `True`.
- Fields.BooleanCoerceIntended: its contract gives only the shape of the result. `BooleanFalseTextIsFalse` states, for every string, that it becomes `False` exactly when its lower case is `false`.
- Fields.Resource.Init: it states what each field holds only when every registered field is named after its key (`WellNamed`). A field object registered under two names is not described.
- Fields.Field.Resolve: it does not state the attribute values of the object it builds. `Instantiate` states them for a class.
- Fields.GetItem: it states the value returned only for an element that is already cached. For the others it states the fetch and the new cache.
- Fields.GetSlice: it states the number of values and the fetches, in order, but not each value.
- ClientBuilder.SchemaFields: when several declarations are invalid, it reports the first by name. Python reports the first in the dictionary's iteration order, which is not fixed.
- ClientBuilder.TitleAt: only ASCII letters are cased. Python's `unicode.title()` also raises and lowers other cased letters, and treats them as word characters.
- ClientBuilder.CollectResources: which entry point's error is reported when several fail depends on the arbitrary iteration order.

## Findings

| source | as written | input that shows it | evidently intended | confidence | as-written member | corrected member |
|---|---|---|---|---|---|---|
| tastypie-client/fields.py:206-209 | `value = True` follows the `'false'` test unconditionally, so every string is stored as `True` | setting a `BooleanField` to `"false"` | a string whose lower case is `false` is stored as `False` | high, not executed | `Fields.BooleanFalseTextIsTrue` | `Fields.BooleanFalseTextIsFalse` |
| tastypie-client/fields.py:350-351 | `None` is not a string, so a deferred relation refuses it even when nullable. `Resource.__init__` (resources.py:63) sets every absent relation to `None`, so such a resource cannot be built | setting a nullable `DeferredField` to `None` | `None` is accepted by a nullable relation | medium, not executed | `Fields.RelationRejectsNone` | `Fields.RelationNullable` |
| tastypie-client/client_builder.py:76-77 | the class `Schema` is stored instead of the given schema object | `Resource(client, name, endpoint, schema=<a Schema>)` followed by writing its constants | keep the given schema object | high, not executed | `ClientBuilder.SchemaObjectBreaksConstants` | `ClientBuilder.KeptSchemaWritesConstants` |
| tastypie-client/client_builder.py:167-168 | only double quotes are escaped in the generated `help_text` literal | help text `C:\` (the backslash escapes the closing quote) or text with a line break | backslashes and line breaks escaped too, so the literal reads back as the help text | medium, not executed | `ClientBuilder.EscapeQuotesBreaks` | `ClientBuilder.EscapeHelpTextRoundTrip` |
