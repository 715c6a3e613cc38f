# gqlcli schema hints, in Dafny

gqlcli is a Go library and command-line tool for GraphQL servers. It sends queries over HTTP or runs them in-process against a gqlgen schema. This project models its core: the **schema-hint subsystem**.

When a server rejects an operation with a validation error that names a type, gqlcli works out which type it is from the message. It runs an introspection query for that type, prints the answer as compact SDL, and attaches that text to the error as `extensions.schemaHint`.

The model covers these parts of the subsystem:

- **Sdl** (`sdl.dfy`) is the SDL printer of `pkg/describe.go`. It covers type-reference rendering, the declaration keyword, the field sort by (rendered type, name), field lines with optional argument lists, and the describe query. Its lemmas connect the printer to an independent description of a GraphQL type (`TypeDesc`) and of a type reference under `NON_NULL`/`LIST` wrappers (`TypeRef`).
- **Describer** (`describer.dfy`) is the per-name introspection cache of `pkg/describe.go`, written as a class over an abstract exec function. A ghost log of exec calls states "one successful fetch per name" and "failures are not cached" as postconditions and as an invariant of the object.
- **ErrorType** (`errortype.dfy`) holds the four validation-message patterns of `pkg/client.go` and `pkg/inline.go` as hand-written matchers. It proves them sound and complete against the language of each pattern. It also proves that the client's loop and the presenter's `switch` find the same type.
- **Client** (`client.dfy`) is the HTTP client of `pkg/client.go`. It covers the URL checks, the request, the response outcome with its typed error, in-place error enrichment, the lazily created describer, the mode check, mutation input wrapping and the numbered query display.
- **Inline** (`inline.dfy`) and **Engine** (`engine.dfy`) are the in-process executor of `pkg/inline.go`: options, request body, context enricher, the response recorder, and the schema-hint error presenter.
- **Formatter** (`formatter.dfy`) is the formatter registry of `pkg/formatter.go`, plus `stripNullValues`, `formatErrors`, the errors short-circuit of the text formatters, and the deterministic branches of `formatTableValue`.
- **Cli** (`cli.dfy`) holds the operation-list and source-precedence helpers of `pkg/cli.go`.
- **InlineCommands** (`inline_commands.dfy`) is the command set of `pkg/inline_commands.go`. It covers option wiring, the command list, the types listing, operation and variable precedence, result printing, and login, logout and whoami over a token store.
- **Resolver** (`resolver.dfy`) is the example server's resolver state and its find-or-create step for authors (`example/graph/resolver.go`).
- **Json**, **Text** and **Sorting** hold the shared vocabulary:
  - decoded JSON values, with Go's `v, _ := m[k].(T)` reads;
  - ASCII `strings.ToLower`, `Contains`, `Split`, `Join`, `Trim`;
  - Go string order, decimal and `%2d` rendering, and `%q` quoting;
  - a comparison sort proved to give an ascending permutation.

Decoded JSON is a datatype. `json.Unmarshal` and `json.Marshal`, the gqlgen handler, the HTTP transport, reading files and rendering values with `%v` become function parameters. Printed output becomes returned text.

## Model

| member | source | states |
|---|---|---|
| Sdl.TypeRefTextOfNode | pkg/describe.go:195-213 | One reference node renders as: inner + `!` for NON_NULL, `[` inner `]` for LIST, else its non-empty name, else `Unknown`; a missing `ofType` is rendered `Unknown` inside the wrapper |
| Sdl.TypeRefText | pkg/describe.go:195-213 | `formatTypeRef` never renders a reference as the empty text; what it renders is stated by `TypeRefTextOfNode` and `TypeRefTextOfPayload` |
| Sdl.TypeRefTextOfPayload | pkg/describe.go:195-213 | The introspection payload of any well-formed reference, cut after `depth` levels, renders as its SDL notation with `Unknown` where the payload stops |
| Sdl.NotationCutDeepEnough | pkg/describe.go:195-213 | A payload at least as deep as the reference's wrappers gives its full notation |
| Sdl.DescribedRefRendering | pkg/describe.go:113-127 | References with at most four wrappers, as the describe fragment fetches them, render as their full SDL notation |
| Sdl.BookListExample | pkg/describe.go:203-206 | `NON_NULL(LIST(NON_NULL(Book)))` renders as `[Book!]!` |
| Sdl.TypeRefTextFallbacks | pkg/describe.go:196-212 | A non-object node or an unnamed named node is `Unknown`; NON_NULL / LIST without `ofType` give `Unknown!` / `[Unknown]` |
| Sdl.SdlKeyword | pkg/describe.go:180-193 | OBJECT gives `type`, INPUT_OBJECT `input`, INTERFACE `interface`, UNION `union`, and any other kind its lower-cased name; no keyword has an upper-case letter |
| Sdl.KeywordOfKind | pkg/describe.go:180-193 | For every composite kind, the keyword chosen from the reported kind name is the keyword that kind is declared with in SDL (`Keyword`, defined separately by kind) |
| Sdl.ObjectEntries | pkg/describe.go:216-221 | Keeping the map entries of a list never makes it longer |
| Sdl.ObjectEntriesMembers | pkg/describe.go:216-221 | A map is kept exactly when it is an entry of the list |
| Sdl.BeforeStrictOrder | pkg/describe.go:222-231 | The (rendered type, name) comparator handed to `sort.Slice` is a strict order |
| Sdl.KeyLessTotal | pkg/describe.go:222-231 | Two different (type, name) keys are ordered one way or the other |
| Sdl.SortByKey | pkg/describe.go:222-231 | Sorting keeps the number of fields |
| Sdl.SortFieldsByType | pkg/describe.go:215-233 | The result is the sort of the map entries: ascending by (type, name) and holding exactly the map entries of the input |
| Sdl.ArgParts | pkg/describe.go:242-249 | One `name: Type` part per map argument, never more parts than arguments |
| Sdl.ArgPart | pkg/describe.go:244-248 | A single argument yields at most one part |
| Sdl.FormatSDLField | pkg/describe.go:235-256 | The builder loop writes the field line `  f(a: T, ...): T` with arguments, or `  f: T` otherwise |
| Sdl.EnumNames | pkg/describe.go:147-155 | Enum value names are never empty and never outnumber the entries |
| Sdl.FieldLines | pkg/describe.go:162-167 | One line per field |
| Sdl.PrintFields | pkg/describe.go:162-167 | `printFields` writes the lines of the sorted map entries in order |
| Sdl.EnumValueList | pkg/describe.go:147-156 | The loop joins the kept enum names with single spaces |
| Sdl.FormatTypeSDL | pkg/describe.go:132-178 | The builder produces the text of the declaration (description comment, scalar or enum line, or keyword block with `fields` then `inputFields`) |
| Sdl.ObjectDeclaration | pkg/describe.go:160-177 | For non-scalar, non-enum kinds: header, the two field blocks, closing brace |
| Sdl.PrintFieldList | pkg/describe.go:169-174 | A field list is printed only when present and non-empty |
| Sdl.KeysDistinctTotal | pkg/describe.go:222-231 | Distinct (type, name) keys make the comparator total on the list |
| Sdl.FieldsBlockOrderIndependent | pkg/describe.go:215-233 | The printed field block does not depend on the order in which the server lists the fields |
| Sdl.FieldsUpdateKeepsOthers | pkg/describe.go:134-174 | Replacing `fields` changes none of the type's other members that the printer reads |
| Sdl.TypeSDLOrderIndependent | pkg/describe.go:132-178 | A type's SDL is the same whatever order its fields arrive in |
| Sdl.ListsUpdateKeepsOthers | pkg/describe.go:134-174 | Replacing `fields` and `inputFields` changes none of the type's other members that the printer reads |
| Sdl.ListsUpdateSetsLists | pkg/describe.go:169-174 | After replacing both lists, the printer reads the new `fields` and `inputFields` arrays |
| Sdl.TypeSDLCongruence | pkg/describe.go:132-178 | A type's SDL depends only on its name, kind, description, enum values and its two printed field blocks |
| Sdl.TypeSDLListsOrderIndependent | pkg/describe.go:132-178 | A type's SDL is the same whatever order its fields and its input fields arrive in |
| Sdl.FieldKey | pkg/describe.go:222-230 | The sort key of a described field is (its notation, its name) |
| Sdl.ArgPartsOfArgs | pkg/describe.go:242-249 | Payload arguments render as `name: Notation` in input order |
| Sdl.ArgPartOfArg | pkg/describe.go:244-248 | One payload argument renders as `name: Notation` |
| Sdl.FieldLineOfPayload | pkg/describe.go:235-256 | A described field's payload prints as the reference field line |
| Sdl.FieldLinesOfPayload | pkg/describe.go:162-167 | A list of described fields prints as the reference lines |
| Sdl.FieldsBlockOfPayload | pkg/describe.go:162-174 | Fields already in (type, name) order print in that order |
| Sdl.EnumNamesOfValues | pkg/describe.go:147-155 | The enum payload of named values gives back exactly those names |
| Sdl.DescribedTypeSDL | pkg/describe.go:132-178 | The printer turns the describe payload of a well-formed scalar, enum or composite type whose field lists are already in (type, name) order into that type's reference SDL, with the description line exactly when asked for |
| Sdl.FieldObjectsPermutation | pkg/describe.go:215-233 | Reordering described fields reorders their payload objects the same way |
| Sdl.FieldObjectKeysDistinct | pkg/describe.go:215-233 | Fields with distinct (notation, name) keys give payload objects with distinct sort keys |
| Sdl.CanonicalWellFormed | pkg/describe.go:132-178 | Reordering a well-formed type's field lists keeps it well formed and keeps its keys distinct |
| Sdl.DescribedTypeSDLAnyOrder | pkg/describe.go:132-178 | For any well-formed type whose fields have distinct (type, name) keys, listed by the server in any order, the printed SDL is the reference SDL of that type with both field lists in (type, name) order |
| Sdl.SortThreeFields | pkg/describe.go:215-233 | Fields listed as second, third, first print as first, second, third |
| Sdl.BookFieldOrder | pkg/describe.go:215-233 | `id: ID!`, `title: String!`, `author: Author!` print in the order author, id, title |
| Sdl.BuildDescribeQuery | pkg/describe.go:113-127 | The query is the fixed head, the `%q`-quoted name and the fixed tail with the TypeRef fragment |
| Sdl.DescribeQueryInjective | pkg/describe.go:113-127 | Different type names give different queries |
| Sdl.DescribeQueryOfPlainName | pkg/describe.go:118-119 | A name needing no escape appears between plain double quotes |
| Sorting.InsertBy | pkg/describe.go:222 | An insertion step adds exactly one element |
| Sorting.SortBySortedPermutation | pkg/describe.go:222-231 | The sort yields an ascending permutation of its input |
| Sorting.SortedUnique | pkg/describe.go:222-231 | Two ascending permutations of totally ordered elements are equal, so the unstable sort's result is determined when keys are distinct |
| Sorting.SortOrderIndependent | pkg/describe.go:222-231 | Sorting the same totally ordered elements from any order gives one result |
| Sorting.SortedIdentity | pkg/describe.go:222-231 | An ascending input comes back unchanged |
| Sorting.SortRotated | pkg/describe.go:222-231 | Three elements listed as second, third, first come out in order |
| Describer.ErrorText | pkg/describe.go:91-106 | The not-found error names the type with `%q` |
| Describer.Interpret | pkg/describe.go:89-107 | An exec failure is `introspection failed`; a not-found error names the requested type; success needs a decodable object response |
| Describer.DescribeResult | pkg/describe.go:75-81 | Describing succeeds exactly when the lookup does, and fails with the lookup's error |
| Describer.CacheStep | pkg/describe.go:85-110 | A hit returns the cached payload and leaves the cache unchanged; a miss returns the lookup; only a successful lookup is stored; no entry changes |
| Describer.CacheHitIgnoresExec | pkg/describe.go:85-87 | On a hit the exec outcome plays no part |
| Describer.FailuresNotCached | pkg/describe.go:89-107 | Exec failure, bad JSON, missing `data` and null `__type` leave the cache as it was |
| Describer.NullTypeNotFound | pkg/describe.go:104-107 | A null `__type` is "type %q not found in schema" for that name |
| Describer.DescribeDescribedType | pkg/describe.go:75-111 | End to end: a server answering with a type's payload, fields in any order, makes `DescribeWith` return that type's SDL with its fields in (type, name) order |
| Describer.MissKeepsValid | pkg/describe.go:84-111 | A miss keeps the cache invariant (cached = fresh lookup; cached exactly after a successful call; no call after a success) |
| Describer.MissLogsCachedNames | pkg/describe.go:109 | After a miss, the cached names are those with a successful call in the log |
| Describer.MissAfterNoSuccess | pkg/describe.go:85-89 | A miss happens only for a name with no earlier successful call |
| Describer.Describer.constructor | pkg/describe.go:21-24 | A new describer has an empty cache, an empty call log and the invariant |
| Describer.Describer.NewSchemaHintDescriber | pkg/describe.go:28-49 | Exec posts `{"query": q}` to the handler with a background context and returns what it wrote |
| Describer.Describer.NewDescriber | pkg/describe.go:53-59 | Exec is the in-process executor's Execute (enricher applied, nil variables) |
| Describer.Describer.Introspect | pkg/describe.go:89-107 | One exec call, checked in the source's order, gives the fresh lookup |
| Describer.Describer.Fetch | pkg/describe.go:84-111 | Returns the fresh lookup's value, updates the cache by `CacheStep`, logs exactly one exec call on a miss and none on a hit, and keeps the invariant |
| Describer.Describer.DescribeWith | pkg/describe.go:75-81 | The printed SDL with `showArgs` as given and `noDescriptions = !showDescriptions`; cache and log as for fetch |
| Describer.Describer.Describe | pkg/describe.go:64-70 | The printed SDL without argument lists and without descriptions; cache and log as for fetch |
| Describer.DescribeTwice | pkg/describe.go:64-87 | Two describes of one name agree, and after a success exec is called at most once in total |
| ErrorType.PatternsWellFormed | pkg/client.go:15-18 | The four patterns have the shape the matcher relies on |
| ErrorType.RunEnd | pkg/client.go:15-18 | A `[^"]+` / `[^.]+` run ends at the first stop character or the end |
| ErrorType.MatchAtComplete | pkg/client.go:15-18 | Every match of a pattern's language at a position is the one the matcher finds |
| ErrorType.MatchAtSound | pkg/client.go:15-18 | Whatever the matcher finds is a match of the pattern, with that group 1 |
| ErrorType.MatchStartsWithLead | pkg/client.go:15-18 | A match starts with the pattern's first literal character |
| ErrorType.FindLeftmost | pkg/client.go:22-23 | `FindStringSubmatch` returns the leftmost match, and nothing exactly when no position matches |
| ErrorType.NoMatchWithoutLead | pkg/client.go:22-23 | A message without the first literal character has no match |
| ErrorType.ReferencedType | pkg/inline.go:113-124 | A non-empty type comes from a pattern that matched |
| ErrorType.ReferencedTypeAsFirstMatch | pkg/inline.go:113-124 | The presenter's `switch` is the first match of the first three patterns, then the trimmed fourth, then "" |
| ErrorType.ExtractTypeFromErrorMsg | pkg/client.go:21-31 | The client's loop returns the same type as the presenter's switch for every message |
| ErrorType.NeedsSubfieldTrimmed | pkg/client.go:27-28 | The needs-subfield result neither starts nor ends with `[`, `]` or `!` |
| ErrorType.QuotedPatternRoundTrip | pkg/client.go:15-18 | A message built from a quoted pattern's literals around two names, followed by any text, yields the second name |
| ErrorType.DottedPatternRoundTrip | pkg/client.go:17 | The unknown-argument group is the part of the coordinate before its dot |
| ErrorType.CannotQueryFieldRoundTrip | pkg/client.go:15-25 | `Cannot query field "f" on type "T"...` yields `T` |
| ErrorType.PatternRoundTrips | pkg/client.go:16-18 | The input-field, unknown-argument and needs-subfield patterns each recover the name they capture |
| Client.ModeValue | pkg/types.go:63-68 | Inline mode is 0, HTTP mode is 1 |
| Client.RequestJson | pkg/client.go:186-194 | The body has the query, has `variables` exactly for a non-empty map and `operationName` exactly for a non-empty name (`omitempty`), and nothing else |
| Client.TimeoutSeconds | pkg/client.go:49-52 | The configured timeout, 30 seconds when zero |
| Client.RequestHeaders | pkg/client.go:61-63 | The `Bearer` header exactly when a token is configured, plus the JSON content type set on each request |
| Client.ClientErrorText | pkg/client.go:177-211 | A transport error reads `request failed: ...`; a response error has no `fmt.Errorf` text |
| Client.HintFor | pkg/client.go:225-249 | A hint is attached exactly when the entry has a message, no server hint, a recognised type and a non-empty successful describe, and it is that describe text |
| Client.EnrichEntrySpec | pkg/client.go:225-257 | Skipped entries are unchanged; otherwise only `extensions.schemaHint` is added, creating `extensions` if needed, with every other key kept |
| Client.EnrichEntry | pkg/client.go:225-257 | One loop turn of `enrichErrors`: maps stay maps, other entries stay as they are, and no key is ever removed; `EnrichEntrySpec` states the rest |
| Client.EnrichAll | pkg/client.go:225 | Enrichment keeps the number of errors |
| Client.EnrichAllAt | pkg/client.go:225-257 | Each error is enriched on its own |
| Client.EnrichEntryIdempotent | pkg/client.go:233-238 | Enriching twice is enriching once |
| Client.HintPoliciesDiffer | pkg/client.go:233-238 | The client keeps a server hint where the presenter (`pkg/inline.go` line 131) overwrites it |
| Client.OperationOutcomeShape | pkg/client.go:175-220 | Empty URL and bad scheme fail first; no error means a result without an `errors` array; a result returned with an error carries that result and the query |
| Client.OperationOutcome | pkg/client.go:175-220 | `executeOperation` always returns a result, an error, or both; never neither |
| Client.ResponseOutcome | pkg/client.go:207-219 | A result is returned exactly when the body decodes; a result returned together with an error is the one the `GraphQLResponseError` wraps |
| Client.UrlCheckedFirst | pkg/client.go:177-183 | With a bad URL nothing depends on the network and no result is returned |
| Client.ErrorsArrayIsResponseError | pkg/client.go:208-217 | An `errors` array (even empty) gives the result, with the errors enriched and other keys kept, plus a response error |
| Client.MutationVariables | pkg/client.go:87-94 | A given input is set as `variables["input"]` over the other variables, on a new map when they are nil |
| Client.HTTPClient.NewHTTPClient | pkg/client.go:48-70 | The client holds its configuration and has no describer yet |
| Client.HTTPClient.GetDescriber | pkg/client.go:40-45 | The describer is created on first use and is the same one afterwards |
| Client.HTTPClient.LookupHint | pkg/client.go:245 | A hint lookup is the describer's `Describe` of the type |
| Client.HTTPClient.EnrichOne | pkg/client.go:226-256 | One turn of the loop enriches one error as `EnrichEntry` says |
| Client.HTTPClient.EnrichErrors | pkg/client.go:224-258 | The errors array, in place, becomes its element-wise enrichment |
| Client.HTTPClient.ExecuteOperation | pkg/client.go:175-220 | The outcome of the operation as `OperationOutcome` defines it |
| Client.HTTPClient.HandleResponse | pkg/client.go:208-219 | Parsing the body and enriching its errors gives the response outcome |
| Client.HTTPClient.Execute | pkg/client.go:73-79 | Any mode but HTTP is refused; HTTP runs the operation |
| Client.HTTPClient.ExecuteMutation | pkg/client.go:82-97 | Any mode but HTTP is refused; HTTP runs the mutation with its input wrapped |
| Client.NumberedLine | pkg/client.go:271-272 | A line as `   NN | text` |
| Client.NumberedLines | pkg/client.go:269-274 | One numbered line per source line |
| Client.NumberedLinesAt | pkg/client.go:269-274 | Line i is numbered i + 1 |
| Client.FormatQueryForError | pkg/client.go:261-276 | The loop produces the query display, whose one-line and multi-line forms the lemmas below characterise |
| Client.QueryForError | pkg/client.go:261-276 | Every display, one line or several, starts with the three-space indent |
| Client.SeveralLinesIffNewline | pkg/client.go:262-263 | The multi-line branch is taken exactly when the query holds a newline |
| Client.SingleLineRendering | pkg/client.go:263-268 | A one-line query of at most 100 UTF-8 bytes is shown indented and whole |
| Client.SingleLineTruncated | pkg/client.go:263-265 | A one-line query over 100 bytes keeps the longest whole-character prefix that fits in 97 bytes, which is never the whole query, and reports its length in bytes |
| Client.AsciiSingleLineRendering | pkg/client.go:263-265 | For an ASCII one-line query over 100 characters, the display keeps exactly the first 97 characters and reports the character count |
| Client.WideQueryTruncated | pkg/client.go:263-265 | Sixty copies of a two-byte character (such as `é`) make 120 bytes: the query is cut after 48 characters and reported as 120 long |
| Client.MultiLineRendering | pkg/client.go:270-275 | Splitting the display at newlines gives, for each line, its number and the line itself |
| Engine.RequestBody | pkg/inline.go:70-73 | The POST body has the query, and `variables` exactly for non-nil variables |
| Engine.ChunkPlacement | pkg/inline.go:147 | Given counts that match the chunks one for one, as `Inline.Replay` proves the recorder's `Write` reports them, chunk j sits in the body at the sum of the earlier counts and spans its own count |
| Engine.Served | pkg/inline.go:85-88 | What `Execute` returns is the body the handler wrote; a handler that never calls `Write` gives the empty body |
| Inline.InlineConfig.constructor | pkg/inline.go:49 | A zero configuration: no enricher, no hints |
| Inline.InlineConfig.Apply | pkg/inline.go:35-44 | `WithContextEnricher` sets the enricher only; `WithSchemaHints` switches hints on only |
| Inline.ConfigAfter | pkg/inline.go:49-52 | Hints are on exactly when some option is `WithSchemaHints` |
| Inline.LastEnricherWins | pkg/inline.go:35-52 | A later enricher replaces an earlier one |
| Inline.NoEnricherByDefault | pkg/inline.go:49-52 | Without `WithContextEnricher` there is no enricher |
| Inline.InlineRecorder.constructor | pkg/inline.go:85 | A fresh recorder has an empty body and header |
| Inline.InlineRecorder.Header | pkg/inline.go:146 | `Header` returns the recorder's own map |
| Inline.InlineRecorder.Write | pkg/inline.go:147 | `Write` appends the chunk and reports its full length without error |
| Inline.InlineRecorder.WriteHeader | pkg/inline.go:148 | `WriteHeader` records the status only |
| Inline.Replay | pkg/inline.go:85-88 | The handler's calls leave the concatenated chunks as the body, the last status and the same header map; the count each `Write` reports is the length of its own chunk |
| Inline.GqlError.constructor | pkg/inline.go:110 | A wrapped plain error carries its message and no extensions |
| Inline.PresentedExtensions | pkg/inline.go:126-133 | A hint is set only for a non-empty type and a successful non-empty describe; extensions are created if nil; other keys untouched |
| Inline.PresenterOverwrites | pkg/inline.go:131 | An existing `schemaHint` is overwritten |
| Inline.Present | pkg/inline.go:106-136 | Always returns an error whose message is the original (or `err.Error()`), with the hint of the switch's type |
| Inline.AttachHint | pkg/inline.go:126-133 | The hint step leaves the message and sets the extensions as `PresentedExtensions` says |
| Inline.InlineExecutor.NewInlineExecutor | pkg/inline.go:48-62 | The enricher of the options; the presenter (a fresh describer over the handler) is installed exactly when `WithSchemaHints` is given |
| Inline.InlineExecutor.Execute | pkg/inline.go:65-89 | The answer is what the handler writes for the enriched context and the POST body |
| Formatter.Name | pkg/formatter.go:41-171 | Each formatter's name: `json` (pretty or not), `table`, `compact`, `toon`, `llm`, and a custom formatter's own name |
| Formatter.Format | pkg/formatter.go:23-171 | The table and LLM formatters never fail; a JSON failure carries the `failed to marshal JSON: ` prefix; `ErrorsShortCircuit` and `JsonFormatterStripsNulls` state the rest |
| Formatter.ReportedErrors | pkg/formatter.go:53-56 | The short-circuit applies exactly for a non-empty `errors` array |
| Formatter.ErrorsShortCircuit | pkg/formatter.go:53-160 | Table, TOON and LLM print the `formatErrors` text (LLM under a heading), whatever their data writers do |
| Formatter.EmptyErrorsRenderData | pkg/formatter.go:152-166 | An empty `errors` array does not short-circuit |
| Formatter.JsonFormatterStripsNulls | pkg/formatter.go:23-39 | The JSON formatter marshals the null-free value |
| Formatter.DefaultFormatters | pkg/formatter.go:185-190 | The six default names |
| Formatter.FormatterRegistry.NewFormatterRegistry | pkg/formatter.go:179-193 | Exactly json, json-pretty, table, compact, toon and llm, each with its formatter |
| Formatter.FormatterRegistry.Register | pkg/formatter.go:195-201 | A taken name is refused with nothing changed; a new name is added |
| Formatter.FormatterRegistry.Get | pkg/formatter.go:203-209 | The registered formatter, or `formatter '%s' not found` |
| Formatter.FormatterRegistry.List | pkg/formatter.go:211-218 | Every registered name exactly once, strictly ascending |
| Formatter.LexStrictOrder | pkg/formatter.go:216 | Go string order is a strict order |
| Formatter.SortedNames | pkg/formatter.go:216 | Sorting distinct names gives a strictly ascending permutation |
| Formatter.DistinctCardinality | pkg/formatter.go:211-218 | An ascending listing has as many names as its set |
| Formatter.ListingUnique | pkg/formatter.go:211-218 | Two ascending listings of the same names are equal |
| Formatter.StripNulls | pkg/formatter.go:260-280 | The result is null-free; maps keep exactly their non-null keys; lists keep their length; scalars are unchanged |
| Formatter.StripNullFree | pkg/formatter.go:260-280 | A null-free value is left as it is |
| Formatter.StripIdempotent | pkg/formatter.go:260-280 | Stripping twice is stripping once |
| Formatter.StripKeepsListElements | pkg/formatter.go:270-274 | List elements are stripped in place, and null elements stay |
| Formatter.PathText | pkg/formatter.go:234-240 | A `Path:` line exactly for a non-empty path |
| Formatter.Shown | pkg/formatter.go:236-238 | Each path element as `%v` prints it |
| Formatter.EntryTexts | pkg/formatter.go:223-254 | One text per error, each the text of its turn |
| Formatter.FormatErrors | pkg/formatter.go:222-256 | The loop writes the errors text |
| Formatter.FormatEntry | pkg/formatter.go:224-253 | One turn of the loop writes its entry's text |
| Formatter.ObjectTexts | pkg/formatter.go:229-249 | The text of each error object |
| Formatter.ObjectErrorsText | pkg/formatter.go:251-253 | Error objects are joined by one newline, with none after the last |
| Formatter.HintShown | pkg/formatter.go:246-248 | A string `schemaHint` is shown after `Schema hint:` |
| Formatter.NonObjectEntry | pkg/formatter.go:225-228 | A non-map error i prints as `Error i+1: v`, numbered from one |
| Formatter.TableValueList | pkg/formatter.go:381-387 | A list of two or more shows its first cell and `... +N more` with N = length - 1 |
| Formatter.TableValue | pkg/formatter.go:363-388 | A list cell is always bracketed; `TableValueScalars` and `TableValueList` state each branch |
| Formatter.TableValueScalars | pkg/formatter.go:364-386 | nil is `null`, strings as they are, bools `true`/`false`, `[]` and `[x]` for short lists |
| Cli.OperationText | pkg/cli.go:562-600 | The file contents (or `failed to read query/mutation file`), else `--query`, else the first argument, else the missing-operation error |
| Cli.FileFlagWins | pkg/cli.go:563-569 | A file flag decides alone |
| Cli.InlineTextBeatsArguments | pkg/cli.go:571-573 | Without a file the inline text wins and no file is read |
| Cli.OperationTextSource | pkg/cli.go:562-580 | Every successful text comes from one of the three sources |
| Cli.Variables | pkg/cli.go:602-624 | Variables from the file (read error reported), else from the inline JSON, else nil |
| Cli.VariablesFileWins | pkg/cli.go:605-614 | A variables file is the only source consulted |
| Cli.BuildOperationListQuery | pkg/cli.go:664-705 | The query grown piece by piece is the full operation-list query |
| Cli.ListQueryNamesType | pkg/cli.go:665-669 | The type name sits inside `__type(name: "...")` at the start |
| Cli.ListQueryHasRequestedParts | pkg/cli.go:671-697 | `description` is there when asked for, and so is the `args` block |
| Cli.ListQuerySwitchesDetermined | pkg/cli.go:671-697 | The two switches can be read back from the query |
| Cli.ListQueryLength | pkg/cli.go:664-705 | Each switch adds exactly its part |
| Cli.ExtractErrorsDistinct | pkg/cli.go:709-722 | The three errors read differently |
| Cli.ExtractOperationFields | pkg/cli.go:708-725 | `data.__type.fields` exactly when all three are present with the right shape; otherwise exactly the first missing step is reported (`data`, then `__type`, then the `fields` array) |
| Cli.SelectedIndices | pkg/cli.go:731-740 | Ascending positions of exactly the selected entries |
| Cli.AscendingBounded | pkg/cli.go:728-743 | Ascending positions below n are at most n many, so the filtered list is never longer than its input |
| Cli.Pick | pkg/cli.go:736 | The entries at those positions |
| Cli.FilterOperations | pkg/cli.go:728-743 | The selected entries, in input order |
| Cli.FilterIsSelectedSubsequence | pkg/cli.go:728-743 | The result is never longer; every kept entry is selected, and every selected entry is kept |
| Cli.EmptyFilterKeepsNamed | pkg/cli.go:733-735 | An empty filter keeps every named map entry |
| InlineCommands.TokenStore.NewTokenStoreAt | pkg/token.go:35-37 | A store for a directory, over whatever token it holds |
| InlineCommands.TokenStore.Save | pkg/token.go:40-49 | The saved token is the token without surrounding space |
| InlineCommands.TokenStore.Exists | pkg/token.go:78-81 | Whether a token file is there |
| InlineCommands.TokenStore.Clear | pkg/token.go:66-75 | The token file is gone |
| InlineCommands.WithLoginSharesStore | pkg/inline_commands.go:47-58 | `WithLogin` fills a nil store from the set's, and gives the set the login's store when it has none |
| InlineCommands.LaterStoreLeavesLogin | pkg/inline_commands.go:42-44 | A later `WithTokenStore` replaces the set's store, not the login's |
| InlineCommands.OptionOrderMatters | pkg/inline_commands.go:42-66 | A store given before a store-less login reaches it; one given after does not |
| InlineCommands.LoginConfiguredIff | pkg/inline_commands.go:47-66 | A login is configured exactly when some option is `WithLogin` |
| InlineCommands.OperationSource | pkg/inline_commands.go:338-352 | `--file` contents, else `--query`, else the first argument, else an error |
| InlineCommands.InlineVariables | pkg/inline_commands.go:354-368 | `--var-file` first, then `--variables` unless it is `{}`, else none |
| InlineCommands.InlineOperation | pkg/inline_commands.go:337-371 | The operation is read first, and only then its variables; either error is returned as it is |
| InlineCommands.SamePrecedenceAsBuilder | pkg/inline_commands.go:338-352 | The operation precedence is that of `getQueryString` in `pkg/cli.go`: both succeed together, with the same text |
| InlineCommands.VarFileAsBuilder | pkg/inline_commands.go:355-362 | A variables file is read as `getVariables` in `pkg/cli.go` reads it |
| InlineCommands.EmptyObjectLiteral | pkg/inline_commands.go:363-368 | `{}` means no variables here, and an empty map in `getVariables` of `pkg/cli.go` |
| InlineCommands.GroupOf | pkg/inline_commands.go:185-203 | A group holds only listed names, never more than the entries |
| InlineCommands.GroupMembership | pkg/inline_commands.go:185-203 | A name is in a kind's group exactly when a listed entry of that kind carries it |
| InlineCommands.GroupKeepsOrder | pkg/inline_commands.go:188-203 | Groups keep input order |
| InlineCommands.SubstringListed | pkg/inline_commands.go:185-201 | The filter matches case-insensitively; builtins are hidden without `--builtin` |
| InlineCommands.Section | pkg/inline_commands.go:211-218 | A group prints nothing when empty, else its heading first |
| InlineCommands.SectionShowsEach | pkg/inline_commands.go:215-217 | Every name of a group has its own line |
| InlineCommands.Sections | pkg/inline_commands.go:205-219 | One section per printed kind |
| InlineCommands.ListingOrder | pkg/inline_commands.go:205-219 | Types, Interfaces, Unions, Enums, Inputs, Scalars, in that order |
| InlineCommands.Listing | pkg/inline_commands.go:188-219 | The six sections one after the other; the listing is empty exactly when every kind's group is empty |
| InlineCommands.ListingShowsName | pkg/inline_commands.go:205-219 | Every listed name of the six kinds is printed |
| InlineCommands.OtherKindsNeverPrinted | pkg/inline_commands.go:188-219 | Non-maps and other kinds change nothing in the listing |
| InlineCommands.GroupByKind | pkg/inline_commands.go:188-203 | The grouping loop builds every kind's group, and no empty group |
| InlineCommands.PrintListing | pkg/inline_commands.go:205-219 | The printing loop writes the listing |
| InlineCommands.EmitSection | pkg/inline_commands.go:211-218 | One group's heading and lines are appended |
| InlineCommands.ErrorLinesOf | pkg/inline_commands.go:382-394 | One text per error |
| InlineCommands.ErrorReportAppend | pkg/inline_commands.go:382-394 | The report of two lists is the concatenation of their reports |
| InlineCommands.NonMapErrorSkipped | pkg/inline_commands.go:383-386 | Non-map entries are skipped |
| InlineCommands.ErrorReportShowsEach | pkg/inline_commands.go:387-393 | Every map error's message is printed, and its string hint |
| InlineCommands.ReportErrors | pkg/inline_commands.go:381-396 | The loop writes the errors report |
| InlineCommands.ChosenFormatter | pkg/inline_commands.go:398-403 | The named default formatter, compact JSON for an unknown name |
| InlineCommands.ErrorsBypassFormatting | pkg/inline_commands.go:381-396 | With errors, the report goes to standard output whatever the format and output flags say |
| InlineCommands.FormattedDestination | pkg/inline_commands.go:405-415 | Without errors, the formatted text goes to the output file when named, else to standard output |
| InlineCommands.PrintInlineResult | pkg/inline_commands.go:375-416 | The printed outcome as `InlineResult` defines it |
| InlineCommands.InlineResult | pkg/inline_commands.go:375-416 | An undecodable body fails; a file is written only when an output path is given, to that path, and then nothing goes to standard output |
| InlineCommands.LoginOutcome | pkg/inline_commands.go:247-268 | Undecodable fails; errors fail with `login failed`; success exactly when there are no errors, a token is extracted and a store is configured |
| InlineCommands.LoginVariables | pkg/inline_commands.go:237-240 | The login mutation's variables are exactly `email` and `password`, with the given values |
| InlineCommands.LoginReportsFirstError | pkg/inline_commands.go:252-255 | The first error's message is the failure |
| InlineCommands.LoginNeedsStore | pkg/inline_commands.go:265-268 | Without a store, a login that gets a token fails |
| InlineCommands.InlineCommandSet.Apply | pkg/inline_commands.go:42-58 | One option applied to the set |
| InlineCommands.InlineCommandSet.NewInlineCommandSet | pkg/inline_commands.go:61-67 | The options applied in order |
| InlineCommands.InlineCommandSet.Commands | pkg/inline_commands.go:75-86 | query, mutation, describe and types always; login, logout and whoami exactly when a login is configured |
| InlineCommands.InlineCommandSet.RunOperation | pkg/inline_commands.go:96-127 | The query and mutation actions: read, execute, print |
| InlineCommands.OperationOutcome | pkg/inline_commands.go:96-106 | A failure to read the operation is returned unchanged, before anything is executed |
| InlineCommands.InlineCommandSet.Describe | pkg/inline_commands.go:144-155 | A missing argument is an error; otherwise the describer's SDL |
| InlineCommands.InlineCommandSet.Types | pkg/inline_commands.go:170-221 | The types listing of the executor's answer |
| InlineCommands.TypesOutcome | pkg/inline_commands.go:170-221 | The action fails exactly when the response does not decode; otherwise it prints the listing of `data.__schema.types` |
| InlineCommands.InlineCommandSet.Login | pkg/inline_commands.go:235-275 | On success the trimmed token is saved and the store's directory named; on failure the saved token is unchanged |
| InlineCommands.InlineCommandSet.Logout | pkg/inline_commands.go:285-296 | No store or no token: no active session; otherwise the token is removed |
| InlineCommands.InlineCommandSet.Whoami | pkg/inline_commands.go:306-319 | Not logged in, the could-not-be-parsed text, or the token info |
| Resolver.Author.constructor | example/graph/resolver.go:64-67 | An author with that ID and name |
| Resolver.FirstNamed | example/graph/resolver.go:59-63 | The first index with that name, none exactly when absent |
| Resolver.NewAuthorId | example/graph/resolver.go:65 | `a` followed by the counter's decimal digits, which read back to the counter (after a `-` for a negative counter) |
| Resolver.AppendedIsFirst | example/graph/resolver.go:68 | An appended missing name is its first match |
| Resolver.FirstNamedStable | example/graph/resolver.go:59-63 | Appending keeps the first match of a present name |
| Resolver.Resolver.Names | example/graph/resolver.go:22 | The authors' names, in list order |
| Resolver.Resolver.NewResolver | example/graph/resolver.go:29-34 | `store.json`, counter 1, no books, no authors |
| Resolver.Resolver.GetOrCreateAuthor | example/graph/resolver.go:58-70 | The first author with that name and the list unchanged, or a fresh one appended with ID from the counter; counter never advanced; existing authors kept; afterwards the name is found |
| Text.ToLower | pkg/cli.go:735 | ASCII lower-casing, character by character |
| Text.Split | pkg/client.go:262 | `strings.Split` gives at least one piece, none holding the separator |
| Text.JoinSplit | pkg/client.go:262 | Joining the pieces of a split gives back the text |
| Text.SplitJoin | pkg/client.go:262-275 | Splitting a join of separator-free pieces gives the pieces |
| Text.TrimCharacterized | pkg/client.go:28 | `strings.Trim` removes exactly the surrounding cut-set characters |
| Text.LexLessTotal | pkg/describe.go:225-230 | Go string order is total on different strings |
| Text.NatToString | pkg/client.go:264-271 | `%d` of a natural number is digits only |
| Text.NatToStringRoundTrip | pkg/client.go:264 | Decimal rendering round-trips |
| Text.Utf8Length | pkg/client.go:263-265 | `len` of a string counts UTF-8 bytes: at least one per character |
| Text.Utf8Prefix | pkg/client.go:265 | A prefix of whole characters within the byte limit, and the longest such prefix |
| Text.Utf8PrefixConcat | pkg/client.go:265 | Text whose first part fits the byte limit keeps that part whole; the rest is cut with what is left of the limit |
| Text.AsciiUtf8 | pkg/client.go:263-265 | For ASCII text the byte length is the character count and the byte-limited prefix is the character-limited one |
| Text.Pad2 | pkg/client.go:271 | `%2d` is at least two characters, and plain for two-digit numbers |
| Text.QuoteInjective | pkg/describe.go:119 | Different names have different `%q` forms |
| Text.QuotePlain | pkg/describe.go:119 | A name needing no escape is quoted as it stands |

## Left out

- Network transport: the resty client, the timeout and debug switches, and the bearer-header set-up. These are a `Transport` function parameter that receives the request with its headers and timeout.
- `json.Marshal` and `json.Unmarshal` are abstract function parameters. The decoder's own error messages after `failed to parse response: ` and the other `%w` prefixes are not modelled. In `printInlineResult` a bare decoder error becomes an empty failure text.
- The gqlgen engine (`handler.Server`, `ServeHTTP`, `SetErrorPresenter`): the handler is an abstract function from a context and a POST body to the calls it makes on its writer.
- `sync.Map` concurrency in the describer: the cache is a sequential map, and the duplicate-store race is outside the model.
- The regular-expression engine: each pattern is a hand-written matcher, proved against the language of the pattern.
- `TokenStore.Load`, `ParseClaims`, `FormatInfo` and `FormatInfoJSON`: JWT parsing is an external library. `whoami` takes `FormatInfo` as a parameter, and the store is its saved token with no file I/O. The I/O errors of `Save` and `Clear` are not modelled.
- pkg/skill.go, cmd/gqlcli/main.go and example/main.go: filesystem wiring and start-up.
- urfave/cli flag and command definitions: flags are passed as values. `fmt.Print` output is returned as text.
- The map branches of `TableFormatter.Format`, `formatDataAsMarkdown` and `formatTableValue`. They depend on Go's map iteration order, so they are opaque renderer parameters.
- The float64 branch of `formatTableValue`: numbers are integers in the model.
- TOON and JSON encoding: these are external libraries, modelled as parameters.
- `%v` and `%s` of values that are not strings: these go through an abstract `show` function.
- Text.ToLower: lower-cases ASCII letters only, not Unicode.
- Resolver `load` and `save` are file I/O and are not modelled. The `mu` mutex is not used by `getOrCreateAuthor`.
- Text.Quote: escapes quotes, backslashes and the common control characters, but not Go's `\x`/`\u` forms for other non-printable characters.
- Sdl.SortFieldsByType: `sort.Slice` is not stable. The model sorts stably, so the order of two fields with the same (type, name) key is not modelled. The order is proved unique when keys are distinct.
- Describer.NewSchemaHintDescriber: the `context.Context` passed to `Describe` is not threaded through the describer. In the source it reaches the handler through `http.NewRequestWithContext`; the model replaces the caller's context with `Background`.
- Aliasing of the recorder's header map is not modelled. Neither is `ExecuteMutation` writing `input` into the caller's own map: the model builds a new map.
- Nil versus empty maps: a nil map reads as empty. A nil variables map is `None`.
- `InlineExecutor.Execute`'s marshal and `NewRequest` errors cannot happen for the values passed, so Execute always succeeds. The `query`, `mutation`, `types` and `login` actions therefore never take their execute-error branches.
- The `WriteFile` error of `printInlineResult` is left out: the output file and its contents are returned.
- `HTTPClient.Introspect` (the full-schema introspection query text) is not modelled. The same goes for `ExecuteFunc`, `Mount`, `inlineOperationFlags`, `handleError` and `outputResult`.
- `GraphQLResponseError`, `NewDescriberFromHTTPClient` and `model.Book`/`model.Author` are declared in files that are not part of this model. The response error is a datatype holding the result and query, and the HTTP describer's exec is a constructor parameter.
- Cli.ListQuerySwitchesDetermined: the "only when asked for" direction is stated through the query's length, not as the absence of the text.
- Cli.BuildOperationListQuery: the type name is inserted with `%s` and is not escaped; no property about names that contain quotes is stated.
- Client.FormatQueryForError: the 97-byte cut can fall inside a multi-byte character. Go then keeps that character's leading bytes, which are not valid UTF-8. The model's strings hold whole characters, so it keeps only the characters that fit entirely. Lengths and the 100-byte threshold are counted in bytes, as in Go.
- Describer.DescribeTwice: exec is a deterministic function of the query (`Describer.Exec`), so a transient failure followed by a success is not modelled. That `first == second` holds after a failed describe rests on this; `Describer.CacheValid` rests on it too.
