# Clear-scroll request normalisation, modelled in Dafny

This project models the request preparation of Elasticsearch's clear-scroll
REST action (`RestClearScrollAction`). A `DELETE /_search/scroll` request
names the scroll contexts to release either in a comma-separated
`scroll_id` request parameter or in a request body of the form
`{"scroll_id": "id"}` or `{"scroll_id": ["id", ...]}`. The action turns that
into a `ClearScrollRequest` holding the ids in order. It does this in three
steps:

- it splits the parameter;
- it throws the parameter's ids away whenever a body is present;
- it reads the body with a strict grammar that rejects any other shape.

The body is read as a stream of pull-parser tokens. The model has these parts:

- `Tokens`: the abstract token stream.
- `BodyParser`: the body parser. `ParseBody` is a single-pass state machine
  that takes one `Step` per token and is written as the recursive `Run`.
  `BuildFromContent` is the same parser written as the source's two nested
  loops, and it is proved equal to `ParseBody`.
- `BodyGrammar`: an independent, declarative description of bodies. A body
  is a sequence of entries (field names, scalars, arrays of scalars) followed
  by an ending: the object end, or one of the ways a body goes wrong. The
  grammar also says which outcome each such body must produce.
- `ParserCorrectness`: proves the parser and the grammar agree, in both
  directions. Every stream that starts an object decomposes into grammar
  entries and an ending, and the parser returns what the grammar assigns.
  Conversely, every grammatical stream parses to its assigned outcome,
  followed by any tokens when its ending is not a truncation. A truncated
  stream must be the whole body, since tokens after it would be read.
- `BodyProperties`: the behavioural properties, stated on whole bodies.
- `ClearScrollAction`: the parameter splitter and the merge rule.
- `Examples`: concrete requests, with bodies written as token lists.

Errors are a `Result`, never an exception, and a failed parse never yields
a partial id list. The error kinds are:

- `MalformedContent`: the first token is not an object start.
- `UnknownParameter(field, token)`: a value appeared under a field other
  than `scroll_id`, or under no field at all.
- `InvalidArrayElement`: a `scroll_id` array held something other than a
  scalar.
- `InvalidScrollIdElement`: a `scroll_id` value was neither a scalar nor an
  array.
- `UnexpectedEndOfContent`: the stream ended where a `scroll_id` value was
  expected.

Behaviours of `buildFromContent` a reader may not expect:

- A field name other than `scroll_id` is not an error by itself. The source
  only fails when a non-field-name token arrives while that field is
  current. So `{` `other` `scroll_id` `"x"` `}` (two field-name tokens in a
  row) yields `["x"]`.
- The current field name survives a `scroll_id` array. A bare value after
  the array's end is therefore still a `scroll_id` value.
- Only an absent (null) parameter gives the empty list directly. A present
  but empty parameter goes to the comma splitter like any other string.
- When the stream ends before the object end, the source does one of two
  things. With `scroll_id` current (directly or inside its array) it
  dereferences the missing token; the model reports
  `UnexpectedEndOfContent`. Otherwise it throws its unknown-parameter error
  with a null token; the model reports `UnknownParameter(field, None)`.

## Model

| member | source | states |
|---|---|---|
| BodyParser.ParseBody | core/src/main/java/org/elasticsearch/rest/action/search/RestClearScrollAction.java:72-75 | the body is rejected as malformed content exactly when the stream is empty or its first token is not an object start; no other failure of the parser is this one |
| BodyParser.Run | core/src/main/java/org/elasticsearch/rest/action/search/RestClearScrollAction.java:76-99 | running the state machine never produces the object-start error, and on success the ids collected before are kept, in order, at the front of the result (ids are only ever appended) |
| BodyParser.BuildFromContent | core/src/main/java/org/elasticsearch/rest/action/search/RestClearScrollAction.java:72-101 | the nested-loop procedure, with a mutable current field and id list, returns exactly the parse outcome of the state machine on every token stream |
| BodyParser.RunIgnoresSuffix | core/src/main/java/org/elasticsearch/rest/action/search/RestClearScrollAction.java:78-99 | single pass: once the state machine reaches an outcome that is not caused by running out of tokens, appending any tokens leaves the outcome unchanged |
| BodyParser.ParseBodyIgnoresSuffix | core/src/main/java/org/elasticsearch/rest/action/search/RestClearScrollAction.java:73-78 | for a non-empty body, any outcome reached before the stream runs out (success at the first top-level object end, or any error) is unchanged by appending tokens, which are never examined |
| BodyGrammar.IdsAppend | core/src/main/java/org/elasticsearch/rest/action/search/RestClearScrollAction.java:87-93 | the ids named by two runs of entries are those of the first followed by those of the second |
| ParserCorrectness.RunOverValues | core/src/main/java/org/elasticsearch/rest/action/search/RestClearScrollAction.java:83-88 | inside a `scroll_id` array, reading value tokens appends their texts in order and stays in the array |
| ParserCorrectness.ValuesRun | core/src/main/java/org/elasticsearch/rest/action/search/RestClearScrollAction.java:83-88 | every stream read inside the array is a maximal run of values, whose texts are appended, followed by a non-value token or the end |
| ParserCorrectness.RunOverEntry | core/src/main/java/org/elasticsearch/rest/action/search/RestClearScrollAction.java:79-94 | a field name sets the current field; under `scroll_id` a scalar appends its text and a complete array appends its elements' texts |
| ParserCorrectness.RunOverEntries | core/src/main/java/org/elasticsearch/rest/action/search/RestClearScrollAction.java:78-94 | reading valid entries leaves the last field name current and appends exactly the ids the entries name |
| ParserCorrectness.RunOverEnding | core/src/main/java/org/elasticsearch/rest/action/search/RestClearScrollAction.java:78-98 | each way the object can end yields its outcome: the collected ids at the object end, the unknown-parameter, array-element or scroll-id-element error at an offending token, and the end-of-stream outcome when tokens run out |
| ParserCorrectness.ParseBodyMatchesGrammar | core/src/main/java/org/elasticsearch/rest/action/search/RestClearScrollAction.java:72-101 | completeness: every body of valid entries and an allowed ending, followed by any tokens when the ending is not a truncation, parses to the outcome the grammar assigns |
| ParserCorrectness.OutcomeCons | core/src/main/java/org/elasticsearch/rest/action/search/RestClearScrollAction.java:79-94 | reading one more valid entry in front of a stream changes the outcome exactly as prepending that entry to its grammatical decomposition does |
| ParserCorrectness.RunDecompose | core/src/main/java/org/elasticsearch/rest/action/search/RestClearScrollAction.java:76-99 | soundness inside the object: every stream is valid entries, an allowed ending and unread tokens (none after a truncation), and the run's outcome is the one that ending calls for |
| ParserCorrectness.ParseBodyDecomposes | core/src/main/java/org/elasticsearch/rest/action/search/RestClearScrollAction.java:72-101 | soundness: every body starting with an object start is an object of valid entries and an allowed ending followed by unread tokens, and parses to the grammar's outcome |
| BodyProperties.ParseBodySucceedsIffGrammatical | core/src/main/java/org/elasticsearch/rest/action/search/RestClearScrollAction.java:72-101 | a body parses to ids exactly when it begins with a closed object of valid entries, and the ids are then the `scroll_id` scalars and array elements in stream order |
| BodyProperties.ParseBodyStopsAtObjectEnd | core/src/main/java/org/elasticsearch/rest/action/search/RestClearScrollAction.java:78 | a closed object of valid entries parses to its ids whatever tokens follow its object end |
| BodyProperties.RepeatedScrollIdsAccumulate | core/src/main/java/org/elasticsearch/rest/action/search/RestClearScrollAction.java:79-93 | repeated `scroll_id` fields add their ids after the earlier ones instead of replacing them |
| BodyProperties.UnknownFieldRejected | core/src/main/java/org/elasticsearch/rest/action/search/RestClearScrollAction.java:95-97 | a non-field-name token read while the current field is not `scroll_id`, including before any field name, fails with the unknown-parameter error naming that field and token |
| BodyProperties.ArrayElementRejected | core/src/main/java/org/elasticsearch/rest/action/search/RestClearScrollAction.java:83-86 | a non-value token other than the array end inside a `scroll_id` array fails the body with the array-element error, discarding the values read before it |
| BodyProperties.ScrollIdElementRejected | core/src/main/java/org/elasticsearch/rest/action/search/RestClearScrollAction.java:89-92 | an object start or stray array end given as the `scroll_id` value fails with the scroll-id-element error |
| BodyProperties.TruncatedBodyRejected | core/src/main/java/org/elasticsearch/rest/action/search/RestClearScrollAction.java:78-97 | a body that ends before its object end fails: with the end-of-content error while a `scroll_id` value or array element is expected, otherwise with the unknown-parameter error reporting no token |
| ClearScrollAction.SplitScrollIds | core/src/main/java/org/elasticsearch/rest/action/search/RestClearScrollAction.java:65-70 | an absent parameter names no ids and cannot fail; a present one is handed to the comma splitter |
| ClearScrollAction.PrepareRequest | core/src/main/java/org/elasticsearch/rest/action/search/RestClearScrollAction.java:46-60 | with no body the request holds the split parameter; with a body the request exists exactly when the body parses, holds exactly the body's ids, and otherwise the body's error is returned with no request |
| ClearScrollAction.BodyOverridesParameter | core/src/main/java/org/elasticsearch/rest/action/search/RestClearScrollAction.java:50-55 | when a body is present, neither the parameter nor the splitter affects the outcome |
| ClearScrollAction.BodyIdsReplaceParameter | core/src/main/java/org/elasticsearch/rest/action/search/RestClearScrollAction.java:47-55 | a body of valid entries yields a request with exactly its ids, whatever the parameter, even when the body names none |
| Examples.ArrayBodyExample | core/src/main/java/org/elasticsearch/rest/action/search/RestClearScrollAction.java:82-88 | `{"scroll_id":["x","y","z"]}` yields x, y, z in order |
| Examples.UnknownFieldExample | core/src/main/java/org/elasticsearch/rest/action/search/RestClearScrollAction.java:95-97 | `{"other_field":"x"}` fails with the unknown-parameter error naming `other_field` and the value token |
| Examples.NestedObjectInArrayExample | core/src/main/java/org/elasticsearch/rest/action/search/RestClearScrollAction.java:83-86 | `{"scroll_id":["x",{"nested":1}]}` fails with the array-element error |
| Examples.ObjectValueExample | core/src/main/java/org/elasticsearch/rest/action/search/RestClearScrollAction.java:89-92 | `{"scroll_id":{"nested":1}}` fails with the scroll-id-element error |
| Examples.BodyOverridesParameterExample | core/src/main/java/org/elasticsearch/rest/action/search/RestClearScrollAction.java:47-55 | parameter `a,b` with body `{"scroll_id":"x"}` gives exactly `["x"]` |
| Examples.EmptyBodyExample | core/src/main/java/org/elasticsearch/rest/action/search/RestClearScrollAction.java:47-55 | parameter `a,b` with body `{}` gives no ids |

## Left out

- Handler construction and route registration (`RestClearScrollAction.java:38-43`): framework wiring with no logic to model.
- Dispatch to `client.clearScroll` and the response listener (`RestClearScrollAction.java:62`): network and asynchronous I/O.
- `withContentOrSourceParamParserOrNull` and the wrapping of an `IOException` as "Failed to parse request body" (`RestClearScrollAction.java:50, 56-57`): I/O plumbing. Whether a body is present is an `Option` of a token sequence. A decoder failure is not modelled.
- The concrete XContent decoding: it is foreign code. The body is an abstract token sequence, and `Value` stands for every token kind the parser reports as a value.
- The null-value token kind (`VALUE_NULL`): the token enum is not part of this model. A JSON `null` would be rejected wherever a scalar is expected, as any non-value is.
- The exact text of the error messages: errors are kinds. Only the unknown-parameter error keeps anything: the field name and the abstract token. The source's message prints the token's kind (such as `VALUE_STRING`); the model's `Value` token carries the value's text instead and does not distinguish value kinds.
- ClearScrollAction.SplitScrollIds: `Strings.splitStringByCommaToArray` is not part of this model. It is an uninterpreted parameter, so no split/join round trip and no rule about empty segments is stated.
- How "no ids from the body" is stored: the source resets the list to null and `ClearScrollRequest` is not part of this model. It is an empty sequence here.
- Parsing into a non-empty list: `buildFromContent` appends to whatever list the request already holds. Its caller in this class (`RestClearScrollAction.java:53`) empties the list first, so `ParseBody` starts from an empty list. The state machine itself takes any starting list: `Run` promises that its result extends the list it was given, and `RunOverValues` and `RunOverEntries` hold for any starting list.
- The null-pointer exception: the source throws a null-pointer exception when the stream ends while a `scroll_id` value is expected. The model returns `UnexpectedEndOfContent` instead.
