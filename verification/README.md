# Artists service: request handlers

A Dafny model of the five request handlers of the gostream `artists` service: create, list,
get-by-id, update and delete an artist. Each handler is modelled as a pure function. It takes the
HTTP request and the results the artist store gives, and returns the response together with the
ordered list of store calls it made. The model covers:

- the request-body validators of the create and update endpoints, over Go's `strings.TrimSpace`;
- the merge of a partial update into the stored artist and the four-key `$set` written back;
- the filters the handlers build: the primary-key lookups, and the list endpoint's `name` and
  `limit` query parameters (read with `strconv.Atoi`, truncated to `uint32`);
- each handler's order of checks and its choice of status code.

Modules follow the source files. `Models` holds the artist record and its document view.
`Text`, `StrConv` and `Query` hold the string trimming, integer parsing and filter tree.
`Store` holds the store interface, the call trace and a reference collection. `Api` holds the
request and response. `CreateArtist`, `UpdateArtist`, `GetArtists`, `GetArtist` and
`DeleteArtist` hold one handler each.

The store driver is not part of this model. A `Db` value gives the result of each store
operation: find, create, update and delete. Every property about a handler's own decisions holds
for every `Db`. A `Collection` (the stored artists keyed by primary key) gives the reference
meaning. `Reflects(db, c)` says that every successful find returns artists of `c` that the filter
selects. It also says that such a find returns all of them unless the limit cut it short, and
that a successful delete reports 1 exactly when the id is stored. Each handler has a
`HandlerAgainstCollection` lemma that uses this meaning to relate its status codes to the
stored artists.

Foreign calls are parameters of the handlers: `decode` for `json.Unmarshal`, `isUuid` for
`uuid.Parse`, and `newId` for `uuid.New`.

Behaviour kept as the code has it:

- The update handler reports a failing store lookup as 404, the same as a missing artist.
- The create handler reports a failing existence check as 409 "artist already exists".
- The update handler answers 204 whether the modified count is 0 or positive.
- The get-by-id lookup uses limit 10. Neither get-by-id nor delete validates the id.
- In the first two cases a store failure is not answered with 500; the model follows the code.

## Model

| member | source | states |
|---|---|---|
| Models.Lookup | impl/models/artist.go:7-32 | an artist's document holds its id under `_id`, its name under `name`, its genres under `genres`, its followers under `followers` and its popularity under `stats.popularity`, and nothing under any other path |
| Models.ApplySet | impl/funcs/updateartist/updateartist.go:367-376 | a `$set` gives every assigned field path of the right type its new value and leaves every other path, the id included, as it was |
| Models.ApplySetIdempotent | impl/funcs/updateartist/updateartist.go:367-376 | applying the same `$set` twice leaves the document as applying it once |
| Text.TrimSpace | impl/funcs/createartist/createartist.go:128-131 | the trimmed string is the segment of the input from its first to its last non-space character, and it is empty exactly when the input is all white space |
| Text.SomeTrimsEmptyIffBlank | impl/funcs/createartist/createartist.go:129-147 | some genre trims to empty exactly when some genre consists only of white space |
| StrConv.Atoi | impl/funcs/getartists/getartists.go:59-62 | the text is accepted exactly when it is an optional sign followed by at least one decimal digit and denotes a 64-bit integer, and the result is that integer |
| StrConv.AtoiItoa | impl/funcs/getartists/getartists.go:59-62 | every 64-bit integer written in decimal is read back as itself |
| StrConv.AtoiRejectsOutOfRange | impl/funcs/getartists/getartists.go:59-62 | a decimal outside the 64-bit range is refused |
| StrConv.ToUint32 | impl/funcs/getartists/getartists.go:74-76 | the conversion yields the unique 32-bit value congruent to the integer modulo 2^32: non-negative values below 2^32 are kept and negatives wrap |
| Query.ByIdFilter | impl/funcs/updateartist/updateartist.go:225-231 | the primary-key filter selects exactly the artists whose id is the given id, with the given limit |
| Query.AndOfOne | impl/funcs/getartists/getartists.go:64-80 | a conjunction holding one clause matches exactly what that clause matches |
| Query.AndReorder | impl/funcs/getartists/getartists.go:52-70 | permuting the clauses of a conjunction (same multiset) does not change what it matches |
| Query.EmptyAndMatchesAll | impl/funcs/getartists/getartists.go:72-80 | a filter with no root, or with an empty conjunction as its root, selects every artist |
| Store.UpdateCollection | impl/funcs/updateartist/updateartist.go:379 | an update keeps the set of stored ids, applies the `$set` to every selected artist and leaves the others unchanged |
| Store.FindById | impl/funcs/updateartist/updateartist.go:224-242 | a primary-key lookup with a non-zero limit finds nothing exactly when the id is not stored, and otherwise finds the stored artist first |
| Store.UpdateById | impl/funcs/updateartist/updateartist.go:360-379 | updating through the primary-key filter changes the artist with that id and no other |
| UpdateArtist.GetAndValidateID | impl/funcs/updateartist/updateartist.go:140-152 | the `id` path parameter is accepted verbatim exactly when it is a UUID; otherwise the error refers to `:id` |
| UpdateArtist.ValidateArtistStatsRequestBody | impl/funcs/updateartist/updateartist.go:207-209 | statistics validation never fails |
| UpdateArtist.ValidateRequestBody | impl/funcs/updateartist/updateartist.go:165-194 | validation passes exactly when the name is absent or not blank and no genre is blank; a present blank name gives the `name` error, which takes precedence over the `genres` error given for a blank genre |
| UpdateArtist.FindArtistByID | impl/funcs/updateartist/updateartist.go:224-243 | the lookup succeeds exactly when the limit-1 primary-key find returns an artist, and then yields the first one; an empty find is "not found" and a store error is passed on |
| UpdateArtist.MergeRequest | impl/funcs/updateartist/updateartist.go:344-358 | after the merge each field path holds the request's value when the request supplies a non-empty, non-zero one, and the stored value otherwise; the id never changes |
| UpdateArtist.MergeIsSetOfSupplied | impl/funcs/updateartist/updateartist.go:344-358 | the merge equals a `$set` of exactly the fields the request supplies |
| UpdateArtist.MergeIdempotent | impl/funcs/updateartist/updateartist.go:344-358 | merging the same request twice gives the same artist as merging it once |
| UpdateArtist.MergeNeverClears | impl/funcs/updateartist/updateartist.go:344-358 | an update cannot set followers or popularity to zero or the name or genres to empty |
| UpdateArtist.SetFields | impl/funcs/updateartist/updateartist.go:367-376 | the written-back `$set` has exactly the keys name, genres, followers and stats.popularity, each holding the merged artist's value |
| UpdateArtist.SetFieldsRestores | impl/funcs/updateartist/updateartist.go:360-376 | applied to the stored artist, the written-back `$set` yields exactly the merged artist |
| UpdateArtist.Handler | impl/funcs/updateartist/updateartist.go:305-398 | the store is untouched exactly when the id is not a UUID, which gives 400; a failed lookup gives 404; a body that does not decode or validate gives 400 with its error; only then is the update, filtered on the id with no limit, issued; its failure gives 500 and its success gives 204; the 204, 404 and 500 responses carry no body |
| UpdateArtist.NotFoundIgnoresBody | impl/funcs/updateartist/updateartist.go:316-333 | a 404 is decided before the body is decoded, so no decoder can change that exchange |
| UpdateArtist.HandlerAgainstCollection | impl/funcs/updateartist/updateartist.go:316-398 | against the stored artists, a 404 after a successful lookup means the id is not stored; a 204 means the update replaces that artist by the merge and leaves every other artist unchanged |
| CreateArtist.ValidateArtistStatsRequestBody | impl/funcs/createartist/createartist.go:163-165 | statistics validation never fails |
| CreateArtist.ValidateRequestBody | impl/funcs/createartist/createartist.go:127-150 | validation passes exactly when the name is not blank and no genre is blank; a blank (also empty) name gives the `name` error before genres are looked at; an empty genre list passes |
| CreateArtist.ExistenceFilter | impl/funcs/createartist/createartist.go:181-187 | the existence lookup selects exactly the artists with the new id, with limit 1 |
| CreateArtist.EnsureArtistDoesNotExist | impl/funcs/createartist/createartist.go:180-199 | the check passes exactly when the lookup returns no artist; a non-empty answer is a conflict; a store error is passed on unchanged |
| CreateArtist.EnsureAgainstCollection | impl/funcs/createartist/createartist.go:180-199 | against the stored artists, a successful lookup passes the check exactly when the id is not stored |
| CreateArtist.NewArtist | impl/funcs/createartist/createartist.go:249-257 | the new artist's document holds the fresh id and the request's name, genres, followers and popularity exactly as sent, untrimmed |
| CreateArtist.Handler | impl/funcs/createartist/createartist.go:227-284 | the store is untouched exactly when the body does not decode (400 "invalid request body") or does not validate (400 with the error); the existence check on the new id comes first and any failure of it gives 409; the insert of the new artist follows; its failure gives 500 with no body and its success gives 200 with that artist |
| CreateArtist.HandlerAgainstCollection | impl/funcs/createartist/createartist.go:249-284 | against the stored artists, a 200 means the new id was not stored and the response carries the request's fields verbatim; a 409 after a successful lookup means the id was stored |
| GetArtists.CreateFilterFromQueryParameters | impl/funcs/getartists/getartists.go:51-83 | without `name` the filter has no root and selects everything; with it the root is an And of the single clause name == value, selecting exactly the artists with that name; the limit is 0 unless `limit` parses, and then it is congruent to the parsed value modulo 2^32 |
| GetArtists.OnlyNameAndLimitMatter | impl/funcs/getartists/getartists.go:51-83 | two requests that agree on the `name` and `limit` parameters get the same filter |
| GetArtists.LimitParameter | impl/funcs/getartists/getartists.go:56-76 | a decimal `limit` below 2^32 becomes the limit, a negative one wraps modulo 2^32, and one outside the 64-bit range leaves the limit 0 |
| GetArtists.Handler | impl/funcs/getartists/getartists.go:111-126 | the handler issues one find with the query filter; a store error gives 500 with no body, otherwise 200 with every artist found, an empty list included |
| GetArtists.HandlerAgainstCollection | impl/funcs/getartists/getartists.go:111-126 | against the stored artists, every listed artist is stored and has the requested name; with neither parameter every stored artist is listed |
| GetArtist.LookupFilter | impl/funcs/getartist/getartist.go:67-73 | the lookup selects exactly the artists whose id is the path id, taken without validation, with limit 10 |
| GetArtist.Handler | impl/funcs/getartist/getartist.go:75-94 | a store error gives 500 and an empty answer 404, both with no body, and otherwise 200 with only the first artist found |
| GetArtist.HandlerAgainstCollection | impl/funcs/getartist/getartist.go:67-94 | against the stored artists, a successful lookup gives 200 with the stored artist exactly when the id is stored and 404 exactly when it is not |
| DeleteArtist.Handler | impl/funcs/deleteartist/deleteartist.go:64-84 | the path id is passed to the delete verbatim; a store error gives 500, a deleted count of 0 gives 204 and a positive count 202, all without a body |
| DeleteArtist.HandlerAgainstCollection | impl/funcs/deleteartist/deleteartist.go:64-84 | against the stored artists, a successful delete answers 202 exactly when the id was stored and 204 exactly when it was not |

## Left out

- `GetSafeInjector` in every handler, with its 500 response when the injected value has the wrong type. This is Go dependency wiring.
- Process start-up in cmd/main.go: environment variables, the port, the connection URI, the Mongo connection and route registration.
- The store implementation (`pkg/store` and `pkg/store/query`) is not part of this model. Its results are the `Db` parameter, and `Reflects` gives them a reference meaning.
- Store.Reflects says nothing about the modified count an update reports or about when an insert fails. The handlers answer 204 for any update count, and create's failure is a store-internal decision.
- `json.Unmarshal`, `uuid.Parse` and `uuid.New` are foreign library calls. They are the `decode`, `isUuid` and `newId` parameters.
- The distinction between a nil and an empty genre slice, which JSON encodes as `null` and `[]`. Both are the empty sequence here, and the handlers only test the length.
- Floating-point arithmetic on popularity. A `float32` is kept as its bit pattern; the code only copies it and compares it with 0.
- Go strings are UTF-8 bytes; here they are sequences of Unicode code points. Invalid UTF-8 is not modelled.
- StrConv.Atoi assumes a 64-bit `int`. A 32-bit build would refuse values outside the 32-bit range.
- The store's deleted and modified counts are unbounded naturals rather than 64-bit integers. The handlers only compare them with 0.
- Models.ApplySet: the reference `$set` covers only well-typed assignments to the four mutable paths. It drops an assignment of the wrong type or to another path, which the store would write, and ignores one to `_id`, which the store would reject. No handler issues such a `$set`.
- `CheckIfArtistExists` in the update endpoint is never called by its handler.
- Logging, request correlation ids and `marshal.Quick` only have side effects.
- The read-modify-write race in the update handler, and concurrency generally. Each handler is one sequential exchange.
