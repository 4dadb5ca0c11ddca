# A verified model of the inference playground's core

The inference playground is a web application for trying chat and image
models served through Hugging Face inference providers. This project
models its non-visual core in Dafny and proves properties of that model.

**Text and format transforms**
- Code snippets gain extra request properties: `modifySnippet` and its block splicing.
- The server-sent event stream: the writer's framing and the reader's line buffering.
- Hostnames are trimmed to a domain.
- Numbers are clamped and their decimal places counted.
- Words are pluralised and capitalised.
- Plain objects support `keys`, `omit` and `pick`.

**The browser database**
- A builder for Dexie schema strings.
- The versioned schema table and its version-2 record upgrade.

**Caches**
- A memoising wrapper with expiry.
- The per-tag model cache.
- The two-category refresh policy of the visual-models route and of the remote models query, with pagination.
- The provider max-tokens cache.

**MCP tool dispatch**
- MCP tool schemas are turned into OpenAI-style functions.
- Connections are kept only when they succeed.
- One tool call is dispatched over the connections.

**Client state**
- Conversations and the guard in front of generation.
- Custom and trending models.
- Checkpoints and the session store's query string.
- An object persisted in storage.
- Form validation.
- The splitter, the virtual scroll, the abort manager and the once-only initialiser.

**Request shaping**
- Token limits and `response_format`.
- Message assembly, and stream accumulation with one retry after a 401.
- Snippet filtering and the tokenizer's input text.

**Scripts**
- The script that downloads model preview images.

Each core file is one module. The module's header comment names the file
and lists what it takes as given.

**Imperative source code stays imperative.**
- Loops in the source are methods with loop invariants. Each is proved against a function that specifies it.
- Objects whose fields change in place are classes with `modifies` frames.

**Pure source code becomes functions and lemmas.**

**Outside effects become values or parameters.**
- Network, storage, the database, timers and the clock are given as values or parameters. The JSON parser is modelled in `Json`.
- `Date.now()` is an explicit `now`.
- Concurrent work is processed in order.

**Shared modules**
- `Wrappers`: `Option` and `Result`.
- `Text`: the JavaScript string operations used.
- `Json`: JSON values, with `JSON.stringify` and `JSON.parse` proved to round-trip.
- `Objects`: plain objects, as lists of own properties.
- `Catalog`: model records and their order by lower-cased id.

## Model

| member | source | states |
|---|---|---|
| Strings.Pluralize | src/lib/utils/string.ts:1-6 | the word itself exactly for a count of 1, the word plus `s` for every other count, 0 included |
| Strings.CapitalizeKeepsRest | src/lib/utils/string.ts:8-10 | the length is kept, only the first character changes (to its upper case), the rest is kept verbatim, an empty word stays empty and a word not starting with a lower-case letter is unchanged |
| Strings.CapitalizeIdempotent | src/lib/utils/string.ts:8-10 | capitalising twice is capitalising once |
| Number.ClampInRange | src/lib/utils/number.ts:1-3 | with `min <= max` the result lies in `[min, max]`; it is the value itself when that is in range, `min` below it and `max` above it |
| Number.ClampCrossedBounds | src/lib/utils/number.ts:2 | with `min > max` the result is `min`, whatever the value |
| Number.ClampIdempotent | src/lib/utils/number.ts:1-3 | clamping a clamped value changes nothing |
| Number.DecimalPlacesOfFraction | src/lib/utils/number.ts:9-13 | the decimal places of `whole.fraction` are the length of the fraction part; a text without `.` has none |
| Url.ToUrl | src/lib/utils/url.ts:33-48 | a `URL` instance gives its hostname; a non-string gives null; a string gives a hostname exactly when it is non-empty, parses and has a non-empty hostname, and then the parsed one |
| Url.ExtractDomain | src/lib/utils/url.ts:10-31 | null exactly when `toURL` gives null, otherwise the trimmed hostname |
| Url.DomainIsKeptLabels | src/lib/utils/url.ts:17-30 | the domain is the kept labels of the hostname joined with dots |
| Url.KeptLabels | src/lib/utils/url.ts:20-30 | between one and three labels, taken from the end of the label list |
| Url.TrimmedIsKept | src/lib/utils/url.ts:20-30 | each of the three branches returns the kept labels joined with dots |
| Url.DomainLabels | src/lib/utils/url.ts:17-30 | splitting the domain at its dots gives back exactly the kept labels |
| Url.ShortHostname | src/lib/utils/url.ts:20-22 | a hostname of at most two labels is returned unchanged |
| Url.LongHostname | src/lib/utils/url.ts:24-30 | behind `com`, `co`, `org`, `net`, `gov` or `edu` the last three labels are kept, otherwise the last two |
| Url.DomainIsSuffix | src/lib/utils/url.ts:17-30 | the domain is the hostname itself or what follows one of its dots |
| Url.KeptIsSuffix | src/lib/utils/url.ts:24-30 | the joined kept labels are a label-aligned suffix of the joined labels |
| Url.NullInputs | src/lib/utils/url.ts:38-40 | the empty string and any value that is neither a string nor a `URL` give null |
| Url.UnparseableString | src/lib/utils/url.ts:42-47 | a string the parser rejects, or one with an empty hostname, gives null |
| Objects.Keys | src/lib/utils/object.svelte.ts:4-6 | one name per property, in property order |
| Objects.Lookup | src/lib/utils/object.svelte.ts:22 | `undefined` exactly for a name that is not a key; otherwise a value stored under that name |
| Objects.Assign | src/lib/utils/object.svelte.ts:22 | a new name is appended with its value; an existing name keeps its place and the key list is unchanged |
| Objects.AssignLookup | src/lib/utils/object.svelte.ts:22 | reading back after an assignment gives the value assigned, and every other name reads as before |
| Objects.Omit | src/lib/utils/object.svelte.ts:18-26 | the loop builds exactly the properties of `obj` whose names are not listed, in order |
| Objects.OmittedMembers | src/lib/utils/object.svelte.ts:20-24 | a name/value pair is in the result exactly when it is in `obj` and its name is not listed |
| Objects.OmitLookup | src/lib/utils/object.svelte.ts:18-26 | no listed name can be read from the result, and every unlisted name reads the same value as in `obj` |
| Objects.OmittedSubsequence | src/lib/utils/object.svelte.ts:18-26 | the result of `omit` on an object with distinct names has distinct names |
| Objects.LookupUnique | src/lib/utils/object.svelte.ts:22 | in an object with distinct names, reading a name gives the value stored with it |
| Objects.OmitNothing | src/lib/utils/object.svelte.ts:18-26 | `omit` with no names copies the object |
| Objects.Pick | src/lib/utils/object.svelte.ts:28-34 | the loop builds the object that assigns each listed name, in turn, the value `obj` has for it |
| Objects.PickedKeys | src/lib/utils/object.svelte.ts:28-34 | the result has exactly the listed names, each holding the value of `obj` or `undefined` when `obj` has none |
| Memo.Step | src/lib/utils/cache.ts:16-28 | a hit returns the stored value and neither calls the function nor changes the table; a miss calls it, returns its outcome and stores a returned value under the key, and a throw stores nothing |
| Memo.Memoised.constructor | src/lib/utils/cache.ts:7-13 | the lifespan defaults to ten minutes; the table starts empty |
| Memo.Memoised.Call | src/lib/utils/cache.ts:15-28 | one call is `Step` on the table, and a stored value gets a deletion deadline `lifespan` after the call |
| Memo.Memoised.Elapse | src/lib/utils/cache.ts:23-25 | every entry whose timer is due is deleted, and only those |
| Memo.Expired | src/lib/utils/cache.ts:23-25 | an entry survives exactly when its deadline is later than now, with its value |
| Memo.SecondCallHits | src/lib/utils/cache.ts:16-19 | after a call that returned, a second call with the same serialised arguments returns that value without calling the function |
| Memo.ThrowStoresNothing | src/lib/utils/cache.ts:21-22 | a throwing call stores nothing, so the next call runs the function again |
| Memo.ExpiryRecomputes | src/lib/utils/cache.ts:11-25 | a value stored at `now` is gone by `now + lifespan`, and the next call recomputes |
| Memo.LiveEntryServed | src/lib/utils/cache.ts:17-19 | before its deadline a stored value survives the timers and is served |
| ModelsCache.NewEntry | src/routes/api/models/cache.ts:13-17 | the entry records the creation time and keeps `ok` and `data` as given |
| ModelsCache.FreshWhenCreated | src/routes/api/models/cache.ts:13-21 | an entry is fresh at the time it is created |
| ModelsCache.FreshSymmetric | src/routes/api/models/cache.ts:19-26 | fresh exactly when the two times are less than an hour apart, in either direction |
| ModelsCache.Query | src/routes/api/models/get-models.ts:34-43 | the nine fixed query parameters in order, and `filter=conversational` exactly for the text-generation and image-text-to-text tags |
| ModelsCache.Store.constructor | src/routes/api/models/cache.ts:24 | the cache starts empty |
| ModelsCache.Store.GetModelsForTag | src/routes/api/models/get-models.ts:10-55 | no fetch exactly when the entry exists, is fresh, ok and has data, and then its data is returned; a non-ok response stores an `ok:false` entry and returns `[]`; an ok response stores and returns its data; a rejected fetch or an unparseable body rejects and leaves the cache unchanged |
| ModelsCache.FailureNotServed | src/routes/api/models/get-models.ts:47-50 | an `ok:false` entry is never served, so the next call fetches again |
| ModelsCache.SuccessServed | src/routes/api/models/get-models.ts:11-14 | a successful entry is served exactly while it is less than an hour old |
| CreateInit.Init.constructor | src/lib/spells/create-init.svelte.ts:1-2 | not called yet, and the callback has not run |
| CreateInit.Init.Call | src/lib/spells/create-init.svelte.ts:4-8 | the callback starts exactly on the first call; `called` is set by it and stays set |
| CreateInit.CallTimes | src/lib/spells/create-init.svelte.ts:4-17 | however many calls are made, `called` holds and the callback has run exactly once |
| AbortManager.Members | src/lib/spells/abort-manager.svelte.ts:35 | the set of the tracked controllers |
| AbortManager.AbortManager.constructor | src/lib/spells/abort-manager.svelte.ts:10-20 | no controllers; `init` has run once, and the unmount hook is registered exactly when the manager is built inside a component |
| AbortManager.AbortManager.CreateController | src/lib/spells/abort-manager.svelte.ts:25-29 | a controller that was never handed out before is appended and returned; nothing is aborted |
| AbortManager.AbortManager.AbortAll | src/lib/spells/abort-manager.svelte.ts:34-37 | every tracked controller is aborted and the list is emptied |
| AbortManager.AbortManager.Clear | src/lib/spells/abort-manager.svelte.ts:40-42 | the list is emptied and nothing is aborted |
| AbortManager.AbortManager.Unmount | src/lib/spells/abort-manager.svelte.ts:14-20 | with the hook registered everything tracked is aborted; without it nothing changes |
| AbortManager.ClearedEscapesAbort | src/lib/spells/abort-manager.svelte.ts:25-42 | a controller cleared away is not aborted by the next `abortAll`, while one created after the clearing is |
| Splitter.BoundedInRange | src/lib/spells/splitter.svelte.ts:70-89 | with `min <= max` the clamped value lies in `[min, max]` (no upper bound for an infinite max) and is the value itself when already in range |
| Splitter.Splitter.constructor | src/lib/spells/splitter.svelte.ts:26-34 | `min` defaults to 0, `max` to infinity and the value to 0; not resizing, no overlay |
| Splitter.Splitter.KeyDown | src/lib/spells/splitter.svelte.ts:66-75 | ArrowLeft moves the value down by 20 and ArrowRight up by 20, clamped; any other key changes nothing |
| Splitter.Splitter.MouseDown | src/lib/spells/splitter.svelte.ts:76-79 | resizing starts and one new overlay is in the document, the remover now pointing at it |
| Splitter.Splitter.RemoveOverlay | src/lib/spells/splitter.svelte.ts:54-57 | the overlay it points at leaves the document and the remover clears itself; with none set nothing changes |
| Splitter.Splitter.MouseMove | src/lib/spells/splitter.svelte.ts:87-90 | while resizing the value is the clamped pointer position; otherwise nothing changes |
| Splitter.Splitter.MouseUp | src/lib/spells/splitter.svelte.ts:91-94 | resizing stops and the current overlay is removed |
| Splitter.Splitter.Attach | src/lib/spells/splitter.svelte.ts:84-95 | the document listeners are installed; nothing else changes |
| Splitter.Splitter.Detach | src/lib/spells/splitter.svelte.ts:97-100 | the listeners go, then the current overlay |
| Splitter.PressAndRelease | src/lib/spells/splitter.svelte.ts:76-99 | a press and release leave the document's overlays as they were, and a second removal changes nothing |
| Splitter.PressTwiceLeaks | src/lib/spells/splitter.svelte.ts:54-79 | two presses before a release leave an overlay in the document for good |
| VirtualScroll.FloorDiv | src/lib/spells/virtual-scroll.svelte.ts:37 | the floor of the quotient |
| VirtualScroll.CeilDiv | src/lib/spells/virtual-scroll.svelte.ts:39 | the ceiling of the quotient |
| VirtualScroll.RangeBounds | src/lib/spells/virtual-scroll.svelte.ts:36-47 | the range starts at 0 or later and ends at the last item or earlier; it starts at 0 exactly when the scroll position is within the first `overscan + 1` rows, and otherwise exactly `overscan` rows above the row holding the scroll position |
| VirtualScroll.Numbered | src/lib/spells/virtual-scroll.svelte.ts:59-62 | one row per item, numbered on from the start index |
| VirtualScroll.VisibleItemsAreSlice | src/lib/spells/virtual-scroll.svelte.ts:57-63 | for a range within the list, one row per index of the range, each holding the item at its index |
| VirtualScroll.NoItemsNoRows | src/lib/spells/virtual-scroll.svelte.ts:36-63 | with no items nothing is rendered |
| VirtualScroll.VirtualScroll.constructor | src/lib/spells/virtual-scroll.svelte.ts:13-26 | `overscan` defaults to 10 and `totalItems` to 0; the scroll position starts at 0 |
| VirtualScroll.VirtualScroll.SetScrollTop | src/lib/spells/virtual-scroll.svelte.ts:32-34 | the scroll position is the value set |
| VirtualScroll.VirtualScroll.Resized | src/lib/spells/virtual-scroll.svelte.ts:21-22 | the observed container height is recorded and the scroll position kept |
| VirtualScroll.VirtualScroll.GetScrollTop | src/lib/spells/virtual-scroll.svelte.ts:28-30 | the current scroll position |
| VirtualScroll.OffsetWithinHeight | src/lib/spells/virtual-scroll.svelte.ts:49-55 | for a non-empty range the offset is at least 0 and the rendered rows end within the total height |
| Form.Checked | src/lib/utils/form.svelte.ts:15-17 | valid exactly when the validator gives no non-empty message; the message is kept as given |
| Form.FieldValidation.constructor | src/lib/utils/form.svelte.ts:10-11 | valid, with no message |
| Form.FieldValidation.Blur | src/lib/utils/form.svelte.ts:13-18 | validity and message follow the validator's answer |
| Form.FieldValidation.Input | src/lib/utils/form.svelte.ts:20-25 | while valid nothing changes; otherwise only the message follows, an empty one dropped |
| Form.FieldValidation.Reset | src/lib/utils/form.svelte.ts:34-37 | valid, with no message |
| Form.Form.constructor | src/lib/utils/form.svelte.ts:50-51 | no entries and no validators |
| Form.Form.Blur | src/lib/utils/form.svelte.ts:58-65 | the field's entry is recorded from the validator's answer; nothing else changes |
| Form.Form.Input | src/lib/utils/form.svelte.ts:67-75 | nothing while the field is valid; otherwise it stays invalid and takes the new message |
| Form.Form.Reset | src/lib/utils/form.svelte.ts:84-89 | the field's entry is valid with no message |
| Form.Form.Attach | src/lib/utils/form.svelte.ts:93-100 | the field's validator is registered; entries are unchanged |
| Form.Form.Detach | src/lib/utils/form.svelte.ts:101-106 | a connected node keeps everything; otherwise the field's entry and validator are removed |
| Form.Form.Valid | src/lib/utils/form.svelte.ts:112-115 | every registered validator records its field's entry and no other entry changes; the answer is true exactly when every entry is valid |
| Form.ValidMeansChecksPass | src/lib/utils/form.svelte.ts:112-115 | after `valid` answers true, no registered validator fails |
| PersistedObj.SetMember | src/lib/spells/persisted-obj.svelte.ts:104-109 | after `target[property] = value` the property reads as the value and every other property reads as before |
| PersistedObj.Replaced | src/lib/spells/persisted-obj.svelte.ts:106 | same length; each member with the property's name holds the new value, every other member is kept |
| PersistedObj.SetThenGet | src/lib/spells/persisted-obj.svelte.ts:98-109 | a write through the proxy at the end of a path is read back at once along the same path |
| PersistedObj.SetKeepsOthers | src/lib/spells/persisted-obj.svelte.ts:98-109 | a write leaves every other property of the object written to as it was |
| PersistedObj.PersistedObj.constructor | src/lib/spells/persisted-obj.svelte.ts:29-60 | a stored text that parses to something truthy replaces the initial value; with nothing stored the initial value is written when the storage accepts it; the proxy's root is the value chosen; the version starts at 0 |
| PersistedObj.PersistedObj.HandleStorageEvent | src/lib/spells/persisted-obj.svelte.ts:55-67 | ignored unless subscribed, for the same key and with a new value; otherwise a truthy parsed value replaces `current` and the version is bumped either way; what the proxy reads and the storage never change |
| PersistedObj.PersistedObj.Write | src/lib/spells/persisted-obj.svelte.ts:104-109 | when the path leads to an object, the version is bumped, the property is set in the root and the whole root is written back (unless the storage throws); otherwise nothing changes |
| PersistedObj.WrittenIsReloaded | src/lib/spells/persisted-obj.svelte.ts:45-53 | a truthy root written back is what a fresh object over the same storage starts from |
| Checkpoints.FindProject | src/lib/state/checkpoints.svelte.ts:33 | finds a project exactly when the session knows that id, and then one with that id |
| Checkpoints.WithoutCheckpoint | src/lib/state/checkpoints.svelte.ts:52 | a checkpoint is kept exactly when it is in the list and has another id |
| Checkpoints.Checkpoints.constructor | src/lib/state/checkpoints.svelte.ts:14-26 | the record starts from what storage held, or `{}` |
| Checkpoints.Checkpoints.Commit | src/lib/state/checkpoints.svelte.ts:32-40 | a project the session does not know changes nothing; otherwise the project's list (empty when it had none) gets one checkpoint of its current state appended, and every other project's list is unchanged |
| Checkpoints.Checkpoints.Restore | src/lib/state/checkpoints.svelte.ts:42-48 | a project the session does not know changes nothing; otherwise it becomes the active project and the checkpoint's state is handed to the session; the checkpoints never change |
| Checkpoints.Checkpoints.Delete | src/lib/state/checkpoints.svelte.ts:50-53 | the project's list loses every checkpoint with that id |
| Checkpoints.DeleteFacts | src/lib/state/checkpoints.svelte.ts:50-53 | after a delete no checkpoint has that id, the rest keep their order, and deleting again changes nothing |
| Checkpoints.FreeUnchanged | src/lib/state/checkpoints.svelte.ts:52 | a list without that id is left as it is |
| Checkpoints.KeptInOrder | src/lib/state/checkpoints.svelte.ts:52 | the kept checkpoints are a subsequence of the list |
| ModelsState.InsertByScore | src/lib/state/models.svelte.ts:12 | inserting a model adds exactly that model to the list (same multiset plus one) |
| ModelsState.InsertSorted | src/lib/state/models.svelte.ts:12 | inserting into a list sorted by descending trending score keeps it sorted |
| ModelsState.SortedCons | src/lib/state/models.svelte.ts:12 | a model scoring at least as high as every model of a sorted list may go in front and the list stays sorted |
| ModelsState.InsertBounded | src/lib/state/models.svelte.ts:12 | insertion introduces no score above a bound every input respects |
| ModelsState.SortByScore | src/lib/state/models.svelte.ts:12 | the comparator sort returns the same models, sorted by descending trending score |
| ModelsState.SortByScoreStable | src/lib/state/models.svelte.ts:12 | `toSorted` is stable: for every score, the models with that score appear in their input order |
| ModelsState.Without | src/lib/state/models.svelte.ts:13 | a model is kept exactly when it is in the list and not excluded |
| ModelsState.All | src/lib/state/models.svelte.ts:14 | the remote models, in order, followed by the custom ones, in order |
| ModelsState.Hubs | src/lib/state/models.svelte.ts:14 | one entry per remote model, in order |
| ModelsState.Users | src/lib/state/models.svelte.ts:14 | one entry per custom model, in order |
| ModelsState.TrendingIsTop | src/lib/state/models.svelte.ts:12 | `trending` has min(5, count) models, sorted best first, all taken from the remote list |
| ModelsState.TrendingBeatsRest | src/lib/state/models.svelte.ts:12-13 | no non-trending model scores above a trending one |
| ModelsState.TrendingSplit | src/lib/state/models.svelte.ts:13 | every remote model is trending or non-trending, never both |
| ModelsState.FindIndexByUid | src/lib/state/models.svelte.ts:52 | the first index whose `_id` matches, or -1 exactly when none does |
| ModelsState.WithoutUid | src/lib/state/models.svelte.ts:61 | a model is kept exactly when it was present and its `_id` differs |
| ModelsState.Reassigned | src/lib/state/models.svelte.ts:62-65 | each conversation using the removed model gets a trending pick (none without trending models); the rest are unchanged |
| ModelsState.Models.constructor | src/lib/state/models.svelte.ts:16-27 | no stored text: no custom models; a valid stored list is loaded; an invalid one leaves none and stores `[]` |
| ModelsState.Models.SetCustom | src/lib/state/models.svelte.ts:35-43 | the list is replaced and stored, a failed storage write being ignored |
| ModelsState.Models.AddCustom | src/lib/state/models.svelte.ts:45-49 | a model whose `id` is taken gives none and changes nothing; otherwise it is appended, stored and returned |
| ModelsState.Models.UpsertCustom | src/lib/state/models.svelte.ts:51-58 | the model with the same `_id` is replaced in place; otherwise it is added as by `addCustom` |
| ModelsState.Models.RemoveCustom | src/lib/state/models.svelte.ts:60-66 | the models with that `_id` go, the list is stored, and conversations using it are reassigned |
| ModelsState.AddKeepsUniqueIds | src/lib/state/models.svelte.ts:45-49 | adding a model whose `id` is new keeps `id`s unique |
| ModelsState.UpsertReplaceFacts | src/lib/state/models.svelte.ts:51-57 | replacing keeps the length and the `_id` at that index, and unique `id`s when the new `id` is free or the same |
| ModelsState.RemoveFacts | src/lib/state/models.svelte.ts:60-61 | after removal no model has that `_id`, removing again changes nothing, and removing an absent `_id` changes nothing |
| ModelsState.WithoutUidOfFree | src/lib/state/models.svelte.ts:61 | filtering a list that has no model with that `_id` leaves it as it is |
| SessionStore.Values | src/lib/stores/session.ts:17 | `getAll` gives no more values than the query has pairs |
| SessionStore.Deleted | src/lib/stores/session.ts:67-68 | a pair survives `delete(name)` exactly when it was there under another name |
| SessionStore.Appended | src/lib/stores/session.ts:74 | the query is kept as a prefix and followed by one `(name, value)` pair per value, in order |
| SessionStore.FindModel | src/lib/stores/session.ts:18 | a found model is in the list and has that id; none is found exactly when no model has it |
| SessionStore.FindFeatured | src/lib/stores/session.ts:31 | a found model is in the list and featured; none is found exactly when no model is featured |
| SessionStore.FromParams | src/lib/stores/session.ts:50-60 | one fresh conversation per `modelId`, with that id's model (if known) and the provider at the same position |
| SessionStore.ModelIds | src/lib/stores/session.ts:73 | the ids of the conversations' models, in order, or none exactly when a conversation has no model |
| SessionStore.Providers | src/lib/stores/session.ts:76 | each conversation's provider, `hf-inference` when it has none |
| SessionStore.Store.constructor | src/lib/stores/session.ts:14-63 | the first value is the one read from the query string |
| SessionStore.Store.Update | src/lib/stores/session.ts:65-83 | on success the value is the callback's and the query is rebuilt from it; a conversation without a model throws and changes nothing |
| SessionStore.Store.Set | src/lib/stores/session.ts:85-87 | `set(v)` behaves as `update(_ => v)` |
| SessionStore.ValuesAppended | src/lib/stores/session.ts:74 | `getAll` after appends gives the earlier values followed by the appended ones under that name |
| SessionStore.ValuesSnoc | src/lib/stores/session.ts:77 | `getAll` after one append gives the earlier values and, under that name, the new one |
| SessionStore.ValuesDeleted | src/lib/stores/session.ts:67-68 | after `delete(name)`, `getAll(name)` is empty and other names are unaffected |
| SessionStore.RebuiltParams | src/lib/stores/session.ts:66-79 | after an update the query lists the conversations' model ids and providers in order and keeps every other parameter |
| SessionStore.RebuiltValues | src/lib/stores/session.ts:66-79 | `getAll` on the rebuilt query, name by name |
| SessionStore.RoundTrip | src/lib/stores/session.ts:15-61 | re-reading the written query gives one conversation per conversation, each with the same model id and provider |
| Conversations.Merged | src/lib/state/conversations.svelte.ts:79 | the evidently intended merge: a whole record replaces the current one, a messages-only patch changes only the messages |
| Conversations.NestedAsWritten | src/lib/state/conversations.svelte.ts:79 | the record built as written keeps its messages and id and gains the argument under `data` |
| Conversations.ReplacedAtIndex | src/lib/state/conversations.svelte.ts:97-106 | within range only the message at `index` changes and the length is kept; past the end the message is appended |
| Conversations.CoolConversation.constructor | src/lib/state/conversations.svelte.ts:70-72 | the record is the one given |
| Conversations.CoolConversation.UpdateAsWritten | src/lib/state/conversations.svelte.ts:78-88 | as written: the record becomes the nested clone, which keeps the id the add writes into it, and the database gets an add or an update of that clone |
| Conversations.CoolConversation.Update | src/lib/state/conversations.svelte.ts:78-88 | corrected: the patch is merged, the merged record is added or updated, and a new record keeps the id it was given |
| Conversations.CoolConversation.AddMessage | src/lib/state/conversations.svelte.ts:90-95 | corrected: the message is appended and the rest of the record kept |
| Conversations.CoolConversation.UpdateMessage | src/lib/state/conversations.svelte.ts:97-106 | corrected: the message at `index` is replaced (appended past the end) and the rest of the record kept |
| Conversations.CoolConversation.DeleteMessages | src/lib/state/conversations.svelte.ts:108-112 | corrected: the first `from` messages are kept and the rest of the record is unchanged |
| Conversations.Stored | src/lib/state/conversations.svelte.ts:81-87 | the stored record has the messages of the record given, and the id the database assigned when it had none |
| Conversations.WriteOf | src/lib/state/conversations.svelte.ts:81-85 | the write is an add exactly when the record had no id, and carries the merged record |
| Conversations.AddMessageAsWrittenLosesMessage | src/lib/state/conversations.svelte.ts:78-95 | as written, adding a message leaves the messages unchanged, where the merge appends it |
| Conversations.DefaultModelId | src/lib/state/conversations.svelte.ts:50 | the first trending id, else the first remote id, else the empty id |
| Conversations.DefaultConversation | src/lib/state/conversations.svelte.ts:47-56 | no id, the project and model given, one empty user message, streaming on |
| Conversations.FindIndex | src/lib/state/conversations.svelte.ts:202 | the first index with that id, or -1 exactly when none has it |
| Conversations.Without | src/lib/state/conversations.svelte.ts:221 | a conversation is kept exactly when its id differs |
| Conversations.Selected | src/lib/state/conversations.svelte.ts:235-242 | `both` keeps every active conversation, `left` the first and `right` the second, each with its position |
| Conversations.Indexed | src/lib/state/conversations.svelte.ts:237-239 | each conversation paired with its position |
| Conversations.FirstBlocked | src/lib/state/conversations.svelte.ts:244-246 | the first selected conversation that ends with an assistant message, or none exactly when none does |
| Conversations.Conversations | src/lib/state/conversations.svelte.ts:235-242 | the selected conversations without their positions |
| Conversations.DecideGuards | src/lib/state/conversations.svelte.ts:229-263 | the token modal opens exactly when there is no token; generation runs exactly when no selected conversation ends with an assistant message, and covers the selection |
| Conversations.RightReportedAsLeft | src/lib/state/conversations.svelte.ts:248-251 | as written, a blocked right conversation selected alone, by side or as the conversation itself, is reported as the left one; corrected, as the right one |
| Conversations.DecideNamesSide | src/lib/state/conversations.svelte.ts:248-254 | corrected: with two active conversations, the error names the side of a selected conversation that ends with an assistant message, also when one conversation is passed with its position |
| Conversations.ConversationTable.constructor | src/lib/state/conversations.svelte.ts:159 | no stored conversations |
| Conversations.ConversationTable.For | src/lib/state/conversations.svelte.ts:178-199 | the project's stored list, or one default conversation when it has none |
| Conversations.ConversationTable.Create | src/lib/state/conversations.svelte.ts:167-176 | a default conversation, with the given model when there is one, is added to the database and appended with its new id |
| Conversations.ConversationTable.Update | src/lib/state/conversations.svelte.ts:201-213 | an unknown id changes nothing; otherwise the conversation is added or updated and replaces the one at its index |
| Conversations.ConversationTable.Delete | src/lib/state/conversations.svelte.ts:215-222 | nothing without a truthy id; otherwise every conversation of the project with that id is dropped |
| Conversations.ConversationTable.GenNextMessages | src/lib/state/conversations.svelte.ts:229-257 | the loop's decision is the corrected guard's |
| Conversations.FirstBlockedAt | src/lib/state/conversations.svelte.ts:244-246 | the first index the loop stops at is the first blocked conversation |
| Business.MaxAllowedTokensChain | src/lib/utils/business.svelte.ts:62-81 | the limit is the first truthy of the pricing and bundled context lengths, then the custom table or 100000; without a provider or for a custom model only the last step applies; never 0 when the fallback is not |
| Business.RequestMessagesShape | src/lib/utils/business.svelte.ts:136-139 | a system message goes first exactly when the model supports one and the project's message is non-empty; the conversation's messages follow unchanged |
| Business.MemberPairs | src/lib/utils/business.svelte.ts:101-104 | an object's own entries are its members, in order |
| Business.IndexedItems | src/lib/utils/business.svelte.ts:101-104 | an array's own entries are its items under their indices |
| Business.IndexedChars | src/lib/utils/business.svelte.ts:101-104 | a string's own entries are its characters under their indices |
| Business.SpreadLookup | src/lib/utils/business.svelte.ts:101-104 | after a spread a name reads the source's last value for it, else the target's |
| Business.PairMembers | src/lib/utils/business.svelte.ts:107-110 | the nested object's members are the entries of the spread, in order |
| Business.ResponseFormatShape | src/lib/utils/business.svelte.ts:95-120 | a format exists exactly when the schema parses to a truthy value and structured output is enabled and supported; cohere spreads the schema over `type: json_object`; others nest it under `json_schema` |
| Business.CerebrasSchemaName | src/lib/utils/business.svelte.ts:106-111 | for Cerebras the nested schema's `name` is `"schema"` and its other members are the schema's |
| Business.ConsumedExtends | src/lib/utils/business.svelte.ts:168-176 | every text passed to `onChunk` strictly extends the text there was before |
| Business.ConsumedGrows | src/lib/utils/business.svelte.ts:168-176 | each text passed to `onChunk` strictly extends the one before it |
| Business.ConsumedClean | src/lib/utils/business.svelte.ts:168-176 | without an error chunk nothing is thrown and the last text passed on is the whole streamed text |
| Business.ReadChunks | src/lib/utils/business.svelte.ts:168-176 | the loop passes on the accumulated text after each non-empty chunk and stops at an error chunk with its message, or "Stream error" when it has none |
| Business.HandleStreamingResponse | src/lib/utils/business.svelte.ts:126-185 | an error containing `401` on the first attempt asks for a token and retries exactly once, or fails with the token message; any other error is rethrown |
| Business.RunAttempt | src/lib/utils/business.svelte.ts:158-184 | one attempt's updates and error: an open failure yields nothing, otherwise the chunks are read and a read failure follows |
| Business.CleanStream | src/lib/utils/business.svelte.ts:168-176 | a stream that opens with text and no error delivers its whole text as the last update and throws nothing |
| Business.ContentTextNonEmpty | src/lib/utils/business.svelte.ts:170-171 | a chunk with content makes the streamed text non-empty |
| Business.Answered | src/lib/utils/business.svelte.ts:225-235 | a reply succeeds exactly when it is ok and its body parses, with the parsed body; a rejected `fetch` gives exactly its own error; an unparseable body, or a non-ok reply whose body is `null`, is the unreadable-body error; any other failure is a non-ok reply's error message |
| Business.HandleNonStreamingResponse | src/lib/utils/business.svelte.ts:187-236 | a token is asked for exactly on a 401 reply to the first request, which then retries once or fails with the token message; otherwise the outcome of the reply; a rejected `fetch`, first or retried, throws its error, and a rejected first request asks for no token |
| Business.Shown | src/lib/utils/business.svelte.ts:344-357 | a snippet keeps its language, and is untouched without structured output |
| Business.SnippetsLanguage | src/lib/utils/business.svelte.ts:342-358 | every snippet returned is in the requested language |
| Business.SnippetsUnstructured | src/lib/utils/business.svelte.ts:342-358 | without structured output the snippets are exactly the requested language's, in order and untouched |
| Business.Matching | src/lib/utils/business.svelte.ts:343 | a snippet is kept exactly when it is in the requested language |
| Business.NoSnippets | src/lib/utils/business.svelte.ts:323-333 | no snippets for a custom model, nor for a provider the model is not mapped to other than `auto` |
| Business.FormatMessages | src/lib/utils/business.svelte.ts:393-404 | the loop builds the formatted text of the messages (none when there is no list) |
| Business.FormattedTextShape | src/lib/utils/business.svelte.ts:393-404 | the text starts with the begin-of-text token exactly when there is a message, then the blocks of the messages in order |
| Business.Blocks | src/lib/utils/business.svelte.ts:395-403 | one header-framed block per message, in order |
| Business.Tokenizers.constructor | src/lib/utils/business.svelte.ts:362 | no tokenizer recorded |
| Business.Tokenizers.GetTokenizer | src/lib/utils/business.svelte.ts:364-374 | a recorded outcome is returned unchanged; otherwise the load's outcome is recorded and returned |
| Business.GetTokens | src/lib/utils/business.svelte.ts:386-411 | a custom model or a failed load gives the estimate; otherwise the tokens of the formatted text |
| Mcp.ToOpenAIFunction | src/routes/api/generate/mcp.ts:7-17 | a strict `function` schema whose name and description are the tool's name and whose parameters are its input schema |
| Mcp.ToOpenAIFunctions | src/routes/api/generate/mcp.ts:48 | one function schema per tool, in order |
| Mcp.TransportFor | src/routes/api/generate/mcp.ts:39-43 | the SSE transport exactly for protocol `sse`, streamable HTTP otherwise |
| Mcp.ConnectToMcpServers | src/routes/api/generate/mcp.ts:21-59 | the loop keeps the servers that connect, each with its transport and converted tools |
| Mcp.ConnectionsKept | src/routes/api/generate/mcp.ts:24-56 | a connection is kept exactly when some server connected and it is that server's connection |
| Mcp.ExecuteMcpTool | src/routes/api/generate/mcp.ts:61-106 | unparseable arguments give the error object; otherwise every connection listing the tool is called in order, the last returned content is serialised, and none gives the not-found error |
| Mcp.LastResultIsLast | src/routes/api/generate/mcp.ts:70-84 | the result is that of a connection listing the tool whose call returned, with no later such connection; none exactly when no such connection exists |
| Mcp.ListingMembers | src/routes/api/generate/mcp.ts:71-79 | the calls go to exactly the connections listing the tool, each once, in order |
| Mcp.ListingSnoc | src/routes/api/generate/mcp.ts:71-75 | one more connection adds its index exactly when it lists the tool |
| Mcp.ListingListed | src/routes/api/generate/mcp.ts:73-76 | every connection called lists the tool |
| Mcp.ListingComplete | src/routes/api/generate/mcp.ts:73-76 | every connection listing the tool is called |
| Mcp.ListingIncreasing | src/routes/api/generate/mcp.ts:71 | the calls go in connection order |
| Mcp.ContentParses | src/routes/api/generate/mcp.ts:92-104 | the returned content always parses: to the error object or to the tool's content |
| Providers.Loaded | src/lib/server/providers/index.ts:40-57 | the parsed file, or `{}` when the file is missing or unreadable |
| Providers.Lookup | src/lib/server/providers/index.ts:97 | a value exactly when the provider has an entry for the model, and then that entry |
| Providers.Updated | src/lib/server/providers/index.ts:74-77 | the providers after the update are the old ones and the updated one |
| Providers.MaxTokensStore.constructor | src/lib/server/providers/index.ts:30 | nothing in memory |
| Providers.MaxTokensStore.ReadCache | src/lib/server/providers/index.ts:33-59 | the cache in memory is returned; otherwise the file (or `{}`) is loaded into memory and returned |
| Providers.MaxTokensStore.UpdateCache | src/lib/server/providers/index.ts:61-87 | a successful update leaves in memory the re-read file with the one entry set; a read error other than a missing file, or a failed write, clears memory |
| Providers.MaxTokensStore.GetMaxTokens | src/lib/server/providers/index.ts:91-146 | the cached value, else the live value for the four providers with a fetcher; a live value starts a cache update |
| Providers.CachedWins | src/lib/server/providers/index.ts:96-101 | a cached value is returned whatever the live fetcher would do |
| Providers.MissResult | src/lib/server/providers/index.ts:103-145 | on a miss: no value for a provider without a fetcher or a throwing fetch; a value exactly when the fetched table has the model |
| Providers.UpdatedLookup | src/lib/server/providers/index.ts:74-77 | the update sets exactly one entry and every other entry keeps its value |
| Providers.LiveValueCached | src/lib/server/providers/index.ts:132-137 | a live value written back is served from the cache by the next call |
| Providers.FetchAllProviderData | src/lib/server/providers/index.ts:150-187 | the result holds exactly the providers whose fetch fulfilled with a non-empty table, each with that table |
| Catalog.Lower | src/routes/api/visual-models/+server.ts:198 | lower-casing keeps the length and maps each character |
| Catalog.LexLeTotal | src/routes/api/visual-models/+server.ts:198 | any two ids are ordered one way or the other |
| Catalog.LexLeTrans | src/routes/api/visual-models/+server.ts:198 | the order on ids is transitive |
| Catalog.Insert | src/routes/api/visual-models/+server.ts:198 | inserting into a list sorted by lower-cased id keeps it sorted and adds exactly that model |
| Catalog.InsertFront | src/routes/api/visual-models/+server.ts:198 | a model ordered before a sorted list's head may go in front |
| Catalog.InsertBehind | src/routes/api/visual-models/+server.ts:198 | a model ordered after the head goes behind it and the list stays sorted |
| Catalog.SortById | src/routes/api/visual-models/+server.ts:198 | the sort returns the same models, sorted by lower-cased id |
| Refresh.WithTag | src/routes/api/visual-models/+server.ts:183-193 | a cached model is reused for a category exactly when it carries the category's pipeline tag |
| Refresh.WithProviders | src/routes/api/visual-models/+server.ts:195-197 | a model is kept exactly when it has at least one provider mapping |
| Refresh.Recover | src/routes/api/visual-models/+server.ts:218-240 | the `catch` block: old data when there is some, else an empty list stamped now; both failure flags set and status `ERROR` |
| Refresh.ModelCache.constructor | src/routes/api/visual-models/+server.ts:23-32 | no data, timestamp 0, status `ERROR`, no failure recorded |
| Refresh.ModelCache.Get | src/routes/api/visual-models/+server.ts:99-241 | the handler's reply and new cache record are those of the cache policy |
| Refresh.ModelCache.Refetch | src/routes/api/visual-models/+server.ts:167-217 | once the fetches settle: old data when both needed fetches failed, else the rebuilt list and record |
| Refresh.PartReused | src/routes/api/visual-models/+server.ts:183-193 | a category not refetched contributes exactly the cached models with its tag |
| Refresh.CacheServed | src/routes/api/visual-models/+server.ts:103-110 | a young cache with data is returned untouched, whatever the fetches would give |
| Refresh.FirstNotRefetched | src/routes/api/visual-models/+server.ts:114 | a category neither stale nor failed last time is not fetched: its outcome has no effect |
| Refresh.SecondNotRefetched | src/routes/api/visual-models/+server.ts:115 | the same for the second category |
| Refresh.BothFailedFallback | src/routes/api/visual-models/+server.ts:167-180 | when both needed fetches fail and there is data, it is returned and only the failure and the time are recorded |
| Refresh.Rebuilt | src/routes/api/visual-models/+server.ts:182-217 | otherwise the reply is the new cache content: sorted by id, exactly the contributed models with a provider, stamped now, `PARTIAL` exactly when a fetch failed |
| Refresh.Thrown | src/routes/api/visual-models/+server.ts:218-240 | an exception in a needed fetch leads to the `catch` block |
| Refresh.AfterRefresh | src/routes/api/visual-models/+server.ts:103-115 | a complete non-empty refresh is served for the next hour; a failed category is refetched on the next call not served from cache |
| Refresh.PartialWindow | src/routes/api/visual-models/+server.ts:104 | a partial or failed cache is served for fifteen minutes at most |
| Refresh.Expanded | src/routes/api/visual-models/+server.ts:84-86 | one `expand[]` pair per item, in order |
| Refresh.BuildApiUrl | src/routes/api/visual-models/+server.ts:73-89 | the search parameters are the non-array entries in order, then one `expand[]` per item |
| Refresh.SimpleMembers | src/routes/api/visual-models/+server.ts:77-81 | scalars are kept with their keys; arrays give no pair under their own key; `undefined` is written unless skipped |
| VisualModels.CategoryQuery | src/routes/api/visual-models/+server.ts:139 | a category's request carries filter, provider, limit 100 and pipeline tag, then the expand fields |
| VisualModels.SimpleParams | src/routes/api/visual-models/+server.ts:64-69 | the scalar parameters of a category's request, in order |
| VisualModels.Outcome | src/routes/api/visual-models/+server.ts:141-148 | a non-ok status marks the category failed, an ok response delivers its models, a rejection reaches the `catch` |
| VisualModels.NewCache | src/routes/api/visual-models/+server.ts:23-32 | the endpoint's cache starts empty over text-to-image and text-to-video |
| VisualModels.Get | src/routes/api/visual-models/+server.ts:99-241 | `GET` follows the cache policy with the two responses' outcomes |
| VisualModels.RejectionRecovers | src/routes/api/visual-models/+server.ts:137-165 | a network error in a needed request sends the call to the `catch` block, even when the other request succeeded |
| RemoteModels.Requests | src/lib/remote/models.remote.ts:126-150 | at least one request, and at most one more than the pages the server has |
| RemoteModels.FetchAllModelsWithPagination | src/lib/remote/models.remote.ts:121-153 | the loop returns the models of every page up to the first non-ok or empty one (rejecting when a request rejects) and asks for skip 0, 1000, 2000, ... |
| RemoteModels.PaginationStops | src/lib/remote/models.remote.ts:126-150 | every page before the last request held models, the result is their concatenation, and the last page was non-ok, empty or rejected |
| RemoteModels.PagesCons | src/lib/remote/models.remote.ts:146 | the models of the first pages are the first page's followed by the rest |
| RemoteModels.Outcome | src/lib/remote/models.remote.ts:187-211 | a rejected pagination marks the category failed; otherwise its models are delivered |
| RemoteModels.NotOkIsNoFailure | src/lib/remote/models.remote.ts:136-138 | a non-ok page ends the pagination without a failure |
| RemoteModels.CollectedFront | src/lib/remote/models.remote.ts:136-146 | pages of models followed by a non-ok page resolve to models |
| RemoteModels.NewCache | src/lib/remote/models.remote.ts:56-65 | the cache starts empty over text-generation and image-text-to-text |
| RemoteModels.GetModels | src/lib/remote/models.remote.ts:155-280 | `getModels` follows the cache policy with the two paginations' outcomes |
| RemoteModels.NoCatchFromPagination | src/lib/remote/models.remote.ts:186-211 | pagination failures never reach the `catch` block; two failures with no data give an empty list stamped `PARTIAL` |
| Db.V1CheckpointsPrefix | src/lib/state/db.svelte.ts:25-27 | the first three version-1 checkpoint fields give the key `++id` and the indices `timestamp`, `favorite` |
| Db.V1CheckpointsStores | src/lib/state/db.svelte.ts:24-30 | version 1 `checkpoints` is stored as `++id, timestamp, favorite, projectId`: the unindexed `projectState` is left out |
| Db.V2CheckpointsPrefix | src/lib/state/db.svelte.ts:35-37 | the first three version-2 checkpoint fields give the key `++id` and the indices `timestamp`, `favorite` |
| Db.V2CheckpointsStores | src/lib/state/db.svelte.ts:35-40 | version 2 `checkpoints` is stored as `++id, timestamp, favorite, projectId`: the unindexed `conversations` is left out |
| Db.V3ConversationsPrefix2 | src/lib/state/db.svelte.ts:72-73 | the key and the unindexed `config` give `++id` and no index |
| Db.V3ConversationsPrefix4 | src/lib/state/db.svelte.ts:72-75 | up to `systemMessage` there is still no index |
| Db.V3ConversationsPrefix6 | src/lib/state/db.svelte.ts:72-77 | up to `provider` there is still no index |
| Db.V3ConversationsStores | src/lib/state/db.svelte.ts:71-80 | version 3 `conversations` is stored as `++id, projectId, modelId`: every field marked `.indexed(false)` is left out |
| Db.V3ProjectsStores | src/lib/state/db.svelte.ts:81-84 | version 3 `projects` is stored as `id, name`: a string key does not auto-increment |
| Db.UpgradeRecord | src/lib/state/db.svelte.ts:48-56 | after the upgrade a record has `conversations` taken from its project state (`[]` when absent) and no `projectState`; every other property is unchanged |
| Db.UpgradeMovesConversations | src/lib/state/db.svelte.ts:50 | a project state's conversations become the record's |
| Db.UpgradeWithoutProjectState | src/lib/state/db.svelte.ts:50-53 | a record without project state gets an empty `conversations` and nothing else changes |
| Db.UpgradeTwice | src/lib/state/db.svelte.ts:48-56 | upgrading again only resets `conversations`, as there is no project state left |
| Db.CheckpointsTable.constructor | src/lib/state/db.svelte.ts:45 | the table holds the records given |
| Db.CheckpointsTable.UpgradeToV2 | src/lib/state/db.svelte.ts:43-59 | every record of the table is upgraded in place and none is added or removed |
| Db.VersionNumber | src/lib/state/db.svelte.ts:108-109 | a key that is not blank converts to a number only when it is all digits |
| Db.StoresOf | src/lib/state/db.svelte.ts:114-119 | one stores entry per table when no table throws |
| Db.RegistrationOf | src/lib/state/db.svelte.ts:107-131 | a non-numeric key registers nothing; an error comes only from a table's stores string |
| Db.BuildStores | src/lib/state/db.svelte.ts:114-119 | the loop builds every table's stores string in order, or stops at the first error |
| Db.StoresErrorSticks | src/lib/state/db.svelte.ts:114-119 | once a table throws, the version does |
| Db.RegisterVersion | src/lib/state/db.svelte.ts:107-131 | one pass registers the version's number, stores and upgrade, or nothing, or fails |
| Db.RegisterAll | src/lib/state/db.svelte.ts:107-131 | the versions with a numeric key are registered in order, or the first error is thrown |
| Db.Database.constructor | src/lib/state/db.svelte.ts:104-133 | the database registers every numeric version, or its constructor throws the first error |
| Db.RegistrationsNext | src/lib/state/db.svelte.ts:107-131 | one more version adds its registration when it has one |
| Db.RegistrationsFailAt | src/lib/state/db.svelte.ts:107-131 | a version that fails makes the registrations so far fail with its error |
| Db.RegistrationsErrorSticks | src/lib/state/db.svelte.ts:107-131 | once a version throws, the constructor throws that error |
| Db.RegistrationsAppend | src/lib/state/db.svelte.ts:107-131 | a non-numeric key registers nothing; any other version registers its stores, with the upgrade exactly when it defines one, or fails with its error |
| Db.StoresAppend | src/lib/state/db.svelte.ts:114-119 | a further table adds its stores string or its error |
| Schema.CreateBaseField | src/lib/state/dexie-schema-builder.ts:37-59 | a base field is an ordinary field, never auto-incrementing, with exactly the optional and indexed flags given |
| Schema.MakeOptional | src/lib/state/dexie-schema-builder.ts:50-53 | `.optional()` keeps the type and the index flag and makes the field optional |
| Schema.MakeIndexed | src/lib/state/dexie-schema-builder.ts:54-57 | `.indexed(value)` keeps the type and the optional flag and sets the index flag to `value`, `true` when omitted |
| Schema.Make | src/lib/state/dexie-schema-builder.ts:62-69 | every `d` field is required; it is indexed exactly when it is not an object or an array |
| Schema.MakePrimaryKey | src/lib/state/dexie-schema-builder.ts:72-110 | a primary key is indexed, never optional, and does not auto-increment until asked |
| Schema.MakeAutoIncrement | src/lib/state/dexie-schema-builder.ts:81-87 | `.autoIncrement()` sets only the auto-increment flag |
| Schema.GenerateStoresString | src/lib/state/dexie-schema-builder.ts:158-180 | the loop returns the primary-key entry (`++name` when auto-incrementing) joined with every indexed ordinary field, or the error when there is no key |
| Schema.NoPrimaryKeyThrows | src/lib/state/dexie-schema-builder.ts:175-177 | a schema without a primary key throws the missing-key error |
| Schema.LastPrimaryKeyWins | src/lib/state/dexie-schema-builder.ts:166-168 | when there are several primary keys the last one gives the first entry |
| Schema.IndexNamesMembers | src/lib/state/dexie-schema-builder.ts:169-172 | a name follows the key exactly when some ordinary field of that name is indexed |
| Schema.IndexNamesAppend | src/lib/state/dexie-schema-builder.ts:162-173 | one more field appends its name or nothing, so declaration order is kept |
| Schema.SchemaStep | src/lib/state/dexie-schema-builder.ts:162-173 | one loop step either replaces the key entry or appends an index name |
| Stream.StreamWriter.constructor | src/lib/utils/stream.ts:64-70 | the stream's `start` attaches the controller at once; nothing has been sent |
| Stream.StreamWriter.Write | src/lib/utils/stream.ts:72-83 | an attached writer whose stream still accepts data sends exactly one frame `data: <json>` and a blank line; otherwise nothing changes |
| Stream.StreamWriter.WriteChunk | src/lib/utils/stream.ts:85-87 | sends the frame of a `chunk` carrying the content, under the same conditions |
| Stream.StreamWriter.WriteError | src/lib/utils/stream.ts:89-91 | sends the frame of an `error` carrying the message, under the same conditions |
| Stream.StreamWriter.End | src/lib/utils/stream.ts:93-102 | an attached writer sends one `done` frame, closes the stream and detaches; a detached one does nothing |
| Stream.StreamWriter.Error | src/lib/utils/stream.ts:104-113 | an attached writer sends one `error` frame with the message and no `done`, closes and detaches |
| Stream.StreamWriter.ConsumerCancels | src/lib/utils/stream.ts:80-82 | after a cancel the writer stays attached and later writes are swallowed without sending |
| Stream.StreamFromItems | src/lib/utils/stream.ts:126-144 | the stream carries every transformed item's frame in order, then a `done` frame, or an `error` frame when the iteration throws, and is closed |
| Stream.MapChunks | src/lib/utils/stream.ts:134-136 | one chunk per item |
| Stream.FramesOf | src/lib/utils/stream.ts:134-136 | one frame per chunk |
| Stream.ScanFromStopped | src/lib/utils/stream.ts:37 | after a `done` chunk further lines yield nothing |
| Stream.ScanFromAppend | src/lib/utils/stream.ts:21-43 | reading lines in two runs is reading them in one |
| Stream.ScanStoppedPrefix | src/lib/utils/stream.ts:37 | lines after the `done` chunk are ignored |
| Stream.CompleteLinesAppend | src/lib/utils/stream.ts:25-27 | appending text to the buffer completes the buffered line and keeps the earlier complete lines |
| Stream.StreamReader.constructor | src/lib/utils/stream.ts:7-15 | a new reader starts with an empty buffer, which holds no line break |
| Stream.StreamReader.Read | src/lib/utils/stream.ts:17-47 | whatever pieces the body arrives in, the chunks yielded are those of the complete lines of the buffered and read text, in order, up to and including the first `done`; when none came the buffer keeps exactly the unfinished last line |
| Stream.ScanLines | src/lib/utils/stream.ts:29-42 | the inner loop processes every complete line of a split, in order, until a `done` |
| Stream.ScanLine | src/lib/utils/stream.ts:30-40 | a `data: ` line whose trimmed payload is non-empty valid JSON is yielded and ends the read when its type is `done`; any other line, malformed JSON included, is skipped |
| Stream.ReadStart | src/lib/utils/stream.ts:17-21 | before the first piece nothing has been yielded and the buffer is the unfinished line |
| Stream.ScanOneMore | src/lib/utils/stream.ts:29-42 | one more line of the inner loop continues the scan |
| Stream.NextPiece | src/lib/utils/stream.ts:25 | each piece is appended to what was buffered |
| Stream.ScanRest | src/lib/utils/stream.ts:37 | an inner loop cut short by `done` has the same result as one that ran on |
| Stream.ReadPieceStep | src/lib/utils/stream.ts:25-27 | one piece read: the lines it completes are processed after the earlier ones |
| Stream.ReadFinish | src/lib/utils/stream.ts:37 | a read that returned at `done` ignores the pieces it never took |
| Stream.OpenFailure | src/lib/utils/stream.ts:11-55 | opening fails exactly when `fetch` rejects or the response is not ok or has no body; a rejection fails with exactly its own error |
| Stream.FailedRequestMessage | src/lib/utils/stream.ts:51-54 | a failed response reports its body's non-empty `error` string, or "Request failed" when it has none |
| Stream.FromFetch | src/lib/utils/stream.ts:49-56 | returns a fresh reader with an empty buffer when the response is ok and has a body, and otherwise, a rejected `fetch` included, fails with exactly the reason `OpenFailure` gives |
| Stream.Payloads | src/lib/utils/stream.ts:35-36 | one payload per chunk |
| Stream.ChunkTypeReadBack | src/lib/utils/stream.ts:2 | a written chunk's `type` reads back, and it is `done` exactly for the done chunk |
| Stream.FramedLines | src/lib/utils/stream.ts:79 | a frame is one `data: ` line, a blank line, and nothing unfinished |
| Stream.FrameSplit | src/lib/utils/stream.ts:78-79 | a serialised chunk has no line break, so its frame splits into those lines |
| Stream.LineEventOfFrame | src/lib/utils/stream.ts:30-35 | the reader parses a frame's `data: ` line back to the chunk written |
| Stream.WireLines | src/lib/utils/stream.ts:72-83 | the frames written split into their lines with nothing left buffered |
| Stream.ScanFrames | src/lib/utils/stream.ts:29-42 | reading frames of chunks none of which is `done` yields their payloads and does not stop |
| Stream.ScanTwo | src/lib/utils/stream.ts:29-42 | a payload line and a blank line yield just that payload |
| Stream.ScanFrame | src/lib/utils/stream.ts:29-42 | one more frame yields its payload and stops exactly on `done` |
| Stream.StreamRoundTrip | src/lib/utils/stream.ts:17-113 | whatever pieces the text arrives in, reading what the writer sent for chunks followed by `done` yields every chunk in order, then `done`, and stops |
| Snippets.FormatJsJsonValue | src/lib/utils/snippets.ts:2-7 | a string is wrapped in double quotes without escaping, `null` is `null`, booleans are `true`/`false`, anything else is its `String` text |
| Snippets.FormatPythonValue | src/lib/utils/snippets.ts:10-15 | the same, with Python's `True`, `False` and `None` |
| Snippets.FormattersDifferOnlyOnBoolAndNull | src/lib/utils/snippets.ts:2-15 | the two formatters agree exactly on values that are neither booleans nor null |
| Snippets.SkipSpaces | src/lib/utils/snippets.ts:134 | a `\s*` run is the longest run of white space |
| Snippets.MatchEndAt | src/lib/utils/snippets.ts:134-156 | a match of a dialect's block-start pattern at a position ends after it, inside the snippet |
| Snippets.FirstMatchEnd | src/lib/utils/snippets.ts:33-38 | the leftmost match, when there is one, ends after the search start |
| Snippets.CloseIndex | src/lib/utils/snippets.ts:45-57 | the close position found lies inside the snippet after the search start |
| Snippets.CloseIndexFacts | src/lib/utils/snippets.ts:45-57 | the close position is the first one at which the nesting depth returns to zero, and none is reported only when it never does |
| Snippets.FindClose | src/lib/utils/snippets.ts:45-57 | the balance loop returns the first position where the depth, counted from the open character, is zero |
| Snippets.BlockAt | src/lib/utils/snippets.ts:40-61 | the block found starts at an open character at or after the search point and ends at its balanced close character |
| Snippets.LocateBlock | src/lib/utils/snippets.ts:33-61 | the block found starts at an open character and ends after it, inside the snippet |
| Snippets.BlockAtFound | src/lib/utils/snippets.ts:40-57 | an open character with a balanced close gives that block |
| Snippets.BlockAtNoOpen | src/lib/utils/snippets.ts:40-43 | without an open character after the match there is no block |
| Snippets.BlockAtNoClose | src/lib/utils/snippets.ts:59-61 | an unbalanced block is no block |
| Snippets.InsertedWithoutMatch | src/lib/utils/snippets.ts:33-38 | a snippet the pattern does not match comes back unchanged |
| Snippets.LocatedAfterMatch | src/lib/utils/snippets.ts:40 | the open character is looked for from the last character of the match |
| Snippets.IndentMatch | src/lib/utils/snippets.ts:72 | a line's indentation is a non-empty white-space prefix followed by more of the line |
| Snippets.LineStart | src/lib/utils/snippets.ts:81 | the start of the open character's line follows the last newline before it, or is 0 |
| Snippets.ExistingPart | src/lib/utils/snippets.ts:92-95 | the existing content keeps its trimmed text and, when not empty, ends in a comma |
| Snippets.Finish | src/lib/utils/snippets.ts:113-122 | block content with visible text ends with a newline, adding the closing indentation when it did not |
| Snippets.Inserted | src/lib/utils/snippets.ts:20-38 | no properties, or no block found, leaves the snippet unchanged |
| Snippets.DialectOf | src/lib/utils/snippets.ts:129-162 | JavaScript when the snippet names `client.chatCompletionStream`, else Python when it names `client.chat.completions.create`, else curl when it has `curl` and `-d` |
| Snippets.Modified | src/lib/utils/snippets.ts:128-164 | a snippet in none of the dialects is unchanged; otherwise the properties are inserted as that dialect writes them |
| Snippets.FindIndent | src/lib/utils/snippets.ts:70-78 | the loop returns the indentation of the first line that has one |
| Snippets.PropsTextSnoc | src/lib/utils/snippets.ts:88-90 | each property appends its own line after the earlier ones |
| Snippets.BuildPropsText | src/lib/utils/snippets.ts:87-90 | the `forEach` builds one formatted line per property, in entry order |
| Snippets.ComputeIndent | src/lib/utils/snippets.ts:67-85 | the indentation is the block's first indented line's, else the open character's line indentation plus four spaces |
| Snippets.CombineContent | src/lib/utils/snippets.ts:92-122 | the combined content is the lead, the property lines with the final comma removed and the closing fix-up |
| Snippets.InsertProperties | src/lib/utils/snippets.ts:20-126 | the properties are spliced into the located block, or the snippet is unchanged when there are none or no block is found |
| Snippets.InsertFrom | src/lib/utils/snippets.ts:40-125 | the block search and splice agree with the definition |
| Snippets.SpliceBlock | src/lib/utils/snippets.ts:63-125 | the text before and after the block is kept and the block content is replaced |
| Snippets.SplicedFromParts | src/lib/utils/snippets.ts:63-125 | the parts put together are the spliced snippet |
| Snippets.ModifySnippet | src/lib/utils/snippets.ts:128-164 | returns the snippet with the properties inserted for its dialect, or unchanged |
| Snippets.PropsTextEnds | src/lib/utils/snippets.ts:137-159 | the property text ends with the last line's `,\n` |
| Snippets.RemoveTrailingCommaOfLines | src/lib/utils/snippets.ts:111 | the comma removal takes off exactly the final `,\n` of the property lines |
| Snippets.KeyPartVisible | src/lib/utils/snippets.ts:137-159 | every property line has visible text |
| Snippets.RemovedFacts | src/lib/utils/snippets.ts:110-111 | after the removal the content is the lead and the lines without their last `,\n`, and is not blank |
| Snippets.CombinedShape | src/lib/utils/snippets.ts:97-122 | the new block content is the lead, every property line in order without the final comma, then a newline and the closing indentation unless the content already ends a line |
| Snippets.InsertedIsSpliced | src/lib/utils/snippets.ts:63-125 | with properties and a block, the result is that block spliced |
| Snippets.InsertedKeepsOutside | src/lib/utils/snippets.ts:63-65 | the text up to the open character and from the close character on is kept verbatim |
| Snippets.SplicedKeepsOutside | src/lib/utils/snippets.ts:125 | splicing keeps the text around the block |
| Snippets.ExistingContentKept | src/lib/utils/snippets.ts:92-99 | the existing content comes first in the block, trimmed, with a separating comma |
| Snippets.LeadOfExisting | src/lib/utils/snippets.ts:92-99 | non-blank content is followed by a comma, unless it has one, and a newline |
| Snippets.LeadStartsCombined | src/lib/utils/snippets.ts:97-108 | the combined content begins with the lead |
| Snippets.PrefixInConcat | src/lib/utils/snippets.ts:125 | a prefix of the block content stays a prefix of the snippet |
| Snippets.CombinedHasNoTrailingComma | src/lib/utils/snippets.ts:110-111 | no comma is left at the end of the block content when the last value does not end in one |
| Snippets.ClosedTrim | src/lib/utils/snippets.ts:113-118 | the closing line added is white space only |
| Snippets.TrimOfLastLine | src/lib/utils/snippets.ts:110-111 | the last property line without its comma does not end in a comma |
| Snippets.NoTrailingComma | src/lib/utils/snippets.ts:110-125 | the snippet's block content ends without a dangling comma |
| Snippets.KeyPartTrim | src/lib/utils/snippets.ts:137-159 | a key part ends in `:` or `=`, never in a comma |
| Snippets.IndentIsSpace | src/lib/utils/snippets.ts:67-85 | the indentation chosen is white space |
| Snippets.FirstIndentSpace | src/lib/utils/snippets.ts:70-78 | a found indentation is white space |
| DownloadImages.ValidModels | scripts/download-model-images.ts:140-146 | a model is processed exactly when it is listed and not blacklisted |
| DownloadImages.Sanitize | scripts/download-model-images.ts:110-112 | the name keeps its length; each character other than a letter, a digit, `.` or `-` becomes `_` |
| DownloadImages.SanitizeFacts | scripts/download-model-images.ts:110-112 | a sanitised name holds only allowed characters and `_`, and sanitising it again changes nothing |
| DownloadImages.ReplaceFirst | scripts/download-model-images.ts:171 | replacing the first `/` keeps the length |
| DownloadImages.ExtensionFacts | scripts/download-model-images.ts:170 | the extension is never empty (`jpg` by default) and holds no `.` or `?` |
| DownloadImages.SplitPartIn | scripts/download-model-images.ts:170 | every character of a split part comes from the text split |
| DownloadImages.FilenameShape | scripts/download-model-images.ts:171-177 | the file name is the sanitised model id, with no `/`, then `.` and the extension, and the image path keeps that extension |
| DownloadImages.LastPart | scripts/download-model-images.ts:170 | the last part after a separator is the text following the last separator |
| DownloadImages.KeepSrcIff | scripts/download-model-images.ts:44-47 | the second alternative of the filter adds nothing: a `src` is kept exactly when it contains `/<modelId>/` |
| DownloadImages.Absolute | scripts/download-model-images.ts:48-54 | a root-relative `src` is prefixed with the Hub origin; any other is unchanged |
| DownloadImages.AbsoluteIdempotent | scripts/download-model-images.ts:48-54 | making a URL absolute twice is making it absolute once |
| DownloadImages.AbsoluteKeepsContains | scripts/download-model-images.ts:48-54 | making a URL absolute keeps whatever it contained |
| DownloadImages.Kept | scripts/download-model-images.ts:38-55 | the preview images are exactly the absolute forms of the page's sources that mention the model |
| DownloadImages.PreviewImagesMentionModel | scripts/download-model-images.ts:17-60 | every preview image's URL contains `/<modelId>/`, and a page that could not be fetched has none |
| DownloadImages.OutcomeFacts | scripts/download-model-images.ts:158-189 | a result names its model and the file of its first preview image; an existing file is mapped but not downloaded and the directory is unchanged; a downloaded file was missing and is present afterwards; no file disappears |
| DownloadImages.RunAppend | scripts/download-model-images.ts:152-209 | processing models in two runs is processing them in one |
| DownloadImages.RecordedAppend | scripts/download-model-images.ts:195-202 | recording results in two runs is recording them in one |
| DownloadImages.RunResultsFor | scripts/download-model-images.ts:158-192 | there is one result per model, in order, and each names its own model |
| DownloadImages.RecordedFacts | scripts/download-model-images.ts:195-202 | a model is mapped only when it was mapped before or has a result; the count grows by at most one per result |
| DownloadImages.Ids | scripts/download-model-images.ts:195-197 | the ids of the results, position by position |
| DownloadImages.BlacklistedNeverMapped | scripts/download-model-images.ts:139-202 | a blacklisted model that was not mapped is still not mapped after its tag is processed |
| DownloadImages.ImageDownload.constructor | scripts/download-model-images.ts:131-132 | the map is empty and the count zero over the files already present |
| DownloadImages.ImageDownload.ProcessBatch | scripts/download-model-images.ts:158-192 | the batch returns each model's result in order and adds the downloaded files, leaving the map and count alone |
| DownloadImages.ImageDownload.RecordResults | scripts/download-model-images.ts:195-202 | each result maps its model to its path, and each download adds one to the count |
| DownloadImages.ImageDownload.ProcessTag | scripts/download-model-images.ts:139-209 | the batches of ten together process every valid model in order, and the map, count and files are those of one run over them |
| DownloadImages.BatchStep | scripts/download-model-images.ts:152-153 | the next batch of models continues the run of the earlier ones |
| DownloadImages.ListedPrefix | scripts/download-model-images.ts:100-140 | the listings up to the first tag whose fetch, JSON parse or array use failed: each is that tag's listing, and the next tag failed |
| DownloadImages.DownloadAll | scripts/download-model-images.ts:114-220 | the count and files are those built from the successfully listed tags in turn, starting from empty; the mapping is written, and equals the map built, exactly when every tag's listing succeeded |

## Left out

### Across the project
- Concurrency is not modelled. `Promise.all`, `Promise.allSettled` and parallel batches run one after another, in list order. Completion order is not modelled.
- Timers and the clock are explicit. `Date.now()` is a parameter. A firing timer is an explicit event.
- The waits are not modelled: the 100 ms pause between pages and the 2 s pause between download batches.
- Console logging has no effect on results, so it is left out.
- Strings are sequences of Unicode scalar values, where JavaScript strings are sequences of UTF-16 code units.
  - A character outside the Basic Multilingual Plane, such as an emoji, is one element here and two in JavaScript. `length`, slicing and index arithmetic differ for such text (Snippets, Text.JsSlice, VirtualScroll).
  - Json.Parse rejects a `\u` escape of a lone surrogate (`\uD800` to `\uDFFF`), which `JSON.parse` accepts.
  - The UTF-8 encoding and decoding of the event stream is left out.
  - Surrogate pairs, Unicode case mapping and locale collation are left out.
- JSON numbers are integers. Floating point is not modelled anywhere.
- URL objects are left out. `URL` and `URLSearchParams` text is given as the list of query pairs appended.

### Snippets and strings
- Snippets.Modified: the code uses the keys verbatim and writes values with `String(value)`. `src/lib/utils/snippets.spec.ts` expects snake_case keys and JSON-style arrays. The model follows the code.
- Snippets: numbers, arrays and objects are carried as the text `String(v)` gives, not computed from the value.
- Strings.CapitalizeKeepsRest: `toUpperCase` is modelled for the Latin letters `a` to `z` only.
- Number.DecimalPlacesOfFraction: works on the decimal text `toString()` gives. Producing that text from a floating-point number is left out.
- `atLeastNDecimals` in `src/lib/utils/number.ts` relies on `toFixed`, which is floating point, so it is left out.
- `isValidURL` in `src/lib/utils/url.ts` only asks whether the platform's URL parser accepts its input.
  - The parser itself is left out.
  - `toURL`'s use of that parser is modelled by a parameter.
- Stream: `createResponse` only attaches fixed headers to the stream, so it is left out.
- Objects: `for ... in` and `Object.keys` order is the insertion order of the property list. Integer-like keys are not moved to the front.

### Database, caches and servers
- Db.VersionNumber: `Number(key)` is modelled for blank and all-digit keys, and the model treats any other key, once trimmed, as not a number. JavaScript's `Number` also accepts signs, fractions, exponents and hex (`"1e1"` is 10, `"-1"` is -1), which the model does not.
- Db: Dexie itself is left out. Only the stores strings and upgrade flags it would be given are modelled.
- Db: each shipped table's stores string is proved (the `Stores` lemmas), and so is how a version adds its registration (`RegistrationsAppend`). `Registrations(Versions())` as a whole is not evaluated in one proof.
- Catalog.SortById: `localeCompare` is replaced by code-point order on ids lower-cased in the ASCII range. The relative order of ids that are equal once lower-cased is not claimed.
- Refresh: both handlers build an `existingModels` map, but it is never used, so it is left out.
- RemoteModels: `getModels` attaches a `.catch` to each pagination promise (`src/lib/remote/models.remote.ts` lines 193-196 and 206-209). No rejection reaches its outer `catch`, so the `Thrown` outcome of the shared policy never arises from it.
- The response of `get-models` is taken to be an array.
- Providers: the in-flight `cacheReadPromise` only lets concurrent callers share one read. Calls are sequential here, so it is left out.
- Providers.MaxTokensStore.GetMaxTokens: the `updateCache` call that is not awaited is taken to finish before the next call.
- The HTTP server around these handlers is left out: routing and request bodies.
- The MCP client and its transports are left out. What a connection, a tool listing or a tool call gives is a parameter.
- `getEnabledMCPs` and the parsing of the generate request are left out.

### Request shaping
- Business: `Provider.Cerebras` is taken to be the string `"cerebras"`. `src/lib/types.ts` is not part of this model.
- Business.GetTokens: `estimateTokens` is floating-point arithmetic over the text, so the model returns the tag `Estimated`.
- Business: loading a tokenizer is an outcome given per model. A failed load is recorded as `null` and not retried; `Business.Tokenizers` models that cache.
- Business: `parseMessage`, which resolves a message's stored images into URLs, is left out. Messages carry text only.

### Conversations and models state
- `reset()` is left out.
- `genNextMessage`, `stopGenerating` and `genOrStop`, the generation itself, are left out. Only the guards of `genNextMessages` are modelled.
- The derived `model` field is left out.
- The asynchronous reload in `for` is left out.
- `edit` and `randomPick` are taken to replace one index of a copy and to pick an element given by index. `src/lib/utils/array.ts` is not part of this model.
- The session is reduced to the projects, the active project id and what the project setter last received. `src/lib/state/session.svelte.ts` is not part of this model.
- ModelsState.Models.constructor: the typia check of a stored list is given as its answer.
- ModelsState: `nonTrending` uses `includes`, which compares model objects by identity; the model compares them by value. They differ only when the remote list holds two equal model records, one trending and the other not.
- SessionStore: the generation config copied from a default is left out.

### Browser-side state
- Splitter: the value's `Synced` wrapper and its change callback are left out.
- Splitter: the overlay's DOM styling is left out. Only which overlays are in the document is tracked.
- PersistedObj: Svelte reactivity and the per-object proxy cache are left out.
- PersistedObj: array indices in a property path are left out.
- PersistedObj: a custom serializer is left out. Only the default JSON one is modelled.
- Form: a validator's answer for the current value is given.
- VirtualScroll: positions, heights and the container height are whole pixels, and the item height is positive. Fractional pixels are floating point. The container height, which `ElementSize` observes in the DOM, is given by `Resized`.
- AbortManager: the failure of `onDestroy` outside a component's initialisation is the constructor's `insideComponent` flag.

### Download script
- The regular expressions over the page's HTML are given as the list of `src` attributes found.
- `fetch` and the file system are given as a `Probe` per model and the set of existing files.
- The same probe answers for a model under every tag.
- How `getModelsForTag` builds its URL is left out. Its answer is the list of model ids, or none when `fetch` rejects, the body is not JSON, or it is not an array. A non-ok status is an empty list.
- The formatting of the mapping file that is written is left out.

## Findings

| source | as written | input that shows it | evidently intended | confidence | as-written member | corrected member |
|---|---|---|---|---|---|---|
| src/lib/state/conversations.svelte.ts:78-79 | `update` stores `{...this.data, data}`, nesting its argument under a key `data` | `addMessage(m)` on any conversation: the top-level messages stay as they were | `{...this.data, ...data}`, merging the argument | not executed | Conversations.AddMessageAsWrittenLosesMessage | Conversations.CoolConversation.Update |
| src/lib/state/conversations.svelte.ts:248-251 | the side in the alternation error is the index in the list of selected conversations, not the side itself | two active conversations, `right` or the right conversation itself selected, the right one ending with an assistant message: the error says `left` | name the side of the blocked conversation | not executed | Conversations.RightReportedAsLeft | Conversations.Decide |
