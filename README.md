# Storyblok source plugin: relation resolution and node shaping

A Dafny model of the Gridsome source plugin `src/plugins/source-storyblok/index.js`
of devtreff.io. The plugin loads stories (content items) from Storyblok and turns
them into Gridsome nodes. The model covers the pure transformations the loaders
apply to the story lists, and the emission of nodes:

- the uuid-keyed maps of `getEditionsMap` and `getLocationsMap` (module `EntityMaps`);
- the `nextEventsEditionMap` fold of `fetchEditions`, which keeps one event per
  edition and rewrites the speaker slots of every event it stores (module `NextEvents`);
- the per-story `produce` transforms: `nextEvent` on editions, the top-level
  `edition` with its location resolved on events, and the serialised
  `content_components` of blog posts (module `Grafts`);
- `createStoryblokContentType`, which adds one node per story to a store
  collection (module `Nodes`);
- the five loaders as compositions of these, over story lists passed in as
  parameters (module `Pipelines`).

Stories are datatypes (module `Stories`). A story's `content` is a record of the
fields the plugin uses (`edition`, `date`, `location`, `speaker_slots`,
`content_components`) plus a map holding every other field. A relation field
is `Absent`, a bare `Uuid`, or a `Linked` story. Values in JavaScript's sense
are kept where the code depends on them: an object indexed by a field value
uses that value's property name (`undefined` becomes `"undefined"`), and
truthiness treats `""` and `undefined` as false. Each TypeError the plugin can
throw on a `null` or `undefined` is an `Err` result: a speaker with no Speaker
node, an event whose edition was left as a uuid, a blog post without
`content_components`.

Two kinds of foreign code are parameters. Luxon's
`DateTime.fromFormat(s, "yyyy-MM-dd HH:mm")` is `parse: string -> Option<DateTime>`.
`None` stands for an invalid DateTime, and `>` with an invalid DateTime is false.
`JSON.stringify` is `stringify: Json -> string`. The Speaker collection that
`findNode` searches is a map from speaker uuid to that speaker's content.

Behaviour of the code worth knowing, which the model keeps:

- Ties go to the later event. The next-event fold keeps the stored event only
  when its date is strictly later (`oldEventDate > eventDate`), so of two events
  of one edition with equal dates the later one is stored
  (`NextEvents.EqualDatesLaterEventWins`).
- An invalid date replaces the stored event. A comparison with an invalid
  DateTime is false, so such an event is never kept out of the map and never
  keeps a later event out (`Stories.Later`, `NextEvents.StoredEventIsLastUnbeaten`).
- A missing location leaves the edition as it is. No error is raised
  (`Grafts.WithLocation`, `Pipelines.LocationFound`).
- A missing Speaker node aborts the whole fold. `findNode` returns `null`, and
  reading its `content` throws; the model's fold returns that error
  (`NextEvents.NextEventsMapFailure`).

## Model

| member | source | states |
|---|---|---|
| `Stories.MapAll` | src/plugins/source-storyblok/index.js:129-138 | `.map` with a callback that may throw: success exactly when every element succeeds, success keeps length and order, and a failure is the first failing element's |
| `Stories.Later` | src/plugins/source-storyblok/index.js:120 | `>` on two parsed dates: an invalid date is never later and nothing is later than it; on valid dates it is a strict total order (asymmetric, irreflexive, and any two distinct dates compare one way) |
| `Stories.NotLaterTransitive` | src/plugins/source-storyblok/index.js:120 | on valid dates, "not later than" is transitive, so the fold's comparisons are consistent |
| `EntityMaps.UuidMap` | src/plugins/source-storyblok/index.js:82-87 | the key set of the uuid map is exactly the set of uuids of the list (the same fold builds the locations map at lines 184-192) |
| `EntityMaps.UuidMapSize` | src/plugins/source-storyblok/index.js:82-87 | the map has one entry per distinct uuid |
| `EntityMaps.UuidMapLastWins` | src/plugins/source-storyblok/index.js:184-192 | the story that is last in the list with its uuid is the map's value for that uuid |
| `EntityMaps.UuidMapValueIsLast` | src/plugins/source-storyblok/index.js:82-87 | every value in the map is the last story in list order with its key |
| `EntityMaps.DuplicateUuidKeepsLater` | src/plugins/source-storyblok/index.js:184-192 | two stories with one uuid raise no error, and the later one is kept |
| `NextEvents.ResolveSpeakerSlots` | src/plugins/source-storyblok/index.js:125-139 | the rewrite succeeds exactly when every slot is resolvable. On success it keeps the slot count (none when the field is absent), keeps each slot's other fields, sets each `speaker` to its node's content, and changes nothing else of the event. A failure names an unresolvable slot's speaker |
| `NextEvents.ResolvedKeepsKeyAndDate` | src/plugins/source-storyblok/index.js:125-139 | the stored event keeps the edition and date of the event it came from |
| `NextEvents.Step` | src/plugins/source-storyblok/index.js:107-145 | the stored entry survives only when its date is strictly later, and then speakers are not looked at. Otherwise the rewritten event is stored, or the rewrite's failure is returned. Locality: only the entry of the event's edition can change, and the key set grows by at most that key |
| `NextEvents.NextEventsMap` | src/plugins/source-storyblok/index.js:106-147 | the reducer as a left fold of `Step` from the empty map; its only failure is a missing Speaker node. The lemmas below state its keys, which event it stores and the maximum property |
| `NextEvents.NextEventsMapKeys` | src/plugins/source-storyblok/index.js:106-147 | the fold's keys are exactly the editions the events are filed under |
| `NextEvents.FoldStep` | src/plugins/source-storyblok/index.js:106-147 | the fold over a non-empty list is the step over the last event applied to the fold over the others |
| `NextEvents.StoredEventIsLastUnbeaten` | src/plugins/source-storyblok/index.js:114-123 | whatever the dates, each entry is the rewritten form of an event of that edition. Every later event of that edition has a strictly earlier date, so ties go to the later event |
| `NextEvents.NextEventsMapLatest` | src/plugins/source-storyblok/index.js:106-147 | when every date parses, the fold keeps three facts: each event's edition has an entry, each stored date parses, and no event is later than the event stored for its edition |
| `NextEvents.StoredEventIsLatest` | src/plugins/source-storyblok/index.js:106-147 | when every date parses, no event of an edition has a date later than the stored event's |
| `NextEvents.EqualDatesLaterEventWins` | src/plugins/source-storyblok/index.js:120-122 | of two events of one edition with equal dates, the second is stored |
| `NextEvents.NextEventsMapSucceeds` | src/plugins/source-storyblok/index.js:125-139 | if every event's speakers all have Speaker nodes, the fold does not fail |
| `NextEvents.NextEventsMapFailure` | src/plugins/source-storyblok/index.js:133-135 | a failure of the fold is a missing Speaker node for a slot of one of the events |
| `Grafts.GraftEditions` | src/plugins/source-storyblok/index.js:151-155 | same length and order. Each edition gets `nextEvent` from the fold's entry for its uuid, absent when there is none, and nothing else changes |
| `Grafts.WithLocation` | src/plugins/source-storyblok/index.js:213-214 | only the edition's `content.location` can change; it becomes the location story when one is found, and the edition is unchanged otherwise |
| `Grafts.GraftEvent` | src/plugins/source-storyblok/index.js:207-217 | fails only when the edition is a non-empty bare uuid. Only the top-level `edition` is written. An absent edition is copied as is. A linked edition is copied with only `content.location` replaced, and only when a location is found |
| `Grafts.GraftEventAsWritten` | src/plugins/source-storyblok/index.js:211-216 | as the code runs: the emitted top-level edition is the intended one, but the emitted payload and the input both carry the location write. The input after the call differs from the input only in `content.edition`, and the emitted story is that changed input with its top-level `edition` set |
| `Grafts.AsWrittenMutatesInput` | src/plugins/source-storyblok/index.js:212-215 | whenever a location is found and differs from the edition's location field, the code as written changes its input story |
| `Grafts.AsWrittenExample` | src/plugins/source-storyblok/index.js:212-215 | a concrete event and locations map on which the as-written transform changes its input, while the intended transform leaves the payload alone |
| `Grafts.GraftEvents` | src/plugins/source-storyblok/index.js:207-217 | the event list maps without failure exactly when every event grafts, keeping length and order |
| `Grafts.EncodeComponents` | src/plugins/source-storyblok/index.js:236-240 | fails exactly when `content_components` is absent. Otherwise element i becomes the serialisation of input element i, the length is kept, and nothing else changes |
| `Grafts.EncodeComponentsRoundTrip` | src/plugins/source-storyblok/index.js:237-239 | with a parser that inverts the serialiser, parsing the encoded components gives back the components |
| `Grafts.EncodePosts` | src/plugins/source-storyblok/index.js:235-241 | the post list maps without failure exactly when every post has `content_components`, keeping length and order |
| `Nodes.ToNode` | src/plugins/source-storyblok/index.js:254-259 | `path = "/" + full_slug`, `id = uuid`, `slug = "/" + slug`; every other field comes from the story, whose own `id` and `path` are overwritten |
| `Nodes.StoryOfToNode` | src/plugins/source-storyblok/index.js:254-259 | reading the story back from its node gives the story minus its own `id` and `path` fields |
| `Nodes.ToNodeRestApart` | src/plugins/source-storyblok/index.js:254-259 | when a story's other fields do not repeat its named ones, neither do the node's, so the spread and the three assignments give each field once |
| `Nodes.NodesOf` | src/plugins/source-storyblok/index.js:253-262 | one node per story, in order |
| `Nodes.NodeIdsDistinct` | src/plugins/source-storyblok/index.js:257 | distinct story uuids give distinct node ids |
| `Nodes.Collection.constructor` | src/plugins/source-storyblok/index.js:251 | a new collection for the type name, with no nodes |
| `Nodes.Collection.AddNode` | src/plugins/source-storyblok/index.js:261 | the node is appended to the collection's nodes |
| `Nodes.CreateContentType` | src/plugins/source-storyblok/index.js:249-263 | the loop leaves a fresh collection of the given type name whose nodes are exactly the stories' nodes, in order |
| `Pipelines.EditionNextEventIsLatest` | src/plugins/source-storyblok/index.js:106-155 | when every date parses, an emitted edition has `nextEvent` exactly when some event belongs to it, and no event of that edition is later than its `nextEvent` |
| `Pipelines.EditionStories` | src/plugins/source-storyblok/index.js:106-155 | the editions `fetchEditions` emits: in order, each changed only in `nextEvent`, which is set exactly for the editions some event is filed under; the only failure is a missing Speaker node |
| `Pipelines.EventStories` | src/plugins/source-storyblok/index.js:199-217 | the events `fetchEvents` emits: failure exactly when some event's edition was left as a non-empty uuid; otherwise in order, each changed only in its top-level `edition` |
| `Pipelines.LocationFound` | src/plugins/source-storyblok/index.js:208-210 | measured against the location stories themselves: a location is found exactly when the field is truthy and some location story has that uuid, and it is then the last such story |
| `Pipelines.BlogPostStories` | src/plugins/source-storyblok/index.js:235-241 | the posts `fetchBlogPosts` emits: failure exactly when some post has no `content_components`; otherwise in order, each changed only in those components |
| `Pipelines.EventGetsLastLocation` | src/plugins/source-storyblok/index.js:199-217 | an event whose edition's location uuid is non-empty and occurs among the location stories gets the last location story with that uuid (an empty uuid is falsy and is not looked up) |
| `Pipelines.FetchSections` | src/plugins/source-storyblok/index.js:35-48 | the MainSection collection holds the section stories' nodes |
| `Pipelines.FetchSpeakers` | src/plugins/source-storyblok/index.js:50-65 | the Speaker collection holds the speaker stories' nodes (the identity map changes nothing) |
| `Pipelines.FetchEditions` | src/plugins/source-storyblok/index.js:92-161 | the Edition collection holds the grafted editions' nodes; nothing is emitted when the fold fails |
| `Pipelines.FetchEvents` | src/plugins/source-storyblok/index.js:197-224 | the Event collection holds the grafted events' nodes, resolved against the uuid map of the locations; nothing is emitted on failure |
| `Pipelines.FetchBlogPosts` | src/plugins/source-storyblok/index.js:226-247 | the BlogPost collection holds the encoded posts' nodes; nothing is emitted on failure |

## Findings

| source | as written | input that shows it | evidently intended | confidence | as-written member | corrected member |
|---|---|---|---|---|---|---|
| src/plugins/source-storyblok/index.js:212-214 | `draft.edition = edition` stores the input's own `content.edition` object in the draft. immer does not draft a value assigned into a draft, so `draft.edition.content.location = location` writes into that shared object. The input story changes, and so does the emitted story's `content.edition` | an event whose `content.edition` is a resolved edition with `content.location` "loc-1", and a locations map holding "loc-1" | only the emitted story's top-level `edition` carries the resolved location; the input story and its `content` stay as they were | medium; not executed; rests on immer's rule that values assigned into a draft are not drafted | `Grafts.GraftEventAsWritten` (with `Grafts.AsWrittenMutatesInput`, `Grafts.AsWrittenExample`) | `Grafts.GraftEvent` |

## Left out

- Pipelines.FetchEvents and Pipelines.EventStories: the Event collection is built with the intended transform `Grafts.GraftEvent`. The code as written (`Grafts.GraftEventAsWritten`, see Findings) also writes the location story into each node's `content.edition`. The model's nodes keep the location uuid there.
- Fetching through `StoryblokClient` (`getClient`, every `client.get`, `getEditions`): network I/O. The story lists are parameters.
- The `version` read from `process.env.GRIDSOME_STORYBLOK_VERSION`, and the fetch options (`starts_with`, `resolve_relations`): they only decide what is fetched.
- `api.loadSource`, `addSchemaTypes`, `schemaTypes` and the `createPages`/`createPage` registration in `fetchEditions` (lines 163-173): framework and routing glue.
- The order in which the asynchronous loaders run, and the store itself. `findNode` on the Speaker collection is a given map from speaker uuid to content. What the Gridsome store does with `addCollection` and `addNode` (duplicate ids, reuse of a collection) is not part of this model; a collection is the list of nodes added to it.
- Luxon parsing, time zones and daylight saving time: parsing is the `parse` parameter, and parsed dates are compared field by field.
- `JSON.stringify`: the `stringify` parameter.
- immer internals (copy-on-write, freezing), except for the one aliasing effect under Findings. Dafny values cannot be changed, so every other transform leaves its input as it was.
- `getEditionsMap` is defined but never called in this file. Its fold is `UuidMap`, the same as that of `getLocationsMap`.
- Property names inherited from `Object.prototype`: lookups such as `acc["constructor"]` would find a prototype member. The model assumes no uuid is such a name.
- JSON numbers are integers in the `Json` datatype, and `content.date` is always a string.
- A slot with no `speaker` property is modelled as a slot whose speaker uuid has no node. Both fail in the same way.
- A location field that is itself a resolved object is looked up under `"[object Object]"`, as JavaScript would. Whether the content source can deliver such a field is not modelled.
