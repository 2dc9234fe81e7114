/** The per-story `produce` transforms of the edition, event and blog-post
    loaders. Each builds a new story value; the input value is never changed. */
module Grafts {
  import opened Stories

  // ---------------------------------------------------------------- editions

  /** `nextEventsEditionMap[uuid]`: the entry, or `undefined`. */
  function Lookup(next: map<string, Story>, uuid: string): Option<Story>
  {
    if uuid in next then Some(next[uuid]) else None
  }

  /** `editions.map(story => produce(story, d => { d.nextEvent = next[story.uuid] }))`. */
  function GraftEditions(editions: seq<Story>, next: map<string, Story>): (r: seq<Story>)
    ensures |r| == |editions|
    // each edition gets the reducer's entry for its uuid, absent when there is none
    ensures forall i :: 0 <= i < |editions| ==>
              (r[i].nextEvent.Some? <==> editions[i].uuid in next) &&
              (r[i].nextEvent.Some? ==> r[i].nextEvent.value == next[editions[i].uuid])
    // and nothing else of it changes: putting the old field back gives the input
    ensures forall i :: 0 <= i < |editions| ==> r[i].(nextEvent := editions[i].nextEvent) == editions[i]
  {
    seq(|editions|, i requires 0 <= i < |editions| => editions[i].(nextEvent := Lookup(next, editions[i].uuid)))
  }

  // ------------------------------------------------------------------ events

  /** `locationsMap[edition.content.location]` when the location field is
      truthy, and nothing otherwise. */
  function LocationOf(edition: Story, locations: map<string, Story>): (r: Option<Story>)
    ensures r.Some? <==> Truthy(edition.content.location) && PropertyKey(edition.content.location) in locations
    ensures r.Some? ==> r.value == locations[PropertyKey(edition.content.location)]
  {
    var loc := edition.content.location;
    if Truthy(loc) && PropertyKey(loc) in locations then Some(locations[PropertyKey(loc)]) else None
  }

  /** The edition with `content.location` replaced by the location story, when one is found. */
  function WithLocation(edition: Story, locations: map<string, Story>): (r: Story)
    // only `content.location` can change
    ensures r.(content := edition.content) == edition
    ensures r.content.(location := edition.content.location) == edition.content
    // it becomes the location story when one is found, and stays otherwise
    ensures LocationOf(edition, locations).Some? ==> r.content.location == Linked(LocationOf(edition, locations).value)
    ensures LocationOf(edition, locations).None? ==> r == edition
  {
    match LocationOf(edition, locations)
    case Some(l) => edition.(content := edition.content.(location := Linked(l)))
    case None => edition
  }

  /** The event transform with the intended effect: the top-level `edition`
      is a copy of `content.edition` with the location resolved, and the
      event's `content` is left as it was. */
  function GraftEvent(event: Story, locations: map<string, Story>): (r: Result<Story>)
    // the only failure: an edition left as a non-empty uuid has no `content`
    ensures r.Err? <==> event.content.edition.Uuid? && event.content.edition.id != ""
    ensures r.Err? ==> r.error == UnresolvedEdition(event.content.edition.id)
    // only the top-level `edition` is written
    ensures r.Ok? ==> r.value.(edition := event.edition) == event
    // an absent or empty edition is copied as it is
    ensures r.Ok? && !event.content.edition.Linked? ==> r.value.edition == event.content.edition
    // a resolved edition is copied with only its location changed, and that only when found
    ensures r.Ok? && event.content.edition.Linked? ==>
      var before := event.content.edition.story;
      && r.value.edition.Linked?
      && r.value.edition.story.(content := before.content) == before
      && r.value.edition.story.content.(location := before.content.location) == before.content
      && (LocationOf(before, locations).Some? ==>
            r.value.edition.story.content.location == Linked(LocationOf(before, locations).value))
      && (LocationOf(before, locations).None? ==> r.value.edition.story == before)
  {
    match event.content.edition
    case Absent => Ok(event.(edition := Absent))
    case Uuid(id) => if id == "" then Ok(event.(edition := Uuid(id))) else Err(UnresolvedEdition(id))
    case Linked(ed) => Ok(event.(edition := Linked(WithLocation(ed, locations))))
  }

  /** The event transform as the code runs it. `draft.edition = edition`
      stores the input's own `content.edition` object in the draft; a value
      assigned into a draft is not itself drafted, so the write to
      `draft.edition.content.location` lands on that shared object. The
      result pairs the emitted story with the input story as it is after the call. */
  function GraftEventAsWritten(event: Story, locations: map<string, Story>): (r: Result<(Story, Story)>)
    // the emitted top-level edition is the intended one
    ensures GraftEvent(event, locations).Ok? <==> r.Ok?
    ensures r.Ok? ==> r.value.0.edition == GraftEvent(event, locations).value.edition
    // but the emitted payload and the input both carry the write
    ensures r.Ok? ==> r.value.0.content == r.value.1.content && r.value.1.content.edition == r.value.0.edition
    // the input after the call differs from the input only in `content.edition`,
    // and the emitted story is the input after the call with its top-level edition set
    ensures r.Ok? ==> r.value.1 == event.(content := event.content.(edition := r.value.0.edition))
    ensures r.Ok? ==> r.value.0 == r.value.1.(edition := r.value.0.edition)
  {
    match event.content.edition
    case Linked(ed) =>
      var shared := event.(content := event.content.(edition := Linked(WithLocation(ed, locations))));
      Ok((shared.(edition := Linked(WithLocation(ed, locations))), shared))
    case _ =>
      match GraftEvent(event, locations)
      case Ok(s) => Ok((s, event))
      case Err(e) => Err(e)
  }

  /** Whenever a location is found for a resolved edition whose location field
      is not already that story, the code as written changes its input. */
  lemma AsWrittenMutatesInput(event: Story, locations: map<string, Story>)
    requires event.content.edition.Linked?
    requires LocationOf(event.content.edition.story, locations).Some?
    requires event.content.edition.story.content.location
          != Linked(LocationOf(event.content.edition.story, locations).value)
    ensures GraftEventAsWritten(event, locations).Ok?
    ensures GraftEventAsWritten(event, locations).value.1 != event
    ensures GraftEventAsWritten(event, locations).value.0.content != GraftEvent(event, locations).value.content
  {
  }

  /** A concrete input: an event linked to an edition whose location is
      "loc-1", with "loc-1" in the locations map. */
  lemma AsWrittenExample(loc: Story)
    ensures
      var noContent := Content(Absent, "", Absent, None, None, map[]);
      var edition := Story("ed-1", "ed", "editions/ed", noContent.(location := Uuid("loc-1")), None, Absent, map[]);
      var event := Story("ev-1", "ev", "events/ev", noContent.(edition := Linked(edition)), None, Absent, map[]);
      && GraftEventAsWritten(event, map["loc-1" := loc]).Ok?
      && GraftEventAsWritten(event, map["loc-1" := loc]).value.1 != event
      && GraftEvent(event, map["loc-1" := loc]).Ok?
      && GraftEvent(event, map["loc-1" := loc]).value.content == event.content
  {
  }

  /** `events.map(story => ...)` in `fetchEvents`. */
  function GraftEvents(events: seq<Story>, locations: map<string, Story>): (r: Result<seq<Story>>)
    ensures r.Ok? <==> forall i :: 0 <= i < |events| ==> GraftEvent(events[i], locations).Ok?
    ensures r.Ok? ==>
      && |r.value| == |events|
      && forall i :: 0 <= i < |events| ==> GraftEvent(events[i], locations) == Ok(r.value[i])
  {
    MapAll(e => GraftEvent(e, locations), events)
  }

  // -------------------------------------------------------------- blog posts

  /** `content_components.map(c => JSON.stringify(c))`, with the serialiser
      given as `stringify`; a post without `content_components` fails. */
  function EncodeComponents(post: Story, stringify: Json -> string): (r: Result<Story>)
    ensures r.Err? <==> post.content.components.None?
    ensures r.Err? ==> r.error == MissingComponents(post.uuid)
    ensures r.Ok? ==> r.value.(content := post.content) == post
    ensures r.Ok? ==> r.value.content.(components := post.content.components) == post.content
    ensures r.Ok? ==>
      var before := post.content.components.value;
      && r.value.content.components.Some?
      && |r.value.content.components.value| == |before|
      && forall i :: 0 <= i < |before| ==> r.value.content.components.value[i] == JStr(stringify(before[i]))
  {
    match post.content.components
    case None => Err(MissingComponents(post.uuid))
    case Some(cs) =>
      Ok(post.(content := post.content.(components := Some(seq(|cs|, i requires 0 <= i < |cs| => JStr(stringify(cs[i])))))))
  }

  /** Consumers re-parse the strings: with a parser that inverts the
      serialiser, parsing every encoded component gives back the components. */
  lemma EncodeComponentsRoundTrip(post: Story, stringify: Json -> string, parse: string -> Json)
    requires forall j :: parse(stringify(j)) == j
    requires post.content.components.Some?
    ensures EncodeComponents(post, stringify).Ok?
    ensures
      var encoded := EncodeComponents(post, stringify).value.content.components.value;
      && (forall i :: 0 <= i < |encoded| ==> encoded[i].JStr?)
      && seq(|encoded|, i requires 0 <= i < |encoded| => parse(encoded[i].s)) == post.content.components.value
  {
  }

  /** `blogPosts.map(story => ...)` in `fetchBlogPosts`. */
  function EncodePosts(posts: seq<Story>, stringify: Json -> string): (r: Result<seq<Story>>)
    ensures r.Ok? <==> forall i :: 0 <= i < |posts| ==> posts[i].content.components.Some?
    ensures r.Ok? ==>
      && |r.value| == |posts|
      && forall i :: 0 <= i < |posts| ==> EncodeComponents(posts[i], stringify) == Ok(r.value[i])
  {
    MapAll(p => EncodeComponents(p, stringify), posts)
  }
}
