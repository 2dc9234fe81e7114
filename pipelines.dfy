/** The five loaders of the source plugin, each over the story lists the
    content delivery API returned for it: the transforms of the loader, then
    the emission of one node per story into the loader's collection. */
module Pipelines {
  import opened Stories
  import opened EntityMaps
  import opened NextEvents
  import opened Grafts
  import opened Nodes

  /** The edition stories `fetchEditions` emits: every edition with the stored
      event of its uuid as `nextEvent`. */
  function EditionStories(events: seq<Story>, editions: seq<Story>, speakers: map<string, Content>,
                          parse: string -> Option<DateTime>): (r: Result<seq<Story>>)
    ensures r.Err? ==> r.error.MissingSpeaker?
    // the editions, in order, each changed only in `nextEvent`
    ensures r.Ok? ==>
      && |r.value| == |editions|
      && forall i :: 0 <= i < |editions| ==> r.value[i].(nextEvent := editions[i].nextEvent) == editions[i]
    // which is set exactly for the editions some event is filed under
    ensures r.Ok? ==>
      forall i :: 0 <= i < |editions| ==> (r.value[i].nextEvent.Some? <==> editions[i].uuid in EditionsOf(events))
  {
    match NextEventsMap(events, speakers, parse)
    case Err(e) => Err(e)
    case Ok(next) =>
      NextEventsMapKeys(events, speakers, parse);
      Ok(GraftEditions(editions, next))
  }

  /** When the event dates all parse, each emitted edition has a `nextEvent`
      exactly when some event belongs to it, and then no event of that
      edition is later than it. */
  lemma EditionNextEventIsLatest(events: seq<Story>, editions: seq<Story>, speakers: map<string, Content>,
                                 parse: string -> Option<DateTime>, e: int)
    requires AllDatesValid(events, parse)
    requires EditionStories(events, editions, speakers, parse).Ok?
    requires 0 <= e < |editions|
    ensures
      var out := EditionStories(events, editions, speakers, parse).value;
      && |out| == |editions|
      && (out[e].nextEvent.Some? <==> exists i :: 0 <= i < |events| && EditionKey(events[i]) == editions[e].uuid)
      && (out[e].nextEvent.Some? ==>
            forall i :: 0 <= i < |events| && EditionKey(events[i]) == editions[e].uuid ==>
              !Later(EventDate(events[i], parse), EventDate(out[e].nextEvent.value, parse)))
  {
    var next := NextEventsMap(events, speakers, parse).value;
    NextEventsMapKeys(events, speakers, parse);
    if editions[e].uuid in next {
      StoredEventIsLatest(events, speakers, parse, editions[e].uuid);
    }
  }

  /** The event stories `fetchEvents` emits, with the locations map built
      from the location stories. */
  function EventStories(locations: seq<Story>, events: seq<Story>): (r: Result<seq<Story>>)
    // fails exactly when some event's edition was left as a non-empty uuid
    ensures r.Ok? <==> forall i :: 0 <= i < |events| ==>
                         !(events[i].content.edition.Uuid? && events[i].content.edition.id != "")
    ensures r.Err? ==> r.error.UnresolvedEdition?
    // the events, in order, each changed only in the top-level `edition`
    ensures r.Ok? ==>
      && |r.value| == |events|
      && forall i :: 0 <= i < |events| ==> r.value[i].(edition := events[i].edition) == events[i]
  {
    GraftEvents(events, UuidMap(locations))
  }

  /** An event linked to an edition whose location uuid occurs among the
      location stories gets, in its top-level edition, the last location
      story with that uuid. */
  lemma EventGetsLastLocation(locations: seq<Story>, events: seq<Story>, e: int, j: int)
    requires EventStories(locations, events).Ok?
    requires 0 <= e < |events|
    requires LastWithUuid(locations, j) && locations[j].uuid != ""
    requires events[e].content.edition.Linked?
    requires events[e].content.edition.story.content.location == Uuid(locations[j].uuid)
    ensures EventStories(locations, events).value[e].edition
         == events[e].content.edition.(story := events[e].content.edition.story.(
              content := events[e].content.edition.story.content.(location := Linked(locations[j]))))
  {
    UuidMapLastWins(locations, j);
  }

  /** The location `fetchEvents` finds for an edition, stated against the
      location stories rather than the map built from them: one is found
      exactly when the location field is truthy and some location story has
      that uuid, and it is then the last such story. */
  lemma LocationFound(edition: Story, locations: seq<Story>)
    ensures
      var key := PropertyKey(edition.content.location);
      (LocationOf(edition, UuidMap(locations)).Some? <==>
         Truthy(edition.content.location) && exists j :: 0 <= j < |locations| && locations[j].uuid == key)
    ensures
      var key := PropertyKey(edition.content.location);
      LocationOf(edition, UuidMap(locations)).Some? ==>
        exists j :: LastWithUuid(locations, j) && locations[j].uuid == key
                    && LocationOf(edition, UuidMap(locations)).value == locations[j]
  {
    var key := PropertyKey(edition.content.location);
    if LocationOf(edition, UuidMap(locations)).Some? {
      UuidMapValueIsLast(locations, key);
    }
  }

  /** The blog-post stories `fetchBlogPosts` emits. */
  function BlogPostStories(posts: seq<Story>, stringify: Json -> string): (r: Result<seq<Story>>)
    // fails exactly when some post has no `content_components`
    ensures r.Ok? <==> forall i :: 0 <= i < |posts| ==> posts[i].content.components.Some?
    ensures r.Err? ==> r.error.MissingComponents?
    // the posts, in order, each changed only in its content, and there only in the components
    ensures r.Ok? ==>
      && |r.value| == |posts|
      && forall i :: 0 <= i < |posts| ==>
           && r.value[i].(content := posts[i].content) == posts[i]
           && r.value[i].content.(components := posts[i].content.components) == posts[i].content
  {
    EncodePosts(posts, stringify)
  }

  /** `fetchSections`: the section stories as they are. */
  method FetchSections(sections: seq<Story>) returns (c: Collection)
    ensures fresh(c) && c.typeName == "MainSection" && c.nodes == NodesOf(sections)
  {
    c := CreateContentType("MainSection", sections);
  }

  /** `fetchSpeakers`: the speaker stories through an identity map. */
  method FetchSpeakers(speakers: seq<Story>) returns (c: Collection)
    ensures fresh(c) && c.typeName == "Speaker" && c.nodes == NodesOf(speakers)
  {
    var stories := seq(|speakers|, i requires 0 <= i < |speakers| => speakers[i]);
    assert stories == speakers;
    c := CreateContentType("Speaker", stories);
  }

  /** `fetchEditions`, up to the page registration: nothing is emitted when the
      next-event fold fails. */
  method FetchEditions(events: seq<Story>, editions: seq<Story>, speakers: map<string, Content>,
                       parse: string -> Option<DateTime>) returns (r: Result<Collection>)
    ensures r.Ok? <==> EditionStories(events, editions, speakers, parse).Ok?
    ensures r.Ok? ==> fresh(r.value) && r.value.typeName == "Edition"
                      && r.value.nodes == NodesOf(EditionStories(events, editions, speakers, parse).value)
    ensures r.Err? ==> r.error == EditionStories(events, editions, speakers, parse).error
  {
    var stories := EditionStories(events, editions, speakers, parse);
    if stories.Err? {
      return Err(stories.error);
    }
    var c := CreateContentType("Edition", stories.value);
    return Ok(c);
  }

  /** `fetchEvents`. */
  method FetchEvents(locations: seq<Story>, events: seq<Story>) returns (r: Result<Collection>)
    ensures r.Ok? <==> EventStories(locations, events).Ok?
    ensures r.Ok? ==> fresh(r.value) && r.value.typeName == "Event"
                      && r.value.nodes == NodesOf(EventStories(locations, events).value)
    ensures r.Err? ==> r.error == EventStories(locations, events).error
  {
    var stories := EventStories(locations, events);
    if stories.Err? {
      return Err(stories.error);
    }
    var c := CreateContentType("Event", stories.value);
    return Ok(c);
  }

  /** `fetchBlogPosts`. */
  method FetchBlogPosts(posts: seq<Story>, stringify: Json -> string) returns (r: Result<Collection>)
    ensures r.Ok? <==> BlogPostStories(posts, stringify).Ok?
    ensures r.Ok? ==> fresh(r.value) && r.value.typeName == "BlogPost"
                      && r.value.nodes == NodesOf(BlogPostStories(posts, stringify).value)
    ensures r.Err? ==> r.error == BlogPostStories(posts, stringify).error
  {
    var stories := BlogPostStories(posts, stringify);
    if stories.Err? {
      return Err(stories.error);
    }
    var c := CreateContentType("BlogPost", stories.value);
    return Ok(c);
  }
}
