/** Story records as the Storyblok content delivery API returns them, cut down to
    the fields the Gridsome source plugin reads or writes, plus the comparison of
    parsed dates, the JavaScript lookup conventions the plugin relies on, and the
    failures (TypeErrors in the plugin) that the model reports as errors. */
module Stories {

  datatype Option<+T> = None | Some(value: T)

  /** A JSON value in a field the plugin passes through without looking at it.
      Numbers are modelled as integers. */
  datatype Json =
    | JNull
    | JBool(b: bool)
    | JNum(n: int)
    | JStr(s: string)
    | JArr(items: seq<Json>)
    | JObj(members: map<string, Json>)

  /** A timestamp parsed from the fixed-width format `yyyy-MM-dd HH:mm`. */
  datatype DateTime = DateTime(year: int, month: int, day: int, hour: int, minute: int)

  /** x is strictly later than y: the five fields compared lexicographically. */
  predicate After(x: DateTime, y: DateTime)
  {
    || x.year > y.year
    || (x.year == y.year && x.month > y.month)
    || (x.year == y.year && x.month == y.month && x.day > y.day)
    || (x.year == y.year && x.month == y.month && x.day == y.day && x.hour > y.hour)
    || (x.year == y.year && x.month == y.month && x.day == y.day && x.hour == y.hour && x.minute > y.minute)
  }

  /** JavaScript's `a > b` on two Luxon DateTimes. `None` is an invalid DateTime:
      its numeric value is NaN, so every comparison that involves it is false. */
  predicate Later(a: Option<DateTime>, b: Option<DateTime>): (r: bool)
    // an invalid date is never later, nor is any date later than it
    ensures r ==> a.Some? && b.Some?
    // a strict order: asymmetric and irreflexive
    ensures r ==> !After(b.value, a.value) && a != b
    // and total on valid dates
    ensures a.Some? && b.Some? && !r ==> a == b || After(b.value, a.value)
  {
    a.Some? && b.Some? && After(a.value, b.value)
  }

  /** Not later-than is transitive on valid dates: the step the next-event
      reducer needs when a newer event replaces the stored one. */
  lemma NotLaterTransitive(a: Option<DateTime>, b: Option<DateTime>, c: Option<DateTime>)
    requires a.Some? && b.Some? && c.Some?
    requires !Later(a, b) && !Later(b, c)
    ensures !Later(a, c)
  {
  }

  /** A relation field: absent (`undefined`), a bare uuid, or the story the
      content source resolved the uuid to. */
  datatype Ref = Absent | Uuid(id: string) | Linked(story: Story)

  /** The `speaker` of a speaker slot: a speaker story's uuid as delivered, or,
      once rewritten, that speaker's content. */
  datatype SpeakerRef = SpeakerId(id: string) | SpeakerContent(content: Content)

  /** One entry of `speaker_slots`: its `speaker` and all its other fields. */
  datatype Slot = Slot(speaker: SpeakerRef, rest: map<string, Json>)

  /** A story's `content` payload. Different story kinds use different fields:
      events have `edition`, `date` and `speaker_slots`, editions have
      `location`, blog posts have `content_components`. `rest` holds every
      other field. */
  datatype Content = Content(
    edition: Ref,
    date: string,
    location: Ref,
    speakerSlots: Option<seq<Slot>>,
    components: Option<seq<Json>>,
    rest: map<string, Json>)

  /** A story. `nextEvent` and `edition` are the two top-level fields the
      plugin grafts onto stories; `rest` holds every other top-level field of
      the delivered story (its numeric `id`, `name`, `path`, ...). */
  datatype Story = Story(
    uuid: string,
    slug: string,
    fullSlug: string,
    content: Content,
    nextEvent: Option<Story>,
    edition: Ref,
    rest: map<string, Json>)

  /** The keys in `rest` are other fields: none of them is the name of a field
      the record holds apart. */
  ghost predicate RestApart(story: Story)
  {
    story.rest.Keys !! {"uuid", "slug", "full_slug", "content", "nextEvent", "edition"}
  }

  /** The property name JavaScript uses when the field value indexes an object
      (`acc[editionUUID]`, `locationsMap[locationUUID]`). */
  function PropertyKey(r: Ref): string
  {
    match r
    case Absent => "undefined"
    case Uuid(id) => id
    case Linked(_) => "[object Object]"
  }

  /** JavaScript truthiness of the field value: `undefined` and `""` are falsy. */
  predicate Truthy(r: Ref)
  {
    match r
    case Absent => false
    case Uuid(id) => id != ""
    case Linked(_) => true
  }

  /** The failures of the plugin. Each is a TypeError thrown by a property
      access on `null` or `undefined`, which rejects the loader's promise. */
  datatype Error =
    | MissingSpeaker(speaker: SpeakerRef)  // findNode found no Speaker node; `.content` of null
    | UnresolvedEdition(uuid: string)      // edition left as a uuid; `.content.location` of undefined
    | MissingComponents(uuid: string)      // no `content_components`; `.map` of undefined

  datatype Result<+T> = Ok(value: T) | Err(error: Error)

  /** `xs.map(f)` where `f` may throw: the first element whose callback fails
      stops the map with that failure; otherwise every element is mapped, in order. */
  function MapAll<A, B>(f: A -> Result<B>, xs: seq<A>): (r: Result<seq<B>>)
    ensures r.Ok? <==> forall i :: 0 <= i < |xs| ==> f(xs[i]).Ok?
    ensures r.Ok? ==> |r.value| == |xs| && forall i :: 0 <= i < |xs| ==> f(xs[i]) == Ok(r.value[i])
    ensures r.Err? ==> exists i :: 0 <= i < |xs| && f(xs[i]) == Err(r.error) && forall j :: 0 <= j < i ==> f(xs[j]).Ok?
  {
    if xs == [] then Ok([])
    else
      match f(xs[0])
      case Err(e) => Err(e)
      case Ok(y) =>
        match MapAll(f, xs[1..])
        case Err(e) =>
          assert forall i :: 0 <= i < |xs| - 1 ==> xs[1..][i] == xs[i + 1];
          Err(e)
        case Ok(ys) =>
          assert forall i :: 0 <= i < |xs| - 1 ==> xs[1..][i] == xs[i + 1];
          Ok([y] + ys)
  }
}
