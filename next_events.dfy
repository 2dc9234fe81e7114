/** The `nextEventsEditionMap` fold of `fetchEditions`: for every edition uuid
    it keeps one event, replacing the stored event unless the stored event's
    date is strictly later, and it rewrites the speaker slots of every event it
    stores so that each slot carries its speaker's content. */
module NextEvents {
  import opened Stories

  /** The key the fold files an event under: `event.content.edition` used as a
      property name. */
  function EditionKey(event: Story): string
  {
    PropertyKey(event.content.edition)
  }

  /** `DateTime.fromFormat(event.content.date, "yyyy-MM-dd HH:mm")`, with the
      parser given as `parse`. */
  function EventDate(event: Story, parse: string -> Option<DateTime>): Option<DateTime>
  {
    parse(event.content.date)
  }

  /** Every event's date parses. */
  ghost predicate AllDatesValid(events: seq<Story>, parse: string -> Option<DateTime>)
  {
    forall i :: 0 <= i < |events| ==> EventDate(events[i], parse).Some?
  }

  /** The Speaker collection holds a node for the slot's speaker id. */
  predicate Resolvable(slot: Slot, speakers: map<string, Content>)
  {
    slot.speaker.SpeakerId? && slot.speaker.id in speakers
  }

  /** `{...rest, speaker: findNode({id: speaker}).content}`. */
  function ResolveSlot(slot: Slot, speakers: map<string, Content>): (r: Result<Slot>)
    ensures r.Ok? <==> Resolvable(slot, speakers)
    ensures r.Err? ==> r.error == MissingSpeaker(slot.speaker)
  {
    if Resolvable(slot, speakers) then Ok(Slot(SpeakerContent(speakers[slot.speaker.id]), slot.rest))
    else Err(MissingSpeaker(slot.speaker))
  }

  /** `speaker_slots` when present, `[]` when absent. */
  function SlotsOf(content: Content): seq<Slot>
  {
    if content.speakerSlots.Some? then content.speakerSlots.value else []
  }

  /** The `produce` call that builds the stored event: `speaker_slots` becomes
      the rewritten slots, everything else of the event stays as it is. */
  function ResolveSpeakerSlots(event: Story, speakers: map<string, Content>): (r: Result<Story>)
    ensures r.Ok? <==> forall i :: 0 <= i < |SlotsOf(event.content)| ==> Resolvable(SlotsOf(event.content)[i], speakers)
    ensures r.Ok? ==> r.value.(content := event.content) == event
    ensures r.Ok? ==> r.value.content.(speakerSlots := event.content.speakerSlots) == event.content
    ensures r.Ok? ==> r.value.content.speakerSlots.Some?
    ensures r.Ok? ==>
      var before, after := SlotsOf(event.content), r.value.content.speakerSlots.value;
      && |after| == |before|
      && forall i :: 0 <= i < |before| ==>
           && Resolvable(before[i], speakers)
           && after[i] == Slot(SpeakerContent(speakers[before[i].speaker.id]), before[i].rest)
    ensures r.Err? ==>
      exists i :: 0 <= i < |SlotsOf(event.content)| && !Resolvable(SlotsOf(event.content)[i], speakers)
                  && r.error == MissingSpeaker(SlotsOf(event.content)[i].speaker)
  {
    match MapAll(s => ResolveSlot(s, speakers), SlotsOf(event.content))
    case Err(e) => Err(e)
    case Ok(slots) => Ok(event.(content := event.content.(speakerSlots := Some(slots))))
  }

  /** The stored event keeps the edition and the date of the event it was made from. */
  lemma ResolvedKeepsKeyAndDate(event: Story, speakers: map<string, Content>, parse: string -> Option<DateTime>)
    requires ResolveSpeakerSlots(event, speakers).Ok?
    ensures EditionKey(ResolveSpeakerSlots(event, speakers).value) == EditionKey(event)
    ensures EventDate(ResolveSpeakerSlots(event, speakers).value, parse) == EventDate(event, parse)
  {
  }

  /** The stored entry for the event's edition survives only when its date is
      strictly later than the event's (`oldEventDate > eventDate`). */
  predicate Kept(acc: map<string, Story>, event: Story, parse: string -> Option<DateTime>)
  {
    EditionKey(event) in acc && Later(EventDate(acc[EditionKey(event)], parse), EventDate(event, parse))
  }

  /** One step of the fold. */
  function Step(acc: map<string, Story>, event: Story, speakers: map<string, Content>,
                parse: string -> Option<DateTime>): (r: Result<map<string, Story>>)
    // an entry that is kept leaves the accumulator as it was, without looking at the speakers
    ensures Kept(acc, event, parse) ==> r == Ok(acc)
    // otherwise the event with its slots rewritten is stored, or the rewrite fails
    ensures !Kept(acc, event, parse) ==>
      (r.Ok? <==> ResolveSpeakerSlots(event, speakers).Ok?) &&
      (r.Ok? ==> EditionKey(event) in r.value && r.value[EditionKey(event)] == ResolveSpeakerSlots(event, speakers).value) &&
      (r.Err? ==> r.error == ResolveSpeakerSlots(event, speakers).error)
    // locality: only the entry of the event's edition can change
    ensures r.Ok? ==> r.value.Keys == acc.Keys + {EditionKey(event)}
    ensures r.Ok? ==> forall k :: k in acc && k != EditionKey(event) ==> r.value[k] == acc[k]
  {
    if Kept(acc, event, parse) then Ok(acc)
    else
      match ResolveSpeakerSlots(event, speakers)
      case Err(e) => Err(e)
      case Ok(next) => Ok(acc[EditionKey(event) := next])
  }

  /** `events.reduce(step, {})`: the fold applied to the last event after the
      fold over all the earlier ones. */
  function NextEventsMap(events: seq<Story>, speakers: map<string, Content>,
                         parse: string -> Option<DateTime>): (r: Result<map<string, Story>>)
    // the only way the fold fails is a speaker without a Speaker node
    ensures r.Err? ==> r.error.MissingSpeaker?
    decreases |events|
  {
    if events == [] then Ok(map[])
    else
      match NextEventsMap(events[..|events| - 1], speakers, parse)
      case Err(e) => Err(e)
      case Ok(acc) => Step(acc, events[|events| - 1], speakers, parse)
  }

  /** The editions the events are filed under. */
  ghost function EditionsOf(events: seq<Story>): set<string>
  {
    set i | 0 <= i < |events| :: EditionKey(events[i])
  }

  /** Appending an event adds its edition. */
  lemma EditionsOfSnoc(events: seq<Story>)
    requires events != []
    ensures EditionsOf(events) == EditionsOf(events[..|events| - 1]) + {EditionKey(events[|events| - 1])}
  {
    var pre := events[..|events| - 1];
    assert forall i :: 0 <= i < |pre| ==> pre[i] == events[i];
  }

  /** The editions of the map are exactly the editions the events are filed under. */
  lemma {:induction false} NextEventsMapKeys(events: seq<Story>, speakers: map<string, Content>,
                                             parse: string -> Option<DateTime>)
    requires NextEventsMap(events, speakers, parse).Ok?
    ensures NextEventsMap(events, speakers, parse).value.Keys == EditionsOf(events)
    decreases |events|
  {
    if events != [] {
      FoldStep(events, speakers, parse);
      NextEventsMapKeys(events[..|events| - 1], speakers, parse);
      EditionsOfSnoc(events);
    }
  }

  /** One unfolding of the fold: the map for a non-empty list is the step over
      the last event applied to the map for the others. */
  lemma FoldStep(events: seq<Story>, speakers: map<string, Content>, parse: string -> Option<DateTime>)
    requires events != []
    requires NextEventsMap(events, speakers, parse).Ok?
    ensures NextEventsMap(events[..|events| - 1], speakers, parse).Ok?
    ensures NextEventsMap(events, speakers, parse)
         == Step(NextEventsMap(events[..|events| - 1], speakers, parse).value, events[|events| - 1], speakers, parse)
  {
  }

  /** events[j] is filed under k and every later event filed under k has a
      strictly earlier date (or a date that does not parse). */
  ghost predicate Unbeaten(events: seq<Story>, parse: string -> Option<DateTime>, k: string, j: int)
  {
    && 0 <= j < |events|
    && EditionKey(events[j]) == k
    && forall i :: j < i < |events| && EditionKey(events[i]) == k ==>
         Later(EventDate(events[j], parse), EventDate(events[i], parse))
  }

  /** An unbeaten event stays unbeaten when the next event is of another
      edition or has a strictly earlier date. */
  lemma UnbeatenSnoc(events: seq<Story>, parse: string -> Option<DateTime>, k: string, j: int)
    requires events != [] && Unbeaten(events[..|events| - 1], parse, k, j)
    requires EditionKey(events[|events| - 1]) == k ==>
               Later(EventDate(events[j], parse), EventDate(events[|events| - 1], parse))
    ensures Unbeaten(events, parse, k, j)
  {
    var pre := events[..|events| - 1];
    assert forall i :: 0 <= i < |pre| ==> pre[i] == events[i];
  }

  /** Which event is stored, whatever the dates: the entry for k is made from
      an event filed under k that no later event filed under k ties or beats.
      On equal dates the later event therefore wins. */
  lemma {:induction false} StoredEventIsLastUnbeaten(events: seq<Story>, speakers: map<string, Content>,
                                                      parse: string -> Option<DateTime>, k: string)
    requires NextEventsMap(events, speakers, parse).Ok?
    requires k in NextEventsMap(events, speakers, parse).value
    ensures exists j :: Unbeaten(events, parse, k, j)
                        && ResolveSpeakerSlots(events[j], speakers) == Ok(NextEventsMap(events, speakers, parse).value[k])
    decreases |events|
  {
    var n := |events|;
    var pre, last := events[..n - 1], events[n - 1];
    FoldStep(events, speakers, parse);
    var acc := NextEventsMap(pre, speakers, parse).value;
    if !Kept(acc, last, parse) && k == EditionKey(last) {
      assert Unbeaten(events, parse, k, n - 1);
    } else {
      assert k in acc;
      StoredEventIsLastUnbeaten(pre, speakers, parse, k);
      var j :| Unbeaten(pre, parse, k, j) && ResolveSpeakerSlots(pre[j], speakers) == Ok(acc[k]);
      assert pre[j] == events[j];
      ResolvedKeepsKeyAndDate(events[j], speakers, parse);
      UnbeatenSnoc(events, parse, k, j);
    }
  }

  /** The invariant of the fold that gives the maximum property: every event
      is filed under an edition of the map, every stored date parses, and no
      event is later than the event stored for its edition. */
  ghost predicate Latest(events: seq<Story>, parse: string -> Option<DateTime>, acc: map<string, Story>)
  {
    && (forall k :: k in acc ==> EventDate(acc[k], parse).Some?)
    && forall i :: 0 <= i < |events| ==>
         && EditionKey(events[i]) in acc
         && !Later(EventDate(events[i], parse), EventDate(acc[EditionKey(events[i])], parse))
  }

  /** A step over an event whose date parses keeps the invariant. */
  lemma StepKeepsLatest(events: seq<Story>, acc: map<string, Story>, speakers: map<string, Content>,
                        parse: string -> Option<DateTime>)
    requires events != [] && EventDate(events[|events| - 1], parse).Some?
    requires Latest(events[..|events| - 1], parse, acc)
    requires Step(acc, events[|events| - 1], speakers, parse).Ok?
    ensures Latest(events, parse, Step(acc, events[|events| - 1], speakers, parse).value)
  {
    var n := |events|;
    var pre, last := events[..n - 1], events[n - 1];
    var key := EditionKey(last);
    var r := Step(acc, last, speakers, parse).value;
    if !Kept(acc, last, parse) {
      ResolvedKeepsKeyAndDate(last, speakers, parse);
      assert EventDate(r[key], parse) == EventDate(last, parse);
      forall i | 0 <= i < n - 1
        ensures !Later(EventDate(events[i], parse), EventDate(r[EditionKey(events[i])], parse))
      {
        assert pre[i] == events[i];
        if EditionKey(events[i]) == key && EventDate(events[i], parse).Some? {
          NotLaterTransitive(EventDate(events[i], parse), EventDate(acc[key], parse), EventDate(last, parse));
        }
      }
    } else {
      assert forall i :: 0 <= i < n - 1 ==> pre[i] == events[i];
    }
  }

  /** The fold over events whose dates all parse establishes the invariant. */
  lemma {:induction false} NextEventsMapLatest(events: seq<Story>, speakers: map<string, Content>,
                                               parse: string -> Option<DateTime>)
    requires AllDatesValid(events, parse)
    requires NextEventsMap(events, speakers, parse).Ok?
    ensures Latest(events, parse, NextEventsMap(events, speakers, parse).value)
    decreases |events|
  {
    if events != [] {
      var pre := events[..|events| - 1];
      FoldStep(events, speakers, parse);
      assert forall i :: 0 <= i < |pre| ==> pre[i] == events[i];
      NextEventsMapLatest(pre, speakers, parse);
      StepKeepsLatest(events, NextEventsMap(pre, speakers, parse).value, speakers, parse);
    }
  }

  /** The maximum property, when every date parses: no event filed under k has
      a date later than the stored event's. */
  lemma StoredEventIsLatest(events: seq<Story>, speakers: map<string, Content>,
                            parse: string -> Option<DateTime>, k: string)
    requires AllDatesValid(events, parse)
    requires NextEventsMap(events, speakers, parse).Ok?
    requires k in NextEventsMap(events, speakers, parse).value
    ensures forall i :: 0 <= i < |events| && EditionKey(events[i]) == k ==>
              !Later(EventDate(events[i], parse), EventDate(NextEventsMap(events, speakers, parse).value[k], parse))
  {
    NextEventsMapLatest(events, speakers, parse);
  }

  /** The tie-break: of two events of one edition with the same date, the
      second, in input order, is stored. */
  lemma EqualDatesLaterEventWins(first: Story, second: Story, speakers: map<string, Content>,
                                 parse: string -> Option<DateTime>)
    requires EditionKey(first) == EditionKey(second)
    requires EventDate(first, parse) == EventDate(second, parse)
    requires ResolveSpeakerSlots(first, speakers).Ok? && ResolveSpeakerSlots(second, speakers).Ok?
    ensures NextEventsMap([first, second], speakers, parse).Ok?
    ensures NextEventsMap([first, second], speakers, parse).value
         == map[EditionKey(second) := ResolveSpeakerSlots(second, speakers).value]
  {
    var acc := NextEventsMap([first], speakers, parse);
    assert [first, second][..1] == [first];
    assert [first][..0] == [];
    assert NextEventsMap([], speakers, parse) == Ok(map[]);
    assert acc == Step(map[], first, speakers, parse);
    assert !Kept(map[], first, parse);
    assert acc == Ok(map[EditionKey(first) := ResolveSpeakerSlots(first, speakers).value]);
    ResolvedKeepsKeyAndDate(first, speakers, parse);
    assert !Kept(acc.value, second, parse);
  }

  /** An event whose speakers all have Speaker nodes never makes the fold fail. */
  lemma {:induction false} NextEventsMapSucceeds(events: seq<Story>, speakers: map<string, Content>,
                                                 parse: string -> Option<DateTime>)
    requires forall i :: 0 <= i < |events| ==> ResolveSpeakerSlots(events[i], speakers).Ok?
    ensures NextEventsMap(events, speakers, parse).Ok?
    decreases |events|
  {
    if events != [] {
      var pre := events[..|events| - 1];
      assert forall i :: 0 <= i < |pre| ==> pre[i] == events[i];
      NextEventsMapSucceeds(pre, speakers, parse);
    }
  }

  /** When the fold fails, it is on a speaker slot of one of the events whose
      speaker has no Speaker node. */
  lemma {:induction false} NextEventsMapFailure(events: seq<Story>, speakers: map<string, Content>,
                                                parse: string -> Option<DateTime>)
    requires NextEventsMap(events, speakers, parse).Err?
    ensures exists i, s :: 0 <= i < |events| && 0 <= s < |SlotsOf(events[i].content)|
              && !Resolvable(SlotsOf(events[i].content)[s], speakers)
              && NextEventsMap(events, speakers, parse).error == MissingSpeaker(SlotsOf(events[i].content)[s].speaker)
    decreases |events|
  {
    var n := |events|;
    var pre := events[..n - 1];
    if NextEventsMap(pre, speakers, parse).Err? {
      NextEventsMapFailure(pre, speakers, parse);
      var i, s :| 0 <= i < |pre| && 0 <= s < |SlotsOf(pre[i].content)|
                  && !Resolvable(SlotsOf(pre[i].content)[s], speakers)
                  && NextEventsMap(pre, speakers, parse).error == MissingSpeaker(SlotsOf(pre[i].content)[s].speaker);
      assert pre[i] == events[i];
    } else {
      assert ResolveSpeakerSlots(events[n - 1], speakers).Err?;
    }
  }
}
