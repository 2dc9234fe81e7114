/** The uuid-keyed lookup maps built by `getEditionsMap` and `getLocationsMap`:
    a left fold over the delivered stories that spreads the accumulator into a
    fresh object and sets `[story.uuid]: story`. */
module EntityMaps {
  import opened Stories

  /** The uuids occurring in a story list. */
  ghost function Uuids(stories: seq<Story>): set<string>
  {
    set i | 0 <= i < |stories| :: stories[i].uuid
  }

  /** stories[j] is the last story of the list that carries its uuid. */
  ghost predicate LastWithUuid(stories: seq<Story>, j: int)
  {
    0 <= j < |stories| && forall i :: j < i < |stories| ==> stories[i].uuid != stories[j].uuid
  }

  /** `stories.reduce((acc, s) => ({...acc, [s.uuid]: s}), {})`. The fold never
      fails: a repeated uuid silently overwrites the earlier story. */
  function UuidMap(stories: seq<Story>): (m: map<string, Story>)
    ensures m.Keys == Uuids(stories)
    decreases |stories|
  {
    if stories == [] then map[]
    else
      var pre, last := stories[..|stories| - 1], stories[|stories| - 1];
      assert Uuids(stories) == Uuids(pre) + {last.uuid} by {
        assert forall i :: 0 <= i < |pre| ==> pre[i] == stories[i];
      }
      UuidMap(pre)[last.uuid := last]
  }

  /** The map has one entry per distinct uuid of the list. */
  lemma UuidMapSize(stories: seq<Story>)
    ensures |UuidMap(stories)| == |Uuids(stories)|
  {
  }

  /** The story that is last with its uuid is the one the map holds for it. */
  lemma {:induction false} UuidMapLastWins(stories: seq<Story>, j: int)
    requires LastWithUuid(stories, j)
    ensures UuidMap(stories)[stories[j].uuid] == stories[j]
    decreases |stories|
  {
    var n := |stories|;
    if j < n - 1 {
      var pre := stories[..n - 1];
      assert pre[j] == stories[j];
      assert LastWithUuid(pre, j);
      UuidMapLastWins(pre, j);
    }
  }

  /** Every value of the map is the LAST story in list order with its key. */
  lemma {:induction false} UuidMapValueIsLast(stories: seq<Story>, u: string)
    requires u in UuidMap(stories)
    ensures exists j :: LastWithUuid(stories, j) && stories[j].uuid == u && UuidMap(stories)[u] == stories[j]
    decreases |stories|
  {
    var n := |stories|;
    var pre := stories[..n - 1];
    if stories[n - 1].uuid == u {
      assert LastWithUuid(stories, n - 1);
    } else {
      assert u in UuidMap(pre);
      UuidMapValueIsLast(pre, u);
      var j :| LastWithUuid(pre, j) && pre[j].uuid == u && UuidMap(pre)[u] == pre[j];
      assert forall i :: 0 <= i < n - 1 ==> pre[i] == stories[i];
      assert UuidMap(stories)[u] == UuidMap(pre)[u];
      assert LastWithUuid(stories, j);
    }
  }

  /** Two stories with one uuid: no error, the later story is kept. */
  lemma DuplicateUuidKeepsLater(first: Story, second: Story)
    requires first.uuid == second.uuid
    ensures UuidMap([first, second]) == map[second.uuid := second]
  {
  }
}
