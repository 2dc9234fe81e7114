/** `createStoryblokContentType`: one node per story, shaped for the Gridsome
    store, added to the collection of the given type name. */
module Nodes {
  import opened Stories

  /** `{...story, path: "/" + full_slug, id: uuid, slug: "/" + slug}`. The
      spread copies every top-level field of the story; the three assigned
      properties then overwrite `path`, `id` and `slug`. */
  datatype Node = Node(
    id: string,
    path: string,
    slug: string,
    uuid: string,
    fullSlug: string,
    content: Content,
    nextEvent: Option<Story>,
    edition: Ref,
    rest: map<string, Json>)

  /** The node built for one story. */
  function ToNode(story: Story): (n: Node)
    ensures n.id == story.uuid && n.path == "/" + story.fullSlug && n.slug == "/" + story.slug
    // the other fields are the story's; its own `id` and `path` are overwritten
    ensures n.uuid == story.uuid && n.fullSlug == story.fullSlug && n.content == story.content
    ensures n.nextEvent == story.nextEvent && n.edition == story.edition
    ensures n.rest == story.rest - {"id", "path"}
  {
    Node(story.uuid, "/" + story.fullSlug, "/" + story.slug, story.uuid, story.fullSlug,
         story.content, story.nextEvent, story.edition, story.rest - {"id", "path"})
  }

  /** The story a node carries, read back from the node. */
  function StoryOf(n: Node): Story
    requires |n.slug| >= 1
  {
    Story(n.uuid, n.slug[1..], n.fullSlug, n.content, n.nextEvent, n.edition, n.rest)
  }

  /** A node loses nothing of its story but the story's own `id` and `path`. */
  lemma StoryOfToNode(story: Story)
    ensures |ToNode(story).slug| >= 1
    ensures StoryOf(ToNode(story)) == story.(rest := story.rest - {"id", "path"})
  {
  }

  /** When a story's other fields are apart from the ones it holds by name,
      so are the node's: no field of the node is held twice. */
  lemma ToNodeRestApart(story: Story)
    requires RestApart(story)
    ensures ToNode(story).rest.Keys !! {"id", "path", "slug", "uuid", "full_slug", "content", "nextEvent", "edition"}
  {
  }

  /** The nodes built for a story list, in order. */
  function NodesOf(stories: seq<Story>): (r: seq<Node>)
    ensures |r| == |stories|
    ensures forall i :: 0 <= i < |stories| ==> r[i] == ToNode(stories[i])
  {
    seq(|stories|, i requires 0 <= i < |stories| => ToNode(stories[i]))
  }

  /** Distinct story uuids give distinct node ids within the collection. */
  lemma NodeIdsDistinct(stories: seq<Story>)
    requires forall i, j :: 0 <= i < j < |stories| ==> stories[i].uuid != stories[j].uuid
    ensures forall i, j :: 0 <= i < j < |stories| ==> NodesOf(stories)[i].id != NodesOf(stories)[j].id
  {
  }

  /** A store collection, seen as the nodes added to it in order. What the
      store does with them (duplicate ids included) is not modelled. */
  class Collection {
    const typeName: string
    var nodes: seq<Node>

    /** `addCollection({ typeName })`. */
    constructor (typeName: string)
      ensures this.typeName == typeName && nodes == []
    {
      this.typeName := typeName;
      nodes := [];
    }

    /** `contentType.addNode(node)`. */
    method AddNode(node: Node)
      modifies this
      ensures nodes == old(nodes) + [node]
    {
      nodes := nodes + [node];
    }
  }

  /** `createStoryblokContentType({ store, typeName, stories })`: a new
      collection holding the node of every story, in order. */
  method CreateContentType(typeName: string, stories: seq<Story>) returns (c: Collection)
    ensures fresh(c) && c.typeName == typeName
    ensures c.nodes == NodesOf(stories)
  {
    c := new Collection(typeName);
    var i := 0;
    while i < |stories|
      invariant 0 <= i <= |stories|
      invariant c.nodes == NodesOf(stories[..i])
    {
      assert NodesOf(stories[..i + 1]) == NodesOf(stories[..i]) + [ToNode(stories[i])];
      c.AddNode(ToNode(stories[i]));
      i := i + 1;
    }
    assert stories[..i] == stories;
  }
}
