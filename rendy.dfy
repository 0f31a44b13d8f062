/** The part of the rendy frame-graph API that the renderer's graph creator
    uses: image kinds, formats, clear values, subpass and present nodes, and
    the mutable `GraphBuilder` that hands out ids for the images and nodes it
    is given. The GPU objects behind them are not modelled; ids are the
    positions at which the builder recorded them. */
module Rendy {
  import opened Wrappers

  /** `Kind::D2(width, height, layers, samples)`. */
  datatype Kind = D2(width: nat, height: nat, layers: nat, samples: nat)

  /** Pixel formats. Only the depth format is named; any other format (the
      one a surface reports) is an opaque code. */
  datatype Format = D32Sfloat | Native(code: nat)

  /** `ClearValue::Color([r, g, b, a])` and
      `ClearValue::DepthStencil(ClearDepthStencil(depth, stencil))`. */
  datatype ClearValue = Color(rgba: seq<real>) | DepthStencil(depth: real, stencil: nat)

  /** Draw groups a subpass can carry; the graph creator uses one. */
  datatype Group = DrawFlat2DTransparent

  datatype ImageId = ImageId(index: nat)
  datatype NodeId = NodeId(index: nat)

  /** The arguments of one `create_image(kind, levels, format, clear)` call. */
  datatype ImageInfo = ImageInfo(kind: Kind, levels: nat, format: Format, clear: Option<ClearValue>)

  /** A node added with `add_node`: a render subpass writing colour and
      depth-stencil attachments, or the node presenting an image to the
      surface once its dependencies have run. */
  datatype Node =
    | Subpass(groups: seq<Group>, colors: seq<ImageId>, depthStencil: Option<ImageId>)
    | Present(source: ImageId, dependencies: seq<NodeId>)

  /** Everything recorded in a graph builder, in the order it was recorded. */
  datatype Graph = Graph(images: seq<ImageInfo>, nodes: seq<Node>)

  /** Node `n` writes image `i` (as a colour or a depth-stencil attachment). */
  predicate Writes(n: Node, i: ImageId)
  {
    n.Subpass? && (i in n.colors || n.depthStencil == Some(i))
  }

  /** The references of node `k` name images already declared and, for a
      present node, earlier subpass nodes; a present node depends on at
      least one node. */
  predicate RefsValid(g: Graph, k: nat)
    requires k < |g.nodes|
  {
    match g.nodes[k]
    case Subpass(_, colors, depth) =>
      (forall c :: c in colors ==> c.index < |g.images|) &&
      (depth.Some? ==> depth.value.index < |g.images|)
    case Present(source, deps) =>
      source.index < |g.images| && deps != [] &&
      forall d :: d in deps ==> d.index < k && g.nodes[d.index].Subpass?
  }

  /** The invariants a frame graph must satisfy: every reference is valid;
      dependencies point to earlier nodes, so the graph is acyclic; no node
      depends on a present node, so it is a sink; and a present node
      depends on every node that writes the image it presents. */
  predicate WellFormed(g: Graph)
  {
    (forall k :: 0 <= k < |g.nodes| ==> RefsValid(g, k)) &&
    (forall k, j ::
       0 <= k < |g.nodes| && 0 <= j < |g.nodes| && g.nodes[k].Present? &&
       Writes(g.nodes[j], g.nodes[k].source)
       ==> NodeId(j) in g.nodes[k].dependencies)
  }

  /** `GraphBuilder`: images and nodes are appended in call order and the
      returned id is the position of what was appended. */
  class GraphBuilder {
    var images: seq<ImageInfo>
    var nodes: seq<Node>

    function Current(): Graph
      reads this
    {
      Graph(images, nodes)
    }

    /** `GraphBuilder::new()` */
    constructor ()
      ensures Current() == Graph([], [])
    {
      images := [];
      nodes := [];
    }

    /** `create_image(kind, levels, format, clear)` */
    method CreateImage(kind: Kind, levels: nat, format: Format, clear: Option<ClearValue>)
      returns (id: ImageId)
      modifies this
      ensures images == old(images) + [ImageInfo(kind, levels, format, clear)]
      ensures nodes == old(nodes)
      ensures id.index == |old(images)| && images[id.index] == ImageInfo(kind, levels, format, clear)
    {
      id := ImageId(|images|);
      images := images + [ImageInfo(kind, levels, format, clear)];
    }

    /** `add_node(node)` */
    method AddNode(node: Node) returns (id: NodeId)
      modifies this
      ensures nodes == old(nodes) + [node]
      ensures images == old(images)
      ensures id.index == |old(nodes)| && nodes[id.index] == node
    {
      id := NodeId(|nodes|);
      nodes := nodes + [node];
    }
  }
}
