/**
 * The parts of a saved campaign document that the two cleaning scripts read and
 * rewrite. Every key a script looks up is an `Option`, `None` when the key is
 * absent; every other key is kept, value and all, in an `other` map.
 */
module Records {
  import opened Optional

  /** A JSON value, for the keys the cleaners pass through untouched. */
  datatype Value =
    | Null
    | Boolean(b: bool)
    | Number(n: int)
    | Str(s: string)
    | Array(items: seq<Value>)
    | Object(fields: map<string, Value>)

  /** An entry of `sentences`: its `id` and `text`, and its other keys. */
  datatype Sentence = Sentence(id: Option<int>, text: Option<string>, other: map<string, Value>)

  /** The `meta` object of a graph node. */
  datatype NodeMeta = NodeMeta(sentIndex: Option<int>, text: Option<string>, other: map<string, Value>)

  /** An entry of `graph_nodes`. */
  datatype Node = Node(meta: Option<NodeMeta>, other: map<string, Value>)

  /** An entry of `graph_edges`: its `source` and `dest` node ids. */
  datatype Edge = Edge(source: Option<int>, dest: Option<int>, other: map<string, Value>)

  /** A campaign document: `sentences`, `text`, `graph_nodes` and `graph_edges`, and
      the keys no cleaner touches (`mapper`, `tech_alignment`, ...). */
  datatype Document = Document(
    sentences: Option<seq<Sentence>>, text: Option<string>,
    graphNodes: Option<seq<Node>>, graphEdges: Option<seq<Edge>>,
    other: map<string, Value>)
}
