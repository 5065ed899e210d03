/**
 The tree the XML parser hands to the client. Each node has a name, a map
 of attributes (empty when the element has none), an optional text body
 (cdata) and an optional list of child elements. A node with no
 `children` entry is different from one whose list is empty: indexing
 `node['children']` fails on the first and yields nothing on the second.
 */
module Xml {
  import opened Wrappers

  datatype Node = Node(name: string, attributes: map<string, string>, cdata: Option<string>, children: Children)

  datatype Children = Absent | Present(nodes: seq<Node>)

  /** `node.get('children')` is truthy: the entry exists and is not empty. */
  predicate HasChildren(n: Node) {
    n.children.Present? && |n.children.nodes| > 0
  }

  /** `node.get('children', ())`: the child list, empty when there is none. */
  function Entries(n: Node): (es: seq<Node>)
    ensures n.children.Present? ==> es == n.children.nodes
    ensures n.children.Absent? ==> es == []
  {
    if n.children.Present? then n.children.nodes else []
  }
}
