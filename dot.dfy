/** The part of the graphviz_rust graph structures that the diagram builder
    uses: identifiers, attributes, and the four statement forms it emits. */
module Dot {

  /** An identifier as the graph library holds it. `esc s` in the source
      yields an escaped identifier whose text is s between double quotes. */
  datatype Id = Plain(text: string) | Escaped(text: string)

  /** `attr!(key, value)`: the keys used here are all plain. */
  datatype Attribute = Attribute(key: string, value: Id)

  datatype Stmt =
    | Node(id: string, attributes: seq<Attribute>)
    | Edge(chain: seq<string>, attributes: seq<Attribute>)
    | Subgraph(id: string, stmts: seq<Stmt>)
    | Attr(attribute: Attribute)

  /** `graph!` without `di` builds an undirected, non-strict graph. */
  datatype Graph = Graph(id: string, directed: bool, stmts: seq<Stmt>)

  function Esc(s: string): Id {
    Escaped("\"" + s + "\"")
  }
}
