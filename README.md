# RRG diagram builder, modelled in Dafny

This project models the core of a Role and Reference Grammar diagrammer. The
input is an ordered list of units (`Phon`). Each unit has a surface string, an
optional category attachment (`Top`: a pos label and a layer `Kind`) and an
optional list of operator attachments (`Bot`: an operator label and a layer
`Kind`). `make_graph` turns that list into a graphviz graph in one pass:

- ten backbone nodes (`SentenceTop` … `PredTop`, `SentenceBot` … `PredBot`);
- for each unit, its category chain or head nodes, then its operator nodes and
  edges, then its terminal node;
- a 13-vertex central spine through the head unit;
- two `rank=same` subgraphs that align the terminals and the category nodes.

Files and modules:

- `wrappers.dfy` (`Wrappers`): `Option` and `Result`.
- `strings.dfy` (`Strings`): `NatToString`, the decimal rendering that
  `usize::to_string` produces. Its inverse `ParseNat` is proved to undo it.
- `dot.dfy` (`Dot`): the few graphviz_rust structures the builder uses. These
  are identifiers (plain or escaped), attributes, and the statement forms
  `Node`, `Edge` (a vertex chain), `Subgraph` and a bare `Attr`. A `Graph` is
  an id, a directed flag and a statement list.
- `records.dfy` (`Records`): `Kind` with `KindName` (`Kind::to_string`), and
  the `Top`, `Bot` and `Phon` records. It also holds the node-naming
  functions and `MakeEdge` (`Top::make_edge`).
- `diagram.dfy` (`Diagram`): the graph that `make_graph` returns, written as
  functions of the input. `UnitStmts` is what one pass of the unit loop adds.
  `LastPred` is the value of `pred_index`. `BuildGraph` is the whole result,
  or `Failure(MissingHead)` where the source's `expect` panics.
- `builder.dfy` (`Builder`): `MakeGraph` is the imperative loop. It appends
  statements to a local sequence, as `graph.add_stmt` does. It is proved to
  return exactly `BuildGraph(phons)`.
- `diagram_props.dfy` (`DiagramProps`): what the built graph contains.
- `sample.dfy` (`Sample`): the source's sample input `T1` and its graph.

One might expect exactly one head, periphery nodes of their own for the
periphery kinds, and a directed drawing. The code, which the model follows,
does this instead:

- Building fails only when no unit is a head. With several `Pred` units, the
  last one is used for the spine. Every `Pred` unit still gets its own
  `<pos>Bot` node and a terminal node in group `main`.
- The periphery kinds `CoreP` and `ClauseP` get no periphery nodes. Their
  chains go to `CorePTop` / `ClausePTop`, and operators of those kinds go to
  `CorePBot` / `ClausePBot`. No backbone node has these names
  (`LayerTargetInScaffold`).
- No edge carries a "no arrowhead" attribute. The graph is built with
  `graph!`, not `graph!(di …)`, so it is undirected (`directed == false`).
- Operator nodes get no rank groups.
- The head's bottom node is named `<pos>Bot`, without the unit index.
- Node names are plain string concatenations, so they can collide
  (`PosNodeNamesCanCollide`). They are guaranteed distinct when no pos
  label ends in a digit (`PosNodeNamesDistinct`).

## Model

| member | source | states |
|---|---|---|
| Strings.NatToStringCanonical | src/main.rs:50 | the index rendering used in node names is a canonical decimal numeral: non-empty, digits only, no leading zero, and it starts with '0' only for index 0 |
| Strings.ParseNatToString | src/main.rs:50 | a rendered index consists of digits, and reading it back gives the index |
| Strings.NatToStringParseNat | src/main.rs:50 | every canonical numeral is the rendering of the number it denotes |
| Strings.NatToStringInjective | src/main.rs:132 | two units' terminal names are equal exactly when their indices are |
| Records.KindNameInjective | src/main.rs:27-38 | `Kind::to_string` names distinct kinds distinctly, in both directions |
| Diagram.LastPred | src/main.rs:94-104 | `pred_index` is None exactly when no unit so far has a Pred top; otherwise it is a Pred unit with no Pred unit after it, so the last one wins |
| Builder.AddOperators | src/main.rs:116-127 | the inner loop appends, for each bottom attachment in order, its three statements and nothing else |
| Builder.AddUnit | src/main.rs:97-133 | one pass of the unit loop appends exactly that unit's statements and sets `pred_index` to the unit's index iff its top kind is Pred |
| Builder.MakeGraph | src/main.rs:75-192 | the imperative builder returns exactly the specified graph, or MissingHead where the `expect` panics |
| Builder.BuildSpine | src/main.rs:138-167 | the vertex vector built from the five Top layers, the head's three nodes and the five Bot layers is the spine chain |
| Builder.BuildPhonsSubgraph | src/main.rs:171-175 | the loop collecting the terminals 0..n-1 yields a chain of exactly n vertices whose k-th is terminal k, and the subgraph built from it is the "phons" subgraph |
| Builder.BuildAllPosSubgraph | src/main.rs:186-190 | the loop over the units keeps the rank attribute followed by one bare category node per unit with a top seen so far, so it builds the "all_pos" subgraph |
| DiagramProps.BuildFailsIffNoHead | src/main.rs:148 | building fails with MissingHead iff no unit has a Pred top, and succeeds iff some unit does |
| DiagramProps.GraphLayout | src/main.rs:77-133 | the first ten statements are the backbone, and each unit's statements form one contiguous block after those of all earlier units; the total length is 13 plus the unit blocks |
| DiagramProps.ScaffoldLayers | src/main.rs:77-88 | backbone node m is the Top (m < 5) or Bot node of layer Sentence, Clause, Core, Nuc, Pred in turn, labelled with that kind's name and in group main |
| DiagramProps.LayerTargetInScaffold | src/main.rs:52 | `<Kind>Top` and `<Kind>Bot` name a backbone node iff the kind is not CoreP or ClauseP |
| DiagramProps.TopEdgeOfUnit | src/main.rs:48-53 | a unit whose top kind is not Pred adds first exactly one attribute-less chain unit → pos+index → `<Kind>Top`, and no other three-vertex edge; other units add none |
| DiagramProps.CategoryNodeOfUnit | src/main.rs:99-113 | a unit with a top adds its category node pos+index, labelled with pos, second, in group main iff the kind is Pred; a Pred unit first adds `<pos>Bot` in group main |
| DiagramProps.OperatorsOfUnit | src/main.rs:116-125 | bottom attachment j adds, in order, node op+i+"_"+j labelled op, a dotted edge from the unit's terminal to it, and an attribute-less edge from it to `<Kind>Bot` |
| DiagramProps.TerminalOfUnit | src/main.rs:128-132 | a unit's last statement is its terminal node, named by its index and labelled with its surface string, in group main iff the unit is a head |
| DiagramProps.BotStmtsOperatorNodes | src/main.rs:118-125 | one pass of the operator loop adds exactly one operator node |
| DiagramProps.UnitOperatorNodes | src/main.rs:99-132 | a unit holds exactly one operator node per bottom attachment |
| DiagramProps.UnitsStmtsLength | src/main.rs:97-133 | the unit loop adds, per unit, two statements for a top, three per bottom attachment and one terminal |
| DiagramProps.UnitsOperatorNodes | src/main.rs:97-133 | the unit loop adds one operator node per bottom attachment of the units it has passed |
| DiagramProps.UnitsStmtsBlock | src/main.rs:97-133 | unit i's statements sit between the sizes of the blocks of units before i and up to i |
| DiagramProps.SpineOfGraph | src/main.rs:138-168 | when h is the last Pred unit, the build succeeds and its third-last statement is the attribute-less 13-vertex chain: five Top layers, pos+h, h, `<pos>Bot`, five Bot layers in mirrored order |
| DiagramProps.GraphTail | src/main.rs:167-192 | a built graph ends with the spine through the head, the "phons" subgraph and the "all_pos" subgraph, in that order |
| DiagramProps.PhonsAlignment | src/main.rs:171-177 | the "phons" subgraph is rank=same with an invisible chain over the terminals 0..n-1 in input order, one per unit, all distinct |
| DiagramProps.PosNodesAt | src/main.rs:187-188 | the collected category nodes number the units with a top, and unit k's sits after those of earlier units |
| DiagramProps.AllPosAlignment | src/main.rs:186-192 | the "all_pos" subgraph is rank=same and holds one bare node pos+k per unit with a top, in strictly increasing input order |
| DiagramProps.OperatorNodeCount | src/main.rs:116-125 | the whole graph holds exactly one operator node per bottom attachment of the input |
| DiagramProps.PosNodeNamesCanCollide | src/main.rs:113 | pos "NP1" at index 1 and pos "NP" at index 11 both give the category node name "NP11" |
| DiagramProps.PosNodeNamesDistinct | src/main.rs:113 | when neither pos ends in a digit, two category node names are equal iff pos and index are |
| Sample.SampleSpine | src/main.rs:203-270 | the sample T1 builds with unit 4 as head, and its spine runs through V4, 4 and VBot |
| Sample.SampleSize | src/main.rs:203-270 | the graph of T1 has 37 statements |
| Sample.SampleOperatorNodes | src/main.rs:203-270 | the graph of T1 has five operator nodes |
| Sample.SampleAllPos | src/main.rs:203-270 | the category nodes aligned in T1's graph are NP1 and V4, in that order |

## Left out

- JSON decoding through serde (the `Deserialize` derives and `serde_json::from_str`). The model takes the decoded `Vec<Phon>` as input.
- Printing the graph as DOT text and writing it to standard output (src/main.rs:194-195). This is I/O; `MakeGraph` ends with the graph value.
- `untyped_example`, `draw_stuff` (which calls the external graphviz renderer to write `test.svg`) and `main`. They are demo and console plumbing.
- The internals of graphviz_rust. Its macros are replaced by the constructors in `Dot`. `esc s` becomes an escaped identifier holding `s` between double quotes. A two-vertex `edge!` is modelled as a two-element chain, which prints the same.
- The panic of `expect` at src/main.rs:148 becomes the error result `MissingHead`. The `unwrap` at src/main.rs:149 cannot fail, because `pred_index` only ever names a unit with a top.
- `usize` indices are unbounded naturals. An index overflow would need more units than memory can hold.
