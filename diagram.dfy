/** The graph that `make_graph` builds, defined statement by statement as a
    function of the input units. Builder.MakeGraph is proved to produce exactly
    this graph; DiagramProps states what it contains. */
module Diagram {
  import opened Wrappers
  import opened Dot
  import opened Records

  const MainGroup: Attribute := Attribute("group", Plain("main"))

  /** One backbone layer node: labelled with its layer name, in group main. */
  function LayerNode(name: string, layer: string): Stmt {
    Node(name, [Attribute("label", Plain(layer)), MainGroup])
  }

  /** The ten backbone nodes the graph starts with. */
  function Scaffold(): seq<Stmt> {
    [ LayerNode("SentenceTop", "Sentence"),
      LayerNode("ClauseTop", "Clause"),
      LayerNode("CoreTop", "Core"),
      LayerNode("NucTop", "Nuc"),
      LayerNode("PredTop", "Pred"),
      LayerNode("SentenceBot", "Sentence"),
      LayerNode("ClauseBot", "Clause"),
      LayerNode("CoreBot", "Core"),
      LayerNode("NucBot", "Nuc"),
      LayerNode("PredBot", "Pred") ]
  }

  /** The upper layers, top down, and the lower layers, bottom up. */
  const TopLayers: seq<string> := ["SentenceTop", "ClauseTop", "CoreTop", "NucTop", "PredTop"]
  const BotLayers: seq<string> := ["PredBot", "NucBot", "CoreBot", "ClauseBot", "SentenceBot"]

  /** The statements for a unit's top attachment: for the head kind its
      `<pos>Bot` node, otherwise its chain into the backbone; then its category node. */
  function TopStmts(t: Top, index: nat): seq<Stmt> {
    if t.kind == Pred then
      [ Node(t.pos + "Bot", [Attribute("label", Plain(t.pos)), MainGroup]),
        Node(PosNodeName(t.pos, index), [Attribute("label", Esc(t.pos)), MainGroup]) ]
    else
      [ MakeEdge(t, index),
        Node(PosNodeName(t.pos, index), [Attribute("label", Esc(t.pos))]) ]
  }

  /** The three statements for bottom attachment `opIndex` of unit `index`. */
  function BotStmts(b: Bot, index: nat, opIndex: nat): seq<Stmt> {
    var name := OpNodeName(b.op, index, opIndex);
    [ Node(name, [Attribute("label", Plain(b.op))]),
      Edge([TerminalName(index), name], [Attribute("style", Plain("dotted"))]),
      Edge([name, KindName(b.kind) + "Bot"], []) ]
  }

  /** The statements for the first n bottom attachments of unit `index`. */
  function BotsStmts(bots: seq<Bot>, index: nat, n: nat): seq<Stmt>
    requires n <= |bots|
  {
    if n == 0 then [] else BotsStmts(bots, index, n - 1) + BotStmts(bots[n - 1], index, n - 1)
  }

  /** The terminal node of a unit; the head kind puts it into group main. */
  function TerminalNode(p: Phon, index: nat): Stmt {
    Node(TerminalName(index),
         [Attribute("label", Esc(p.phon))] + (if IsPredUnit(p) then [MainGroup] else []))
  }

  /** What a unit's top attachment adds, if it has one. */
  function TopPart(p: Phon, index: nat): seq<Stmt> {
    if p.top.Some? then TopStmts(p.top.value, index) else []
  }

  /** What a unit's bottom attachments add, if it has any. */
  function BotPart(p: Phon, index: nat): seq<Stmt> {
    if p.bot.Some? then BotsStmts(p.bot.value, index, |p.bot.value|) else []
  }

  /** Everything one pass of the unit loop adds for unit `index`. */
  function UnitStmts(p: Phon, index: nat): seq<Stmt> {
    TopPart(p, index) + BotPart(p, index) + [TerminalNode(p, index)]
  }

  lemma AppendAssoc(a: seq<Stmt>, b: seq<Stmt>, c: seq<Stmt>)
    ensures a + (b + c) == a + b + c
  {
  }

  lemma AppendAssoc3(s: seq<Stmt>, a: seq<Stmt>, b: seq<Stmt>, c: seq<Stmt>)
    ensures s + (a + b + c) == s + a + b + c
  {
  }

  /** Everything the unit loop adds for the first n units. */
  function UnitsStmts(phons: seq<Phon>, n: nat): seq<Stmt>
    requires n <= |phons|
  {
    if n == 0 then [] else UnitsStmts(phons, n - 1) + UnitStmts(phons[n - 1], n - 1)
  }

  /** The value of `pred_index` after the first n units: the last head among them. */
  function LastPred(phons: seq<Phon>, n: nat): (r: Option<nat>)
    requires n <= |phons|
    ensures r.None? <==> forall k :: 0 <= k < n ==> !IsPredUnit(phons[k])
    ensures r.Some? ==> r.value < n && IsPredUnit(phons[r.value])
    ensures r.Some? ==> forall k :: r.value < k < n ==> !IsPredUnit(phons[k])
  {
    if n == 0 then None
    else if IsPredUnit(phons[n - 1]) then Some(n - 1)
    else LastPred(phons, n - 1)
  }

  /** The central vertical chain through the head unit `head` with category `pos`. */
  function Spine(pos: string, head: nat): Stmt {
    Edge(TopLayers + [PosNodeName(pos, head), TerminalName(head), pos + "Bot"] + BotLayers, [])
  }

  /** The rank=same subgraph holding an invisible chain over the n terminals. */
  function PhonsSubgraph(n: nat): Stmt {
    Subgraph("phons", [ Attr(Attribute("rank", Plain("same"))),
                        Edge(seq(n, k requires 0 <= k => TerminalName(k)),
                             [Attribute("style", Plain("invis"))]) ])
  }

  /** The bare category nodes of the first n units that have a top attachment. */
  function PosNodes(phons: seq<Phon>, n: nat): seq<Stmt>
    requires n <= |phons|
  {
    if n == 0 then []
    else
      var p := phons[n - 1];
      PosNodes(phons, n - 1)
      + (if p.top.Some? then [Node(PosNodeName(p.top.value.pos, n - 1), [])] else [])
  }

  /** The rank=same subgraph aligning every category node. */
  function AllPosSubgraph(phons: seq<Phon>): Stmt {
    Subgraph("all_pos", [Attr(Attribute("rank", Plain("same")))] + PosNodes(phons, |phons|))
  }

  datatype BuildError = MissingHead

  /** The result of `make_graph`: it fails when no unit is a head. */
  function BuildGraph(phons: seq<Phon>): Result<Graph, BuildError> {
    match LastPred(phons, |phons|)
    case None => Failure(MissingHead)
    case Some(head) =>
      Success(Graph("id", false,
                    Scaffold() + UnitsStmts(phons, |phons|)
                    + [ Spine(phons[head].top.value.pos, head),
                        PhonsSubgraph(|phons|),
                        AllPosSubgraph(phons) ]))
  }
}
