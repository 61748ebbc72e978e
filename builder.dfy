/** `make_graph`: one pass over the units that appends statements to the graph,
    then the central spine and the two alignment subgraphs. */
module Builder {
  import opened Wrappers
  import opened Dot
  import opened Records
  import opened Diagram

  /** The inner loop over the bottom attachments of unit `index`. */
  method AddOperators(stmts: seq<Stmt>, b: seq<Bot>, index: nat) returns (stmts': seq<Stmt>)
    ensures stmts' == stmts + BotsStmts(b, index, |b|)
  {
    stmts' := stmts;
    for opIndex := 0 to |b|
      invariant stmts' == stmts + BotsStmts(b, index, opIndex)
    {
      var proj := b[opIndex];
      var name := OpNodeName(proj.op, index, opIndex);
      stmts' := stmts' + [Node(name, [Attribute("label", Plain(proj.op))])];
      stmts' := stmts' + [Edge([TerminalName(index), name], [Attribute("style", Plain("dotted"))])];
      stmts' := stmts' + [Edge([name, KindName(proj.kind) + "Bot"], [])];
    }
  }

  /** One pass of the unit loop: appends the statements for unit `index` and
      updates `pred_index` when the unit is a head. */
  method AddUnit(stmts: seq<Stmt>, predIndex: Option<nat>, p: Phon, index: nat)
    returns (stmts': seq<Stmt>, predIndex': Option<nat>)
    ensures stmts' == stmts + UnitStmts(p, index)
    ensures predIndex' == if IsPredUnit(p) then Some(index) else predIndex
  {
    stmts', predIndex' := stmts, predIndex;
    var addMain := false;
    if p.top.Some? {
      var t := p.top.value;
      var a := [Attribute("label", Esc(t.pos))];
      if t.kind == Pred {
        predIndex' := Some(index);
        a := a + [MainGroup];
        addMain := true;
        stmts' := stmts' + [Node(t.pos + "Bot", [Attribute("label", Plain(t.pos)), MainGroup])];
      } else {
        stmts' := stmts' + [MakeEdge(t, index)];
      }
      assert a == TopStmts(t, index)[1].attributes;
      stmts' := stmts' + [Node(PosNodeName(t.pos, index), a)];
      assert stmts' == stmts + TopStmts(t, index);
    }
    ghost var afterTop := stmts';
    assert afterTop == stmts + TopPart(p, index);
    if p.bot.Some? {
      stmts' := AddOperators(stmts', p.bot.value, index);
    }
    ghost var afterBots := stmts';
    assert afterBots == afterTop + BotPart(p, index);
    var a := [Attribute("label", Esc(p.phon))];
    if addMain {
      a := a + [MainGroup];
    }
    assert a == TerminalNode(p, index).attributes;
    stmts' := stmts' + [Node(TerminalName(index), a)];
    AppendAssoc3(stmts, TopPart(p, index), BotPart(p, index), [TerminalNode(p, index)]);
  }

  method MakeGraph(phons: seq<Phon>) returns (r: Result<Graph, BuildError>)
    ensures r == BuildGraph(phons)
  {
    var stmts := Scaffold();

    // the last unit seen whose top kind is Pred
    var predIndex: Option<nat> := None;

    for index := 0 to |phons|
      invariant stmts == Scaffold() + UnitsStmts(phons, index)
      invariant predIndex == LastPred(phons, index)
    {
      stmts, predIndex := AddUnit(stmts, predIndex, phons[index], index);
      AppendAssoc(Scaffold(), UnitsStmts(phons, index), UnitStmts(phons[index], index));
    }

    if predIndex.None? {
      return Failure(MissingHead);
    }
    ghost var units := stmts;
    assert units == Scaffold() + UnitsStmts(phons, |phons|);
    var index := predIndex.value;
    var pos := phons[index].top.value.pos;
    var v := BuildSpine(pos, index);
    stmts := stmts + [Edge(v, [])];
    var phonsSub := BuildPhonsSubgraph(|phons|);
    stmts := stmts + [phonsSub];
    var posSub := BuildAllPosSubgraph(phons);
    stmts := stmts + [posSub];
    assert stmts == units + [Spine(pos, index), PhonsSubgraph(|phons|), AllPosSubgraph(phons)];
    r := Success(Graph("id", false, stmts));
  }

  /** The big vertical chain through the head unit `index` whose pos is `pos`. */
  method BuildSpine(pos: string, index: nat) returns (v: seq<string>)
    ensures Edge(v, []) == Spine(pos, index)
  {
    v := TopLayers;
    v := v + [PosNodeName(pos, index)];
    v := v + [TerminalName(index)];
    v := v + [pos + "Bot"];
    v := v + BotLayers;
  }

  /** The subgraph that puts the `numPhons` terminals on one rank: the
      terminal vertices are collected in index order, then chained invisibly. */
  method BuildPhonsSubgraph(numPhons: nat) returns (sub: Stmt)
    ensures sub == PhonsSubgraph(numPhons)
    ensures sub.Subgraph? && |sub.stmts| == 2 && sub.stmts[1].Edge?
    ensures |sub.stmts[1].chain| == numPhons
    ensures forall k :: 0 <= k < numPhons ==> sub.stmts[1].chain[k] == TerminalName(k)
  {
    var edges: seq<string> := [];
    for k := 0 to numPhons
      invariant edges == seq(k, j requires 0 <= j => TerminalName(j))
    {
      edges := edges + [TerminalName(k)];
    }
    var edgeStmt := Edge(edges, [Attribute("style", Plain("invis"))]);
    sub := Subgraph("phons", [Attr(Attribute("rank", Plain("same"))), edgeStmt]);
  }

  /** The subgraph that puts every category node on one rank: after the rank
      attribute, one bare node per unit that has a top, in input order. */
  method BuildAllPosSubgraph(phons: seq<Phon>) returns (sub: Stmt)
    ensures sub == AllPosSubgraph(phons)
  {
    var v := [Attr(Attribute("rank", Plain("same")))];
    for num := 0 to |phons|
      invariant v == [Attr(Attribute("rank", Plain("same")))] + PosNodes(phons, num)
    {
      var p := phons[num];
      if p.top.Some? {
        v := v + [Node(PosNodeName(p.top.value.pos, num), [])];
      }
    }
    sub := Subgraph("all_pos", v);
  }
}
