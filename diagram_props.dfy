/** What the graph built by `make_graph` contains: where each unit's
    statements sit, what they are, the central spine, the two alignment
    subgraphs, and how node names behave. */
module DiagramProps {
  import opened Wrappers
  import opened Strings
  import opened Dot
  import opened Records
  import opened Diagram

  // ---------------------------------------------------------------------
  // Counting

  /** Number of bottom attachments of a unit. */
  function BotCount(p: Phon): nat {
    if p.bot.Some? then |p.bot.value| else 0
  }

  /** Number of statements the unit loop adds for one unit. */
  function UnitSize(p: Phon): nat {
    (if p.top.Some? then 2 else 0) + 3 * BotCount(p) + 1
  }

  /** Number of statements the unit loop adds for the first n units. */
  function UnitsSize(phons: seq<Phon>, n: nat): nat
    requires n <= |phons|
  {
    if n == 0 then 0 else UnitsSize(phons, n - 1) + UnitSize(phons[n - 1])
  }

  /** Number of bottom attachments over the first n units. */
  function TotalBots(phons: seq<Phon>, n: nat): nat
    requires n <= |phons|
  {
    if n == 0 then 0 else TotalBots(phons, n - 1) + BotCount(phons[n - 1])
  }

  /** Number of units among the first n that have a top attachment. */
  function TopCount(phons: seq<Phon>, n: nat): nat
    requires n <= |phons|
  {
    if n == 0 then 0 else TopCount(phons, n - 1) + (if phons[n - 1].top.Some? then 1 else 0)
  }

  /** An operator node: a node whose only attribute is a plain label. No other
      node of the graph has that shape. */
  predicate IsOperatorNode(s: Stmt) {
    s.Node? && |s.attributes| == 1 && s.attributes[0].key == "label" && s.attributes[0].value.Plain?
  }

  /** Number of operator nodes among the first k statements. */
  function CountPrefix(stmts: seq<Stmt>, k: nat): nat
    requires k <= |stmts|
  {
    if k == 0 then 0 else CountPrefix(stmts, k - 1) + (if IsOperatorNode(stmts[k - 1]) then 1 else 0)
  }

  function CountOperatorNodes(stmts: seq<Stmt>): nat {
    CountPrefix(stmts, |stmts|)
  }

  /** Appending does not change the count of a prefix of the left part. */
  lemma {:induction false} CountPrefixAppendLeft(a: seq<Stmt>, b: seq<Stmt>, k: nat)
    requires k <= |a|
    ensures CountPrefix(a + b, k) == CountPrefix(a, k)
  {
    if k > 0 {
      CountPrefixAppendLeft(a, b, k - 1);
    }
  }

  /** Past the left part, the count goes on with the right part's count. */
  lemma {:induction false} CountPrefixAppendRight(a: seq<Stmt>, b: seq<Stmt>, k: nat)
    requires k <= |b|
    ensures CountPrefix(a + b, |a| + k) == CountPrefix(a, |a|) + CountPrefix(b, k)
  {
    if k == 0 {
      CountPrefixAppendLeft(a, b, |a|);
    } else {
      CountPrefixAppendRight(a, b, k - 1);
    }
  }

  lemma {:induction false} CountOperatorNodesAppend(a: seq<Stmt>, b: seq<Stmt>)
    ensures CountOperatorNodes(a + b) == CountOperatorNodes(a) + CountOperatorNodes(b)
  {
    CountPrefixAppendRight(a, b, |b|);
  }

  lemma {:induction false} NoOperatorNodes(stmts: seq<Stmt>)
    requires forall k :: 0 <= k < |stmts| ==> !IsOperatorNode(stmts[k])
    ensures CountOperatorNodes(stmts) == 0
  {
    NoOperatorNodesPrefix(stmts, |stmts|);
  }

  lemma {:induction false} NoOperatorNodesPrefix(stmts: seq<Stmt>, k: nat)
    requires k <= |stmts|
    requires forall k :: 0 <= k < |stmts| ==> !IsOperatorNode(stmts[k])
    ensures CountPrefix(stmts, k) == 0
  {
    if k > 0 {
      NoOperatorNodesPrefix(stmts, k - 1);
    }
  }

  // ---------------------------------------------------------------------
  // The statements of one bottom attachment and of one unit

  /** Each bottom attachment contributes exactly three statements. */
  lemma {:induction false} BotsStmtsLength(bots: seq<Bot>, index: nat, n: nat)
    requires n <= |bots|
    ensures |BotsStmts(bots, index, n)| == 3 * n
  {
    if n > 0 {
      BotsStmtsLength(bots, index, n - 1);
    }
  }

  /** Bottom attachment j owns statements 3j, 3j+1 and 3j+2 of the operator block. */
  lemma {:induction false} BotsStmtsAt(bots: seq<Bot>, index: nat, n: nat, j: nat)
    requires j < n <= |bots|
    ensures |BotsStmts(bots, index, n)| == 3 * n
    ensures BotsStmts(bots, index, n)[3 * j .. 3 * j + 3] == BotStmts(bots[j], index, j)
  {
    BotsStmtsLength(bots, index, n);
    BotsStmtsLength(bots, index, n - 1);
    if j < n - 1 {
      BotsStmtsAt(bots, index, n - 1, j);
    }
  }

  /** The count over a three-element sequence. */
  lemma {:induction false} CountOperatorNodesThree(x: Stmt, y: Stmt, z: Stmt)
    ensures CountOperatorNodes([x, y, z])
            == (if IsOperatorNode(x) then 1 else 0) + (if IsOperatorNode(y) then 1 else 0)
               + (if IsOperatorNode(z) then 1 else 0)
  {
    var s := [x, y, z];
    assert CountPrefix(s, 1) == if IsOperatorNode(x) then 1 else 0;
    assert CountPrefix(s, 2) == CountPrefix(s, 1) + if IsOperatorNode(y) then 1 else 0;
  }

  /** One bottom attachment adds exactly one operator node. */
  lemma {:induction false} BotStmtsOperatorNodes(b: Bot, index: nat, opIndex: nat)
    ensures CountOperatorNodes(BotStmts(b, index, opIndex)) == 1
  {
    var name := OpNodeName(b.op, index, opIndex);
    CountOperatorNodesThree(Node(name, [Attribute("label", Plain(b.op))]),
                            Edge([TerminalName(index), name], [Attribute("style", Plain("dotted"))]),
                            Edge([name, KindName(b.kind) + "Bot"], []));
  }

  /** The operator block holds exactly one operator node per bottom attachment. */
  lemma {:induction false} BotsStmtsOperatorNodes(bots: seq<Bot>, index: nat, n: nat)
    requires n <= |bots|
    ensures CountOperatorNodes(BotsStmts(bots, index, n)) == n
  {
    if n > 0 {
      BotsStmtsOperatorNodes(bots, index, n - 1);
      BotStmtsOperatorNodes(bots[n - 1], index, n - 1);
      CountOperatorNodesAppend(BotsStmts(bots, index, n - 1), BotStmts(bots[n - 1], index, n - 1));
    }
  }

  /** Every edge of the operator block joins exactly two vertices. */
  lemma {:induction false} BotsStmtsEdgesArePairs(bots: seq<Bot>, index: nat, n: nat)
    requires n <= |bots|
    ensures forall k :: 0 <= k < |BotsStmts(bots, index, n)| && BotsStmts(bots, index, n)[k].Edge?
              ==> |BotsStmts(bots, index, n)[k].chain| == 2
  {
    if n > 0 {
      BotsStmtsEdgesArePairs(bots, index, n - 1);
    }
  }

  /** Where the operator block of a unit starts within that unit's statements. */
  function TopSize(p: Phon): nat {
    if p.top.Some? then 2 else 0
  }

  lemma {:induction false} UnitStmtsLength(p: Phon, index: nat)
    ensures |UnitStmts(p, index)| == UnitSize(p)
  {
    if p.bot.Some? {
      BotsStmtsLength(p.bot.value, index, |p.bot.value|);
    }
  }

  /** A unit whose top kind is not Pred adds, first, exactly one three-vertex
      edge without attributes: unit -> category node -> `<Kind>Top`; no other
      unit adds a three-vertex edge. */
  lemma {:induction false} TopEdgeOfUnit(p: Phon, index: nat)
    ensures forall k :: 0 <= k < |UnitStmts(p, index)| ==>
              (UnitStmts(p, index)[k].Edge? && |UnitStmts(p, index)[k].chain| == 3
               <==> k == 0 && p.top.Some? && p.top.value.kind != Pred)
    ensures p.top.Some? && p.top.value.kind != Pred ==>
              UnitStmts(p, index)[0]
              == Edge([TerminalName(index), PosNodeName(p.top.value.pos, index),
                       KindName(p.top.value.kind) + "Top"], [])
  {
    var u := UnitStmts(p, index);
    var tops := TopPart(p, index);
    var ops := BotPart(p, index);
    assert u == tops + ops + [TerminalNode(p, index)];
    if p.bot.Some? {
      BotsStmtsEdgesArePairs(p.bot.value, index, |p.bot.value|);
    }
    forall k | 0 <= k < |u|
      ensures u[k].Edge? && |u[k].chain| == 3 <==> k == 0 && p.top.Some? && p.top.value.kind != Pred
    {
      if k < |tops| {
        assert u[k] == tops[k];
      } else if k < |tops| + |ops| {
        assert u[k] == ops[k - |tops|];
      } else {
        assert u[k] == TerminalNode(p, index);
      }
    }
  }

  /** A unit with a top attachment adds its category node second, named pos
      followed by the index, labelled with pos, in group main exactly when its
      kind is Pred; a head unit first adds a `<pos>Bot` node in group main. */
  lemma {:induction false} CategoryNodeOfUnit(p: Phon, index: nat)
    requires p.top.Some?
    ensures |UnitStmts(p, index)| >= 3
    ensures UnitStmts(p, index)[1].Node?
    ensures UnitStmts(p, index)[1].id == PosNodeName(p.top.value.pos, index)
    ensures UnitStmts(p, index)[1].attributes[0] == Attribute("label", Esc(p.top.value.pos))
    ensures MainGroup in UnitStmts(p, index)[1].attributes <==> p.top.value.kind == Pred
    ensures p.top.value.kind == Pred ==>
              UnitStmts(p, index)[0]
              == Node(p.top.value.pos + "Bot", [Attribute("label", Plain(p.top.value.pos)), MainGroup])
  {
    UnitStmtsLength(p, index);
    var u := UnitStmts(p, index);
    var tops := TopStmts(p.top.value, index);
    assert u[..2] == tops;
    assert u[1] == tops[1];
  }

  /** Bottom attachment j of a unit adds, in this order, the operator node
      labelled with its operator, a dotted edge from the unit's terminal to it,
      and an attribute-less edge from it to `<Kind>Bot`. */
  lemma {:induction false} OperatorsOfUnit(p: Phon, index: nat, j: nat)
    requires p.bot.Some? && j < |p.bot.value|
    ensures TopSize(p) + 3 * j + 3 <= |UnitStmts(p, index)|
    ensures var b := p.bot.value[j];
            var name := OpNodeName(b.op, index, j);
            UnitStmts(p, index)[TopSize(p) + 3 * j .. TopSize(p) + 3 * j + 3]
            == [ Node(name, [Attribute("label", Plain(b.op))]),
                 Edge([TerminalName(index), name], [Attribute("style", Plain("dotted"))]),
                 Edge([name, KindName(b.kind) + "Bot"], []) ]
  {
    var bots := p.bot.value;
    BotsStmtsAt(bots, index, |bots|, j);
    var tops := TopPart(p, index);
    var ops := BotsStmts(bots, index, |bots|);
    assert |tops| == TopSize(p);
    SliceOfMiddle(tops, ops, [TerminalNode(p, index)], 3 * j, 3 * j + 3);
  }

  /** A unit's last statement is its terminal node, named by its index and
      labelled with its surface string; it is in group main exactly when the
      unit is a head. */
  lemma {:induction false} TerminalOfUnit(p: Phon, index: nat)
    ensures |UnitStmts(p, index)| >= 1
    ensures var t := UnitStmts(p, index)[|UnitStmts(p, index)| - 1];
            t.Node? && t.id == TerminalName(index)
            && t.attributes[0] == Attribute("label", Esc(p.phon))
            && (MainGroup in t.attributes <==> IsPredUnit(p))
  {
  }

  /** One unit holds one operator node per bottom attachment and no other. */
  lemma {:induction false} UnitOperatorNodes(p: Phon, index: nat)
    ensures CountOperatorNodes(UnitStmts(p, index)) == BotCount(p)
  {
    var tops := TopPart(p, index);
    var ops := BotPart(p, index);
    var term := [TerminalNode(p, index)];
    CountOperatorNodesAppend(tops + ops, term);
    CountOperatorNodesAppend(tops, ops);
    NoOperatorNodes(tops);
    NoOperatorNodes(term);
    if p.bot.Some? {
      BotsStmtsOperatorNodes(p.bot.value, index, |p.bot.value|);
    }
  }

  // ---------------------------------------------------------------------
  // All units

  lemma {:induction false} UnitsStmtsLength(phons: seq<Phon>, n: nat)
    requires n <= |phons|
    ensures |UnitsStmts(phons, n)| == UnitsSize(phons, n)
  {
    if n > 0 {
      UnitsStmtsLength(phons, n - 1);
      UnitsStmtsLengthStep(phons, n);
    }
  }

  lemma {:induction false} UnitsStmtsLengthStep(phons: seq<Phon>, n: nat)
    requires 0 < n <= |phons|
    requires |UnitsStmts(phons, n - 1)| == UnitsSize(phons, n - 1)
    ensures |UnitsStmts(phons, n)| == UnitsSize(phons, n)
  {
    var u := UnitStmts(phons[n - 1], n - 1);
    UnitStmtsLength(phons[n - 1], n - 1);
    assert |UnitsStmts(phons, n)| == |UnitsStmts(phons, n - 1)| + |u|;
  }

  lemma {:induction false} UnitsStmtsPrefix(phons: seq<Phon>, n: nat, m: nat)
    requires n <= m <= |phons|
    ensures |UnitsStmts(phons, n)| <= |UnitsStmts(phons, m)|
    ensures UnitsStmts(phons, m)[..|UnitsStmts(phons, n)|] == UnitsStmts(phons, n)
    decreases m
  {
    if n < m {
      UnitsStmtsPrefix(phons, n, m - 1);
      assert UnitsStmts(phons, m)[..|UnitsStmts(phons, m - 1)|] == UnitsStmts(phons, m - 1);
    }
  }

  /** The statements of unit i form one contiguous block, after those of all
      earlier units. */
  lemma {:induction false} UnitsStmtsBlock(phons: seq<Phon>, i: nat)
    requires i < |phons|
    ensures UnitsSize(phons, i + 1) <= |UnitsStmts(phons, |phons|)|
    ensures UnitsStmts(phons, |phons|)[UnitsSize(phons, i) .. UnitsSize(phons, i + 1)]
            == UnitStmts(phons[i], i)
  {
    UnitsStmtsPrefix(phons, i + 1, |phons|);
    UnitsStmtsLength(phons, i);
    UnitsStmtsLength(phons, i + 1);
    var all := UnitsStmts(phons, |phons|);
    assert all[..UnitsSize(phons, i + 1)] == UnitsStmts(phons, i) + UnitStmts(phons[i], i);
  }

  lemma {:induction false} UnitsOperatorNodes(phons: seq<Phon>, n: nat)
    requires n <= |phons|
    ensures CountOperatorNodes(UnitsStmts(phons, n)) == TotalBots(phons, n)
  {
    if n > 0 {
      UnitsOperatorNodes(phons, n - 1);
      UnitsOperatorNodesStep(phons, n);
    }
  }

  lemma {:induction false} UnitsOperatorNodesStep(phons: seq<Phon>, n: nat)
    requires 0 < n <= |phons|
    requires CountOperatorNodes(UnitsStmts(phons, n - 1)) == TotalBots(phons, n - 1)
    ensures CountOperatorNodes(UnitsStmts(phons, n)) == TotalBots(phons, n)
  {
    UnitOperatorNodes(phons[n - 1], n - 1);
    CountOperatorNodesAppend(UnitsStmts(phons, n - 1), UnitStmts(phons[n - 1], n - 1));
  }

  // ---------------------------------------------------------------------
  // The whole graph

  /** The head index `make_graph` uses: the last unit whose top kind is Pred. */
  function HeadIndex(phons: seq<Phon>): nat
    requires BuildGraph(phons).Success?
  {
    LastPred(phons, |phons|).value
  }

  /** Helper: the statement list of a built graph, in terms of HeadIndex. */
  lemma {:induction false} BuildGraphStmts(phons: seq<Phon>)
    requires BuildGraph(phons).Success?
    ensures HeadIndex(phons) < |phons| && IsPredUnit(phons[HeadIndex(phons)])
    ensures BuildGraph(phons).value
            == Graph("id", false,
                     Scaffold() + UnitsStmts(phons, |phons|)
                     + [ Spine(phons[HeadIndex(phons)].top.value.pos, HeadIndex(phons)),
                         PhonsSubgraph(|phons|),
                         AllPosSubgraph(phons) ])
  {
  }

  /** Building fails exactly when no unit is a head. */
  lemma {:induction false} BuildFailsIffNoHead(phons: seq<Phon>)
    ensures BuildGraph(phons) == Failure(MissingHead) <==> forall k :: 0 <= k < |phons| ==> !IsPredUnit(phons[k])
    ensures BuildGraph(phons).Success? <==> exists k :: 0 <= k < |phons| && IsPredUnit(phons[k])
  {
  }

  /** The statements of unit i, cut out of a statement list at the place the
      graph layout puts them (empty when the list is too short). */
  function UnitBlock(stmts: seq<Stmt>, phons: seq<Phon>, i: nat): seq<Stmt>
    requires i < |phons|
  {
    var lo := 10 + UnitsSize(phons, i);
    if lo + UnitSize(phons[i]) <= |stmts| then stmts[lo .. lo + UnitSize(phons[i])] else []
  }

  /** The graph is an undirected graph named "id" that starts with the ten
      backbone nodes, continues with each unit's block in input order, and ends
      with three more statements. */
  lemma {:induction false} GraphLayout(phons: seq<Phon>)
    requires BuildGraph(phons).Success?
    ensures BuildGraph(phons).value.id == "id" && !BuildGraph(phons).value.directed
    ensures |BuildGraph(phons).value.stmts| == 10 + UnitsSize(phons, |phons|) + 3
    ensures BuildGraph(phons).value.stmts[..10] == Scaffold()
    ensures forall i :: 0 <= i < |phons| ==>
              UnitBlock(BuildGraph(phons).value.stmts, phons, i) == UnitStmts(phons[i], i)
  {
    BuildGraphStmts(phons);
    var stmts := BuildGraph(phons).value.stmts;
    var h := HeadIndex(phons);
    var tail := [Spine(phons[h].top.value.pos, h), PhonsSubgraph(|phons|), AllPosSubgraph(phons)];
    UnitsStmtsLength(phons, |phons|);
    forall i | 0 <= i < |phons|
      ensures UnitBlock(stmts, phons, i) == UnitStmts(phons[i], i)
    {
      UnitBlockAfterScaffold(Scaffold(), phons, tail, i);
    }
  }

  lemma {:induction false} SliceOfMiddle(a: seq<Stmt>, b: seq<Stmt>, c: seq<Stmt>, lo: nat, hi: nat)
    requires lo <= hi <= |b|
    ensures (a + b + c)[|a| + lo .. |a| + hi] == b[lo .. hi]
  {
  }

  lemma {:induction false} UnitBlockIsSlice(stmts: seq<Stmt>, phons: seq<Phon>, i: nat)
    requires i < |phons| && 10 + UnitsSize(phons, i) + UnitSize(phons[i]) <= |stmts|
    ensures UnitBlock(stmts, phons, i)
            == stmts[10 + UnitsSize(phons, i) .. 10 + UnitsSize(phons, i) + UnitSize(phons[i])]
  {
  }

  lemma {:induction false} UnitBlockAfterScaffold(head: seq<Stmt>, phons: seq<Phon>, tail: seq<Stmt>, i: nat)
    requires |head| == 10 && i < |phons|
    ensures UnitBlock(head + UnitsStmts(phons, |phons|) + tail, phons, i) == UnitStmts(phons[i], i)
  {
    var units := UnitsStmts(phons, |phons|);
    UnitsStmtsBlock(phons, i);
    var lo := UnitsSize(phons, i);
    var hi := UnitsSize(phons, i + 1);
    assert hi == lo + UnitSize(phons[i]);
    SliceOfMiddle(head, units, tail, lo, hi);
    UnitBlockIsSlice(head + units + tail, phons, i);
  }

  /** The ten first statements are the backbone nodes: the five Top layers and
      the five Bot layers from Sentence down to Pred, each labelled with the
      name of its layer kind and in group main. */
  lemma {:induction false} ScaffoldLayers(m: nat)
    requires m < 10
    ensures var layer := [Sentence, Clause, Core, Nuc, Pred][if m < 5 then m else m - 5];
            Scaffold()[m]
            == Node(KindName(layer) + (if m < 5 then "Top" else "Bot"),
                    [Attribute("label", Plain(KindName(layer))), MainGroup])
  {
  }

  /** The edge target `<Kind>Top` (resp. `<Kind>Bot`) is one of the backbone
      nodes exactly when the kind is not a periphery kind: CoreP and ClauseP
      point to nodes that nothing else creates. */
  lemma {:induction false} LayerTargetInScaffold(k: Kind)
    ensures (exists m :: 0 <= m < 10 && Scaffold()[m].id == KindName(k) + "Top") <==> !IsPeriphery(k)
    ensures (exists m :: 0 <= m < 10 && Scaffold()[m].id == KindName(k) + "Bot") <==> !IsPeriphery(k)
  {
    var s := Scaffold();
    if IsPeriphery(k) {
      forall m | 0 <= m < 10
        ensures s[m].id != KindName(k) + "Top" && s[m].id != KindName(k) + "Bot"
      {
        PeripheryNotLayer(k, m);
      }
    } else {
      var i := LayerOfKind(k);
      assert s[i].id == KindName(k) + "Top" && s[i + 5].id == KindName(k) + "Bot";
    }
  }

  /** A layer kind's Top node is backbone node i and its Bot node is i + 5. */
  lemma {:induction false} LayerOfKind(k: Kind) returns (i: nat)
    requires !IsPeriphery(k)
    ensures i < 5
    ensures Scaffold()[i].id == KindName(k) + "Top" && Scaffold()[i + 5].id == KindName(k) + "Bot"
  {
    match k
    case Sentence => i := 0;
    case Clause => i := 1;
    case Core => i := 2;
    case Nuc => i := 3;
    case Pred => i := 4;
  }

  /** A periphery kind's name ends in 'P', which no backbone name has at
      that position. */
  lemma {:induction false} PeripheryNotLayer(k: Kind, m: nat)
    requires IsPeriphery(k) && m < 10
    ensures Scaffold()[m].id != KindName(k) + "Top" && Scaffold()[m].id != KindName(k) + "Bot"
  {
    var n := KindName(k);
    var id := Scaffold()[m].id;
    assert n[|n| - 1] == 'P';
    assert |id| < |n| + 3 || id[|n| - 1] != 'P';
  }

  /** The central spine: when unit h is the last head, the third statement
      from the end is an attribute-less edge over 13 vertices: the five Top
      layers top down, h's category node, h's terminal, `<pos>Bot`, and the
      five Bot layers bottom up. */
  lemma {:induction false} SpineOfGraph(phons: seq<Phon>, h: nat)
    requires h < |phons| && IsPredUnit(phons[h])
    requires forall k :: h < k < |phons| ==> !IsPredUnit(phons[k])
    ensures BuildGraph(phons).Success? && HeadIndex(phons) == h
    ensures |BuildGraph(phons).value.stmts| >= 13
    ensures BuildGraph(phons).value.stmts[|BuildGraph(phons).value.stmts| - 3]
            == Edge(["SentenceTop", "ClauseTop", "CoreTop", "NucTop", "PredTop",
                     PosNodeName(phons[h].top.value.pos, h), TerminalName(h),
                     phons[h].top.value.pos + "Bot",
                     "PredBot", "NucBot", "CoreBot", "ClauseBot", "SentenceBot"], [])
  {
    LastPredIsLastHead(phons, h);
    GraphLength(phons);
    GraphTail(phons);
    SpineChain(phons[h].top.value.pos, h);
  }

  /** The last head is the value `pred_index` ends with. */
  lemma {:induction false} LastPredIsLastHead(phons: seq<Phon>, h: nat)
    requires h < |phons| && IsPredUnit(phons[h])
    requires forall k :: h < k < |phons| ==> !IsPredUnit(phons[k])
    ensures LastPred(phons, |phons|) == Some(h)
  {
    var r := LastPred(phons, |phons|);
    assert r.Some?;
  }

  /** The spine's vertices written out. */
  lemma {:induction false} SpineChain(pos: string, h: nat)
    ensures Spine(pos, h)
            == Edge(["SentenceTop", "ClauseTop", "CoreTop", "NucTop", "PredTop",
                     PosNodeName(pos, h), TerminalName(h), pos + "Bot",
                     "PredBot", "NucBot", "CoreBot", "ClauseBot", "SentenceBot"], [])
  {
  }

  /** The last three elements of a sequence that ends with three known ones. */
  lemma {:induction false} LastThree(a: seq<Stmt>, x: Stmt, y: Stmt, z: Stmt, s: seq<Stmt>)
    requires s == a + [x, y, z]
    ensures |s| == |a| + 3
    ensures s[|s| - 3] == x && s[|s| - 2] == y && s[|s| - 1] == z
  {
  }

  /** A built graph holds at least the backbone and the three closing statements. */
  lemma {:induction false} GraphLength(phons: seq<Phon>)
    requires BuildGraph(phons).Success?
    ensures |BuildGraph(phons).value.stmts| >= 13
  {
    BuildGraphStmts(phons);
  }

  /** A built graph ends with the spine and the two alignment subgraphs. */
  lemma {:induction false} GraphTail(phons: seq<Phon>)
    requires BuildGraph(phons).Success?
    ensures var stmts := BuildGraph(phons).value.stmts;
            |stmts| >= 3
            && stmts[|stmts| - 3] == Spine(phons[HeadIndex(phons)].top.value.pos, HeadIndex(phons))
            && stmts[|stmts| - 2] == PhonsSubgraph(|phons|)
            && stmts[|stmts| - 1] == AllPosSubgraph(phons)
  {
    BuildGraphStmts(phons);
    var h := HeadIndex(phons);
    LastThree(Scaffold() + UnitsStmts(phons, |phons|), Spine(phons[h].top.value.pos, h),
              PhonsSubgraph(|phons|), AllPosSubgraph(phons), BuildGraph(phons).value.stmts);
  }

  /** The "phons" subgraph is rank=same and holds an invisible chain over
      every terminal, one per unit, in input order, no two alike. */
  lemma {:induction false} PhonsAlignment(phons: seq<Phon>)
    requires BuildGraph(phons).Success?
    ensures |BuildGraph(phons).value.stmts| >= 2
    ensures var sub := BuildGraph(phons).value.stmts[|BuildGraph(phons).value.stmts| - 2];
            sub.Subgraph? && sub.id == "phons" && |sub.stmts| == 2
            && sub.stmts[0] == Attr(Attribute("rank", Plain("same")))
            && sub.stmts[1].Edge?
            && sub.stmts[1].attributes == [Attribute("style", Plain("invis"))]
            && |sub.stmts[1].chain| == |phons|
            && (forall k :: 0 <= k < |phons| ==> sub.stmts[1].chain[k] == TerminalName(k))
            && (forall a, b :: 0 <= a < b < |phons| ==> sub.stmts[1].chain[a] != sub.stmts[1].chain[b])
  {
    BuildGraphStmts(phons);
    var chain := PhonsSubgraph(|phons|).stmts[1].chain;
    forall a, b | 0 <= a < b < |phons|
      ensures chain[a] != chain[b]
    {
      NatToStringInjective(a, b);
    }
  }

  /** Category nodes of the first n units appear in input order: unit k's is
      at position TopCount(phons, k), and there is one per unit with a top. */
  lemma {:induction false} PosNodesAt(phons: seq<Phon>, n: nat)
    requires n <= |phons|
    ensures |PosNodes(phons, n)| == TopCount(phons, n)
    ensures forall k :: 0 <= k < n && phons[k].top.Some? ==>
              TopCount(phons, k) < |PosNodes(phons, n)|
              && PosNodes(phons, n)[TopCount(phons, k)] == Node(PosNodeName(phons[k].top.value.pos, k), [])
  {
    if n > 0 {
      PosNodesAt(phons, n - 1);
    }
  }

  /** TopCount strictly increases past every unit that has a top. */
  lemma {:induction false} TopCountIncreases(phons: seq<Phon>, k: nat, m: nat)
    requires k < m <= |phons| && phons[k].top.Some?
    ensures TopCount(phons, k) < TopCount(phons, m)
    decreases m
  {
    if m > k + 1 {
      TopCountIncreases(phons, k, m - 1);
    }
  }

  /** The "all_pos" subgraph is rank=same and holds one bare category node
      per unit that has a top, in input order. */
  lemma {:induction false} AllPosAlignment(phons: seq<Phon>)
    requires BuildGraph(phons).Success?
    ensures |BuildGraph(phons).value.stmts| >= 1
    ensures var sub := BuildGraph(phons).value.stmts[|BuildGraph(phons).value.stmts| - 1];
            sub.Subgraph? && sub.id == "all_pos"
            && |sub.stmts| == 1 + TopCount(phons, |phons|)
            && sub.stmts[0] == Attr(Attribute("rank", Plain("same")))
            && (forall k :: 0 <= k < |phons| && phons[k].top.Some? ==>
                  TopCount(phons, k) < TopCount(phons, |phons|)
                  && sub.stmts[1 + TopCount(phons, k)] == Node(PosNodeName(phons[k].top.value.pos, k), []))
            && (forall k, m :: 0 <= k < m < |phons| && phons[k].top.Some? ==>
                  TopCount(phons, k) < TopCount(phons, m))
  {
    BuildGraphStmts(phons);
    PosNodesAt(phons, |phons|);
    forall k, m | 0 <= k < m < |phons| && phons[k].top.Some?
      ensures TopCount(phons, k) < TopCount(phons, m)
    {
      TopCountIncreases(phons, k, m);
    }
  }

  /** The graph holds exactly one operator node per bottom attachment. */
  lemma {:induction false} OperatorNodeCount(phons: seq<Phon>)
    requires BuildGraph(phons).Success?
    ensures CountOperatorNodes(BuildGraph(phons).value.stmts) == TotalBots(phons, |phons|)
  {
    BuildGraphStmts(phons);
    var units := UnitsStmts(phons, |phons|);
    var h := HeadIndex(phons);
    var spine, phonsSub, allPos := Spine(phons[h].top.value.pos, h), PhonsSubgraph(|phons|), AllPosSubgraph(phons);
    UnitsOperatorNodes(phons, |phons|);
    CountOperatorNodesAppend(Scaffold() + units, [spine, phonsSub, allPos]);
    CountOperatorNodesAppend(Scaffold(), units);
    ScaffoldOperatorNodes();
    CountOperatorNodesThree(spine, phonsSub, allPos);
  }

  /** The backbone holds no operator node: every backbone node has two attributes. */
  lemma {:induction false} ScaffoldOperatorNodes()
    ensures CountOperatorNodes(Scaffold()) == 0
  {
    NoOperatorNodes(Scaffold());
  }

  // ---------------------------------------------------------------------
  // Node names

  /** Names are plain concatenations, so two category nodes can share a name:
      pos "NP1" at index 1 and pos "NP" at index 11 both give "NP11". */
  lemma {:induction false} PosNodeNamesCanCollide()
    ensures PosNodeName("NP1", 1) == PosNodeName("NP", 11) == "NP11"
  {
    assert NatToString(11) == NatToString(1) + [DigitChar(1)];
  }

  predicate EndsInNonDigit(s: string) {
    |s| == 0 || !IsDigit(s[|s| - 1])
  }

  /** When no pos ends in a digit, a category node's name determines its pos
      and its index. */
  lemma {:induction false} PosNodeNamesDistinct(pos1: string, i1: nat, pos2: string, i2: nat)
    requires EndsInNonDigit(pos1) && EndsInNonDigit(pos2)
    ensures PosNodeName(pos1, i1) == PosNodeName(pos2, i2) <==> pos1 == pos2 && i1 == i2
  {
    var s1, s2 := NatToString(i1), NatToString(i2);
    NatToStringCanonical(i1);
    NatToStringCanonical(i2);
    if pos1 + s1 == pos2 + s2 {
      assert pos1 == (pos1 + s1)[..|pos1|];
      assert pos2 == (pos2 + s2)[..|pos2|];
      assert s1 == (pos1 + s1)[|pos1|..];
      assert s2 == (pos2 + s2)[|pos2|..];
      NatToStringInjective(i1, i2);
    }
  }
}
