/** The sample input T1 of the source ("Will they have to be leaving") and
    what the diagram builder makes of it. */
module Sample {
  import opened Wrappers
  import opened Dot
  import opened Records
  import opened Diagram
  import opened DiagramProps

  function T1(): seq<Phon> {
    [ Phon("Will", None, Some([Bot("IF", Clause), Bot("TNS", Clause)])),
      Phon("they", Some(Top("NP", Core)), None),
      Phon("have to", None, Some([Bot("MOD", Core)])),
      Phon("be", None, Some([Bot("ASP", Nuc)])),
      Phon("leaving", Some(Top("V", Pred)), Some([Bot("ASP", Nuc)])) ]
  }

  /** T1 builds; "leaving" (unit 4) is the head, so the spine, the third
      statement from the end, runs through V4, 4 and VBot. */
  lemma {:induction false} SampleSpine()
    ensures BuildGraph(T1()).Success?
    ensures HeadIndex(T1()) == 4
    ensures |BuildGraph(T1()).value.stmts| >= 13
    ensures BuildGraph(T1()).value.stmts[|BuildGraph(T1()).value.stmts| - 3]
            == Edge(["SentenceTop", "ClauseTop", "CoreTop", "NucTop", "PredTop",
                     "V4", "4", "VBot",
                     "PredBot", "NucBot", "CoreBot", "ClauseBot", "SentenceBot"], [])
  {
    var phons := T1();
    SpineOfGraph(phons, 4);
    assert phons[4].top.value.pos == "V";
    assert PosNodeName("V", 4) == "V4" && TerminalName(4) == "4" && "V" + "Bot" == "VBot";
  }

  /** T1's graph has 37 statements: the backbone, 24 unit statements and
      the closing three. */
  lemma {:induction false} SampleSize()
    ensures BuildGraph(T1()).Success?
    ensures |BuildGraph(T1()).value.stmts| == 37
  {
    var phons := T1();
    assert IsPredUnit(phons[4]);
    GraphLayout(phons);
    assert UnitsSize(phons, 5) == 24;
  }

  /** T1 has five bottom attachments, so its graph has five operator nodes. */
  lemma {:induction false} SampleOperatorNodes()
    ensures BuildGraph(T1()).Success?
    ensures CountOperatorNodes(BuildGraph(T1()).value.stmts) == 5
  {
    var phons := T1();
    assert IsPredUnit(phons[4]);
    OperatorNodeCount(phons);
    assert TotalBots(phons, 5) == 5;
  }

  /** The category nodes aligned in T1's graph are NP1 and V4. */
  lemma {:induction false} SampleAllPos()
    ensures BuildGraph(T1()).Success?
    ensures |BuildGraph(T1()).value.stmts| >= 1
    ensures BuildGraph(T1()).value.stmts[|BuildGraph(T1()).value.stmts| - 1]
            == Subgraph("all_pos", [ Attr(Attribute("rank", Plain("same"))),
                                     Node("NP1", []), Node("V4", []) ])
  {
    var phons := T1();
    assert IsPredUnit(phons[4]);
    GraphTail(phons);
    SamplePosNodes();
  }

  lemma {:induction false} SamplePosNodes()
    ensures PosNodes(T1(), 5) == [Node("NP1", []), Node("V4", [])]
  {
    var phons := T1();
    assert PosNodeName("V", 4) == "V4" && PosNodeName("NP", 1) == "NP1";
    assert PosNodes(phons, 1) == [];
    assert PosNodes(phons, 4) == [Node("NP1", [])];
  }
}
