/** The record model: the seven layer kinds and the per-unit records that the
    JSON input is decoded into. */
module Records {
  import opened Wrappers
  import opened Strings
  import opened Dot

  datatype Kind = Pred | Nuc | Core | CoreP | Clause | ClauseP | Sentence

  /** `Kind::to_string`: the variant's own name. */
  function KindName(k: Kind): string {
    match k
    case Pred => "Pred"
    case Nuc => "Nuc"
    case Core => "Core"
    case CoreP => "CoreP"
    case Clause => "Clause"
    case ClauseP => "ClauseP"
    case Sentence => "Sentence"
  }

  /** The periphery kinds, which have no backbone layer of their own. */
  predicate IsPeriphery(k: Kind) {
    k == CoreP || k == ClauseP
  }

  /** The category ("top") attachment of a unit. */
  datatype Top = Top(pos: string, kind: Kind)

  /** One operator ("bottom") attachment of a unit. */
  datatype Bot = Bot(op: string, kind: Kind)

  /** One unit of the input: its surface string and optional attachments. */
  datatype Phon = Phon(phon: string, top: Option<Top>, bot: Option<seq<Bot>>)

  /** The head unit is one whose top attachment has kind Pred. */
  predicate IsPredUnit(p: Phon) {
    p.top.Some? && p.top.value.kind == Pred
  }

  /** Name of the terminal node of the unit at `index`. */
  function TerminalName(index: nat): string {
    NatToString(index)
  }

  /** Name of the category node of a unit: its pos followed by its index. */
  function PosNodeName(pos: string, index: nat): string {
    pos + NatToString(index)
  }

  /** Name of the operator node for bottom attachment `opIndex` of unit `index`. */
  function OpNodeName(op: string, index: nat, opIndex: nat): string {
    op + NatToString(index) + "_" + NatToString(opIndex)
  }

  /** `Top::make_edge`: the chain unit -> category node -> `<Kind>Top`. */
  function MakeEdge(t: Top, node: nat): Stmt {
    Edge([TerminalName(node), PosNodeName(t.pos, node), KindName(t.kind) + "Top"], [])
  }

  /** Distinct kinds have distinct names. */
  lemma {:induction false} KindNameInjective(a: Kind, b: Kind)
    ensures KindName(a) == KindName(b) <==> a == b
  {
  }
}
