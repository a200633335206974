/** The recorded cognitive operations of an agent session and the identifiers they
    mention (core/src/agent_session.rs:49-90). */
module Ops {

  datatype Option<+T> = None | Some(value: T)

  type Path = string

  /** A finite 64-bit float, by bit pattern. Weights are copied and compared, never
      computed with, except by the kernel's own functions. */
  type Bits = nat

  /** Graph node ids, read by their namespace prefix: `file:`, `sym:`, `use:`, `mod:`,
      and everything else (`dep:`, `claim:`, free text). */
  datatype NodeId =
    | FileNode(path: Path)
    | SymbolNode(path: Path, name: string)
    | UseNode(path: Path, name: string)
    | ModuleNode(path: Path, name: string)
    | OtherNode(name: string)

  datatype Weights = Weights(
    base: Bits, failure: Bits, recency: Bits, access: Bits, centrality: Bits,
    trust: Bits, decay: Bits, fanout: Bits, eigenvector: bool)

  datatype Recall =
    | WorkingSet
    | Around(node: NodeId)
    | Task(text: string)
    | Semantic(text: string)
    | Hybrid(text: string)
    | CausalFlash(horizon: nat, decay: Bits, callers: bool, lowTrust: bool, threshold: Bits)

  datatype Op =
    | Ingest(path: Path, source: string)
    | Failure(node: NodeId, depth: nat)
    | Recalled(recall: Recall, budget: nat)
    | PageFault(files: seq<Path>, depth: nat)
    | Retune(weights: Weights)
    | Assert(evidence: NodeId, claim: NodeId, supports: bool, weight: Bits)
}
