/**
 * The nodes of the GenBot3 brain (src/bots/genbot3/nodebase.ts and nodes.ts).
 * Node classes become one closed `Kind`; a node is a value in its bot's arena
 * (a `seq<Node>`), and its input nodes are positions in that arena.
 * Values are JavaScript numbers read as integers; a gate reads an input as
 * true when it is non-zero, and an input it does not have (undefined) as false.
 */
module Nodes {
  import opened Wrappers

  datatype Kind = Input | Not | And | Or | Xor | Nand | Nor | Xnor | Output

  /** The kinds a random node is drawn from (getRandomNodeInstance). */
  const GatePool: seq<Kind> := [Not, And, Or, Xor, Nand, Nor, Xnor]

  /** The class-name token of a kind, as written into a recipe. */
  function KindName(k: Kind): string
  {
    match k
    case Input => "NodeInput"
    case Not => "NodeNot"
    case And => "NodeAnd"
    case Or => "NodeOr"
    case Xor => "NodeXor"
    case Nand => "NodeNand"
    case Nor => "NodeNor"
    case Xnor => "NodeXnor"
    case Output => "NodeOutput"
  }

  /** getNodeInstance: the kind a class-name token names, None for an unknown token. */
  function KindFromName(name: string): (r: Option<Kind>)
    ensures r.Some? ==> KindName(r.value) == name
  {
    match name
    case "NodeInput" => Some(Input)
    case "NodeNot" => Some(Not)
    case "NodeAnd" => Some(And)
    case "NodeOr" => Some(Or)
    case "NodeXor" => Some(Xor)
    case "NodeNand" => Some(Nand)
    case "NodeNor" => Some(Nor)
    case "NodeXnor" => Some(Xnor)
    case "NodeOutput" => Some(Output)
    case _ => None
  }

  /** Every kind's token is recognised as that kind, and tokens hold neither ',' nor ':'. */
  lemma KindNameRoundTrip(k: Kind)
    ensures KindFromName(KindName(k)) == Some(k)
    ensures ',' !in KindName(k) && ':' !in KindName(k)
  {
  }

  /** numInputs: 1 from NodeBase, 2 from NodeBase2 (the binary gates), 10 for the output node. */
  function NumInputs(k: Kind): nat
  {
    match k
    case Input | Not => 1
    case And | Or | Xor | Nand | Nor | Xnor => 2
    case Output => 10
  }

  datatype Node = Node(kind: Kind, inputs: seq<nat>, output: int, index: nat)

  /** A freshly constructed node: no inputs, output 0, index 0. */
  function FreshNode(k: Kind): Node
  {
    Node(k, [], 0, 0)
  }

  /** addInputNode: the input appended after the existing ones. */
  function AddInputNode(node: Node, input: nat): (r: Node)
    ensures |r.inputs| == |node.inputs| + 1 && r.inputs[..|node.inputs|] == node.inputs
    ensures r.inputs[|node.inputs|] == input
    ensures r.kind == node.kind && r.output == node.output && r.index == node.index
  {
    node.(inputs := node.inputs + [input])
  }

  /** Every input of the node is a position below bound. */
  predicate RefsBelow(node: Node, bound: nat)
  {
    forall i | 0 <= i < |node.inputs| :: node.inputs[i] < bound
  }

  /** Input i read as a boolean; a missing input is undefined, which is falsy. */
  predicate Truthy(xs: seq<int>, i: nat)
  {
    i < |xs| && xs[i] != 0
  }

  function Sum(xs: seq<int>): int
    decreases |xs|
  {
    if |xs| == 0 then 0 else Sum(xs[..|xs| - 1]) + xs[|xs| - 1]
  }

  /** The per-kind process method. NodeInput does not override the base, which returns 1. */
  function Process(k: Kind, xs: seq<int>): int
  {
    match k
    case Input => 1
    case Not => if !Truthy(xs, 0) then 1 else 0
    case And => if Truthy(xs, 0) && Truthy(xs, 1) then 1 else 0
    case Or => if Truthy(xs, 0) || Truthy(xs, 1) then 1 else 0
    case Xor =>
      if Truthy(xs, 0) && Truthy(xs, 1) then 0
      else if Truthy(xs, 0) || Truthy(xs, 1) then 1 else 0
    case Nand => if Truthy(xs, 0) && Truthy(xs, 1) then 0 else 1
    case Nor => if Truthy(xs, 0) || Truthy(xs, 1) then 0 else 1
    case Xnor =>
      if Truthy(xs, 0) && Truthy(xs, 1) then 1
      else if Truthy(xs, 0) || Truthy(xs, 1) then 0 else 1
    case Output => Sum(xs)
  }

  /** The truth tables of the gates, stated as boolean connectives. */
  lemma GateTruthTables(xs: seq<int>)
    ensures Process(Not, xs) == 1 <==> !Truthy(xs, 0)
    ensures Process(And, xs) == 1 <==> Truthy(xs, 0) && Truthy(xs, 1)
    ensures Process(Or, xs) == 1 <==> Truthy(xs, 0) || Truthy(xs, 1)
    ensures Process(Xor, xs) == 1 <==> Truthy(xs, 0) != Truthy(xs, 1)
  {
  }

  /** NAND, NOR and XNOR are the complements of AND, OR and XOR on every input. */
  lemma NegatedGates(xs: seq<int>)
    ensures Process(Nand, xs) == 1 - Process(And, xs)
    ensures Process(Nor, xs) == 1 - Process(Or, xs)
    ensures Process(Xnor, xs) == 1 - Process(Xor, xs)
  {
  }

  /** Every kind but the output node yields 0 or 1. */
  lemma GateOutputIsBit(k: Kind, xs: seq<int>)
    requires k != Output
    ensures Process(k, xs) == 0 || Process(k, xs) == 1
  {
  }

  /** A gate reads nothing beyond its declared number of inputs. */
  lemma GateReadsOnlyItsArity(k: Kind, xs: seq<int>)
    requires k != Output && |xs| >= NumInputs(k)
    ensures Process(k, xs) == Process(k, xs[..NumInputs(k)])
  {
  }

  predicate AllBits(xs: seq<int>)
  {
    forall i | 0 <= i < |xs| :: xs[i] == 0 || xs[i] == 1
  }

  /** With 0/1 inputs the output node's sum lies between 0 and the number of inputs. */
  lemma {:induction false} OutputSumBounds(xs: seq<int>)
    requires AllBits(xs)
    ensures 0 <= Process(Output, xs) <= |xs|
    decreases |xs|
  {
    if |xs| > 0 {
      OutputSumBounds(xs[..|xs| - 1]);
    }
  }

  /** The output node's process: a running total over its inputs. */
  method SumInputs(xs: seq<int>) returns (total: int)
    ensures total == Process(Output, xs)
  {
    total := 0;
    for i := 0 to |xs|
      invariant total == Sum(xs[..i])
    {
      assert xs[..i + 1][..i] == xs[..i];
      total := total + xs[i];
    }
    assert xs[..|xs|] == xs;
  }

  /** The current outputs of the nodes at the given positions, in order. */
  function Outputs(arena: seq<Node>, refs: seq<nat>): (r: seq<int>)
    requires forall i | 0 <= i < |refs| :: refs[i] < |arena|
    ensures |r| == |refs| && forall i | 0 <= i < |refs| :: r[i] == arena[refs[i]].output
  {
    seq(|refs|, i requires 0 <= i < |refs| => arena[refs[i]].output)
  }

  /** The node after update(): process applied to its inputs' current outputs. */
  function Updated(arena: seq<Node>, node: Node): Node
    requires RefsBelow(node, |arena|)
  {
    node.(output := Process(node.kind, Outputs(arena, node.inputs)))
  }

  /**
   * update(): collect the input nodes' outputs in input order, then set the
   * output to process of them. Nothing but the output changes.
   */
  method Update(arena: seq<Node>, node: Node) returns (updated: Node)
    requires RefsBelow(node, |arena|)
    ensures updated == Updated(arena, node)
    ensures updated.kind == node.kind && updated.inputs == node.inputs && updated.index == node.index
  {
    var inputs: seq<int> := [];
    for i := 0 to |node.inputs|
      invariant |inputs| == i
      invariant forall j | 0 <= j < i :: inputs[j] == arena[node.inputs[j]].output
    {
      inputs := inputs + [arena[node.inputs[i]].output];
    }
    assert inputs == Outputs(arena, node.inputs);
    var output;
    if node.kind == Output {
      output := SumInputs(inputs);
    } else {
      output := Process(node.kind, inputs);
    }
    updated := node.(output := output);
  }

  /**
   * update() is idempotent inside the arena: once slot p holds its updated
   * node, updating it again (its inputs lie before it) changes nothing.
   */
  lemma UpdateIdempotent(arena: seq<Node>, p: nat)
    requires p < |arena| && RefsBelow(arena[p], p)
    ensures var once := arena[p := Updated(arena, arena[p])];
      Updated(once, once[p]) == once[p]
  {
    var once := arena[p := Updated(arena, arena[p])];
    assert Outputs(once, once[p].inputs) == Outputs(arena, arena[p].inputs);
  }
}
