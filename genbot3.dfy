/**
 * The GenBot3 player (src/bots/genbot3/genbot3.ts): a flat arena of input
 * nodes and gates plus a separate list of output nodes, built at random,
 * written to and read from a recipe, mutated one node at a time and evaluated
 * in one forward pass to choose a move. Math.random() is replaced by explicit
 * picks, each below the length of the list it draws from.
 */
module Genbot3 {
  import opened Wrappers
  import Strings
  import opened Misc
  import opened Nodes
  import opened Recipes

  /** numNodes in create: the number of random gates. */
  const GateCount: nat := 100

  datatype BotError = RecipeError(error: DecodeError) | MissingRecipe | NoMutableNode

  /** Every node's inputs lie before it: the acyclicity that one forward pass relies on. */
  predicate Backward(nodes: seq<Node>)
  {
    forall p | 0 <= p < |nodes| :: RefsBelow(nodes[p], p)
  }

  /** Two arenas with the same kinds, wiring and indexes, whatever their outputs. */
  predicate SameShape(a: seq<Node>, b: seq<Node>)
  {
    |a| == |b| &&
    forall p | 0 <= p < |a| :: a[p].kind == b[p].kind && a[p].inputs == b[p].inputs && a[p].index == b[p].index
  }

  lemma WellFormedBackward(g: Graph)
    requires WellFormed(g)
    ensures Backward(g.nodes)
  {
  }

  lemma SameShapeWellFormed(a: seq<Node>, b: seq<Node>, outputs: seq<Node>)
    requires WellFormed(Graph(a, outputs)) && SameShape(a, b)
    ensures WellFormed(Graph(b, outputs))
  {
    forall p | 0 <= p < |b| ensures RefsBelow(b[p], p) {
      assert b[p].inputs == a[p].inputs;
    }
  }

  // ---------------------------------------------------------------- evaluation

  /** setValue on each of the first |inputs| nodes. */
  function Loaded(nodes: seq<Node>, inputs: seq<int>): (r: seq<Node>)
    requires |inputs| <= |nodes|
    ensures SameShape(nodes, r)
    ensures forall p | 0 <= p < |nodes| :: r[p].output == if p < |inputs| then inputs[p] else nodes[p].output
  {
    seq(|nodes|, p requires 0 <= p < |nodes| => if p < |inputs| then nodes[p].(output := inputs[p]) else nodes[p])
  }

  /** The arena after update() on the positions lo .. hi - 1, in that order. */
  function ForwardPass(nodes: seq<Node>, lo: nat, hi: nat): (r: seq<Node>)
    requires Backward(nodes) && lo <= hi <= |nodes|
    ensures SameShape(nodes, r) && Backward(r)
    ensures forall p | 0 <= p < |nodes| && (p < lo || hi <= p) :: r[p] == nodes[p]
    decreases hi
  {
    if hi == lo then nodes
    else
      var a := ForwardPass(nodes, lo, hi - 1);
      a[hi - 1 := Updated(a, a[hi - 1])]
  }

  /** The nodes after process(): inputs loaded, then every later node updated once, in order. */
  function Evaluate(nodes: seq<Node>, inputs: seq<int>): (r: seq<Node>)
    requires Backward(nodes) && |inputs| <= |nodes|
    ensures SameShape(nodes, r)
  {
    ForwardPass(Loaded(nodes, inputs), |inputs|, |nodes|)
  }

  /** The output nodes after process(): each updated against the evaluated nodes. */
  function EvaluatedOutputs(nodes: seq<Node>, outputs: seq<Node>): (r: seq<Node>)
    requires forall o | 0 <= o < |outputs| :: RefsBelow(outputs[o], |nodes|)
  {
    seq(|outputs|, o requires 0 <= o < |outputs| => Updated(nodes, outputs[o]))
  }

  /**
   * The value each node stands for once inputs are given, defined by recursion
   * on the wiring: a loaded input node holds its input, any other node is its
   * kind's process applied to the values of its inputs.
   */
  function Value(nodes: seq<Node>, inputs: seq<int>, p: nat): int
    requires Backward(nodes) && p < |nodes|
    decreases p
  {
    if p < |inputs| then inputs[p]
    else Process(nodes[p].kind, seq(|nodes[p].inputs|, i requires 0 <= i < |nodes[p].inputs| => Value(nodes, inputs, nodes[p].inputs[i])))
  }

  lemma {:induction false} ValueOfSameShape(a: seq<Node>, b: seq<Node>, inputs: seq<int>, p: nat)
    requires Backward(a) && SameShape(a, b) && p < |a|
    ensures Backward(b) && Value(a, inputs, p) == Value(b, inputs, p)
    decreases p
  {
    forall q | 0 <= q < |b| ensures RefsBelow(b[q], q) {
      assert b[q].inputs == a[q].inputs;
    }
    if p >= |inputs| {
      forall i | 0 <= i < |a[p].inputs| ensures Value(a, inputs, a[p].inputs[i]) == Value(b, inputs, a[p].inputs[i]) {
        ValueOfSameShape(a, b, inputs, a[p].inputs[i]);
      }
      var va := seq(|a[p].inputs|, i requires 0 <= i < |a[p].inputs| => Value(a, inputs, a[p].inputs[i]));
      var vb := seq(|b[p].inputs|, i requires 0 <= i < |b[p].inputs| => Value(b, inputs, b[p].inputs[i]));
      assert va == vb;
    }
  }

  /** The values of the nodes at the given positions. */
  function ValuesOf(nodes: seq<Node>, inputs: seq<int>, refs: seq<nat>): (r: seq<int>)
    requires Backward(nodes) && forall i | 0 <= i < |refs| :: refs[i] < |nodes|
    ensures |r| == |refs| && forall i | 0 <= i < |refs| :: r[i] == Value(nodes, inputs, refs[i])
  {
    seq(|refs|, i requires 0 <= i < |refs| => Value(nodes, inputs, refs[i]))
  }

  /** A node past the inputs is worth its kind's process of its inputs' values. */
  lemma ValueOfGate(nodes: seq<Node>, inputs: seq<int>, p: nat)
    requires Backward(nodes) && |inputs| <= p < |nodes|
    ensures Value(nodes, inputs, p) == Process(nodes[p].kind, ValuesOf(nodes, inputs, nodes[p].inputs))
  {
    var refs := nodes[p].inputs;
    var vs := seq(|nodes[p].inputs|, i requires 0 <= i < |nodes[p].inputs| => Value(nodes, inputs, nodes[p].inputs[i]));
    assert Value(nodes, inputs, p) == Process(nodes[p].kind, vs);
    var ws := ValuesOf(nodes, inputs, refs);
    forall i | 0 <= i < |refs| ensures vs[i] == ws[i] {
    }
    assert vs == ws;
  }

  /** After updating from |inputs| up to hi, every node before hi holds its value. */
  lemma {:induction false} PassComputesValues(nodes: seq<Node>, inputs: seq<int>, hi: nat)
    requires Backward(nodes) && |inputs| <= hi <= |nodes|
    requires forall p | 0 <= p < |inputs| :: nodes[p].output == inputs[p]
    ensures forall p | 0 <= p < hi :: ForwardPass(nodes, |inputs|, hi)[p].output == Value(nodes, inputs, p)
    decreases hi
  {
    if |inputs| < hi {
      PassComputesValues(nodes, inputs, hi - 1);
      var a := ForwardPass(nodes, |inputs|, hi - 1);
      var q := hi - 1;
      var r := ForwardPass(nodes, |inputs|, hi);
      assert r == a[q := Updated(a, a[q])];
      var refs := nodes[q].inputs;
      assert a[q].inputs == refs;
      var vs := ValuesOf(nodes, inputs, refs);
      forall i | 0 <= i < |refs| ensures Outputs(a, refs)[i] == vs[i] {
        assert refs[i] < q;
      }
      assert Outputs(a, refs) == vs;
      ValueOfGate(nodes, inputs, q);
      assert r[q].output == Value(nodes, inputs, q);
      forall p | 0 <= p < hi ensures r[p].output == Value(nodes, inputs, p) {
        if p < q {
          assert r[p] == a[p];
        }
      }
    }
  }

  /**
   * One forward pass suffices: because every node reads only earlier nodes,
   * after process() each node holds its value.
   */
  lemma EvaluateComputesValues(g: Graph, inputs: seq<int>)
    requires WellFormed(g) && |inputs| <= |g.nodes|
    ensures Backward(g.nodes)
    ensures forall p | 0 <= p < |g.nodes| :: Evaluate(g.nodes, inputs)[p].output == Value(g.nodes, inputs, p)
  {
    var loaded := Loaded(g.nodes, inputs);
    assert Backward(loaded) by {
      forall p | 0 <= p < |loaded| ensures RefsBelow(loaded[p], p) {
        assert loaded[p].inputs == g.nodes[p].inputs;
      }
    }
    PassComputesValues(loaded, inputs, |g.nodes|);
    forall p | 0 <= p < |g.nodes| ensures Evaluate(g.nodes, inputs)[p].output == Value(g.nodes, inputs, p) {
      ValueOfSameShape(loaded, g.nodes, inputs, p);
    }
  }

  /** After process() each output node holds the sum of the values of its inputs. */
  lemma OutputsComputeSums(g: Graph, inputs: seq<int>)
    requires WellFormed(g) && |inputs| <= |g.nodes|
    ensures Backward(g.nodes)
    ensures forall o | 0 <= o < |g.outputs| ::
      EvaluatedOutputs(Evaluate(g.nodes, inputs), g.outputs)[o].output == Sum(ValuesOf(g.nodes, inputs, g.outputs[o].inputs))
  {
    EvaluateComputesValues(g, inputs);
    var evaluated := Evaluate(g.nodes, inputs);
    forall o | 0 <= o < |g.outputs|
      ensures EvaluatedOutputs(evaluated, g.outputs)[o].output == Sum(ValuesOf(g.nodes, inputs, g.outputs[o].inputs))
    {
      var refs := g.outputs[o].inputs;
      assert Outputs(evaluated, refs) == ValuesOf(g.nodes, inputs, refs);
    }
  }

  /** Processing the same inputs twice leaves every node as the first pass left it. */
  lemma EvaluateIdempotent(g: Graph, inputs: seq<int>)
    requires WellFormed(g) && |inputs| <= |g.nodes|
    ensures Evaluate(Evaluate(g.nodes, inputs), inputs) == Evaluate(g.nodes, inputs)
  {
    var once := Evaluate(g.nodes, inputs);
    SameShapeWellFormed(g.nodes, once, g.outputs);
    var twice := Evaluate(once, inputs);
    EvaluateComputesValues(g, inputs);
    EvaluateComputesValues(Graph(once, g.outputs), inputs);
    assert SameShape(once, twice);
    forall p | 0 <= p < |g.nodes| ensures twice[p] == once[p] {
      ValueOfSameShape(g.nodes, once, inputs, p);
    }
  }

  /** Move a ranks no later than move b: a smaller output value, or the same value and a lower move. */
  predicate RanksFirst(outputs: seq<Node>, a: nat, b: nat)
    requires a < |outputs| && b < |outputs|
  {
    outputs[a].output < outputs[b].output || (outputs[a].output == outputs[b].output && a <= b)
  }

  // ---------------------------------------------------------------- creation and mutation

  /** The random draws create makes: a pool kind and a wiring sample per gate, a wiring sample per output node. */
  predicate CreatePicksValid(inputCount: nat, outputCount: nat, gatePicks: seq<nat>, wirePicks: seq<seq<nat>>, outputPicks: seq<seq<nat>>)
  {
    && |gatePicks| == GateCount && |wirePicks| == GateCount && |outputPicks| == outputCount
    && (forall n | 0 <= n < GateCount :: gatePicks[n] < |GatePool|)
    && (forall n | 0 <= n < GateCount ::
          gatePicks[n] < |GatePool| ==> ValidPicks(wirePicks[n], inputCount + n, NumInputs(GatePool[gatePicks[n]])))
    && (forall o | 0 <= o < outputCount :: ValidPicks(outputPicks[o], inputCount + GateCount, NumInputs(Output)))
  }

  /** Gate n of create: a pool gate with index n wired to a sample of the inputCount + n nodes before it. */
  function CreatedGate(inputCount: nat, n: nat, kindPick: nat, wires: seq<nat>): Node
    requires kindPick < |GatePool| && ValidPicks(wires, inputCount + n, NumInputs(GatePool[kindPick]))
  {
    var kind := GatePool[kindPick];
    Node(kind, Sample(Range(inputCount + n), NumInputs(kind), wires), 0, n)
  }

  /** The nodes create builds: inputCount input nodes, then the GateCount gates. */
  function CreatedNodes(inputCount: nat, gatePicks: seq<nat>, wirePicks: seq<seq<nat>>, outputPicks: seq<seq<nat>>): (r: seq<Node>)
    requires CreatePicksValid(inputCount, |outputPicks|, gatePicks, wirePicks, outputPicks)
    ensures |r| == inputCount + GateCount
  {
    seq(inputCount + GateCount, p requires 0 <= p < inputCount + GateCount =>
      if p < inputCount then FreshNode(Input)
      else CreatedGate(inputCount, p - inputCount, gatePicks[p - inputCount], wirePicks[p - inputCount]))
  }

  /** The output nodes create builds, each wired to a sample of all nodeCount nodes. */
  function CreatedOutputs(nodeCount: nat, outputPicks: seq<seq<nat>>): (r: seq<Node>)
    requires forall o | 0 <= o < |outputPicks| :: ValidPicks(outputPicks[o], nodeCount, NumInputs(Output))
    ensures |r| == |outputPicks|
  {
    seq(|outputPicks|, o requires 0 <= o < |outputPicks| =>
      Node(Output, Sample(Range(nodeCount), NumInputs(Output), outputPicks[o]), 0, 0))
  }

  function CreatedBrain(inputCount: nat, gatePicks: seq<nat>, wirePicks: seq<seq<nat>>, outputPicks: seq<seq<nat>>): Graph
    requires CreatePicksValid(inputCount, |outputPicks|, gatePicks, wirePicks, outputPicks)
  {
    Graph(CreatedNodes(inputCount, gatePicks, wirePicks, outputPicks), CreatedOutputs(inputCount + GateCount, outputPicks))
  }

  /**
   * With at least three inputs every sample is a proper one, so create
   * builds a well-formed arena in which every node has its kind's number of
   * pairwise distinct inputs, inputs come first and gate n has index n.
   */
  lemma CreateProperties(inputCount: nat, gatePicks: seq<nat>, wirePicks: seq<seq<nat>>, outputPicks: seq<seq<nat>>)
    requires inputCount >= 3
    requires CreatePicksValid(inputCount, |outputPicks|, gatePicks, wirePicks, outputPicks)
    ensures WellFormed(CreatedBrain(inputCount, gatePicks, wirePicks, outputPicks))
    ensures ArityComplete(CreatedBrain(inputCount, gatePicks, wirePicks, outputPicks))
    ensures var nodes := CreatedNodes(inputCount, gatePicks, wirePicks, outputPicks);
      && (forall p | 0 <= p < inputCount :: nodes[p].kind == Input)
      && (forall p | inputCount <= p < |nodes| :: nodes[p].kind in GatePool && nodes[p].index == p - inputCount)
      && (forall p | 0 <= p < |nodes| :: Distinct(nodes[p].inputs))
    ensures var outputs := CreatedOutputs(inputCount + GateCount, outputPicks);
      forall o | 0 <= o < |outputs| :: Distinct(outputs[o].inputs)
  {
    var nodes := CreatedNodes(inputCount, gatePicks, wirePicks, outputPicks);
    var outputs := CreatedOutputs(inputCount + GateCount, outputPicks);
    forall p | 0 <= p < |nodes|
      ensures RefsBelow(nodes[p], p) && |nodes[p].inputs| == Arity(nodes[p].kind) && Distinct(nodes[p].inputs)
      ensures nodes[p].kind != Output && nodes[p].index <= p
      ensures p < inputCount ==> nodes[p].kind == Input
      ensures p >= inputCount ==> nodes[p].kind in GatePool && nodes[p].index == p - inputCount
    {
      if p < inputCount {
        assert nodes[p] == FreshNode(Input);
      } else {
        assert nodes[p] == CreatedGate(inputCount, p - inputCount, gatePicks[p - inputCount], wirePicks[p - inputCount]);
        CreatedGateProperties(inputCount, p - inputCount, gatePicks[p - inputCount], wirePicks[p - inputCount]);
      }
    }
    forall o | 0 <= o < |outputs|
      ensures RefsBelow(outputs[o], |nodes|) && |outputs[o].inputs| == Arity(Output) && Distinct(outputs[o].inputs)
    {
      SampleOfRange(|nodes|, NumInputs(Output), outputPicks[o]);
    }
  }

  lemma CreatedGateProperties(inputCount: nat, n: nat, kindPick: nat, wires: seq<nat>)
    requires inputCount >= 3
    requires kindPick < |GatePool| && ValidPicks(wires, inputCount + n, NumInputs(GatePool[kindPick]))
    ensures var node := CreatedGate(inputCount, n, kindPick, wires);
      && RefsBelow(node, inputCount + n) && |node.inputs| == Arity(node.kind) && Distinct(node.inputs)
      && node.kind in GatePool && node.index == n
  {
    var kind := GatePool[kindPick];
    assert kind != Input && kind != Output && NumInputs(kind) <= 2;
    var node := CreatedGate(inputCount, n, kindPick, wires);
    var inputs := Sample(Range(inputCount + n), NumInputs(kind), wires);
    assert node == Node(kind, inputs, 0, n);
    SampleOfRange(inputCount + n, NumInputs(kind), wires);
    assert |inputs| == Arity(kind) && Distinct(inputs);
    assert RefsBelow(node, inputCount + n);
  }

  /** mutableNodeIndexes: the positions of the nodes with at least one input, ascending. */
  function MutablePositions(nodes: seq<Node>): (r: seq<nat>)
    ensures forall i | 0 <= i < |r| :: r[i] < |nodes| && |nodes[r[i]].inputs| > 0
    ensures forall p | 0 <= p < |nodes| && |nodes[p].inputs| > 0 :: p in r
    decreases |nodes|
  {
    if |nodes| == 0 then []
    else
      var last := |nodes| - 1;
      MutablePositions(nodes[..last]) + (if |nodes[last].inputs| > 0 then [last] else [])
  }

  /** The node mutate rewires: the chosen node, or a fresh gate of the picked kind whose index is the position. */
  function Target(nodes: seq<Node>, position: nat, coin: nat, kindPick: nat): Node
    requires position < |nodes| && kindPick < |GatePool|
  {
    if coin == 1 then FreshNode(GatePool[kindPick]).(index := position) else nodes[position]
  }

  /** The random draws mutate makes: a mutable position, a coin, a pool kind and a wiring sample. */
  predicate MutatePicksValid(nodes: seq<Node>, pick: nat, coin: nat, kindPick: nat, wirePicks: seq<nat>)
  {
    && (pick < |MutablePositions(nodes)| || pick == 0)
    && coin < 2 && kindPick < |GatePool|
    && (pick < |MutablePositions(nodes)| ==>
          var node := Target(nodes, MutablePositions(nodes)[pick], coin, kindPick);
          NumInputs(node.kind) >= node.index || ValidPicks(wirePicks, node.index, NumInputs(node.kind)))
  }

  /**
   * The nodes after mutate. With no mutable node and coin 1 nothing in the
   * list changes (the source writes the fresh node to the property
   * `nodes[undefined]`, outside the list).
   */
  function Mutated(nodes: seq<Node>, pick: nat, coin: nat, kindPick: nat, wirePicks: seq<nat>): seq<Node>
    requires MutatePicksValid(nodes, pick, coin, kindPick, wirePicks)
  {
    var mutable := MutablePositions(nodes);
    if |mutable| == 0 then nodes
    else
      var position := mutable[pick];
      var node := Target(nodes, position, coin, kindPick);
      nodes[position := node.(inputs := Sample(Range(node.index), NumInputs(node.kind), wirePicks))]
  }

  /**
   * mutate touches one node with at least one input and nothing else. A
   * replacement is a pool gate whose index is its position; either way the node
   * is rewired to min(arity, index) distinct nodes before its index, so the
   * arena stays well formed.
   */
  lemma MutateProperties(g: Graph, pick: nat, coin: nat, kindPick: nat, wirePicks: seq<nat>)
    requires WellFormed(g) && MutatePicksValid(g.nodes, pick, coin, kindPick, wirePicks)
    requires |MutablePositions(g.nodes)| > 0
    ensures var r := Mutated(g.nodes, pick, coin, kindPick, wirePicks);
      var p := MutablePositions(g.nodes)[pick];
      && |r| == |g.nodes| && |g.nodes[p].inputs| > 0
      && (forall q | 0 <= q < |g.nodes| && q != p :: r[q] == g.nodes[q])
      && (coin == 1 ==> r[p].kind in GatePool && r[p].index == p && r[p].output == 0)
      && (coin != 1 ==> r[p].kind == g.nodes[p].kind && r[p].index == g.nodes[p].index && r[p].output == g.nodes[p].output)
      && Distinct(r[p].inputs)
      && |r[p].inputs| == (if NumInputs(r[p].kind) < r[p].index then NumInputs(r[p].kind) else r[p].index)
      && (forall i | 0 <= i < |r[p].inputs| :: r[p].inputs[i] < r[p].index)
      && WellFormed(Graph(r, g.outputs))
  {
    var p := MutablePositions(g.nodes)[pick];
    var node := Target(g.nodes, p, coin, kindPick);
    SampleOfRange(node.index, NumInputs(node.kind), wirePicks);
  }

  lemma MutatedWellFormed(g: Graph, pick: nat, coin: nat, kindPick: nat, wirePicks: seq<nat>)
    requires WellFormed(g) && MutatePicksValid(g.nodes, pick, coin, kindPick, wirePicks)
    ensures WellFormed(Graph(Mutated(g.nodes, pick, coin, kindPick, wirePicks), g.outputs))
  {
    if |MutablePositions(g.nodes)| > 0 {
      MutateProperties(g, pick, coin, kindPick, wirePicks);
    }
  }

  /**
   * Rewiring a node in place draws from the nodes before its stored index, so
   * a node whose index is below its kind's input count (gate 0 of a created
   * arena has index 0) ends up with fewer inputs than the kind needs.
   */
  lemma MutateCanDropArity(g: Graph, pick: nat, kindPick: nat, wirePicks: seq<nat>)
    requires WellFormed(g) && ArityComplete(g) && MutatePicksValid(g.nodes, pick, 0, kindPick, wirePicks)
    requires |MutablePositions(g.nodes)| > 0
    requires var node := g.nodes[MutablePositions(g.nodes)[pick]]; node.index < NumInputs(node.kind)
    ensures var r := Mutated(g.nodes, pick, 0, kindPick, wirePicks);
      var p := MutablePositions(g.nodes)[pick];
      |r[p].inputs| < Arity(r[p].kind) && !ArityComplete(Graph(r, g.outputs))
  {
    MutateProperties(g, pick, 0, kindPick, wirePicks);
    var r := Mutated(g.nodes, pick, 0, kindPick, wirePicks);
    var p := MutablePositions(g.nodes)[pick];
    assert g.nodes[p].kind != Input;
    assert r[p].kind == g.nodes[p].kind;
    assert |r[p].inputs| < Arity(r[p].kind);
  }

  /**
   * A bot rebuilt by createFromRecipe stores each node's position as its
   * index, and its first nodes are input nodes, which mutate never picks. So
   * every node mutate can pick has an index of at least 2, no gate needs more
   * inputs than that, and the rewired node keeps its full arity: a mutated
   * clone of a decoded bot writes a recipe that decodes again.
   */
  lemma MutateOfDecodedKeepsArity(g: Graph, pick: nat, coin: nat, kindPick: nat, wirePicks: seq<nat>)
    requires WellFormed(g) && Canonical(g) && ArityComplete(g)
    requires |g.nodes| >= 2 && g.nodes[0].kind == Input && g.nodes[1].kind == Input
    requires MutatePicksValid(g.nodes, pick, coin, kindPick, wirePicks) && |MutablePositions(g.nodes)| > 0
    ensures var m := Graph(Mutated(g.nodes, pick, coin, kindPick, wirePicks), g.outputs);
      WellFormed(m) && ArityComplete(m) && Decode(Recipe(m)) == Ok(Rewired(m))
  {
    MutateProperties(g, pick, coin, kindPick, wirePicks);
    var r := Mutated(g.nodes, pick, coin, kindPick, wirePicks);
    var p := MutablePositions(g.nodes)[pick];
    assert p >= 2 && r[p].index == p;
    assert r[p].kind != Input && r[p].kind != Output;
    assert |r[p].inputs| == Arity(r[p].kind);
    var m := Graph(r, g.outputs);
    assert forall q | 0 <= q < |r| && q != p :: r[q] == g.nodes[q];
    RecipeDecodes(m);
  }

  /** A block holding only a class name decodes to a fresh input node ... */
  lemma BareInputAccepted(nodes: seq<Node>)
    ensures DecodeBlock(nodes, KindName(Input)) == Ok(FreshNode(Input))
  {
    KindNameRoundTrip(Input);
    Strings.SplitWithoutSeparator(KindName(Input), ':');
  }

  /** ... and is refused for every other kind, which needs at least one reference. */
  lemma BareGateRefused(nodes: seq<Node>, k: Kind)
    requires k != Input
    ensures DecodeBlock(nodes, KindName(k)) == Err(WrongArity(KindName(k)))
  {
    KindNameRoundTrip(k);
    Strings.SplitWithoutSeparator(KindName(k), ':');
  }

  /**
   * A gate whose block carries the wrong number of references fails the arity
   * assertion, and decoding stops there: when every node before it carries its
   * full arity, the recipe fails with that block's arity error.
   */
  lemma ShortGateRecipeFails(g: Graph, k: nat)
    requires WellFormed(g) && k < |g.nodes| + |g.outputs| && CompleteBelow(g, k)
    requires NodeAt(g, k).kind != Input && |NodeAt(g, k).inputs| != NumInputs(NodeAt(g, k).kind)
    ensures Decode(Recipe(g)) == Err(WrongArity(Blocks(g)[k]))
  {
    ShortBlockRefused(g, k);
    DecodeErrorPersists(Blocks(g), k + 1);
    RecipeSplits(g);
  }

  /** The blocks up to and including the short gate's fail on it. */
  lemma ShortBlockRefused(g: Graph, k: nat)
    requires WellFormed(g) && k < |g.nodes| + |g.outputs| && CompleteBelow(g, k)
    requires NodeAt(g, k).kind != Input && |NodeAt(g, k).inputs| != NumInputs(NodeAt(g, k).kind)
    ensures DecodeBlocks(Blocks(g)[..k + 1]) == Err(WrongArity(Blocks(g)[k]))
  {
    var blocks := Blocks(g);
    var before := Prefix(Rewired(g), k);
    DecodePrefix(g, k);
    ShortBlockTokens(g, k, before.nodes);
    TakeNext(blocks, k);
    DecodeNextBlock(blocks[..k], blocks[k], before);
  }

  /** The short gate's own block is refused against any nodes: its token count is not its kind's. */
  lemma ShortBlockTokens(g: Graph, k: nat, nodes: seq<Node>)
    requires WellFormed(g) && k < |g.nodes| + |g.outputs|
    requires NodeAt(g, k).kind != Input && |NodeAt(g, k).inputs| != NumInputs(NodeAt(g, k).kind)
    ensures DecodeBlock(nodes, Blocks(g)[k]) == Err(WrongArity(Blocks(g)[k]))
  {
    BlockTokens(g, k);
    KindNameRoundTrip(NodeAt(g, k).kind);
  }

  /**
   * So a well-formed arena whose input nodes hold no references writes a
   * recipe that decodes exactly when every node carries its full arity: the
   * first gate that does not is where decoding fails.
   */
  lemma RecipeDecodesIffComplete(g: Graph)
    requires WellFormed(g) && |g.nodes| + |g.outputs| >= 1
    requires forall p | 0 <= p < |g.nodes| && g.nodes[p].kind == Input :: |g.nodes[p].inputs| == 0
    ensures Decode(Recipe(g)).Ok? <==> ArityComplete(g)
  {
    if ArityComplete(g) {
      RecipeDecodes(g);
    } else {
      if exists p | 0 <= p < |g.nodes| :: |g.nodes[p].inputs| != Arity(g.nodes[p].kind) {
        var p :| 0 <= p < |g.nodes| && |g.nodes[p].inputs| != Arity(g.nodes[p].kind);
        assert NodeAt(g, p) == g.nodes[p];
        FirstShortGateFails(g, 0, p);
      } else {
        var o :| 0 <= o < |g.outputs| && |g.outputs[o].inputs| != Arity(g.outputs[o].kind);
        assert NodeAt(g, |g.nodes| + o) == g.outputs[o];
        FirstShortGateFails(g, 0, |g.nodes| + o);
      }
    }
  }

  /** Scanning from block k, which every earlier node passes, towards a short block j. */
  lemma {:induction false} FirstShortGateFails(g: Graph, k: nat, j: nat)
    requires WellFormed(g) && k <= j < |g.nodes| + |g.outputs| && CompleteBelow(g, k)
    requires forall p | 0 <= p < |g.nodes| && g.nodes[p].kind == Input :: |g.nodes[p].inputs| == 0
    requires |NodeAt(g, j).inputs| != Arity(NodeAt(g, j).kind)
    ensures Decode(Recipe(g)).Err?
    decreases j - k
  {
    if |NodeAt(g, k).inputs| != Arity(NodeAt(g, k).kind) {
      assert NodeAt(g, k).kind != Input;
      ShortGateRecipeFails(g, k);
    } else {
      FirstShortGateFails(g, k + 1, j);
    }
  }

  // ---------------------------------------------------------------- the bot

  class GenBot3 {
    var nodes: seq<Node>
    var outputNodes: seq<Node>

    ghost predicate Valid()
      reads this
    {
      WellFormed(Graph(nodes, outputNodes))
    }

    function Brain(): Graph
      reads this
    {
      Graph(nodes, outputNodes)
    }

    constructor ()
      ensures Valid() && nodes == [] && outputNodes == []
    {
      nodes := [];
      outputNodes := [];
    }

    /** getRecipe: one block per node then per output node, each input written as its node's stored index. */
    method GetRecipe() returns (recipe: string)
      requires Valid()
      ensures recipe == Recipe(Brain())
    {
      ghost var blocks := Blocks(Brain());
      var recipeBlocks: seq<string> := [];
      var nodeList := nodes + outputNodes;
      for i := 0 to |nodeList|
        invariant recipeBlocks == blocks[..i]
      {
        var node := nodeList[i];
        assert node == NodeAt(Graph(nodes, outputNodes), i);
        var ingredientBlocks := IngredientBlocks(nodes, node);
        recipeBlocks := recipeBlocks + [Strings.Join(ingredientBlocks, ':')];
        assert blocks[..i + 1] == blocks[..i] + [blocks[i]];
      }
      assert blocks[..|nodeList|] == blocks;
      recipe := Strings.Join(recipeBlocks, ',');
    }

    /**
     * createFromRecipe: rebuild both lists block by block. On success the bot
     * is exactly the decoded graph; on failure the error is the first failing
     * block's, and the bot keeps the graph the blocks before it decode to.
     */
    method CreateFromRecipe(recipe: string) returns (outcome: Outcome<DecodeError>)
      modifies this
      ensures Valid()
      ensures outcome.Pass? <==> Decode(recipe).Ok?
      ensures outcome.Pass? ==> Brain() == Decode(recipe).value
      ensures outcome.Fail? ==> Decode(recipe) == Err(outcome.error)
      ensures outcome.Fail? ==> exists k :: FailsAt(Strings.Split(recipe, ','), k, Brain(), outcome.error)
    {
      var built, failed := ReadBlocks(Strings.Split(recipe, ','));
      nodes, outputNodes := built.nodes, built.outputs;
      assert Brain() == built;
      if failed.Some? {
        return Fail(failed.value);
      }
      return Pass;
    }

    /** getState: the player name and the recipe. */
    method GetState() returns (state: map<string, string>)
      requires Valid()
      ensures state == map["name" := "GenBot3", "recipe" := Recipe(Brain())]
    {
      var recipe := GetRecipe();
      state := map["name" := "GenBot3", "recipe" := recipe];
    }

    /**
     * setState: createFromRecipe of state.recipe. A state without one fails
     * after both lists have been emptied (undefined has no split).
     */
    method SetState(state: map<string, string>) returns (outcome: Outcome<BotError>)
      modifies this
      ensures Valid()
      ensures "recipe" !in state ==> outcome == Fail(MissingRecipe) && Brain() == Graph([], [])
      ensures "recipe" in state ==>
        && (outcome.Pass? <==> Decode(state["recipe"]).Ok?)
        && (outcome.Pass? ==> Brain() == Decode(state["recipe"]).value)
        && (outcome.Fail? ==> exists k, e :: FailsAt(Strings.Split(state["recipe"], ','), k, Brain(), e) && outcome == Fail(RecipeError(e)))
    {
      if "recipe" !in state {
        nodes := [];
        outputNodes := [];
        return Fail(MissingRecipe);
      }
      var result := CreateFromRecipe(state["recipe"]);
      if result.Fail? {
        return Fail(RecipeError(result.error));
      }
      return Pass;
    }

    /**
     * create: inputCount input nodes, then GateCount random pool gates, gate n
     * indexed n and wired to a sample of the nodes before it, then outputCount
     * output nodes wired to a sample of all nodes.
     */
    method Create(inputCount: nat, outputCount: nat, gatePicks: seq<nat>, wirePicks: seq<seq<nat>>, outputPicks: seq<seq<nat>>)
      requires inputCount >= 3
      requires CreatePicksValid(inputCount, outputCount, gatePicks, wirePicks, outputPicks)
      modifies this
      ensures Brain() == CreatedBrain(inputCount, gatePicks, wirePicks, outputPicks)
      ensures Valid() && ArityComplete(Brain())
    {
      nodes := [];
      outputNodes := [];
      nodes := AddInputNodes(nodes, inputCount);
      nodes := AddGates(nodes, gatePicks, wirePicks, outputPicks);
      outputNodes := AddOutputNodes(outputNodes, |nodes|, outputPicks);
      CreateProperties(inputCount, gatePicks, wirePicks, outputPicks);
    }

    /** mutate: see Mutated; fails only when no node has an input and the coin keeps the (undefined) node. */
    method Mutate(pick: nat, coin: nat, kindPick: nat, wirePicks: seq<nat>) returns (outcome: Outcome<BotError>)
      requires Valid() && MutatePicksValid(nodes, pick, coin, kindPick, wirePicks)
      modifies this
      ensures Valid() && outputNodes == old(outputNodes)
      ensures outcome.Fail? <==> |MutablePositions(old(nodes))| == 0 && coin == 0
      ensures outcome.Pass? ==> nodes == Mutated(old(nodes), pick, coin, kindPick, wirePicks)
      ensures outcome.Fail? ==> outcome.error == NoMutableNode && nodes == old(nodes)
    {
      var mutableNodeIndexes := MutableNodeIndexes(nodes);
      var nodeIndex := RandomChoice(mutableNodeIndexes, pick);
      if nodeIndex.None? {
        if coin == 1 {
          return Pass;
        }
        return Fail(NoMutableNode);
      }
      var position := nodeIndex.value;
      assert position == MutablePositions(nodes)[pick];
      var node := nodes[position];
      if coin == 1 {
        node := FreshNode(GatePool[kindPick]);
        node := node.(index := position);
      }
      assert node == Target(nodes, position, coin, kindPick);
      var numInputs := NumInputs(node.kind);
      var inputsAvailable := PositionsBelow(node.index);
      var inputNumbers := RandomSample(inputsAvailable, numInputs, wirePicks);
      var rewired := Reconnected(node, inputNumbers);
      assert rewired == node.(inputs := Sample(Range(node.index), NumInputs(node.kind), wirePicks));
      assert nodes[position := rewired] == Mutated(nodes, pick, coin, kindPick, wirePicks);
      MutatedWellFormed(Graph(nodes, outputNodes), pick, coin, kindPick, wirePicks);
      nodes := nodes[position := rewired];
      return Pass;
    }

    /**
     * process: load the inputs, update the remaining nodes in order, then the
     * output nodes, and return the available move whose output node holds the
     * smallest value (the lowest such move on ties); none without moves.
     */
    method Process(inputs: seq<int>, availableMoves: seq<nat>) returns (move: Option<nat>)
      requires Valid()
      requires |inputs| <= |nodes| && forall p | 0 <= p < |inputs| :: nodes[p].kind == Input
      requires forall i | 0 <= i < |availableMoves| :: availableMoves[i] < |outputNodes|
      modifies this
      ensures Valid()
      ensures nodes == Evaluate(old(nodes), inputs)
      ensures outputNodes == EvaluatedOutputs(nodes, old(outputNodes))
      ensures move.Some? <==> |availableMoves| > 0
      ensures move.Some? ==> move.value in availableMoves && move.value < |outputNodes|
      ensures move.Some? ==> forall m | m in availableMoves :: RanksFirst(outputNodes, move.value, m)
    {
      var loaded := LoadInputs(nodes, inputs);
      SameShapeWellFormed(nodes, loaded, outputNodes);
      WellFormedBackward(Graph(loaded, outputNodes));
      var evaluated := UpdateFrom(loaded, |inputs|);
      SameShapeWellFormed(nodes, evaluated, outputNodes);
      var updatedOutputs := UpdateOutputs(evaluated, outputNodes);
      move := ChooseMove(updatedOutputs, availableMoves);
      nodes, outputNodes := evaluated, updatedOutputs;
    }
  }

  /** process, first loop: setValue on the first |inputs| nodes. */
  method LoadInputs(nodes: seq<Node>, inputs: seq<int>) returns (loaded: seq<Node>)
    requires |inputs| <= |nodes|
    ensures loaded == Loaded(nodes, inputs)
  {
    loaded := nodes;
    for p := 0 to |inputs|
      invariant |loaded| == |nodes|
      invariant forall q | 0 <= q < |nodes| :: loaded[q] == if q < p then nodes[q].(output := inputs[q]) else nodes[q]
    {
      loaded := loaded[p := loaded[p].(output := inputs[p])];
    }
  }

  /** process, second loop: update() on every node from position lo to the end, in order. */
  method UpdateFrom(nodes: seq<Node>, lo: nat) returns (updated: seq<Node>)
    requires Backward(nodes) && lo <= |nodes|
    ensures updated == ForwardPass(nodes, lo, |nodes|)
  {
    updated := nodes;
    for index := lo to |nodes|
      invariant updated == ForwardPass(nodes, lo, index)
    {
      ForwardPassStep(nodes, lo, index);
      var node := Update(updated, updated[index]);
      updated := updated[index := node];
    }
  }

  lemma ForwardPassStep(nodes: seq<Node>, lo: nat, hi: nat)
    requires Backward(nodes) && lo <= hi < |nodes|
    ensures var a := ForwardPass(nodes, lo, hi);
      RefsBelow(a[hi], |a|) && ForwardPass(nodes, lo, hi + 1) == a[hi := Updated(a, a[hi])]
  {
  }

  /** process, third loop: update() on every output node against the evaluated nodes. */
  method UpdateOutputs(nodes: seq<Node>, outputs: seq<Node>) returns (updated: seq<Node>)
    requires forall o | 0 <= o < |outputs| :: RefsBelow(outputs[o], |nodes|)
    ensures updated == EvaluatedOutputs(nodes, outputs)
  {
    updated := outputs;
    for o := 0 to |outputs|
      invariant |updated| == |outputs|
      invariant forall m | 0 <= m < |outputs| :: updated[m] == if m < o then Updated(nodes, outputs[m]) else outputs[m]
    {
      var node := Update(nodes, updated[o]);
      updated := updated[o := node];
    }
  }

  /**
   * process, the move choice: the keys of dsort sorted stably by output value,
   * first one taken. Object.keys lists the (integer) moves ascending, so the
   * move chosen holds the smallest output, the lowest such move on ties.
   */
  method ChooseMove(outputs: seq<Node>, availableMoves: seq<nat>) returns (move: Option<nat>)
    requires forall i | 0 <= i < |availableMoves| :: availableMoves[i] < |outputs|
    ensures move.Some? <==> |availableMoves| > 0
    ensures move.Some? ==> move.value in availableMoves && move.value < |outputs|
    ensures move.Some? ==> forall m | m in availableMoves :: RanksFirst(outputs, move.value, m)
  {
    move := None;
    for i := 0 to |availableMoves|
      invariant move.Some? <==> i > 0
      invariant move.Some? ==> move.value in availableMoves[..i] && move.value < |outputs|
      invariant move.Some? ==> forall j | 0 <= j < i :: RanksFirst(outputs, move.value, availableMoves[j])
    {
      var m := availableMoves[i];
      if move.None? || !RanksFirst(outputs, move.value, m) {
        move := Some(m);
      }
    }
    assert availableMoves[..|availableMoves|] == availableMoves;
  }

  /** create, first loop: push count fresh input nodes. */
  method AddInputNodes(nodes: seq<Node>, count: nat) returns (r: seq<Node>)
    ensures |r| == |nodes| + count && r[..|nodes|] == nodes
    ensures forall p | |nodes| <= p < |r| :: r[p] == FreshNode(Input)
  {
    r := nodes;
    for i := 0 to count
      invariant |r| == |nodes| + i && r[..|nodes|] == nodes
      invariant forall p | |nodes| <= p < |r| :: r[p] == FreshNode(Input)
    {
      r := r + [FreshNode(Input)];
    }
  }

  /**
   * create, second loop: GateCount random pool gates after the input nodes,
   * gate n indexed n and wired to a sample of the nodes before it.
   */
  method AddGates(inputs: seq<Node>, gatePicks: seq<nat>, wirePicks: seq<seq<nat>>, outputPicks: seq<seq<nat>>) returns (r: seq<Node>)
    requires CreatePicksValid(|inputs|, |outputPicks|, gatePicks, wirePicks, outputPicks)
    requires forall p | 0 <= p < |inputs| :: inputs[p] == FreshNode(Input)
    ensures r == CreatedNodes(|inputs|, gatePicks, wirePicks, outputPicks)
  {
    ghost var created := CreatedNodes(|inputs|, gatePicks, wirePicks, outputPicks);
    assert inputs == created[..|inputs|];
    r := inputs;
    for n := 0 to GateCount
      invariant |r| == |inputs| + n && r == created[..|inputs| + n]
    {
      CreatedGateAt(|inputs|, gatePicks, wirePicks, outputPicks, n);
      var className := RandomChoice(GatePool, gatePicks[n]);
      var node := FreshNode(className.value);
      node := node.(index := n);
      var positions := RandomSample(Range(|r|), NumInputs(node.kind), wirePicks[n]);
      node := node.(inputs := positions);
      PrefixStep(created, |inputs| + n);
      r := r + [node];
    }
    assert created[..|inputs| + GateCount] == created;
  }

  lemma CreatedGateAt(inputCount: nat, gatePicks: seq<nat>, wirePicks: seq<seq<nat>>, outputPicks: seq<seq<nat>>, n: nat)
    requires CreatePicksValid(inputCount, |outputPicks|, gatePicks, wirePicks, outputPicks) && n < GateCount
    ensures gatePicks[n] < |GatePool| && ValidPicks(wirePicks[n], inputCount + n, NumInputs(GatePool[gatePicks[n]]))
    ensures CreatedNodes(inputCount, gatePicks, wirePicks, outputPicks)[inputCount + n]
      == Node(GatePool[gatePicks[n]], Sample(Range(inputCount + n), NumInputs(GatePool[gatePicks[n]]), wirePicks[n]), 0, n)
  {
    assert gatePicks[n] < |GatePool|;
    assert CreatedNodes(inputCount, gatePicks, wirePicks, outputPicks)[inputCount + n]
      == CreatedGate(inputCount, n, gatePicks[n], wirePicks[n]);
  }

  lemma PrefixStep<T>(s: seq<T>, i: nat)
    requires i < |s|
    ensures s[..i + 1] == s[..i] + [s[i]]
  {
  }

  /** create, third loop: one output node per wiring sample, each drawn from all nodeCount nodes. */
  method AddOutputNodes(outputs: seq<Node>, nodeCount: nat, outputPicks: seq<seq<nat>>) returns (r: seq<Node>)
    requires outputs == []
    requires forall o | 0 <= o < |outputPicks| :: ValidPicks(outputPicks[o], nodeCount, NumInputs(Output))
    ensures r == CreatedOutputs(nodeCount, outputPicks)
  {
    ghost var created := CreatedOutputs(nodeCount, outputPicks);
    r := outputs;
    for o := 0 to |outputPicks|
      invariant r == created[..o]
    {
      var node := FreshNode(Output);
      var positions := RandomSample(Range(nodeCount), NumInputs(Output), outputPicks[o]);
      node := node.(inputs := positions);
      PrefixStep(created, o);
      r := r + [node];
    }
    assert created[..|outputPicks|] == created;
  }

  /** getRecipe, inner loop: the class name, then each input node's stored index. */
  method IngredientBlocks(nodes: seq<Node>, node: Node) returns (ingredientBlocks: seq<string>)
    requires RefsBelow(node, |nodes|)
    ensures ingredientBlocks == [KindName(node.kind)] + RefTokens(nodes, node.inputs)
  {
    ingredientBlocks := [KindName(node.kind)];
    for j := 0 to |node.inputs|
      invariant ingredientBlocks == [KindName(node.kind)] + RefTokens(nodes, node.inputs[..j])
    {
      ingredientBlocks := ingredientBlocks + [Strings.NatToString(nodes[node.inputs[j]].index)];
    }
    assert node.inputs[..|node.inputs|] == node.inputs;
  }

  /** mutate, first loop: the positions of the nodes with at least one input. */
  method MutableNodeIndexes(nodes: seq<Node>) returns (indexes: seq<nat>)
    ensures indexes == MutablePositions(nodes)
  {
    indexes := [];
    for i := 0 to |nodes|
      invariant indexes == MutablePositions(nodes[..i])
    {
      MutablePositionsStep(nodes, i);
      if |nodes[i].inputs| > 0 {
        indexes := indexes + [i];
      }
    }
    assert nodes[..|nodes|] == nodes;
  }

  lemma MutablePositionsStep(nodes: seq<Node>, i: nat)
    requires i < |nodes|
    ensures MutablePositions(nodes[..i + 1]) == MutablePositions(nodes[..i]) + (if |nodes[i].inputs| > 0 then [i] else [])
  {
    var prefix := nodes[..i + 1];
    assert prefix[..i] == nodes[..i];
    assert prefix[i] == nodes[i];
  }

  /** mutate, inputsAvailable: the positions below n, in order. */
  method PositionsBelow(n: nat) returns (positions: seq<nat>)
    ensures positions == Range(n)
  {
    positions := [];
    for i := 0 to n
      invariant positions == Range(i)
    {
      positions := positions + [i];
    }
  }

  /** mutate, last loop: clear the node's inputs, then addInputNode for each sampled position. */
  method Reconnected(node: Node, positions: seq<nat>) returns (r: Node)
    ensures r == node.(inputs := positions)
  {
    r := node.(inputs := []);
    for k := 0 to |positions|
      invariant r == node.(inputs := positions[..k])
    {
      assert positions[..k + 1] == positions[..k] + [positions[k]];
      r := AddInputNode(r, positions[k]);
    }
    assert positions[..|positions|] == positions;
  }

  /**
   * createFromRecipe's loop over the blocks: append each decoded node, output
   * nodes to `outputs` and the rest to `nodes` with their position as index,
   * and stop at the first block that fails, keeping what was built before it.
   */
  method ReadBlocks(recipeBlocks: seq<string>) returns (built: Graph, failed: Option<DecodeError>)
    ensures WellFormed(built)
    ensures failed.None? <==> DecodeBlocks(recipeBlocks).Ok?
    ensures failed.None? ==> DecodeBlocks(recipeBlocks) == Ok(built)
    ensures failed.Some? ==> DecodeBlocks(recipeBlocks) == Err(failed.value)
    ensures failed.Some? ==> exists k :: FailsAt(recipeBlocks, k, built, failed.value)
  {
    built := Graph([], []);
    var nodeIndex := 0;
    for i := 0 to |recipeBlocks|
      invariant DecodeBlocks(recipeBlocks[..i]) == Ok(built)
      invariant nodeIndex == |built.nodes|
    {
      var instance := ReadBlock(built.nodes, recipeBlocks[i]);
      if instance.Err? {
        FirstFailingBlock(recipeBlocks, i, built);
        return built, Some(instance.error);
      }
      TakeNext(recipeBlocks, i);
      DecodeNextBlock(recipeBlocks[..i], recipeBlocks[i], built);
      if instance.value.kind == Output {
        built := built.(outputs := built.outputs + [instance.value]);
      } else {
        built := built.(nodes := built.nodes + [instance.value.(index := nodeIndex)]);
        nodeIndex := nodeIndex + 1;
      }
    }
    assert recipeBlocks[..|recipeBlocks|] == recipeBlocks;
    return built, None;
  }

  /**
   * One pass of createFromRecipe's loop: getNodeInstance on the first token,
   * the arity check, and this.nodes[parseInt(token)] for each index token.
   */
  method ReadBlock(nodes: seq<Node>, block: string) returns (r: Result<Node, DecodeError>)
    ensures r == DecodeBlock(nodes, block)
  {
    var ingredientBlocks := Strings.Split(block, ':');
    var className := ingredientBlocks[0];
    var kind := KindFromName(className);
    if kind.None? {
      return Err(UnknownKind(className));
    }
    var instance := FreshNode(kind.value);
    if kind.value != Input {
      if |ingredientBlocks| != NumInputs(kind.value) + 1 {
        return Err(WrongArity(block));
      }
      var refTokens := ingredientBlocks[1..];
      for j := 0 to |refTokens|
        invariant DecodeRefs(refTokens[..j], |nodes|) == Ok(instance.inputs)
        invariant instance == Node(kind.value, instance.inputs, 0, 0)
      {
        assert refTokens[..j + 1][..j] == refTokens[..j];
        var ref := Strings.ParseInt(refTokens[j]);
        if ref.None? || ref.value >= |nodes| {
          DecodeRefsErrorPersists(refTokens, |nodes|, j + 1);
          return Err(BadReference(refTokens[j]));
        }
        instance := AddInputNode(instance, ref.value);
      }
      assert refTokens[..|refTokens|] == refTokens;
    }
    return Ok(instance);
  }

  /** Block k is the first block of blocks that fails, with error e, and the blocks before it decode to g. */
  predicate FailsAt(blocks: seq<string>, k: nat, g: Graph, e: DecodeError)
  {
    k < |blocks| && DecodeBlocks(blocks[..k]) == Ok(g) && DecodeBlocks(blocks[..k + 1]) == Err(e)
  }

  /**
   * The first failing block is unique, so a failed decoding determines the
   * graph kept and the error, and that error is the whole recipe's.
   */
  lemma FailsAtUnique(blocks: seq<string>, k: nat, g: Graph, e: DecodeError, k': nat, g': Graph, e': DecodeError)
    requires FailsAt(blocks, k, g, e) && FailsAt(blocks, k', g', e')
    ensures k == k' && g == g' && e == e' && DecodeBlocks(blocks) == Err(e)
  {
    if k < k' {
      FailedPrefix(blocks, k, k');
      assert false;
    } else if k' < k {
      FailedPrefix(blocks, k', k);
      assert false;
    }
    DecodeErrorPersists(blocks, k + 1);
  }

  /** Once block k has failed, every longer prefix fails with the same error. */
  lemma FailedPrefix(blocks: seq<string>, k: nat, m: nat)
    requires k < m <= |blocks| && DecodeBlocks(blocks[..k + 1]).Err?
    ensures DecodeBlocks(blocks[..m]) == DecodeBlocks(blocks[..k + 1])
  {
    var prefix := blocks[..m];
    assert prefix[..k + 1] == blocks[..k + 1];
    DecodeErrorPersists(prefix, k + 1);
  }

  /** One more block extends the graph decoded so far when it decodes, and otherwise ends decoding with its error. */
  lemma DecodeNextBlock(front: seq<string>, block: string, built: Graph)
    requires DecodeBlocks(front) == Ok(built)
    ensures DecodeBlock(built.nodes, block).Ok? ==>
      DecodeBlocks(front + [block]) == Ok(Append(built, DecodeBlock(built.nodes, block).value))
    ensures DecodeBlock(built.nodes, block).Err? ==>
      DecodeBlocks(front + [block]) == Err(DecodeBlock(built.nodes, block).error)
  {
    var blocks := front + [block];
    assert blocks[..|blocks| - 1] == front;
  }

  /** So the first block that fails is where decoding stops, and its error is the whole recipe's. */
  lemma FirstFailingBlock(blocks: seq<string>, i: nat, built: Graph)
    requires i < |blocks| && DecodeBlocks(blocks[..i]) == Ok(built)
    requires DecodeBlock(built.nodes, blocks[i]).Err?
    ensures FailsAt(blocks, i, built, DecodeBlock(built.nodes, blocks[i]).error)
    ensures DecodeBlocks(blocks) == Err(DecodeBlock(built.nodes, blocks[i]).error)
  {
    TakeNext(blocks, i);
    DecodeNextBlock(blocks[..i], blocks[i], built);
    DecodeErrorPersists(blocks, i + 1);
  }

  /** Once a prefix of the blocks fails to decode, the whole recipe fails with the same error. */
  lemma {:induction false} DecodeErrorPersists(blocks: seq<string>, k: nat)
    requires k <= |blocks| && DecodeBlocks(blocks[..k]).Err?
    ensures DecodeBlocks(blocks) == DecodeBlocks(blocks[..k])
    decreases |blocks|
  {
    if k < |blocks| {
      var n := |blocks| - 1;
      assert blocks[..n][..k] == blocks[..k];
      DecodeErrorPersists(blocks[..n], k);
    } else {
      assert blocks[..k] == blocks;
    }
  }

  lemma {:induction false} DecodeRefsErrorPersists(tokens: seq<string>, bound: nat, k: nat)
    requires k <= |tokens| && DecodeRefs(tokens[..k], bound).Err?
    ensures DecodeRefs(tokens, bound) == DecodeRefs(tokens[..k], bound)
    decreases |tokens|
  {
    if k < |tokens| {
      var n := |tokens| - 1;
      assert tokens[..n][..k] == tokens[..k];
      DecodeRefsErrorPersists(tokens[..n], bound, k);
    } else {
      assert tokens[..k] == tokens;
    }
  }
}
