/**
 * The GenBot3 recipe codec (getRecipe and createFromRecipe in
 * src/bots/genbot3/genbot3.ts) as functions on an index arena.
 * A recipe lists `nodes` and then `outputs`, one block per node, blocks joined
 * by ','. A block is the kind token followed by the stored `index` of each input
 * node, joined by ':'.
 */
module Recipes {
  import opened Wrappers
  import opened Strings
  import opened Nodes

  /** A bot's brain: `nodes` (inputs then gates) and the separate output nodes. Inputs are positions in `nodes`. */
  datatype Graph = Graph(nodes: seq<Node>, outputs: seq<Node>)

  /**
   * The shape a GenBot3 keeps: `nodes` holds no output node, every node's
   * index is at most its position and its inputs lie before it; output nodes
   * read from `nodes` only. This is what makes a single forward pass evaluate the graph.
   */
  predicate WellFormed(g: Graph)
  {
    && (forall p | 0 <= p < |g.nodes| ::
          g.nodes[p].kind != Output && g.nodes[p].index <= p && RefsBelow(g.nodes[p], p))
    && (forall o | 0 <= o < |g.outputs| :: g.outputs[o].kind == Output && RefsBelow(g.outputs[o], |g.nodes|))
  }

  /** The number of inputs a block of this kind carries in a recipe: none for an input node. */
  function Arity(k: Kind): nat
  {
    if k == Input then 0 else NumInputs(k)
  }

  /** Every node holds exactly as many inputs as its kind declares (input nodes none). */
  predicate ArityComplete(g: Graph)
  {
    && (forall p | 0 <= p < |g.nodes| :: |g.nodes[p].inputs| == Arity(g.nodes[p].kind))
    && (forall o | 0 <= o < |g.outputs| :: |g.outputs[o].inputs| == Arity(g.outputs[o].kind))
  }

  /** What createFromRecipe builds: each node's index is its position, output nodes keep index 0, and every output is 0. */
  predicate Canonical(g: Graph)
  {
    && (forall p | 0 <= p < |g.nodes| :: g.nodes[p].index == p && g.nodes[p].output == 0)
    && (forall o | 0 <= o < |g.outputs| :: g.outputs[o].index == 0 && g.outputs[o].output == 0)
  }

  // ---------------------------------------------------------------- encoding

  /** inputNode.index.toString() for each input, in input order. */
  function RefTokens(nodes: seq<Node>, refs: seq<nat>): (r: seq<string>)
    requires forall i | 0 <= i < |refs| :: refs[i] < |nodes|
    ensures |r| == |refs|
    ensures forall i | 0 <= i < |r| :: r[i] == NatToString(nodes[refs[i]].index)
  {
    seq(|refs|, i requires 0 <= i < |refs| => NatToString(nodes[refs[i]].index))
  }

  function BlockOf(nodes: seq<Node>, node: Node): string
    requires RefsBelow(node, |nodes|)
  {
    Join([KindName(node.kind)] + RefTokens(nodes, node.inputs), ':')
  }

  /** The node that block k of a graph encodes. */
  function NodeAt(g: Graph, k: nat): Node
    requires k < |g.nodes| + |g.outputs|
  {
    if k < |g.nodes| then g.nodes[k] else g.outputs[k - |g.nodes|]
  }

  /** One block per node of `nodes`, then one per output node. */
  function Blocks(g: Graph): (r: seq<string>)
    requires WellFormed(g)
    ensures |r| == |g.nodes| + |g.outputs|
    ensures forall k | 0 <= k < |r| :: r[k] == BlockOf(g.nodes, NodeAt(g, k))
  {
    seq(|g.nodes| + |g.outputs|, i requires 0 <= i < |g.nodes| + |g.outputs| => BlockOf(g.nodes, NodeAt(g, i)))
  }

  function Recipe(g: Graph): string
    requires WellFormed(g)
  {
    Join(Blocks(g), ',')
  }

  // ---------------------------------------------------------------- decoding

  /**
   * Why a recipe is refused. UnknownKind and WrongArity are the source's
   * assertion failures; BadReference stands for an index token that does not
   * name an earlier node, which the source stores as an undefined input.
   */
  datatype DecodeError = UnknownKind(token: string) | WrongArity(block: string) | BadReference(token: string)

  /** this.nodes[parseInt(token)] for each token: the position it names, which must already exist. */
  function DecodeRefs(tokens: seq<string>, bound: nat): (r: Result<seq<nat>, DecodeError>)
    ensures r.Ok? <==> forall i | 0 <= i < |tokens| :: ParseInt(tokens[i]).Some? && ParseInt(tokens[i]).value < bound
    ensures r.Ok? ==> |r.value| == |tokens|
    ensures r.Ok? ==> forall i | 0 <= i < |tokens| :: ParseInt(tokens[i]) == Some(r.value[i])
    decreases |tokens|
  {
    if |tokens| == 0 then Ok([])
    else
      var last := tokens[|tokens| - 1];
      match DecodeRefs(tokens[..|tokens| - 1], bound)
      case Err(e) => Err(e)
      case Ok(refs) =>
        match ParseInt(last)
        case Some(ref) => if ref < bound then Ok(refs + [ref]) else Err(BadReference(last))
        case None => Err(BadReference(last))
  }

  /**
   * One block against the nodes decoded so far. An input-node block takes no
   * inputs whatever follows its token; any other block must carry exactly its
   * kind's number of index tokens.
   */
  function DecodeBlock(nodes: seq<Node>, block: string): (r: Result<Node, DecodeError>)
    ensures r.Ok? ==> KindFromName(Split(block, ':')[0]) == Some(r.value.kind)
    ensures r.Ok? ==> r.value.output == 0 && r.value.index == 0
    ensures r.Ok? ==> RefsBelow(r.value, |nodes|) && |r.value.inputs| == Arity(r.value.kind)
  {
    var tokens := Split(block, ':');
    match KindFromName(tokens[0])
    case None => Err(UnknownKind(tokens[0]))
    case Some(k) =>
      if k == Input then Ok(FreshNode(Input))
      else if |tokens| != NumInputs(k) + 1 then Err(WrongArity(block))
      else
        match DecodeRefs(tokens[1..], |nodes|)
        case Err(e) => Err(e)
        case Ok(refs) => Ok(Node(k, refs, 0, 0))
  }

  /**
   * getNodeInstance and the arity assertion: a block is accepted exactly when
   * its first token names a kind and, for any kind but the input node, it
   * carries that kind's number of index tokens, each naming an earlier node.
   */
  lemma DecodeBlockAccepts(nodes: seq<Node>, block: string)
    ensures var tokens := Split(block, ':');
      DecodeBlock(nodes, block).Ok? <==>
        && KindFromName(tokens[0]).Some?
        && (KindFromName(tokens[0]).value == Input ||
            (&& |tokens| == NumInputs(KindFromName(tokens[0]).value) + 1
             && forall i | 1 <= i < |tokens| :: ParseInt(tokens[i]).Some? && ParseInt(tokens[i]).value < |nodes|))
    ensures KindFromName(Split(block, ':')[0]).None? ==> DecodeBlock(nodes, block) == Err(UnknownKind(Split(block, ':')[0]))
  {
    var tokens := Split(block, ':');
    if KindFromName(tokens[0]).Some? && KindFromName(tokens[0]).value != Input && |tokens| == NumInputs(KindFromName(tokens[0]).value) + 1 {
      var rest := tokens[1..];
      assert forall i | 1 <= i < |tokens| :: tokens[i] == rest[i - 1];
    }
  }

  /** An output node joins `outputs`; any other node joins `nodes` with its position as index. */
  function Append(g: Graph, node: Node): Graph
  {
    if node.kind == Output then g.(outputs := g.outputs + [node])
    else g.(nodes := g.nodes + [node.(index := |g.nodes|)])
  }

  /** The blocks decoded in order; the first failing block decides the error. */
  function DecodeBlocks(blocks: seq<string>): (r: Result<Graph, DecodeError>)
    ensures r.Ok? ==> WellFormed(r.value) && ArityComplete(r.value) && Canonical(r.value)
    ensures r.Ok? ==> |r.value.nodes| + |r.value.outputs| == |blocks|
    decreases |blocks|
  {
    if |blocks| == 0 then Ok(Graph([], []))
    else
      match DecodeBlocks(blocks[..|blocks| - 1])
      case Err(e) => Err(e)
      case Ok(g) =>
        match DecodeBlock(g.nodes, blocks[|blocks| - 1])
        case Err(e) => Err(e)
        case Ok(node) => AppendKeepsShape(g, node); Ok(Append(g, node))
  }

  lemma AppendKeepsShape(g: Graph, node: Node)
    requires WellFormed(g) && ArityComplete(g) && Canonical(g)
    requires node.output == 0 && node.index == 0 && RefsBelow(node, |g.nodes|) && |node.inputs| == Arity(node.kind)
    ensures var r := Append(g, node);
      && WellFormed(r) && ArityComplete(r) && Canonical(r)
      && |r.nodes| + |r.outputs| == |g.nodes| + |g.outputs| + 1
  {
  }

  /** A recipe decodes, if at all, to a well-formed, complete and canonical graph with one node per block. */
  function Decode(recipe: string): (r: Result<Graph, DecodeError>)
    ensures r.Ok? ==> WellFormed(r.value) && ArityComplete(r.value) && Canonical(r.value)
    ensures r.Ok? ==> |r.value.nodes| + |r.value.outputs| == |Split(recipe, ',')|
  {
    DecodeBlocks(Split(recipe, ','))
  }

  // ---------------------------------------------------------------- round trip

  /**
   * What a recipe carries of a graph: each input reference becomes the stored
   * index of the node it points at, indexes become positions, outputs reset to 0.
   */
  function Rewire(nodes: seq<Node>, node: Node, index: nat): (r: Node)
    requires RefsBelow(node, |nodes|)
    ensures r.kind == node.kind && |r.inputs| == |node.inputs|
    ensures forall i | 0 <= i < |r.inputs| :: r.inputs[i] == nodes[node.inputs[i]].index
  {
    Node(node.kind, IndexesOf(nodes, node.inputs), 0, index)
  }

  /** The stored index of each referenced node. */
  function IndexesOf(nodes: seq<Node>, refs: seq<nat>): (r: seq<nat>)
    requires forall i | 0 <= i < |refs| :: refs[i] < |nodes|
    ensures |r| == |refs| && forall i | 0 <= i < |refs| :: r[i] == nodes[refs[i]].index
  {
    seq(|refs|, i requires 0 <= i < |refs| => nodes[refs[i]].index)
  }

  function Rewired(g: Graph): (r: Graph)
    requires WellFormed(g)
    ensures |r.nodes| == |g.nodes| && |r.outputs| == |g.outputs|
  {
    Graph(
      seq(|g.nodes|, p requires 0 <= p < |g.nodes| => Rewire(g.nodes, g.nodes[p], p)),
      seq(|g.outputs|, o requires 0 <= o < |g.outputs| => Rewire(g.nodes, g.outputs[o], 0)))
  }

  /** The first k blocks' worth of a graph: a prefix of `nodes`, or all of them and a prefix of `outputs`. */
  function Prefix(g: Graph, k: nat): Graph
    requires k <= |g.nodes| + |g.outputs|
  {
    if k <= |g.nodes| then Graph(g.nodes[..k], []) else Graph(g.nodes, g.outputs[..k - |g.nodes|])
  }

  lemma PrefixFull(g: Graph)
    ensures Prefix(g, |g.nodes| + |g.outputs|) == g
  {
    assert g.nodes[..|g.nodes|] == g.nodes && g.outputs[..|g.outputs|] == g.outputs;
  }

  lemma {:induction false} DecodeRefTokens(nodes: seq<Node>, refs: seq<nat>, bound: nat)
    requires forall i | 0 <= i < |refs| :: refs[i] < |nodes| && nodes[refs[i]].index < bound
    ensures DecodeRefs(RefTokens(nodes, refs), bound) == Ok(IndexesOf(nodes, refs))
    decreases |refs|
  {
    var tokens := RefTokens(nodes, refs);
    if |refs| > 0 {
      var n := |refs| - 1;
      DecodeRefTokens(nodes, refs[..n], bound);
      assert RefTokens(nodes, refs[..n]) == tokens[..n];
      ParseIntNatToString(nodes[refs[n]].index);
      var values := IndexesOf(nodes, refs);
      var front := IndexesOf(nodes, refs[..n]);
      assert front + [values[n]] == values;
      assert DecodeRefs(tokens[..n], bound) == Ok(front);
      assert tokens[n] == NatToString(nodes[refs[n]].index);
    }
  }

  /** Block k splits on ':' into its kind token and its index tokens, and holds no ','. */
  lemma BlockTokens(g: Graph, k: nat)
    requires WellFormed(g) && k < |g.nodes| + |g.outputs|
    ensures Split(Blocks(g)[k], ':') == [KindName(NodeAt(g, k).kind)] + RefTokens(g.nodes, NodeAt(g, k).inputs)
    ensures ',' !in Blocks(g)[k]
  {
    var node := NodeAt(g, k);
    var tokens := RefTokens(g.nodes, node.inputs);
    var parts := [KindName(node.kind)] + tokens;
    KindNameRoundTrip(node.kind);
    forall i | 0 <= i < |parts| ensures ':' !in parts[i] && ',' !in parts[i] {
      if i > 0 {
        assert parts[i] == tokens[i - 1];
        DigitsAvoid(parts[i], ':');
        DigitsAvoid(parts[i], ',');
      }
    }
    assert Blocks(g)[k] == Join(parts, ':');
    SplitJoin(parts, ':');
    JoinAvoids(parts, ':', ',');
  }

  /** A block whose tokens are a known kind and, unless it is an input node, exactly its references. */
  lemma DecodeBlockOfTokens(nodes: seq<Node>, block: string, k: Kind, tokens: seq<string>, refs: seq<nat>)
    requires Split(block, ':') == [KindName(k)] + tokens
    requires k == Input || (|tokens| == NumInputs(k) && DecodeRefs(tokens, |nodes|) == Ok(refs))
    ensures DecodeBlock(nodes, block) == Ok(if k == Input then FreshNode(Input) else Node(k, refs, 0, 0))
  {
    KindNameRoundTrip(k);
    assert ([KindName(k)] + tokens)[1..] == tokens;
  }

  /** The node block k decodes to, before it is appended. */
  function DecodedNode(g: Graph, k: nat): Node
    requires WellFormed(g) && k < |g.nodes| + |g.outputs|
  {
    var node := NodeAt(g, k);
    if node.kind == Input then FreshNode(Input) else Node(node.kind, IndexesOf(g.nodes, node.inputs), 0, 0)
  }

  /** Block k of a well-formed graph decodes, against the rewired nodes before it. */
  lemma DecodeOneBlock(g: Graph, k: nat)
    requires WellFormed(g) && k < |g.nodes| + |g.outputs|
    requires |NodeAt(g, k).inputs| == Arity(NodeAt(g, k).kind)
    ensures DecodeBlock(Prefix(Rewired(g), k).nodes, Blocks(g)[k]) == Ok(DecodedNode(g, k))
  {
    var before := Prefix(Rewired(g), k);
    var node := NodeAt(g, k);
    var bound := if k < |g.nodes| then k else |g.nodes|;
    assert |before.nodes| == bound;
    BlockTokens(g, k);
    var tokens := RefTokens(g.nodes, node.inputs);
    var refs := IndexesOf(g.nodes, node.inputs);
    if node.kind != Input {
      forall i | 0 <= i < |node.inputs|
        ensures node.inputs[i] < |g.nodes| && g.nodes[node.inputs[i]].index < bound
      {
        assert node.inputs[i] < bound;
        assert g.nodes[node.inputs[i]].index <= node.inputs[i];
      }
      DecodeRefTokens(g.nodes, node.inputs, bound);
      assert DecodeRefs(tokens, |before.nodes|) == Ok(refs);
    }
    DecodeBlockOfTokens(before.nodes, Blocks(g)[k], node.kind, tokens, refs);
  }

  /** Appending the node block k decodes to extends the prefix by one. */
  lemma AppendDecodedNode(g: Graph, k: nat)
    requires WellFormed(g) && k < |g.nodes| + |g.outputs|
    requires |NodeAt(g, k).inputs| == Arity(NodeAt(g, k).kind)
    ensures Append(Prefix(Rewired(g), k), DecodedNode(g, k)) == Prefix(Rewired(g), k + 1)
  {
    var h := Rewired(g);
    var before := Prefix(h, k);
    var d := DecodedNode(g, k);
    if k < |g.nodes| {
      assert h.nodes[k] == d.(index := k);
      assert h.nodes[..k + 1] == h.nodes[..k] + [h.nodes[k]];
    } else {
      var o := k - |g.nodes|;
      assert h.outputs[o] == d;
      assert h.nodes[..|g.nodes|] == h.nodes;
      assert h.outputs[..o + 1] == h.outputs[..o] + [h.outputs[o]];
    }
  }

  /** The nodes behind the first k blocks carry their full arity: no more of the graph need be complete for those blocks to decode. */
  predicate CompleteBelow(g: Graph, k: nat)
  {
    forall j | 0 <= j < k && j < |g.nodes| + |g.outputs| :: |NodeAt(g, j).inputs| == Arity(NodeAt(g, j).kind)
  }

  /** In a graph whose nodes all carry their full arity, every prefix of the recipe decodes. */
  lemma DecodeCompletePrefix(g: Graph, k: nat)
    requires WellFormed(g) && ArityComplete(g) && k <= |g.nodes| + |g.outputs|
    ensures DecodeBlocks(Blocks(g)[..k]) == Ok(Prefix(Rewired(g), k))
  {
    DecodePrefix(g, k);
  }

  lemma {:induction false} DecodePrefix(g: Graph, k: nat)
    requires WellFormed(g) && CompleteBelow(g, k) && k <= |g.nodes| + |g.outputs|
    ensures DecodeBlocks(Blocks(g)[..k]) == Ok(Prefix(Rewired(g), k))
    decreases k
  {
    if k > 0 {
      DecodePrefix(g, k - 1);
      assert Blocks(g)[..k][..k - 1] == Blocks(g)[..k - 1];
      DecodeOneBlock(g, k - 1);
      AppendDecodedNode(g, k - 1);
    }
  }

  /** A recipe splits on ',' into its blocks. */
  lemma RecipeSplits(g: Graph)
    requires WellFormed(g) && |g.nodes| + |g.outputs| >= 1
    ensures Split(Recipe(g), ',') == Blocks(g)
  {
    var blocks := Blocks(g);
    forall i | 0 <= i < |blocks| ensures ',' !in blocks[i] {
      BlockTokens(g, i);
    }
    SplitJoin(blocks, ',');
  }

  lemma DecodeBlocksOfGraph(g: Graph)
    requires WellFormed(g) && ArityComplete(g)
    ensures DecodeBlocks(Blocks(g)) == Ok(Rewired(g))
  {
    var n := |g.nodes| + |g.outputs|;
    assert Blocks(g)[..n] == Blocks(g);
    DecodeCompletePrefix(g, n);
    PrefixFull(Rewired(g));
  }

  /**
   * Any well-formed graph whose nodes carry their full arity writes a recipe
   * that decodes, to the graph with every reference replaced by the stored
   * index of the node it pointed at.
   */
  lemma RecipeDecodes(g: Graph)
    requires WellFormed(g) && ArityComplete(g) && |g.nodes| + |g.outputs| >= 1
    ensures Decode(Recipe(g)) == Ok(Rewired(g))
  {
    RecipeSplits(g);
    DecodeBlocksOfGraph(g);
  }

  /** Rewiring changes no token: a reference to node r is written as r's index either way. */
  lemma RewiredRecipe(g: Graph)
    requires WellFormed(g)
    ensures WellFormed(Rewired(g)) && Recipe(Rewired(g)) == Recipe(g)
  {
    var h := Rewired(g);
    forall o | 0 <= o < |h.outputs| ensures RefsBelow(h.outputs[o], |h.nodes|) {
      forall i | 0 <= i < |h.outputs[o].inputs| ensures h.outputs[o].inputs[i] < |h.nodes| {
        assert g.nodes[g.outputs[o].inputs[i]].index <= g.outputs[o].inputs[i];
      }
    }
    forall p | 0 <= p < |h.nodes| ensures RefsBelow(h.nodes[p], p) {
      forall i | 0 <= i < |h.nodes[p].inputs| ensures h.nodes[p].inputs[i] < p {
        assert g.nodes[g.nodes[p].inputs[i]].index <= g.nodes[p].inputs[i];
      }
    }
    forall i | 0 <= i < |Blocks(g)| ensures Blocks(h)[i] == Blocks(g)[i] {
      var node := if i < |g.nodes| then g.nodes[i] else g.outputs[i - |g.nodes|];
      var node' := if i < |g.nodes| then h.nodes[i] else h.outputs[i - |g.nodes|];
      forall j | 0 <= j < |node.inputs|
        ensures RefTokens(h.nodes, node'.inputs)[j] == RefTokens(g.nodes, node.inputs)[j]
      {
        var q := g.nodes[node.inputs[j]].index;
        assert node'.inputs[j] == q;
        assert h.nodes[q].index == q;
      }
      assert RefTokens(h.nodes, node'.inputs) == RefTokens(g.nodes, node.inputs);
    }
    assert Blocks(h) == Blocks(g);
  }

  /**
   * The round trip of getRecipe after createFromRecipe: re-encoding what a
   * written recipe decodes to gives back that recipe, character for character.
   */
  lemma RecipeRoundTrip(g: Graph)
    requires WellFormed(g) && ArityComplete(g) && |g.nodes| + |g.outputs| >= 1
    ensures Decode(Recipe(g)).Ok?
    ensures WellFormed(Decode(Recipe(g)).value) && Recipe(Decode(Recipe(g)).value) == Recipe(g)
  {
    RecipeDecodes(g);
    RewiredRecipe(g);
  }

  /** A canonical graph is its own rewiring. */
  lemma RewiredCanonical(g: Graph)
    requires WellFormed(g) && Canonical(g)
    ensures Rewired(g) == g
  {
    var h := Rewired(g);
    forall p | 0 <= p < |g.nodes| ensures h.nodes[p] == g.nodes[p] {
      forall i | 0 <= i < |g.nodes[p].inputs| ensures h.nodes[p].inputs[i] == g.nodes[p].inputs[i] {
        assert g.nodes[p].inputs[i] < |g.nodes|;
      }
    }
    forall o | 0 <= o < |g.outputs| ensures h.outputs[o] == g.outputs[o] {
      forall i | 0 <= i < |g.outputs[o].inputs| ensures h.outputs[o].inputs[i] == g.outputs[o].inputs[i] {
        assert g.outputs[o].inputs[i] < |g.nodes|;
      }
    }
    assert h.nodes == g.nodes && h.outputs == g.outputs;
  }

  /** A decoded graph is its own rewiring: decoding its recipe gives it back. */
  lemma DecodeIsFixpoint(recipe: string)
    requires Decode(recipe).Ok?
    ensures var g := Decode(recipe).value; Decode(Recipe(g)) == Ok(g)
  {
    var g := Decode(recipe).value;
    assert |g.nodes| + |g.outputs| == |Split(recipe, ',')| >= 1;
    RecipeDecodes(g);
    RewiredCanonical(g);
  }
}
