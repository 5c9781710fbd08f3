# Genetic game bots: a Dafny model

This project models the core of a TypeScript system that evolves game-playing bots.
The game is naughts and crosses (tic-tac-toe). The evolved bot, GenBot3, has a brain
made of boolean gates. It plays batches of games against a fixed opponent. After each
generation the best bots are kept, cloned and mutated.

The model covers four parts, one Dafny module per source file:

- **The GenBot3 brain and its recipe codec** (`nodes.dfy`, `recipe.dfy`, `genbot3.dfy`,
  with `misc.dfy` for the sampling helpers and `strings.dfy` for the JavaScript string
  built-ins the codec uses).
  - The brain is an index arena: input nodes, then 100 random gates, each wired to
    earlier nodes, plus a separate list of summing output nodes.
  - It is written to a text recipe of `Kind:i:j` blocks joined by `,`, and read back from one.
  - It is mutated one node at a time.
  - It is evaluated in one forward pass to choose a move.
  - What is proved:
    - acyclicity is kept;
    - one forward pass computes every node's value;
    - the recipe round-trips, character for character, for every well-formed brain whose
      nodes all carry their full arity;
    - a decode error is the first failing block's error;
    - `create` and `mutate` give well-formed brains.
  - Also proved: a brain's recipe decodes exactly when every node carries its full arity,
    and decoding fails at the first gate that does not. A mutated gate whose stored index
    is below its arity loses inputs, but a bot rebuilt from a recipe stores each node's
    position as its index, so mutating it always leaves a recipe that decodes.
- **Naughts and crosses** (`board.dfy`, `naughtsbot.dfy`, `minimaxbot.dfy`, `singlegame.dfy`).
  - Covered: the board, the 18-value input vector and its inverse, line classification,
    rotation and un-rotation, and the rules of one game.
  - The minimax bot's fail-soft alpha-beta search is proved against plain minimax. In the
    window (-999, 999) that the bot uses, it returns exactly the minimax value.
  - The bot's shortcuts (win, block, opening) are proved to do what their comments say.
  - The outcome test's quirk is stated as a lemma: a full board is reported as a draw
    unless line 0-1-2 is complete.
- **Game, result and batch bookkeeping** (`gameresult.dfy`, `gameplayer.dfy`,
  `gamebase.dfy`, `tally.dfy`, `batch.dfy`).
  - Players and results are classes with their own fields.
  - The turn loop is proved to play the game out exactly as the rules' reference playout does.
  - A batch keeps an invariant tying its counters to the outcomes it processed:
    - the games played equal the draws plus the summed wins;
    - each total is the sum of that identity's scores;
    - the reported scores are the identities' means.
  - The magic batch's first-in first-out exploration is proved equal to a reference definition.
- **The genetic loop** (`processor.dfy`, `geneticrunner.dfy`).
  - The processor yields one output per sample, in order. Each output holds the sample's
    state and its mean score.
  - A generation is modelled as a function on (elites, threshold):
    - build the candidates;
    - score them;
    - filter by the threshold;
    - pad with earlier elites;
    - sort in non-increasing order (a permutation);
    - keep the head;
    - raise the threshold.
  - The runner's loop is proved to compute the generations one after another, with
    every candidate clonable. The runner mutates only clones rebuilt from a recipe, and
    those keep a recipe that decodes (Genbot3.MutateOfDecodedKeepsArity).
  - Proved about the threshold: it never falls and never drops below its start of -999.
    After an improving generation it is the top elite's score.
  - Proved about the elites: every elite holds a name, so cloning one always passes the
    runner's identity check.

Randomness is never drawn inside the model:
- `Math.random()` becomes explicit picks, bounded by the list they index, or `:|` choices.
- The bots' moves become function parameters of the game. A batch gets one move function
  per game, or per step of a magic batch, so the games of a batch may all differ.
- The runner's `create()`, `mutate()` and batch scores become oracles. These are keyed by
  the generation and the candidate's position.

Every property is therefore stated for every outcome of chance.

## Model

| member | source | states |
|---|---|---|
| Strings.Split | src/bots/genbot3/genbot3.ts:139-141 | `split` always yields at least one piece, and no piece holds the separator |
| Strings.SplitPrepend | src/bots/genbot3/genbot3.ts:139-141 | a separator-free prefix joins the first piece of what follows it |
| Strings.SplitWithoutSeparator | src/bots/genbot3/genbot3.ts:141-142 | a block without ':' splits into itself alone, so its first token is the whole block |
| Strings.SplitJoin | src/bots/genbot3/genbot3.ts:139-141 | splitting a `join` on the same separator gives back the parts when none of them holds the separator |
| Strings.JoinAvoids | src/bots/genbot3/genbot3.ts:88-91 | a character that is neither the separator nor in any part is not in the joined string (blocks hold no ',') |
| Strings.NatToString | src/bots/genbot3/genbot3.ts:85 | `index.toString()` is a non-empty run of decimal digits without a leading zero |
| Strings.DigitsValueOfNatToString | src/bots/genbot3/genbot3.ts:85 | the digits written for n have the value n |
| Strings.ParseIntNatToString | src/bots/genbot3/genbot3.ts:150 | `parseInt` reads back exactly the number `toString` wrote |
| Strings.ParseInt | src/bots/genbot3/genbot3.ts:150 | a number comes back exactly when the token starts with a digit, and a token of digits alone reads as its decimal value |
| Misc.RandomChoice | src/lib/support/misc.ts:1-3 | a value exists exactly when the list is non-empty, and it is the element at the picked position |
| Misc.Range | src/lib/support/misc.ts:10-13 | the index list holds 0 .. n - 1 in order |
| Misc.Remaining | src/lib/support/misc.ts:16-19 | after the draws, n minus the number of draws positions remain, all below n |
| Misc.Drawn | src/lib/support/misc.ts:16-19 | one position is drawn per draw, each below n |
| Misc.RandomSample | src/lib/support/misc.ts:5-22 | the loop returns the list itself when count covers it and otherwise exactly count items, the ones at the drawn positions |
| Misc.DrawnProperties | src/lib/support/misc.ts:16-19 | splicing never draws a position twice, and a drawn position no longer remains |
| Misc.RemoveAt | src/lib/support/misc.ts:17 | splicing one entry out of a repeat-free list leaves it repeat-free and without that entry |
| Misc.SampleFromDistinctPositions | src/lib/support/misc.ts:5-22 | below its length, the sample is count items taken from pairwise distinct positions of the list |
| Misc.SampleOfRange | src/bots/genbot3/genbot3.ts:182-186 | sampling the positions below n gives min(count, n) distinct positions below n |
| Nodes.KindFromName | src/bots/genbot3/genbot3.ts:40-66 | a recognised class name gives back a kind whose token is that name; an unknown one gives none |
| Nodes.KindNameRoundTrip | src/bots/genbot3/genbot3.ts:40-66 | every kind's class name is recognised as that kind and holds neither ',' nor ':' |
| Nodes.AddInputNode | src/bots/genbot3/nodebase.ts:7-9 | the new input is appended after the existing ones, and nothing else about the node changes |
| Nodes.GateTruthTables | src/bots/genbot3/nodes.ts:9-35 | NOT, AND, OR and XOR output 1 exactly when the boolean connective holds of their (truthy) inputs |
| Nodes.NegatedGates | src/bots/genbot3/nodes.ts:37-61 | NAND, NOR and XNOR output the complement of AND, OR and XOR |
| Nodes.GateOutputIsBit | src/bots/genbot3/nodes.ts:9-61 | every gate outputs 0 or 1 |
| Nodes.GateReadsOnlyItsArity | src/bots/genbot3/nodes.ts:9-61 | a gate ignores every input beyond its declared number of inputs |
| Nodes.OutputSumBounds | src/bots/genbot3/nodes.ts:69-76 | with 0/1 inputs the output node's sum lies between 0 and the number of inputs |
| Nodes.SumInputs | src/bots/genbot3/nodes.ts:69-76 | the running-total loop computes the output node's sum |
| Nodes.Outputs | src/bots/genbot3/nodebase.ts:16-19 | one value per input node, the output that node currently holds, in input order |
| Nodes.Update | src/bots/genbot3/nodebase.ts:15-22 | the gather loop sets the output to process of the inputs' outputs, and kind, wiring and index stay as they were |
| Nodes.UpdateIdempotent | src/bots/genbot3/nodebase.ts:15-22 | updating a node whose inputs lie before it twice gives what updating it once gives |
| Recipes.RefTokens | src/bots/genbot3/genbot3.ts:84-86 | one token per input, the decimal stored index of the node that input points at |
| Recipes.Blocks | src/bots/genbot3/genbot3.ts:79-89 | one block per node of `nodes` and then per output node, each the block of that node |
| Recipes.DecodeRefs | src/bots/genbot3/genbot3.ts:149-151 | the index tokens are accepted exactly when each parses to a position of a node already built, and then give those positions |
| Recipes.DecodeBlock | src/bots/genbot3/genbot3.ts:141-152 | an accepted block gives a fresh node of the kind its first token names, with its kind's number of inputs, all earlier nodes |
| Recipes.DecodeBlockAccepts | src/bots/genbot3/genbot3.ts:142-151 | a block is accepted exactly when its class name is known and, unless it is an input node, it carries exactly that kind's number of index tokens, each naming an earlier node |
| Recipes.DecodeBlocks | src/bots/genbot3/genbot3.ts:138-161 | a decoded recipe is well formed, every node carries its full arity, indexes are positions and outputs are 0, one node per block |
| Recipes.Decode | src/bots/genbot3/genbot3.ts:134-162 | a recipe that decodes gives a well-formed, complete, canonical graph with one node per comma-separated block |
| Recipes.AppendKeepsShape | src/bots/genbot3/genbot3.ts:154-160 | appending a decoded node keeps the graph well formed, complete and canonical |
| Recipes.Rewire | src/bots/genbot3/genbot3.ts:84-85 | what a recipe keeps of a node: its kind, and each input replaced by the stored index of the node it pointed at |
| Recipes.IndexesOf | src/bots/genbot3/genbot3.ts:84-85 | the stored index of every referenced node, in input order |
| Recipes.Rewired | src/bots/genbot3/genbot3.ts:84-85 | rewiring keeps the number of nodes and of output nodes |
| Recipes.DecodeRefTokens | src/bots/genbot3/genbot3.ts:149-151 | the index tokens written for a node's inputs parse back to the stored indexes of those inputs |
| Recipes.BlockTokens | src/bots/genbot3/genbot3.ts:83-88 | a block splits on ':' into its class name and its index tokens, and holds no ',' |
| Recipes.DecodeBlockOfTokens | src/bots/genbot3/genbot3.ts:141-151 | a block of a known class name followed by exactly its references decodes to that node |
| Recipes.DecodeOneBlock | src/bots/genbot3/genbot3.ts:140-152 | block k of a written recipe decodes against the nodes decoded before it |
| Recipes.AppendDecodedNode | src/bots/genbot3/genbot3.ts:154-160 | each decoded block extends the rebuilt graph by one node, output nodes to `outputNodes` and the rest to `nodes` |
| Recipes.DecodePrefix | src/bots/genbot3/genbot3.ts:140-161 | when the nodes behind the first k blocks carry their full arity, those blocks of a written recipe decode to the first k nodes of the rewired graph |
| Recipes.RecipeSplits | src/bots/genbot3/genbot3.ts:88-91 | a recipe splits on ',' into exactly its blocks |
| Recipes.DecodeBlocksOfGraph | src/bots/genbot3/genbot3.ts:139-161 | the blocks of a well-formed, complete graph decode to its rewiring |
| Recipes.RecipeDecodes | src/bots/genbot3/genbot3.ts:77-161 | the recipe of any well-formed graph whose nodes carry their full arity decodes, to the graph with each reference replaced by the stored index it was written as |
| Recipes.RewiredRecipe | src/bots/genbot3/genbot3.ts:84-86 | rewiring changes no character of the recipe |
| Recipes.RecipeRoundTrip | src/bots/genbot3/genbot3.ts:77-162 | re-encoding what a recipe decodes to gives back that recipe, character for character |
| Recipes.RewiredCanonical | src/bots/genbot3/genbot3.ts:156-159 | a graph whose indexes are its positions is its own rewiring |
| Recipes.DecodeIsFixpoint | src/bots/genbot3/genbot3.ts:134-162 | a decoded graph's recipe decodes to that same graph |
| Genbot3.Loaded | src/bots/genbot3/genbot3.ts:200-202 | `setValue` puts input p into node p for every given input and leaves wiring and every other output alone |
| Genbot3.ForwardPass | src/bots/genbot3/genbot3.ts:205-207 | updating positions lo .. hi - 1 keeps the wiring acyclic and leaves every node outside that range as it was |
| Genbot3.Evaluate | src/bots/genbot3/genbot3.ts:199-207 | loading the inputs and then updating the rest changes outputs only |
| Genbot3.ValueOfSameShape | src/bots/genbot3/genbot3.ts:199-207 | what a node stands for depends on kinds and wiring only, never on outputs left from an earlier move |
| Genbot3.ValueOfGate | src/bots/genbot3/genbot3.ts:205-207 | a node past the inputs stands for its kind's process of what its inputs stand for |
| Genbot3.PassComputesValues | src/bots/genbot3/genbot3.ts:205-207 | after the update loop reaches hi, every node before hi holds the value it stands for |
| Genbot3.EvaluateComputesValues | src/bots/genbot3/genbot3.ts:199-207 | one forward pass suffices: after process every node holds the value it stands for, because each reads only earlier nodes |
| Genbot3.OutputsComputeSums | src/bots/genbot3/genbot3.ts:210-212 | after process every output node holds the sum of the values of its inputs |
| Genbot3.EvaluateIdempotent | src/bots/genbot3/genbot3.ts:199-207 | processing the same inputs a second time leaves every node as the first pass left it |
| Genbot3.CreatedNodes | src/bots/genbot3/genbot3.ts:104-124 | create builds inputCount input nodes and then exactly numNodes (100) gates |
| Genbot3.CreatedOutputs | src/bots/genbot3/genbot3.ts:127-131 | create builds one output node per output |
| Genbot3.CreateProperties | src/bots/genbot3/genbot3.ts:103-132 | with at least three inputs, create builds a well-formed arena: inputs first, gate n a pool gate with index n, every node with its kind's number of pairwise distinct earlier inputs, output nodes likewise over all nodes |
| Genbot3.CreatedGateProperties | src/bots/genbot3/genbot3.ts:113-124 | gate n is a pool gate with index n and its kind's number of distinct inputs, all among the nodes before it |
| Genbot3.MutablePositions | src/bots/genbot3/genbot3.ts:165-170 | exactly the positions of the nodes with at least one input |
| Genbot3.MutateProperties | src/bots/genbot3/genbot3.ts:164-191 | mutate changes one node with at least one input and nothing else; a replacement is a pool gate whose index is its position; the node ends with min(arity, index) distinct inputs below its index, so the arena stays well formed |
| Genbot3.MutateCanDropArity | src/bots/genbot3/genbot3.ts:181-190 | rewiring draws from the positions below the stored index, so a node whose index is below its arity (gate 0 of a created bot) is left with too few inputs |
| Genbot3.BareInputAccepted | src/bots/genbot3/genbot3.ts:145-159 | a bare NodeInput block skips the arity check and decodes to a fresh input node |
| Genbot3.BareGateRefused | src/bots/genbot3/genbot3.ts:145-147 | a bare block of any other kind fails the arity assertion |
| Genbot3.ShortGateRecipeFails | src/bots/genbot3/genbot3.ts:134-162 | in any well-formed brain, a gate whose reference count differs from its arity, with every node before it complete, makes the recipe fail with that block's arity error |
| Genbot3.ShortBlockRefused | src/bots/genbot3/genbot3.ts:140-147 | the blocks before a short gate decode, and its own block then fails the arity assertion |
| Genbot3.RecipeDecodesIffComplete | src/bots/genbot3/genbot3.ts:77-162 | a well-formed brain whose input nodes hold no references writes a recipe that decodes if and only if every node carries its full arity |
| Genbot3.FirstShortGateFails | src/bots/genbot3/genbot3.ts:140-161 | scanning the blocks in order, the first node short of its arity stops decoding with an error |
| Genbot3.MutateOfDecodedKeepsArity | src/bots/genbot3/genbot3.ts:154-190 | a bot rebuilt from a recipe stores each node's position as its index and starts with input nodes, so after mutate every node still carries its full arity and the recipe decodes to the rewired brain |
| Genbot3.GenBot3.constructor | src/bots/genbot3/genbot3.ts:68-75 | a new bot has no nodes and no output nodes |
| Genbot3.GenBot3.GetRecipe | src/bots/genbot3/genbot3.ts:77-92 | the loop writes exactly the recipe of the bot's graph |
| Genbot3.GenBot3.CreateFromRecipe | src/bots/genbot3/genbot3.ts:134-162 | succeeds exactly when the recipe decodes, and the bot is then the decoded graph; otherwise it reports the first failing block's error, and the bot keeps the graph the blocks before that block decode to |
| Genbot3.FailsAtUnique | src/bots/genbot3/genbot3.ts:134-162 | the first failing block of a recipe is unique, so a failed createFromRecipe determines the graph kept and the error, and that error is the whole recipe's |
| Genbot3.FailedPrefix | src/bots/genbot3/genbot3.ts:140-147 | once a block has failed, every longer run of blocks fails with that block's error |
| Genbot3.GenBot3.GetState | src/bots/genbot3/genbot3.ts:94-96 | the state is the name "GenBot3" and the bot's recipe |
| Genbot3.GenBot3.SetState | src/bots/genbot3/genbot3.ts:98-101 | a state without a recipe fails and leaves the bot with empty node lists, as createFromRecipe has cleared them before `split` throws; otherwise it succeeds exactly when the recipe decodes, the bot becomes the decoded graph, and a failure leaves the graph of the blocks before the first failing one |
| Genbot3.GenBot3.Create | src/bots/genbot3/genbot3.ts:103-132 | the bot becomes the created brain, whose nodes all carry their full arity |
| Genbot3.GenBot3.Mutate | src/bots/genbot3/genbot3.ts:164-191 | the nodes become the mutated nodes and the output nodes stay; it fails only when no node has an input and the coin keeps the (undefined) node |
| Genbot3.GenBot3.Process | src/bots/genbot3/genbot3.ts:199-224 | nodes and output nodes become the evaluated ones, and the move returned is an available move whose output node holds the smallest value, the lowest such move on ties; none without moves |
| Genbot3.LoadInputs | src/bots/genbot3/genbot3.ts:200-202 | the loop loads exactly the inputs |
| Genbot3.UpdateFrom | src/bots/genbot3/genbot3.ts:205-207 | the loop performs the forward pass from position lo to the end |
| Genbot3.UpdateOutputs | src/bots/genbot3/genbot3.ts:210-212 | the loop updates every output node against the evaluated nodes |
| Genbot3.ChooseMove | src/bots/genbot3/genbot3.ts:215-223 | the first key of the stable sort is an available move that ranks first: the smallest output, the lowest move on ties |
| Genbot3.AddInputNodes | src/bots/genbot3/genbot3.ts:108-110 | count fresh input nodes are appended and the nodes before them kept |
| Genbot3.AddGates | src/bots/genbot3/genbot3.ts:113-124 | the loop appends exactly the created gates |
| Genbot3.AddOutputNodes | src/bots/genbot3/genbot3.ts:127-131 | the loop builds exactly the created output nodes |
| Genbot3.IngredientBlocks | src/bots/genbot3/genbot3.ts:82-86 | the class name followed by the index token of each input |
| Genbot3.MutableNodeIndexes | src/bots/genbot3/genbot3.ts:165-170 | the forEach collects exactly the mutable positions, in order |
| Genbot3.PositionsBelow | src/bots/genbot3/genbot3.ts:182-185 | `inputsAvailable` is 0 .. n - 1 in order |
| Genbot3.Reconnected | src/bots/genbot3/genbot3.ts:187-190 | the node's inputs become exactly the sampled positions |
| Genbot3.ReadBlock | src/bots/genbot3/genbot3.ts:141-151 | one pass of the decode loop gives exactly the block's decoding |
| Genbot3.ReadBlocks | src/bots/genbot3/genbot3.ts:137-161 | the decode loop builds the graph the blocks decode to, or stops at the first failing block with its error and keeps the graph of the blocks before it |
| Genbot3.DecodeNextBlock | src/bots/genbot3/genbot3.ts:140-161 | one more block appends its node to the graph decoded so far when it decodes, and otherwise ends decoding with its own error |
| Genbot3.FirstFailingBlock | src/bots/genbot3/genbot3.ts:140-161 | the first block that fails is where decoding stops, and its error is the whole recipe's |
| Genbot3.ShortBlockTokens | src/bots/genbot3/genbot3.ts:141-147 | a gate block whose reference count is not its kind's fails the arity assertion, whatever nodes came before |
| Genbot3.DecodeErrorPersists | src/bots/genbot3/genbot3.ts:140-161 | once a prefix of the blocks fails, the whole recipe fails with the same error |
| Genbot3.DecodeRefsErrorPersists | src/bots/genbot3/genbot3.ts:149-151 | once a prefix of the index tokens fails, the whole block fails with the same error |
| GamePlayers.MergedPrecedence | src/lib/gameplayer.ts:88-91 | toDict holds "name", every data key and every state key, and the latest source holding a key supplies its value |
| GamePlayers.ToDictRoundTrip | src/lib/gameplayer.ts:88-100 | restoring a base player from its own toDict gives back its data, plus its name under "name" when the data had none |
| GamePlayers.GamePlayer.constructor | src/lib/gameplayer.ts:17-28 | a new player has empty identity and name, no score, is neither genetic nor magic and has no data |
| GamePlayers.GamePlayer.SetScore | src/lib/gameplayer.ts:49-51 | the score becomes the value and nothing else changes |
| GamePlayers.GamePlayer.ClearScore | src/lib/gameplayer.ts:56-58 | the score is cleared and nothing else changes |
| GamePlayers.GamePlayer.SetData | src/lib/gameplayer.ts:72-74 | the key now reads back the value, every other key keeps its value and nothing else changes |
| GamePlayers.GamePlayer.GetData | src/lib/gameplayer.ts:81-83 | the stored value when the key is set, the default otherwise |
| GamePlayers.GamePlayer.FromDict | src/lib/gameplayer.ts:97-100 | the whole state becomes the data and nothing else changes |
| GamePlayers.GamePlayer.Mutate | src/lib/gameplayer.ts:124-126 | the base mutate demands a genetic player and changes nothing |
| GameResults.Leader | src/lib/gameresult.ts:74 | the reduce over the keys yields one of the scored identities |
| GameResults.LeaderIsLastMaximum | src/lib/gameresult.ts:73-74 | the reduce yields a key with the highest score and no later key scores as much: ties go to the last key with the maximum |
| GameResults.GameResult.constructor | src/lib/gameresult.ts:19-23 | a new result has no scores, no status and no winner |
| GameResults.GameResult.SetScore | src/lib/gameresult.ts:49-51 | the identity's score becomes the value, a new identity is listed last, and every other score is kept |
| GameResults.GameResult.GetWinner | src/lib/gameresult.ts:65-75 | the stated winner when there is one; otherwise an identity with the highest score, the last such key |
| GameResults.GameResult.SetWin | src/lib/gameresult.ts:80-82 | the status becomes a win and is neither a tie nor a batch; scores and winner are kept |
| GameResults.GameResult.SetTie | src/lib/gameresult.ts:87-89 | the status becomes a tie and is neither a win nor a batch; scores and winner are kept |
| GameResults.GameResult.SetBatch | src/lib/gameresult.ts:94-96 | the status becomes a batch and is neither a win nor a tie; scores and winner are kept |
| GameBases.Explore | src/lib/gamebase.ts:160-175 | one saved game per output of the magic bot |
| GameBases.TurnProgresses | src/lib/gamebase.ts:147-185 | whatever the output, a turn leaves a playable position with one free cell fewer |
| GameBases.Playout | src/lib/gamebase.ts:106-109 | the turn loop ends, on an ended board, in a playable position |
| GameBases.PlayoutCountsTurns | src/lib/gamebase.ts:106-109 | playing out never lowers a turn count, and the turns taken are at most the free cells filled |
| GameBases.GameBase.constructor | src/lib/gamebase.ts:29-34 | a new game has no bots, bot index 0 and no turn counts |
| GameBases.GameBase.SetBots | src/lib/gamebase.ts:72-79 | one bot per identity is required; the bots become the given ones |
| GameBases.GameBase.Start | src/lib/gamebase.ts:85-101 | bot i takes identity i, nothing else of the bots changes, every identity's turn count is 0 and the first bot is to move |
| GameBases.GameBase.ToDict | src/lib/gamebase.ts:126-132 | the saved game holds the turn counts, the bot to move and the board |
| GameBases.GameBase.FromDict | src/lib/gamebase.ts:138-142 | turn counts, the bot to move and the board come back from the saved game; the bots are kept |
| GameBases.GameBase.LoadFromState | src/lib/gamebase.ts:118-121 | start, then the saved game: identities assigned, and the saved counts, index and board restored |
| GameBases.GameBase.DoTurn | src/lib/gamebase.ts:147-188 | the current identity's count goes up by one; a plain bot's turn is exactly Turn and the one state returned is the game after it; a magic bot's turn leaves the board and the bot to move as they were and returns the game after each of its outputs |
| GameBases.GameBase.PlainTurn | src/lib/gamebase.ts:177-184 | the chosen free cell takes the identity's mark, the next bot is to move, and the state returned is the new game |
| GameBases.NextIndex | src/lib/gamebase.ts:180-183 | after a turn the bot index stays a valid index into the bots, wrapping round to the first |
| GameBases.GameBase.MagicTurn | src/lib/gamebase.ts:161-175 | each output is applied and saved, the position is restored after each, and the states are those Explore gives |
| GameBases.GameBase.ProcessResult | src/lib/gamebase.ts:193-199 | the result is the game's result, each bot's score is its identity's score in it, and nothing else of the bots changes |
| GameBases.GameBase.ScoreBots | src/lib/gamebase.ts:195-197 | each bot's score becomes its identity's score in the result; nothing else of the bots changes |
| GameBases.GameBase.Run | src/lib/gamebase.ts:106-111 | with plain bots the loop ends exactly where Playout ends, and the bots are scored on that game's result |
| Boards.CellAt | src/games/naughts/board.ts:25-31 | one character inside the board, none past its end, and never the stored "-" |
| Boards.NewBoardIsBlank | src/games/naughts/board.ts:7-9 | a new board has nine cells, all reading blank |
| Boards.Placed | src/games/naughts/board.ts:33-35 | the part before pos and the part after it are kept, and the mark stands at pos |
| Boards.PlacedCells | src/games/naughts/board.ts:33-35 | a one-character mark inside the board changes that cell only and keeps the length |
| Boards.LineReadsMark | src/games/naughts/board.ts:59-64 | a line reads "XXX" (or "OOO") exactly when each of its three cells holds that mark |
| Boards.StateFrom | src/games/naughts/board.ts:56-85 | the scan from line i gives one of 0 .. 3 |
| Boards.FirstWin | src/games/naughts/board.ts:58-68 | 0 exactly when no line from i on is complete for X or for O |
| Boards.OpenBoardState | src/games/naughts/board.ts:56-85 | with a cell still open the draw test never fires: the state is the mark of the first complete line, or 0 |
| Boards.FullBoardState | src/games/naughts/board.ts:56-85 | on a full board only line 0-1-2 is consulted: 1 or 2 if it is complete, 3 otherwise |
| Boards.DrawHidesWin | src/games/naughts/board.ts:70-81 | on a full board whose line 0-1-2 is not complete, a completed later line is reported as a draw |
| Boards.Winner | src/games/naughts/board.ts:91-100 | "X" exactly for state 1, "O" exactly for state 2, "" otherwise |
| Boards.WinnerEndsGame | src/games/naughts/board.ts:87-100 | a board with a winner has ended |
| Boards.JoinedSingles | src/games/naughts/board.ts:122-127 | joining one-character strings gives one character per slot, in order |
| Boards.TurnedSlots | src/games/naughts/board.ts:122-125 | the array has nine slots, or as many as a longer string has characters |
| Boards.Transformed | src/games/naughts/board.ts:113 | the transform map keeps positions on the board |
| Boards.TurnedOnceOfBoard | src/games/naughts/board.ts:119-128 | on a nine-cell board one pass moves cell transformMap[i] to cell i |
| Boards.TurnedLength | src/games/naughts/board.ts:119-128 | a board turned n times keeps its nine cells |
| Boards.TurnedCell | src/games/naughts/board.ts:119-128 | cell i after n passes is the original's cell at transformMap applied n times to i |
| Boards.TransformedLast | src/games/naughts/board.ts:113 | applying the map n times then once more equals once then n times |
| Boards.FourTurnsIdentity | src/games/naughts/board.ts:110-130 | four passes give back a nine-cell board, so only rotations % 4 matters |
| Boards.MovesBelowSpec | src/games/naughts/board.ts:143-151 | the moves below n are exactly the blank positions below n, strictly ascending |
| Boards.PossibleMovesSpec | src/games/naughts/board.ts:143-151 | getPossibleMoves lists exactly the blank cells, each once, in ascending order |
| Boards.MarkedBoardHasNoMoves | src/games/naughts/board.ts:143-151 | a board with all nine cells marked has no move |
| Boards.NoMoreBlanks | src/games/naughts/board.ts:143-151 | a board blank only where another is has no more blank cells |
| Boards.FewerBlanks | src/games/naughts/board.ts:143-151 | and strictly fewer when it marks one cell the other leaves blank |
| Boards.PlacedHasFewerBlanks | src/games/naughts/board.ts:33-35 | marking a free cell with X or O leaves one blank cell fewer |
| Boards.MarksBelowCells | src/games/naughts/board.ts:25-31 | the cells below n are marks or blanks exactly when each reads X, O or blank |
| Boards.OnlyMarksCells | src/games/naughts/board.ts:25-31 | a board of marks and blanks, cell by cell |
| Boards.OpenBoardHasMove | src/games/naughts/board.ts:56-89 | a board of marks and blanks whose game has not ended still has a free cell |
| Boards.PlacedOnlyMarks | src/games/naughts/board.ts:33-35 | marking a free cell with X or O keeps a nine-cell board of marks and blanks |
| Boards.Board.constructor | src/games/naughts/board.ts:7-9 | a new board is "---------" |
| Boards.Board.ToDict | src/games/naughts/board.ts:11-13 | the saved board holds the data |
| Boards.Board.FromDict | src/games/naughts/board.ts:15-17 | the data becomes the saved data |
| Boards.Board.Copy | src/games/naughts/board.ts:19-23 | a new board with the same data |
| Boards.Board.SetAt | src/games/naughts/board.ts:33-35 | the data becomes the data with the mark placed at pos |
| Boards.Board.GetGameState | src/games/naughts/board.ts:56-85 | the loop gives the game state |
| Boards.GameState | src/games/naughts/board.ts:56-85 | the state is one of 0 (going on), 1 (X won), 2 (O won) and 3 (drawn) |
| Boards.Board.GetRotatedBoard | src/games/naughts/board.ts:110-130 | a new board holding the data turned rotations % 4 times, none for a negative count |
| Boards.Board.GetFirstEmptySpace | src/games/naughts/board.ts:132-141 | -1 exactly when none of the listed cells is blank; otherwise the first listed blank position |
| Boards.Board.GetPossibleMoves | src/games/naughts/board.ts:143-151 | the loop lists the possible moves |
| Boards.ReadLine | src/games/naughts/board.ts:59-62 | the inner loop concatenates the line's cells |
| Boards.DrawTest | src/games/naughts/board.ts:70-77 | true exactly when every cell holds X or O |
| Boards.TurnOnce | src/games/naughts/board.ts:120-127 | the forEach and join compute one pass |
| NaughtsBots.OtherIdentity | src/games/naughts/bots/naughtsbot.ts:10-15 | "O" exactly for the bot playing "X", "X" for anybody else |
| NaughtsBots.OtherIdentitySwaps | src/games/naughts/bots/naughtsbot.ts:10-15 | between X and O the other identity differs, and taken twice gives the mark back |
| NaughtsBots.InputBoardCells | src/games/naughts/bots/naughtsbot.ts:24-31 | the rebuilt board has nine cells; cell p is the own mark if inputs[p] > 0, else the other mark if inputs[p + 9] > 0, else blank |
| NaughtsBots.ReadInputs | src/games/naughts/bots/naughtsbot.ts:24-31 | the loop writes into a new board exactly the rebuilt board |
| NaughtsBots.Owned | src/games/naughts/bots/naughtsbot.ts:56-68 | an owner's list is no longer than the sequence |
| NaughtsBots.OwnedMembers | src/games/naughts/bots/naughtsbot.ts:56-68 | the positions listed for an owner are exactly the sequence's positions whose cell has that owner |
| NaughtsBots.ClassifiedPartitions | src/games/naughts/bots/naughtsbot.ts:50-71 | every position of the sequence lands in exactly one of the three lists |
| NaughtsBots.GetSequenceInfo | src/games/naughts/bots/naughtsbot.ts:50-71 | the loop gives the three lists of the classification |
| NaughtsBots.UnrotatedMove | src/games/naughts/bots/naughtsbot.ts:81-95 | the move itself when rotations % 4 is 0; a board position stays a board position |
| NaughtsBots.GetUnrotatedMove | src/games/naughts/bots/naughtsbot.ts:81-95 | the loop computes the unrotated move |
| NaughtsBots.RotatedCellIsUnrotated | src/games/naughts/bots/naughtsbot.ts:73-95 | a move on the board rotated r times is the move getUnrotatedMove(m, r) on the board itself |
| MinimaxBots.GetOpponent | src/games/naughts/bots/minimaxbot/minimaxbot.ts:121-131 | "X" or "O": the other identity of me, or of the bot itself when me is empty |
| MinimaxBots.OpponentAlternates | src/games/naughts/bots/minimaxbot/minimaxbot.ts:121-131 | between X and O the opponent differs, and the opponent's opponent is the mark itself |
| MinimaxBots.BoardScore | src/games/naughts/bots/minimaxbot/minimaxbot.ts:67-78 | 1 exactly when the bot has won, -1 exactly when anybody else has, 0 exactly without a winner |
| MinimaxBots.BoardScoreZeroSum | src/games/naughts/bots/minimaxbot/minimaxbot.ts:67-78 | the X bot and the O bot score every board oppositely |
| MinimaxBots.Minimax | src/games/naughts/bots/minimaxbot/minimaxbot.ts:80-119 | the reference value of a position lies in -1 .. 1 |
| MinimaxBots.MinimaxBest | src/games/naughts/bots/minimaxbot/minimaxbot.ts:92-105 | the best child value lies in -1 .. 1 |
| MinimaxBots.MinimaxWorst | src/games/naughts/bots/minimaxbot/minimaxbot.ts:107-118 | the worst child value lies in -1 .. 1 |
| MinimaxBots.ChildValue | src/games/naughts/bots/minimaxbot/minimaxbot.ts:95-97 | the value after the k-th free cell is taken lies in -1 .. 1 |
| MinimaxBots.ChildValues | src/games/naughts/bots/minimaxbot/minimaxbot.ts:94-97 | one value in -1 .. 1 per free cell |
| MinimaxBots.ChildValueIs | src/games/naughts/bots/minimaxbot/minimaxbot.ts:95-97 | entry k is the value of the board with the k-th free cell taken and the opponent to move |
| MinimaxBots.PrefixBounds | src/games/naughts/bots/minimaxbot/minimaxbot.ts:93-97 | over values in -1 .. 1 the best and worst of a non-empty prefix stay in -1 .. 1 |
| MinimaxBots.WithinPrefix | src/games/naughts/bots/minimaxbot/minimaxbot.ts:93-97 | every value of the prefix lies between its worst and its best |
| MinimaxBots.MaxStep | src/games/naughts/bots/minimaxbot/minimaxbot.ts:94-102 | one child of the own-turn loop: either the cutoff with the fail-soft promise kept, or the loop state one child further |
| MinimaxBots.MaxDone | src/games/naughts/bots/minimaxbot/minimaxbot.ts:104 | the own-turn loop run over every child keeps the fail-soft promise |
| MinimaxBots.MinStep | src/games/naughts/bots/minimaxbot/minimaxbot.ts:108-116 | one child of the opponent's loop: either the cutoff with the promise kept, or the loop state one child further |
| MinimaxBots.MinDone | src/games/naughts/bots/minimaxbot/minimaxbot.ts:118 | the opponent's loop run over every child keeps the promise |
| MinimaxBots.AlphaBeta | src/games/naughts/bots/minimaxbot/minimaxbot.ts:80-119 | the search returns the exact minimax value when it lies strictly inside the window, otherwise a bound on the same side of the window as that value |
| MinimaxBots.SearchChild | src/games/naughts/bots/minimaxbot/minimaxbot.ts:95-97 | the recursive call for the i-th free cell keeps the fail-soft promise for that child's value |
| MinimaxBots.MaxNode | src/games/naughts/bots/minimaxbot/minimaxbot.ts:92-105 | the own-turn loop keeps the fail-soft promise for the best child value |
| MinimaxBots.MinNode | src/games/naughts/bots/minimaxbot/minimaxbot.ts:107-118 | the opponent's loop keeps the fail-soft promise for the worst child value |
| MinimaxBots.CompletionIsFirst | src/games/naughts/bots/minimaxbot/minimaxbot.ts:13-27 | none exactly when no line is completable; otherwise the blank of the first line that is |
| MinimaxBots.CompletableLine | src/games/naughts/bots/minimaxbot/minimaxbot.ts:14-27 | in a completable line the blank is a line cell and the two other cells are the owner's |
| MinimaxBots.LinesOnBoard | src/games/naughts/board.ts:57 | every listed line has three cells, all on the board |
| MinimaxBots.WinShortcutWins | src/games/naughts/bots/minimaxbot/minimaxbot.ts:12-19 | the first shortcut's blank completes a line of the bot's own marks |
| MinimaxBots.BlockShortcutBlocks | src/games/naughts/bots/minimaxbot/minimaxbot.ts:21-27 | the second shortcut's blank is the cell on which the opponent would complete a line |
| MinimaxBots.FindCompletion | src/games/naughts/bots/minimaxbot/minimaxbot.ts:14-27 | the shortcut loop returns the first completable line's blank |
| MinimaxBots.MoveScore | src/games/naughts/bots/minimaxbot/minimaxbot.ts:51-53 | a move's score lies in -1 .. 1 |
| MinimaxBots.Scores | src/games/naughts/bots/minimaxbot/minimaxbot.ts:50-53 | one score per free cell |
| MinimaxBots.ScoreMove | src/games/naughts/bots/minimaxbot/minimaxbot.ts:51-53 | the copy, the mark and the search give the move's minimax score |
| MinimaxBots.SearchStep | src/games/naughts/bots/minimaxbot/minimaxbot.ts:55-60 | a higher score starts the choices afresh, an equal one joins them, a lower one is dropped |
| MinimaxBots.SearchDone | src/games/naughts/bots/minimaxbot/minimaxbot.ts:50-61 | after every move, the choices are exactly the moves no other move outscores, and there is one when there is a move |
| MinimaxBots.BestMoves | src/games/naughts/bots/minimaxbot/minimaxbot.ts:47-61 | exactly the free cells no other free cell outscores, non-empty exactly when there is a free cell |
| MinimaxBots.TurnOnBoard | src/games/naughts/bots/minimaxbot/minimaxbot.ts:6-65 | every answer is a cell of the board, and a blank one except where the opening rule names a corner or the centre or falls back on 0 |
| MinimaxBots.CompletionOnBoard | src/games/naughts/bots/minimaxbot/minimaxbot.ts:14-27 | a shortcut's blank is a blank cell of the board |
| MinimaxBots.BestMoveOnBoard | src/games/naughts/bots/minimaxbot/minimaxbot.ts:50-64 | a best move is a blank cell of the board |
| MinimaxBots.DoTurn | src/games/naughts/bots/minimaxbot/minimaxbot.ts:6-65 | the win shortcut's blank, else the block shortcut's, else the opening rule while the bot has no mark, else one of the best moves |
| MinimaxBots.Process | src/games/naughts/bots/naughtsbot.ts:17-34 | the board rebuilt from the 18 inputs, then doTurn's answer on it |
| SingleGames.OwnInputs | src/games/naughts/singlegame.ts:29-32 | one input per cell below n |
| SingleGames.OtherInputs | src/games/naughts/singlegame.ts:34-37 | one input per cell below n |
| SingleGames.OwnInputsMeaning | src/games/naughts/singlegame.ts:29-32 | each own-mark input is 0 or 1, and 1 exactly where the cell holds identity's mark |
| SingleGames.OtherInputsMeaning | src/games/naughts/singlegame.ts:34-37 | each other-mark input is 0 or 1, and 1 exactly where the cell holds neither identity's mark nor a blank |
| SingleGames.InputsMeaning | src/games/naughts/singlegame.ts:27-39 | 18 inputs of 0 or 1: input p says the cell holds the bot's own mark, input p + 9 that it holds another mark; no cell sets both |
| SingleGames.InputsRoundTrip | src/games/naughts/singlegame.ts:27-39 | a naughts bot rebuilding a board from the inputs sees every cell of a board of marks and blanks as it is |
| SingleGames.ClosestInIsFirstClosest | src/games/naughts/singlegame.ts:49-56 | the target is one of the first n moves, none of them is closer to the output, and every move before it is strictly farther |
| SingleGames.TargetIsLowestClosest | src/games/naughts/singlegame.ts:41-57 | on a board's free cells the target is a free cell, none is closer to the output, and on a tie it is the lowest of the closest |
| SingleGames.ExactOutputIsTarget | src/games/naughts/singlegame.ts:41-57 | an output naming a free cell marks exactly that cell |
| SingleGames.ScoreRewardsQuickWins | src/games/naughts/singlegame.ts:103-113 | within ten turns a win scores positive, a loss negative and a tie nothing; a quicker win scores more and a quicker loss costs more |
| SingleGames.CalculateScore | src/games/naughts/singlegame.ts:103-113 | a tie scores nothing; within ten turns a win scores positive and a loss costs at least 10 |
| SingleGames.ScoresCrownWinner | src/games/naughts/singlegame.ts:69-101 | getWinner over a won game's scores names the board's winner whenever neither bot took ten turns |
| SingleGames.UpdateMarksOneFreeCell | src/games/naughts/singlegame.ts:41-63 | update on a board of marks and blanks keeps one, with one free cell fewer |
| SingleGames.SingleGame.constructor | src/games/naughts/singlegame.ts:12 | a new game has a new blank board |
| SingleGames.SingleGame.SetInitialState | src/games/naughts/singlegame.ts:14-16 | the board becomes a new blank board |
| SingleGames.SingleGame.SetState | src/games/naughts/singlegame.ts:18-21 | the board becomes a new board holding the saved data |
| SingleGames.SingleGame.GetState | src/games/naughts/singlegame.ts:23-25 | the saved board holds the board's data, which SetState restores |
| SingleGames.SingleGame.GetInputs | src/games/naughts/singlegame.ts:27-39 | the inputs for identity and the free cells |
| SingleGames.SingleGame.Update | src/games/naughts/singlegame.ts:41-63 | a free cell is required; the free cell closest to the output, the lowest on a tie, takes identity's mark |
| SingleGames.SingleGame.GetResult | src/games/naughts/singlegame.ts:69-101 | two bots and a finished board are required; X's win scores X with outcome 1 and O with -1, O's win the reverse, a draw 0 each; the status is a win or a tie accordingly |
| Batches.StartPosition | src/lib/batch.ts:112-116 | every game of a batch starts from a playable position |
| Batches.EndOutcomeCounted | src/lib/batch.ts:69-80 | every finished naughts game's outcome has a score for X and O and, unless tied, a winner among them |
| Batches.NormalOutcomesMeaning | src/lib/batch.ts:111-119 | entry j of a normal batch's outcomes is game j + 1, played out from the start with that game's own move function |
| Batches.NormalOutcomesStep | src/lib/batch.ts:111-119 | one more game of a normal batch appends its own outcome to those of the games before it |
| Batches.StartResumable | src/lib/batch.ts:123-129 | the start of a game, saved, can be resumed |
| Batches.SuccessorsResumable | src/lib/batch.ts:144-150 | every state a turn pushes onto the queue can be resumed and has one free cell fewer |
| Batches.MagicOutcomes | src/lib/batch.ts:133-152 | every outcome the exploration records can be counted; each state taken off the queue is played with its own move function |
| Batches.BatchOutcomesCounted | src/lib/batch.ts:47-55 | every outcome a batch records has a score for each identity and, unless tied, a winner among them |
| Batches.MagicOutcomesStep | src/lib/batch.ts:134-151 | taking the queue's front: a finished game adds its outcome and leaves the rest of the queue; any other adds nothing and pushes the turn's states on the back |
| Batches.SameFuel | src/lib/batch.ts:133 | the exploration depends on the fuel's value only |
| Batches.Clone | src/lib/botfactory.ts:93-105 | a new player of the same name and flags, whose data is the bot's toDict |
| Batches.CloneBots | src/lib/botfactory.ts:93-105 | two distinct new players, each a clone of its bot |
| Batches.StartedGame | src/lib/batch.ts:112-116 | a new game in its initial state, started with clones: a blank board, X to move, no turns, and one fresh clone per bot with its flags |
| Batches.ScoresUpToDomain | src/lib/batch.ts:100-104 | after n identities the first n hold their averages and nothing else is set |
| Batches.ScoresUpToAbsent | src/lib/batch.ts:100-104 | among distinct identities the n-th is not yet set after the first n |
| Batches.Averages | src/lib/batch.ts:97-104 | a new batch result listing the identities in order, no winner, each identity's score and its bot's score the identity's average |
| Batches.ResultOutcome | src/lib/batch.ts:69-80 | a finished game's result is what the batch reads as that position's outcome, and it can be counted |
| Batches.PlayGame | src/lib/batch.ts:112-117 | a game of a normal batch with plain bots has the outcome of the game played out from the start |
| Batches.PlayState | src/lib/batch.ts:138-151 | a saved game that has ended gives its result's outcome and no states; any other gives no result and the states its turn leaves |
| Batches.Batch.constructor | src/lib/batch.ts:22-31 | the bots and configuration are kept; no totals, wins, draws, identities or games |
| Batches.Batch.Sums | src/lib/batch.ts:69-80 | the counters are the sums over the processed outcomes, and every game was a draw or one identity's win |
| Batches.Batch.StartBatch | src/lib/batch.ts:57-67 | the identities are the game's, each with a zero total and no wins; no games played or drawn; other keys kept |
| Batches.Batch.ProcessGameResult | src/lib/batch.ts:69-80 | one more game: each identity's score added to its total, and the draws or the winner's wins up by one |
| Batches.Batch.ProcessBatchResult | src/lib/batch.ts:82-107 | at least one game is required; the result has batch status and no winner, and each identity's score and its bot's score are the identity's mean over the games |
| Batches.Batch.AveragesAreMeans | src/lib/batch.ts:100-104 | each total divided by the games played is the identity's mean over the processed outcomes |
| Batches.Batch.PlayNormalGame | src/lib/batch.ts:112-118 | one more outcome: that of the game played out from the start |
| Batches.Batch.RunNormalBatch | src/lib/batch.ts:109-120 | records, after what was there, the outcomes of games 1 .. batchSize in order, each played from the start with fresh clones and its own move function, and keeps the counters equal to the sums |
| Batches.Batch.PlaySaved | src/lib/batch.ts:138-151 | a finished saved game adds its outcome and pushes nothing; any other adds nothing and returns its turn's states |
| Batches.Batch.Explore | src/lib/batch.ts:134-151 | what is recorded plus what the new queue adds is what the old queue added |
| Batches.Batch.RunMagicBatch | src/lib/batch.ts:122-153 | the outcomes recorded are those of the breadth-first exploration from the start |
| Batches.Batch.PlayBatch | src/lib/batch.ts:47-53 | the identities are the game's and the outcomes are the batch's, from zero |
| Batches.Batch.RunBatch | src/lib/batch.ts:47-55 | it fails exactly when no outcome was recorded; otherwise each identity's and bot's score is the mean over the recorded outcomes |
| Tallies.OneMoreGame | src/lib/batch.ts:69-80 | one more game adds its score to the identity's total, one to its wins if it won, and one to the draws if tied |
| Tallies.WinCounts | src/lib/batch.ts:78 | one entry per identity, its number of wins |
| Tallies.WinSumStep | src/lib/batch.ts:75-79 | one more game adds one to the summed wins of distinct identities when one of them won it, nothing otherwise |
| Tallies.GamesAreDrawsOrWins | src/lib/batch.ts:69-80 | the games are the draws plus the wins of the distinct identities |
| Tallies.Quotient | src/lib/batch.ts:101 | a total between lo * n and hi * n gives an average between lo and hi |
| Tallies.TotalBounded | src/lib/batch.ts:72 | scores within [lo, hi] give a total within n times those bounds |
| Tallies.MeanBounded | src/lib/batch.ts:101 | when every game gives the identity a score within [lo, hi], so does its average |
| Tallies.Added | src/lib/batch.ts:71-73 | the totals keep their keys |
| Tallies.AddedMeaning | src/lib/batch.ts:71-73 | over distinct identities each total gains its score once and no other entry changes |
| Tallies.AddScores | src/lib/batch.ts:71-73 | the loop adds the scores |
| Tallies.Record | src/lib/batch.ts:69-80 | every identity keeps a total and a win count |
| Tallies.Tally | src/lib/batch.ts:69-80 | the update records the game |
| Tallies.Replay | src/lib/batch.ts:69-80 | every identity keeps a total and a win count |
| Tallies.ReplaySums | src/lib/batch.ts:69-80 | replaying games adds each identity's score total and wins over them, their draws and their number |
| Tallies.CountingStep | src/lib/batch.ts:69-80 | recording one more countable outcome keeps the batch invariant |
| Tallies.CountingSums | src/lib/batch.ts:57-80 | under the invariant the counters are the sums over the recorded outcomes, and every game was a draw or one identity's win |
| Processors.ScoresKeptStep | src/lib/runners/genetic/processor.ts:50-61 | a batch that sets only the current sample's score extends "every sample not listed again holds its genetic score" by one position |
| Processors.StatesOf | src/lib/runners/genetic/processor.ts:56 | the serialised state of every sample, in order |
| Processors.MagicOf | src/lib/runners/genetic/processor.ts:33-41 | the magic flag of every sample, in order |
| Processors.ScoresOf | src/lib/runners/genetic/processor.ts:50-53 | the score of every sample, in order |
| Processors.Processor.AllYieldAppend | src/lib/runners/genetic/processor.ts:55-61 | appending the next sample's expected output keeps every output the expected one for its position |
| Processors.Processor.constructor | src/lib/runners/genetic/processor.ts:20-25 | the opponent, the genetic index and the batch configuration are kept |
| Processors.Processor.BotList | src/lib/runners/genetic/processor.ts:34-39 | two bots: the sample at the genetic index and the opponent at the other place |
| Processors.Processor.Flags | src/lib/runners/genetic/processor.ts:34-39 | the magic flags in bot-list order |
| Processors.Processor.SampleOutcomes | src/lib/runners/genetic/processor.ts:41-50 | every outcome of the sample's batch can be counted |
| Processors.Processor.RunSample | src/lib/runners/genetic/processor.ts:34-59 | fails exactly when the sample's batch records no game, each game of that batch played with its own move function; otherwise the output holds the sample's state, its position and its genetic identity's mean score, and the sample's score is that mean |
| Processors.Processor.Step | src/lib/runners/genetic/processor.ts:33-61 | one pass of the loop extends the outputs by the expected one and keeps the score invariant |
| Processors.Processor.Run | src/lib/runners/genetic/processor.ts:27-63 | fails exactly when some sample's batch records no game; otherwise one output per sample in order, each the expected one for that sample, and each sample's score its own genetic score unless it is listed again later |
| GeneticRunners.IterateNamed | src/lib/runners/geneticrunner.ts:60-129 | a generation step that keeps elites named keeps them named after any number of generations |
| GeneticRunners.IterateMonotone | src/lib/runners/geneticrunner.ts:60-129 | a generation step that never lowers the threshold gives a threshold that never falls from one generation to a later one |
| GeneticRunners.GeneticIndexOf | src/lib/runners/geneticrunner.ts:24-35 | 0 or 1, and 1 exactly when bot 0 is not genetic |
| GeneticRunners.Above | src/lib/runners/geneticrunner.ts:90-92 | the filter keeps at most the pool |
| GeneticRunners.AboveMembers | src/lib/runners/geneticrunner.ts:90-92 | the filter keeps exactly the pool members scoring strictly above the threshold |
| GeneticRunners.DescendingHead | src/lib/runners/geneticrunner.ts:108-113 | the head of a non-increasing sequence scores at least as much as every entry |
| GeneticRunners.Insert | src/lib/runners/geneticrunner.ts:108-111 | insertion adds x to the sequence and loses nothing |
| GeneticRunners.InsertAscending | src/lib/runners/geneticrunner.ts:108-111 | inserting into an ascending sequence keeps it ascending |
| GeneticRunners.SortAscendingSorts | src/lib/runners/geneticrunner.ts:108-111 | the sort by a.score - b.score gives an ascending permutation of its input |
| GeneticRunners.ReverseAt | src/lib/runners/geneticrunner.ts:112 | position k of the reversal holds position n - 1 - k |
| GeneticRunners.ReverseAscending | src/lib/runners/geneticrunner.ts:108-112 | reversing an ascending sequence gives a non-increasing permutation of it |
| GeneticRunners.ReverseMultiset | src/lib/runners/geneticrunner.ts:112 | reversal keeps every sample, as often as it occurs |
| GeneticRunners.SortedPoolSorts | src/lib/runners/geneticrunner.ts:108-112 | the sorted pool is in non-increasing score order and holds exactly the pool's samples, as often as the pool does |
| GeneticRunners.BestBounds | src/lib/runners/geneticrunner.ts:117-121 | the raised threshold bounds every selected score and is the old threshold or one of the scores |
| GeneticRunners.BestOfDescending | src/lib/runners/geneticrunner.ts:113-121 | over a non-increasing selection whose head beats the threshold, the raised threshold is the head's score |
| GeneticRunners.DescendingPrefix | src/lib/runners/geneticrunner.ts:172-179 | a prefix of a non-increasing sequence is non-increasing |
| GeneticRunners.GeneticRunner.constructor | src/lib/runners/geneticrunner.ts:16-21 | the configuration is kept; no bots, genetic index 0 and an empty genetic name |
| GeneticRunners.GeneticRunner.Setup | src/lib/runners/geneticrunner.ts:23-39 | keeps the created bots, takes bot 1 as the genetic bot exactly when bot 0 is not genetic (bot 0 when both are), and remembers its name |
| GeneticRunners.GeneticRunner.Per | src/lib/runners/geneticrunner.ts:139-157 | each elite contributes at least one entry, and numSamples when that is at least 1 |
| GeneticRunners.GeneticRunner.Bot | src/lib/runners/geneticrunner.ts:78-79 | a bot restored from data always holds a name |
| GeneticRunners.GeneticRunner.Family | src/lib/runners/geneticrunner.ts:140-156 | the elite itself, then numSamples - 1 clones, each a genetic bot of the mutated parent state |
| GeneticRunners.GeneticRunner.SpawnedLength | src/lib/runners/geneticrunner.ts:136-159 | generateSamples gives Per() entries per elite |
| GeneticRunners.GeneticRunner.SpawnedAt | src/lib/runners/geneticrunner.ts:136-159 | elite i sits at position i Per(), followed by its clones |
| GeneticRunners.GeneticRunner.CloneMatchesParent | src/lib/runners/geneticrunner.ts:143-150 | a clone restored from a named state reads back as that state, so the identity check always passes |
| GeneticRunners.GeneticRunner.GenerateSamples | src/lib/runners/geneticrunner.ts:136-159 | the loop gives each elite's family in order, Per() entries per elite |
| GeneticRunners.GeneticRunner.GenerateFamily | src/lib/runners/geneticrunner.ts:140-156 | the inner loop gives the elite's family |
| GeneticRunners.GeneticRunner.Originals | src/lib/runners/geneticrunner.ts:161-170 | count named fresh bots, bot k holding create()'s data for its position |
| GeneticRunners.GeneticRunner.GenerateOriginalSamples | src/lib/runners/geneticrunner.ts:161-170 | the loop gives those count fresh bots |
| GeneticRunners.GeneticRunner.Scored | src/lib/runners/geneticrunner.ts:76-88 | one named pool bot per candidate, holding that candidate's genetic score and, for a named candidate, its state |
| GeneticRunners.GeneticRunner.Rescored | src/lib/runners/geneticrunner.ts:65-66 | each elite keeps its state and holds the score of the candidate at its position, itself |
| GeneticRunners.GeneticRunner.Padded | src/lib/runners/geneticrunner.ts:102-106 | a short filtered pool is topped up with the first earlier elites to as many as there were elites; the filtered pool comes first |
| GeneticRunners.GeneticRunner.SelectSamples | src/lib/runners/geneticrunner.ts:172-179 | the first keepSamples entries of the sorted pool, or all of them when there are fewer |
| GeneticRunners.GeneticRunner.Evaluate | src/lib/runners/geneticrunner.ts:76-88 | the loop over the processor's outputs gives the scored pool |
| GeneticRunners.GeneticRunner.CandidatesNamed | src/lib/runners/geneticrunner.ts:64-74 | with named elites every candidate holds a name |
| GeneticRunners.GeneticRunner.ElitesRescored | src/lib/runners/geneticrunner.ts:65-81 | each elite is the candidate at position i Per(), and after the batches it keeps its state and holds its own new score |
| GeneticRunners.GeneticRunner.AdvanceKeeps | src/lib/runners/geneticrunner.ts:90-121 | the threshold never falls, and a generation with no sample above it changes nothing but the elites' scores |
| GeneticRunners.GeneticRunner.AdvanceSelects | src/lib/runners/geneticrunner.ts:102-113 | after an improving generation the new elites are at most keepSamples samples of the pool or the old elites, in non-increasing score order |
| GeneticRunners.GeneticRunner.AdvanceImproves | src/lib/runners/geneticrunner.ts:108-121 | after an improving generation with keepSamples at least 1 the threshold is the top elite's score, strictly above the old threshold |
| GeneticRunners.GeneticRunner.GenerationKeepsThreshold | src/lib/runners/geneticrunner.ts:60-129 | the threshold after a generation is at least the one before it |
| GeneticRunners.GeneticRunner.ThresholdMonotone | src/lib/runners/geneticrunner.ts:60-129 | no later generation has a lower threshold |
| GeneticRunners.GeneticRunner.ThresholdAboveStart | src/lib/runners/geneticrunner.ts:54-129 | the threshold never falls below its start of -999 |
| GeneticRunners.GeneticRunner.GenerationNamed | src/lib/runners/geneticrunner.ts:60-129 | a generation from named elites gives named elites |
| GeneticRunners.GeneticRunner.ElitesNamed | src/lib/runners/geneticrunner.ts:60-129 | every elite of every generation holds a name, so cloning it always passes the identity check |
| GeneticRunners.GeneticRunner.RaiseThreshold | src/lib/runners/geneticrunner.ts:115-123 | the loop raises the threshold to the largest of it and the selected scores |
| GeneticRunners.GeneticRunner.Evolve | src/lib/runners/geneticrunner.ts:60-129 | one pass of the generation loop computes the next generation |
| GeneticRunners.GeneticRunner.SelectElites | src/lib/runners/geneticrunner.ts:90-123 | filtering, padding, sorting, selecting and raising the threshold give the generation's second half |
| GeneticRunners.GeneticRunner.Run | src/lib/runners/geneticrunner.ts:41-134 | sets up the bots, stops at once exactly when neither bot is genetic, and otherwise ends with the population after numGenerations generations from no elites and threshold -999 |

## Left out

- Logging (`log.*`, `console.log`), `Board.show`, `GameResult.toString` and `toFixed` formatting are left out. They only print text.
- The runner's `scores.csv` file, its clock (`Date.now`) and its warning when a sample did not mutate are left out. They are file, clock and log output.
- Configuration parsing, the bot and game factories, RabbitMQ workers, the web server and its database are left out.
  - They are I/O or plumbing.
  - A bot kind is fixed where a factory would pick it: GenBot3 for the runner's samples, and naughts and crosses for every game.
  - `cloneBots` is modelled as `Batches.CloneBots`: new players restored from the bots' `toDict`.
- `Board.getAtMulti` is left out. Nothing calls it.
- Object-reference aliasing in GenBot3 is left out.
  - After `mutate` replaces a node, other nodes of the live object keep pointing at the old node.
  - The model is the index arena that the recipe carries between games. This is also what a cloned bot receives.
- Floating point is left out. Game scores are integers. Batch averages are exact reals. `NaN` from a missing score or a missing turn count is not represented.
- JavaScript's ordering of integer-like object keys ahead of other keys is not modelled. Keys keep the order in which they were first set. Every identity used here ("X", "O") is non-numeric.
- Sort stability of the runner's `sort` by score is not proved.
  - The model's insertion sort is stable, and the sorted pool is proved to be a non-increasing permutation of the filtered pool.
  - Which of several equally scored samples comes first is not claimed to match the engine's sort.
- Recipes.DecodeRefs: a reference token that is not a number, or that points at itself or at a later node, is rejected when it is decoded (BadReference).
  - The source instead stores an undefined input node there, and only fails later, when the recipe is written or the bot is evaluated.
  - Recipes that decode are the same in both.
- Strings.ParseInt: `parseInt` is read as the leading run of decimal digits. Leading whitespace, a sign and a `0x` prefix, which `parseInt` also accepts, are not modelled.
- Genbot3.GenBot3.Process returns the available move whose output node holds the **smallest** value, because the code sorts ascending and takes the first key. Ties go to the lowest move, because integer keys are listed ascending and the sort is stable.
- Genbot3.GenBot3.Process: the inputs must land on input nodes, and every available move must name an output node.
  - The source would otherwise write an output into a gate, or compare `undefined` outputs.
  - Neither happens when a naughts game drives the bot.
- Genbot3.GenBot3.Create and Genbot3.CreateProperties require at least three inputs.
  - With fewer, `randomSample` can hand back the caller's own growing node list, which is aliasing the arena does not have.
  - A naughts bot has 18 inputs.
- Genbot3.GenBot3.GetState and Genbot3.GenBot3.SetState are not wired into the genetic runner.
  - The runner handles a candidate only through its whole serialised state.
  - The `create` and `mutate` oracles give that state directly.
- GameBases.GameBase.Start: the check that the game's `inputCount` is set is not modelled. Naughts and crosses sets it to 18, so the check never fires.
- GameBases.GameBase.DoTurn: the assertion that a bot received `inputCount` inputs is not modelled. SingleGames.InputsMeaning proves there are always 18.
- GameBases.GameBase.Run requires two plain (non-magic) bots.
  - A magic bot's turn never advances the game, so the source's loop would not end.
  - Magic bots are only driven turn by turn, by the magic batch.
- Batches.Batch.RunNormalBatch and Batches.Batch.PlayBatch require plain bots for a normal batch. This follows from GameBases.GameBase.Run.
- Batches.Batch.RunMagicBatch takes at most `fuel` states off its queue, where the source's loop runs until the queue is empty.
  - Every state a turn pushes has one free cell fewer (Batches.SuccessorsResumable), so the source's exploration is finite.
  - Its termination measure, a multiset of board sizes, is not written out here, so the fuel bounds the steps instead.
  - Nothing is claimed about the states left on the queue when the fuel runs out.
- Batches.MagicOutcomes: a magic bot's outputs are one function of its inputs, shared by every step, while a plain bot's move is drawn afresh at each step. The omnibot, the magic bot of the source, answers deterministically.
- GameBases.GameBase.FromDict and SingleGames.SingleGame.SetState copy the saved turn counts and board by value. The source's shallow copy is the same here, because nothing mutates a saved state afterwards.
- GamePlayers.GamePlayer.Score and GameResults.GameResult.GetScore require the score to be set, which stands for the source's failure on an unset score.
- SingleGames.SingleGame.GetResult requires both identities' turn counts, exactly two bots and an ended board, where the source asserts the last two. `start` always sets the turn counts and the two bots, and the game asks for the result only once `isEnded` holds.
- SingleGames.SingleGame.Update requires a possible move, where the source asserts that one exists. The turn loop calls it only on a board that has not ended, which always has a move (Boards.OpenBoardHasMove).
- GamePlayers.GamePlayer.Mutate requires a genetic player, where the base class asserts it. The runner mutates only GenBot3 samples, whose own `mutate` replaces the base one.
- NaughtsBots.ReadInputs requires 18 inputs, where the source asserts it. The game always hands a bot the 18-value vector (SingleGames.InputsMeaning).
- MinimaxBots.Process requires 18 inputs for the same reason: it reads them through the same assertion.
- Processors.Processor.Run requires the opponent not to be one of the samples. The runner's samples are always new bots.
- Processors.Processor.RunSample takes the sample's `toDict` before its batch rather than after it.
  - The batch changes only the sample's score, and `toDict` does not include the score.
  - The batch's `info` labels are left out, as they are only read by logging.
- GeneticRunners.GeneticRunner.Run: the processor object and its batch configuration are not built inside the runner.
  - The `fitness` oracle stands for the genetic score that `Processor.run` yields for each candidate. That score is proved in Processors.Processor.Run.
  - The `create` and `mutate` oracles stand for the data GenBot3's `create()` and `mutate()` give a new bot.
  - A batch that plays no game aborts the processor, and that case is modelled in Processors.Processor.Run rather than in the runner.
  - Batches.Clone restores a base player and never fails. In the source, `cloneBots` runs `fromDict`, then `setState`, then `createFromRecipe`, which could throw on a recipe that does not decode. The runner mutates only such rebuilt clones, and their mutations keep a recipe that decodes (Genbot3.MutateOfDecodedKeepsArity), so that throw is never reached.
- GeneticRunners.GeneticRunner.AdvanceImproves requires `keepSamples` to be at least 1. With 0 the elites are empty and the threshold does not move.
