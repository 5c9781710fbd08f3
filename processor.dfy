/**
 * The processor of the genetic runner (src/lib/runners/genetic/processor.ts):
 * each sample plays one batch against the fixed opponent, and its genetic
 * score is its identity's mean score over that batch.
 */
module Processors {
  import opened Wrappers
  import opened GameResults
  import opened GamePlayers
  import opened SingleGames
  import opened GameBases
  import opened Tallies
  import opened Batches

  /**
   * How the bots of a sample's batch choose their moves: for the sample at a
   * position with its serialised state, the move function of each game (or
   * magic step) of its batch against the fixed opponent.
   */
  type Play = (nat, PlayerState) -> nat -> Process
  type PlayMagic = PlayerState -> ProcessMagic

  /** What run yields per sample: the sample's serialised state, its genetic score and its position. */
  datatype ProcessedBatchOutput = ProcessedBatchOutput(botData: PlayerState, geneticScore: real, sample: nat)

  /** No entry of samples after position k and before position end is the same object as entry k. */
  predicate LastBefore(samples: seq<GamePlayer>, k: nat, end: nat)
    requires k < |samples|
  {
    forall j | k < j < end && j < |samples| :: samples[j] != samples[k]
  }

  /** Entry k is the last occurrence of its object in samples. */
  predicate LastAt(samples: seq<GamePlayer>, k: nat)
    requires k < |samples|
  {
    LastBefore(samples, k, |samples|)
  }

  /** The serialised state of every sample, in order. */
  ghost function StatesOf(samples: seq<GamePlayer>): (states: seq<PlayerState>)
    reads samples
    ensures |states| == |samples| && forall k | 0 <= k < |samples| :: states[k] == samples[k].ToDict()
  {
    if samples == [] then [] else [samples[0].ToDict()] + StatesOf(samples[1..])
  }

  /** The magic flag of every sample, in order. */
  ghost function MagicOf(samples: seq<GamePlayer>): (flags: seq<bool>)
    reads samples
    ensures |flags| == |samples| && forall k | 0 <= k < |samples| :: flags[k] == samples[k].magic
  {
    if samples == [] then [] else [samples[0].magic] + MagicOf(samples[1..])
  }

  /** The score of every sample, in order. */
  ghost function ScoresOf(samples: seq<GamePlayer>): (scores: seq<Option<real>>)
    reads samples
    ensures |scores| == |samples| && forall k | 0 <= k < |samples| :: scores[k] == samples[k].score
  {
    if samples == [] then [] else [samples[0].score] + ScoresOf(samples[1..])
  }

  /**
   * With the samples holding these scores: every sample before position end
   * that is not listed again before end holds the genetic score of its output.
   */
  ghost predicate ScoresKept(samples: seq<GamePlayer>, scores: seq<Option<real>>, done: seq<ProcessedBatchOutput>, end: nat)
  {
    end <= |samples| && end <= |scores| && end <= |done| &&
    forall k | 0 <= k < end :: LastBefore(samples, k, end) ==> scores[k] == Some(done[k].geneticScore)
  }

  /** A batch of the sample at position end, which sets only that sample's score among the samples, extends ScoresKept by one. */
  lemma ScoresKeptStep(samples: seq<GamePlayer>, before: seq<Option<real>>, after: seq<Option<real>>, done: seq<ProcessedBatchOutput>, output: ProcessedBatchOutput, end: nat)
    requires ScoresKept(samples, before, done, end) && end == |done| < |samples|
    requires |before| == |after| == |samples|
    requires forall k | 0 <= k < |samples| && samples[k] != samples[end] :: after[k] == before[k]
    requires after[end] == Some(output.geneticScore)
    ensures ScoresKept(samples, after, done + [output], end + 1)
  {
    forall k | 0 <= k < end + 1 && LastBefore(samples, k, end + 1)
      ensures after[k] == Some((done + [output])[k].geneticScore)
    {
      if k < end {
        assert samples[k] != samples[end];
      }
    }
  }

  class Processor {
    const otherBot: GamePlayer
    /** The place of the sample in every batch's bot list; the opponent takes the other. */
    const geneticIndex: nat
    /** The batch configuration: games per normal batch, magic or not, and the bound on a magic batch's steps. */
    const batchSize: nat
    const magic: bool
    const fuel: nat

    constructor (otherBot: GamePlayer, geneticIndex: nat, batchSize: nat, magic: bool, fuel: nat)
      requires geneticIndex < 2
      ensures this.otherBot == otherBot && this.geneticIndex == geneticIndex
      ensures this.batchSize == batchSize && this.magic == magic && this.fuel == fuel
    {
      this.otherBot := otherBot;
      this.geneticIndex := geneticIndex;
      this.batchSize := batchSize;
      this.magic := magic;
      this.fuel := fuel;
    }

    /** The bot list of a sample's batch: the sample at geneticIndex and the opponent at the other place. */
    function BotList(sample: GamePlayer): (botList: seq<GamePlayer>)
      ensures |botList| == 2
      ensures geneticIndex < 2 ==> botList[geneticIndex] == sample && botList[1 - geneticIndex] == otherBot
    {
      if geneticIndex == 0 then [sample, otherBot] else [otherBot, sample]
    }

    /** The magic flags of a sample's batch, in bot-list order. */
    function Flags(sampleMagic: bool, otherMagic: bool): (flags: seq<bool>)
      ensures |flags| == 2
      ensures geneticIndex < 2 ==> flags[geneticIndex] == sampleMagic && flags[1 - geneticIndex] == otherMagic
    {
      if geneticIndex == 0 then [sampleMagic, otherMagic] else [otherMagic, sampleMagic]
    }

    /** The outcomes the batch of a sample with this state and magic flag records. */
    ghost function SampleOutcomes(state: PlayerState, sampleMagic: bool, otherMagic: bool, index: nat, play: Play, playMagic: PlayMagic): (games: seq<GameOutcome<string>>)
      ensures forall g | g in games :: Counted(g, Identities)
    {
      BatchOutcomesCounted(magic, batchSize, Flags(sampleMagic, otherMagic), play(index, state), playMagic(state), fuel);
      BatchOutcomes(magic, batchSize, Flags(sampleMagic, otherMagic), play(index, state), playMagic(state), fuel)
    }

    /**
     * The output for the sample at position index with this state: its state,
     * and as its genetic score the mean of the genetic identity's scores over
     * its batch.
     */
    ghost function Expected(state: PlayerState, sampleMagic: bool, otherMagic: bool, index: nat, play: Play, playMagic: PlayMagic): ProcessedBatchOutput
      requires geneticIndex < 2 && SampleOutcomes(state, sampleMagic, otherMagic, index, play, playMagic) != []
    {
      var games := SampleOutcomes(state, sampleMagic, otherMagic, index, play, playMagic);
      assert forall g | g in games :: Identities[geneticIndex] in g.scores;
      ProcessedBatchOutput(state, Mean(games, Identities[geneticIndex]), index)
    }

    /**
     * One pass of run's loop: a batch of the sample against the opponent,
     * then the genetic identity's score and the sample's state. The batch
     * fails when it played no game.
     */
    method RunSample(sample: GamePlayer, index: nat, play: Play, playMagic: PlayMagic) returns (output: Option<ProcessedBatchOutput>)
      requires geneticIndex < 2 && sample != otherBot
      requires !magic ==> !sample.magic && !otherBot.magic
      modifies sample`score, otherBot`score
      ensures output.None? <==> SampleOutcomes(old(sample.ToDict()), old(sample.magic), old(otherBot.magic), index, play, playMagic) == []
      ensures output.Some? ==>
                output.value == Expected(old(sample.ToDict()), old(sample.magic), old(otherBot.magic), index, play, playMagic) &&
                sample.score == Some(output.value.geneticScore)
    {
      var state := sample.ToDict();
      var botList := BotList(sample);
      var batch := new Batch(botList, batchSize, magic);
      var batchResult := batch.RunBatch(play(index, state), playMagic(state), fuel);
      if batchResult.None? {
        output := None;
      } else {
        var geneticIdentity := batch.identities[geneticIndex];
        var geneticScore := batchResult.value.GetScore(geneticIdentity);
        output := Some(ProcessedBatchOutput(state, geneticScore, index));
      }
    }

    /** The output yielded for the sample at position index with this state and flag: what Expected gives, when its batch played a game. */
    ghost predicate Yields(output: ProcessedBatchOutput, state: PlayerState, sampleMagic: bool, otherMagic: bool, index: nat, play: Play, playMagic: PlayMagic)
    {
      geneticIndex < 2 && SampleOutcomes(state, sampleMagic, otherMagic, index, play, playMagic) != [] &&
      output == Expected(state, sampleMagic, otherMagic, index, play, playMagic)
    }

    /** Every output so far is what Yields gives for the sample at its position. */
    ghost predicate AllYield(done: seq<ProcessedBatchOutput>, states: seq<PlayerState>, flags: seq<bool>, otherMagic: bool, play: Play, playMagic: PlayMagic)
    {
      |done| <= |states| && |done| <= |flags| &&
      forall k | 0 <= k < |done| :: Yields(done[k], states[k], flags[k], otherMagic, k, play, playMagic)
    }

    /** Appending the output of the next sample keeps AllYield. */
    lemma AllYieldAppend(done: seq<ProcessedBatchOutput>, output: ProcessedBatchOutput, states: seq<PlayerState>, flags: seq<bool>, otherMagic: bool, play: Play, playMagic: PlayMagic)
      requires AllYield(done, states, flags, otherMagic, play, playMagic)
      requires |done| < |states| && |done| < |flags|
      requires Yields(output, states[|done|], flags[|done|], otherMagic, |done|, play, playMagic)
      ensures AllYield(done + [output], states, flags, otherMagic, play, playMagic)
    {
      assert forall k | 0 <= k < |done| :: (done + [output])[k] == done[k];
    }

    /**
     * One pass of run's loop, with what the passes before it established: the
     * batch of the sample at position |done| extends the outputs by the one
     * Yields gives, and leaves the sample holding its genetic score.
     */
    method Step(samples: seq<GamePlayer>, done: seq<ProcessedBatchOutput>, ghost states: seq<PlayerState>, ghost flags: seq<bool>, ghost otherMagic: bool, play: Play, playMagic: PlayMagic)
      returns (next: Option<seq<ProcessedBatchOutput>>)
      requires geneticIndex < 2 && otherBot !in samples
      requires |done| < |samples| == |states| == |flags|
      requires !magic ==> !otherBot.magic && !samples[|done|].magic
      requires samples[|done|].ToDict() == states[|done|] && samples[|done|].magic == flags[|done|] && otherBot.magic == otherMagic
      requires AllYield(done, states, flags, otherMagic, play, playMagic) && ScoresKept(samples, ScoresOf(samples), done, |done|)
      modifies samples`score, otherBot`score
      ensures next.None? ==> SampleOutcomes(states[|done|], flags[|done|], otherMagic, |done|, play, playMagic) == []
      ensures next.Some? ==>
                |next.value| == |done| + 1 && AllYield(next.value, states, flags, otherMagic, play, playMagic) &&
                ScoresKept(samples, ScoresOf(samples), next.value, |done| + 1)
    {
      var index := |done|;
      ghost var before := ScoresOf(samples);
      var output := RunSample(samples[index], index, play, playMagic);
      if output.None? {
        return None;
      }
      AllYieldAppend(done, output.value, states, flags, otherMagic, play, playMagic);
      ScoresKeptStep(samples, before, ScoresOf(samples), done, output.value, index);
      next := Some(done + [output.value]);
    }

    /**
     * run: one output per sample, in order, each the expected output for that
     * sample's state at its position. The whole run fails as soon as one batch
     * plays no game. Each sample's score is its own genetic score, except that
     * a sample listed twice keeps the score of its last batch.
     */
    method Run(samples: seq<GamePlayer>, play: Play, playMagic: PlayMagic) returns (outputs: Option<seq<ProcessedBatchOutput>>)
      requires geneticIndex < 2 && otherBot !in samples
      requires !magic ==> !otherBot.magic && forall s | s in samples :: !s.magic
      modifies samples`score, otherBot`score
      ensures outputs.None? <==>
                exists k | 0 <= k < |samples| :: SampleOutcomes(old(samples[k].ToDict()), old(samples[k].magic), old(otherBot.magic), k, play, playMagic) == []
      ensures outputs.Some? ==>
                |outputs.value| == |samples| &&
                forall k | 0 <= k < |samples| ::
                  Yields(outputs.value[k], old(samples[k].ToDict()), old(samples[k].magic), old(otherBot.magic), k, play, playMagic) &&
                  (LastAt(samples, k) ==> samples[k].score == Some(outputs.value[k].geneticScore))
    {
      ghost var states := StatesOf(samples);
      ghost var flags := MagicOf(samples);
      ghost var otherMagic := otherBot.magic;
      var done: seq<ProcessedBatchOutput> := [];
      var index := 0;
      while index < |samples|
        invariant index <= |samples| && |done| == index
        invariant otherBot.magic == otherMagic
        invariant |states| == |flags| == |samples| && AllYield(done, states, flags, otherMagic, play, playMagic)
        invariant ScoresKept(samples, ScoresOf(samples), done, index)
      {
        assert samples[index].ToDict() == states[index] && samples[index].magic == flags[index];
        var next := Step(samples, done, states, flags, otherMagic, play, playMagic);
        if next.None? {
          return None;
        }
        done := next.value;
        index := index + 1;
      }
      outputs := Some(done);
    }
  }
}
