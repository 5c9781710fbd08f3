/**
 * The genetic runner (src/lib/runners/geneticrunner.ts): generation after
 * generation, the elites spawn mutated clones, every candidate plays a batch
 * against the fixed opponent, the candidates that beat the score threshold
 * (padded with earlier elites) are sorted by score, the best few become the
 * new elites and the threshold rises to the best score.
 *
 * Candidates are modelled by their serialised state (what toDict gives), and
 * every random choice by an oracle keyed by the generation and the
 * candidate's position, so each property holds for every outcome of chance.
 */
module GeneticRunners {
  import opened Wrappers
  import opened GamePlayers

  /** A scored member of a generation's pool: the serialised state of the bot and its genetic score. */
  datatype Sample = Sample(state: PlayerState, score: real)

  /** The elites carried from one generation to the next, and the score threshold. */
  datatype Population = Population(elites: seq<Sample>, threshold: real)

  /** The player data that create() gives a fresh bot at (generation, position). */
  type Create = (nat, nat) -> PlayerState
  /** The player data that mutate() makes of a clone with this data at (generation, position). */
  type Mutate = (PlayerState, nat, nat) -> PlayerState
  /** The genetic score of the batch of the candidate with this state at (generation, position). */
  type Fitness = (nat, nat, PlayerState) -> real

  /** One generation: from its number and the population before it to the population after it. */
  type Step = (nat, Population) -> Population

  /** The threshold before the first generation. */
  const StartThreshold: real := -999.0

  /** The population after the first count generations, starting with no elites and the start threshold. */
  function Iterate(step: Step, count: nat): (population: Population)
  {
    if count == 0 then Population([], StartThreshold) else step(count - 1, Iterate(step, count - 1))
  }

  /** A generation step that keeps elites named keeps them named in every generation. */
  lemma {:induction false} IterateNamed(step: Step, count: nat)
    requires forall generation: nat, p: Population | NamedSamples(p.elites) :: NamedSamples(step(generation, p).elites)
    ensures NamedSamples(Iterate(step, count).elites)
  {
    if count > 0 {
      IterateNamed(step, count - 1);
    }
  }

  /** A generation step that never lowers the threshold gives a threshold that never falls from one generation to a later one. */
  lemma {:induction false} IterateMonotone(step: Step, count: nat, later: nat)
    requires forall generation: nat, p: Population :: p.threshold <= step(generation, p).threshold
    requires count <= later
    ensures Iterate(step, count).threshold <= Iterate(step, later).threshold
  {
    if count < later {
      IterateMonotone(step, count, later - 1);
    }
  }

  /** setup: the genetic bot is bot 1 exactly when bot 0 is not genetic. */
  function GeneticIndexOf(firstGenetic: bool): (index: nat)
    ensures index < 2
    ensures index == 1 <==> !firstGenetic
  {
    if !firstGenetic then 1 else 0
  }

  /** Every serialised state holds a name. */
  predicate Named(states: seq<PlayerState>)
  {
    forall k | 0 <= k < |states| :: "name" in states[k]
  }

  /** Every sample's state holds a name. */
  predicate NamedSamples(samples: seq<Sample>)
  {
    forall k | 0 <= k < |samples| :: "name" in samples[k].state
  }

  /** The pool members whose score is strictly above the threshold, in order. */
  function Above(pool: seq<Sample>, threshold: real): (kept: seq<Sample>)
    ensures |kept| <= |pool|
  {
    if pool == [] then []
    else
      var rest := Above(pool[1..], threshold);
      if pool[0].score > threshold then [pool[0]] + rest else rest
  }

  /** The filter keeps exactly the pool members scoring strictly above the threshold. */
  lemma {:induction false} AboveMembers(pool: seq<Sample>, threshold: real)
    ensures forall s | s in Above(pool, threshold) :: s in pool && s.score > threshold
    ensures forall s | s in pool && s.score > threshold :: s in Above(pool, threshold)
  {
    if pool != [] {
      AboveMembers(pool[1..], threshold);
      assert pool == [pool[0]] + pool[1..];
    }
  }

  /** Scores never decrease along the sequence: each is at most the next. */
  predicate Ascending(s: seq<Sample>)
  {
    forall i | 0 <= i < |s| - 1 :: s[i].score <= s[i + 1].score
  }

  /** Scores never increase along the sequence: each is at least the next. */
  predicate Descending(s: seq<Sample>)
  {
    forall i | 0 <= i < |s| - 1 :: s[i].score >= s[i + 1].score
  }

  /** The head of a descending sequence scores at least as much as every entry. */
  lemma {:induction false} DescendingHead(s: seq<Sample>, k: nat)
    requires Descending(s) && k < |s|
    ensures s[0].score >= s[k].score
  {
    if k > 0 {
      DescendingHead(s, k - 1);
    }
  }

  /** x placed before the first element of t that does not score below it. */
  function Insert(x: Sample, t: seq<Sample>): (r: seq<Sample>)
    ensures multiset(r) == multiset([x] + t) && |r| == |t| + 1
  {
    if t == [] || x.score <= t[0].score then [x] + t
    else
      assert t == [t[0]] + t[1..];
      [t[0]] + Insert(x, t[1..])
  }

  /** Inserting into an ascending sequence keeps it ascending. */
  lemma {:induction false} InsertAscending(x: Sample, t: seq<Sample>)
    requires Ascending(t)
    ensures Ascending(Insert(x, t))
    ensures Insert(x, t)[0] == x || (t != [] && Insert(x, t)[0] == t[0])
  {
    if t != [] && x.score > t[0].score {
      assert Ascending(t[1..]) by {
        assert forall i | 0 <= i < |t[1..]| :: t[1..][i] == t[i + 1];
      }
      InsertAscending(x, t[1..]);
    }
  }

  /** The ascending stable sort of Array.prototype.sort with comparator a.score - b.score. */
  function SortAscending(s: seq<Sample>): (r: seq<Sample>)
    ensures |r| == |s|
  {
    if s == [] then [] else Insert(s[0], SortAscending(s[1..]))
  }

  /** The sort gives an ascending permutation of its input. */
  lemma {:induction false} SortAscendingSorts(s: seq<Sample>)
    ensures Ascending(SortAscending(s)) && multiset(SortAscending(s)) == multiset(s)
  {
    if s != [] {
      assert s == [s[0]] + s[1..];
      SortAscendingSorts(s[1..]);
      InsertAscending(s[0], SortAscending(s[1..]));
    }
  }

  /** Array.prototype.reverse. */
  function Reverse(s: seq<Sample>): (r: seq<Sample>)
    ensures |r| == |s|
  {
    if s == [] then [] else Reverse(s[1..]) + [s[0]]
  }

  /** Position k of the reversal holds position |s| - 1 - k of s. */
  lemma {:induction false} ReverseAt(s: seq<Sample>)
    ensures forall k | 0 <= k < |s| :: Reverse(s)[k] == s[|s| - 1 - k]
  {
    if s != [] {
      ReverseAt(s[1..]);
      assert forall k | 0 <= k < |s| - 1 :: Reverse(s)[k] == Reverse(s[1..])[k];
    }
  }

  /** Reversing an ascending sequence gives a descending permutation of it. */
  lemma ReverseAscending(s: seq<Sample>)
    requires Ascending(s)
    ensures Descending(Reverse(s)) && multiset(Reverse(s)) == multiset(s)
  {
    ReverseMultiset(s);
    ReverseAt(s);
    var r := Reverse(s);
    forall i | 0 <= i < |r| - 1
      ensures r[i].score >= r[i + 1].score
    {
      assert r[i] == s[|s| - 1 - i] && r[i + 1] == s[|s| - 2 - i];
    }
  }

  lemma {:induction false} ReverseMultiset(s: seq<Sample>)
    ensures multiset(Reverse(s)) == multiset(s)
  {
    if s != [] {
      ReverseMultiset(s[1..]);
      assert s == [s[0]] + s[1..];
    }
  }

  /** The pool ordered by non-increasing score: the ascending sort, then reversed. */
  function SortedPool(pool: seq<Sample>): (sorted: seq<Sample>)
    ensures |sorted| == |pool|
  {
    Reverse(SortAscending(pool))
  }

  /** The sorted pool is in non-increasing score order and holds exactly the pool's samples, as often as the pool does. */
  lemma SortedPoolSorts(pool: seq<Sample>)
    ensures Descending(SortedPool(pool)) && multiset(SortedPool(pool)) == multiset(pool)
  {
    SortAscendingSorts(pool);
    ReverseAscending(SortAscending(pool));
  }

  /** The largest of the threshold and the scores of the samples. */
  function Best(threshold: real, samples: seq<Sample>): (best: real)
    ensures best >= threshold
  {
    if samples == [] then threshold
    else
      var before := Best(threshold, samples[..|samples| - 1]);
      var last := samples[|samples| - 1];
      if last.score > before then last.score else before
  }

  /** The best bounds every score and is the threshold or one of the scores. */
  lemma {:induction false} BestBounds(threshold: real, samples: seq<Sample>)
    ensures forall s | s in samples :: s.score <= Best(threshold, samples)
    ensures Best(threshold, samples) == threshold || exists s | s in samples :: s.score == Best(threshold, samples)
  {
    if samples != [] {
      var init := samples[..|samples| - 1];
      BestBounds(threshold, init);
      assert samples == init + [samples[|samples| - 1]];
    }
  }

  /** Over a descending sequence whose head beats the threshold, the best is the head's score. */
  lemma BestOfDescending(threshold: real, samples: seq<Sample>)
    requires Descending(samples) && samples != [] && samples[0].score > threshold
    ensures Best(threshold, samples) == samples[0].score
  {
    BestBounds(threshold, samples);
    var b := Best(threshold, samples);
    assert samples[0] in samples;
    if b != samples[0].score {
      var s :| s in samples && s.score == b;
      var k :| 0 <= k < |samples| && samples[k] == s;
      DescendingHead(samples, k);
    }
  }

  /** A prefix of a descending sequence is descending. */
  lemma DescendingPrefix(s: seq<Sample>, n: nat)
    requires Descending(s) && n <= |s|
    ensures Descending(s[..n])
  {
    assert forall i | 0 <= i < n :: s[..n][i] == s[i];
  }

  class GeneticRunner {
    /** The configuration: generations to run, samples per elite, elites kept and fresh samples added per generation. */
    const numGenerations: nat
    const numSamples: nat
    const keepSamples: nat
    const wildSamples: nat

    var bots: seq<GamePlayer>
    var geneticIndex: nat
    var geneticName: string

    constructor (numGenerations: nat, numSamples: nat, keepSamples: nat, wildSamples: nat)
      ensures this.numGenerations == numGenerations && this.numSamples == numSamples
      ensures this.keepSamples == keepSamples && this.wildSamples == wildSamples
      ensures bots == [] && geneticIndex == 0 && geneticName == ""
    {
      this.numGenerations := numGenerations;
      this.numSamples := numSamples;
      this.keepSamples := keepSamples;
      this.wildSamples := wildSamples;
      bots := [];
      geneticIndex := 0;
      geneticName := "";
    }

    /**
     * setup: keeps the created bots, takes bot 1 as the genetic bot exactly
     * when bot 0 is not genetic (bot 0 when both are), and remembers its name.
     */
    method Setup(created: seq<GamePlayer>)
      requires |created| >= 2
      modifies this`bots, this`geneticIndex, this`geneticName
      ensures bots == created && geneticIndex < 2
      ensures geneticIndex == 1 <==> !created[0].genetic
      ensures geneticName == created[geneticIndex].name
    {
      bots := created;
      geneticIndex := GeneticIndexOf(created[0].genetic);
      geneticName := bots[geneticIndex].name;
    }

    /** The entries each elite contributes to generateSamples: itself, then numSamples - 1 clones. */
    function Per(): (per: nat)
      ensures per >= 1 && (numSamples >= 1 ==> per == numSamples)
    {
      if numSamples == 0 then 1 else numSamples
    }

    /** The serialised state of a bot of the genetic kind holding this data. */
    function Bot(name: string, data: PlayerState): (state: PlayerState)
      ensures "name" in state
    {
      MergedPrecedence(name, data, map[]);
      Merged(name, data, map[])
    }

    /** The entries of one elite in generateSamples, the elite at position base: the elite, then its mutated clones. */
    function Family(name: string, parent: PlayerState, generation: nat, base: nat, mutate: Mutate): (family: seq<PlayerState>)
      ensures |family| == Per() && family[0] == parent
      ensures forall j | 1 <= j < Per() :: family[j] == Bot(name, mutate(parent, generation, base + j))
    {
      [parent] + seq(Per() - 1, j requires 0 <= j < Per() - 1 => Bot(name, mutate(parent, generation, base + 1 + j)))
    }

    /** What generateSamples gives for these elites: each elite's family, in order. */
    function Spawned(name: string, elites: seq<Sample>, generation: nat, mutate: Mutate): (spawned: seq<PlayerState>)
    {
      if elites == [] then []
      else
        var n := |elites| - 1;
        Spawned(name, elites[..n], generation, mutate) + Family(name, elites[n].state, generation, n * Per(), mutate)
    }

    /** generateSamples gives Per() entries per elite. */
    lemma {:induction false} SpawnedLength(name: string, elites: seq<Sample>, generation: nat, mutate: Mutate)
      ensures |Spawned(name, elites, generation, mutate)| == |elites| * Per()
    {
      if elites != [] {
        var n := |elites| - 1;
        SpawnedLength(name, elites[..n], generation, mutate);
        assert |elites| * Per() == n * Per() + Per();
      }
    }

    /** Each elite i sits at position i * Per(), followed by its clones. */
    lemma {:induction false} SpawnedAt(name: string, elites: seq<Sample>, generation: nat, mutate: Mutate, i: nat, j: nat)
      requires i < |elites| && j < Per()
      ensures i * Per() + j < |Spawned(name, elites, generation, mutate)|
      ensures Spawned(name, elites, generation, mutate)[i * Per() + j] == Family(name, elites[i].state, generation, i * Per(), mutate)[j]
    {
      var n := |elites| - 1;
      var front := Spawned(name, elites[..n], generation, mutate);
      SpawnedLength(name, elites[..n], generation, mutate);
      SpawnedLength(name, elites, generation, mutate);
      MulBelow(i, j, |elites|, Per());
      if i < n {
        MulBelow(i, j, n, Per());
        SpawnedAt(name, elites[..n], generation, mutate, i, j);
        assert elites[..n][i] == elites[i];
      } else {
        assert i * Per() + j == |front| + j;
      }
    }

    /** Clones copy their parent faithfully: a named state read back through fromDict/toDict is itself. */
    lemma CloneMatchesParent(name: string, parent: PlayerState)
      requires "name" in parent
      ensures Bot(name, parent) == parent
    {
      ToDictRoundTrip(name, parent);
      assert parent["name" := parent["name"]] == parent;
    }

    /**
     * generateSamples: each elite, then numSamples - 1 clones of it, each
     * clone a new bot of the genetic kind given the elite's state and then
     * mutated. A clone's state before mutation is its parent's own.
     */
    method GenerateSamples(elites: seq<Sample>, generation: nat, mutate: Mutate) returns (samplesOut: seq<PlayerState>)
      requires NamedSamples(elites)
      ensures samplesOut == Spawned(geneticName, elites, generation, mutate)
      ensures |samplesOut| == |elites| * Per()
    {
      samplesOut := [];
      var i := 0;
      while i < |elites|
        invariant i <= |elites|
        invariant samplesOut == Spawned(geneticName, elites[..i], generation, mutate)
      {
        var sample := elites[i];
        var base := |samplesOut|;
        SpawnedLength(geneticName, elites[..i], generation, mutate);
        var family := GenerateFamily(sample.state, generation, base, mutate);
        assert elites[..i + 1][..i] == elites[..i];
        samplesOut := samplesOut + family;
        i := i + 1;
      }
      assert elites[..|elites|] == elites;
      SpawnedLength(geneticName, elites, generation, mutate);
    }

    /** The inner loop of generateSamples: the elite, then numSamples - 1 clones restored from its state and mutated. */
    method GenerateFamily(parent: PlayerState, generation: nat, base: nat, mutate: Mutate) returns (family: seq<PlayerState>)
      requires "name" in parent
      ensures family == Family(geneticName, parent, generation, base, mutate)
    {
      family := [parent];
      var j := 1;
      while j < numSamples
        invariant 1 <= j <= Per() && |family| == j && family[0] == parent
        invariant forall k | 1 <= k < j :: family[k] == Bot(geneticName, mutate(parent, generation, base + k))
      {
        var sampleData := parent;
        CloneMatchesParent(geneticName, sampleData);
        family := family + [Bot(geneticName, mutate(sampleData, generation, base + j))];
        j := j + 1;
      }
    }

    /** What generateOriginalSamples gives: count fresh bots of the genetic kind, the first at position base. */
    function Originals(name: string, generation: nat, count: nat, base: nat, create: Create): (originals: seq<PlayerState>)
      ensures |originals| == count && Named(originals)
      ensures forall k | 0 <= k < count :: originals[k] == Bot(name, create(generation, base + k))
    {
      var originals := seq(count, k requires 0 <= k < count => Bot(name, create(generation, base + k)));
      assert forall k | 0 <= k < count :: originals[k] == Bot(name, create(generation, base + k));
      originals
    }

    /** generateOriginalSamples: count new bots of the genetic kind, each given create()'s data. */
    method GenerateOriginalSamples(generation: nat, count: nat, base: nat, create: Create) returns (samplesOut: seq<PlayerState>)
      ensures samplesOut == Originals(geneticName, generation, count, base, create)
    {
      samplesOut := [];
      for i := 0 to count
        invariant samplesOut == Originals(geneticName, generation, i, base, create)
      {
        samplesOut := samplesOut + [Bot(geneticName, create(generation, base + i))];
      }
    }

    /** The candidates of a generation: the elites' families, or numSamples fresh bots when there are none, then wildSamples fresh bots. */
    function Candidates(name: string, generation: nat, elites: seq<Sample>, create: Create, mutate: Mutate): (candidates: seq<PlayerState>)
    {
      var first := if |elites| > 0 then Spawned(name, elites, generation, mutate) else Originals(name, generation, numSamples, 0, create);
      if wildSamples > 0 then first + Originals(name, generation, wildSamples, |first|, create) else first
    }

    /** The generation's pool: for each candidate, a bot restored from its batch's botData and holding its genetic score. */
    function Scored(name: string, generation: nat, candidates: seq<PlayerState>, fitness: Fitness): (pool: seq<Sample>)
      ensures |pool| == |candidates| && NamedSamples(pool)
      ensures forall k | 0 <= k < |candidates| :: pool[k].score == fitness(generation, k, candidates[k])
      ensures forall k | 0 <= k < |candidates| :: "name" in candidates[k] ==> pool[k].state == candidates[k]
    {
      forall k | 0 <= k < |candidates| && "name" in candidates[k] {
        CloneMatchesParent(name, candidates[k]);
      }
      var pool := seq(|candidates|, k requires 0 <= k < |candidates| => Sample(Bot(name, candidates[k]), fitness(generation, k, candidates[k])));
      assert forall k | 0 <= k < |candidates| :: pool[k].state == Bot(name, candidates[k]);
      pool
    }

    /**
     * The elites after the batches: each elite object was itself a candidate
     * at position i * Per(), and its batch overwrote its score.
     */
    function Rescored(elites: seq<Sample>, pool: seq<Sample>): (rescored: seq<Sample>)
      ensures |rescored| == |elites|
      ensures forall i | 0 <= i < |elites| :: rescored[i].state == elites[i].state
      ensures forall i | 0 <= i < |elites| && i * Per() < |pool| :: rescored[i].score == pool[i * Per()].score
    {
      seq(|elites|, i requires 0 <= i < |elites| => Sample(elites[i].state, if i * Per() < |pool| then pool[i * Per()].score else elites[i].score))
    }

    /** A short filtered pool is topped up with the first earlier elites, up to as many as there were elites. */
    function Padded(filtered: seq<Sample>, elites: seq<Sample>): (padded: seq<Sample>)
      ensures |padded| == if |filtered| < |elites| then |elites| else |filtered|
      ensures padded[..|filtered|] == filtered
      ensures forall k | |filtered| <= k < |padded| :: padded[k] == elites[k - |filtered|]
    {
      if |filtered| < |elites| then filtered + elites[..|elites| - |filtered|] else filtered
    }

    /** selectSamples: the first keepSamples entries of the sorted pool, or all of them when there are fewer. */
    function SelectSamples(sortedPool: seq<Sample>): (selected: seq<Sample>)
      ensures |selected| == if keepSamples < |sortedPool| then keepSamples else |sortedPool|
      ensures selected == sortedPool[..|selected|]
    {
      if keepSamples > |sortedPool| then sortedPool else sortedPool[..keepSamples]
    }

    /**
     * The second half of a generation, from the rescored elites and the pool:
     * with no sample above the threshold nothing more changes; otherwise the
     * filtered pool, padded with elites, is sorted and its head kept, and the
     * threshold rises to the best kept score.
     */
    function Advance(elites: seq<Sample>, pool: seq<Sample>, threshold: real): (next: Population)
    {
      var filtered := Above(pool, threshold);
      if filtered == [] then Population(elites, threshold)
      else
        var selected := SelectSamples(SortedPool(Padded(filtered, elites)));
        Population(selected, Best(threshold, selected))
    }

    /** One generation of run's loop, from its elites and threshold to the next ones. */
    function Generation(name: string, generation: nat, population: Population, create: Create, mutate: Mutate, fitness: Fitness): (next: Population)
    {
      var pool := Scored(name, generation, Candidates(name, generation, population.elites, create, mutate), fitness);
      Advance(Rescored(population.elites, pool), pool, population.threshold)
    }

    /** The population after the first count generations. */
    function Generations(name: string, count: nat, create: Create, mutate: Mutate, fitness: Fitness): (population: Population)
    {
      Iterate((generation: nat, p: Population) => Generation(name, generation, p, create, mutate, fitness), count)
    }

    /** The loop over processor.run's outputs: each becomes a pool bot restored from its botData and holding its genetic score. */
    method Evaluate(generation: nat, candidates: seq<PlayerState>, fitness: Fitness) returns (geneticPool: seq<Sample>)
      ensures geneticPool == Scored(geneticName, generation, candidates, fitness)
    {
      geneticPool := [];
      for k := 0 to |candidates|
        invariant geneticPool == Scored(geneticName, generation, candidates[..k], fitness)
      {
        assert candidates[..k + 1] == candidates[..k] + [candidates[k]];
        geneticPool := geneticPool + [Sample(Bot(geneticName, candidates[k]), fitness(generation, k, candidates[k]))];
      }
      assert candidates[..|candidates|] == candidates;
    }

    /** Candidates with a name, when the elites have one: the families keep the elites' states and every new bot is named. */
    lemma CandidatesNamed(name: string, generation: nat, elites: seq<Sample>, create: Create, mutate: Mutate)
      requires NamedSamples(elites)
      ensures Named(Candidates(name, generation, elites, create, mutate))
    {
      var spawned := Spawned(name, elites, generation, mutate);
      SpawnedLength(name, elites, generation, mutate);
      forall p | 0 <= p < |spawned|
        ensures "name" in spawned[p]
      {
        var i := p / Per();
        var j := p % Per();
        DivBelow(p, |elites|, Per());
        SpawnedAt(name, elites, generation, mutate, i, j);
      }
    }

    /**
     * Each elite is the candidate at position i * Per(): after a generation
     * the elite keeps its state and holds the score of its own new batch.
     */
    lemma ElitesRescored(name: string, generation: nat, population: Population, create: Create, mutate: Mutate, fitness: Fitness, i: nat)
      requires i < |population.elites|
      ensures
        var candidates := Candidates(name, generation, population.elites, create, mutate);
        var pool := Scored(name, generation, candidates, fitness);
        i * Per() < |candidates| && candidates[i * Per()] == population.elites[i].state &&
        Rescored(population.elites, pool)[i] == Sample(population.elites[i].state, fitness(generation, i * Per(), population.elites[i].state))
    {
      SpawnedAt(name, population.elites, generation, mutate, i, 0);
    }

    /** The threshold never falls, and a generation with no sample above it changes nothing but the elites' scores. */
    lemma AdvanceKeeps(elites: seq<Sample>, pool: seq<Sample>, threshold: real)
      ensures Advance(elites, pool, threshold).threshold >= threshold
      ensures Above(pool, threshold) == [] ==> Advance(elites, pool, threshold) == Population(elites, threshold)
    {
    }

    /** After an improving generation, the new elites are at most keepSamples samples of the pool or the old elites, in non-increasing score order. */
    lemma AdvanceSelects(elites: seq<Sample>, pool: seq<Sample>, threshold: real)
      requires Above(pool, threshold) != []
      ensures Descending(Advance(elites, pool, threshold).elites) && |Advance(elites, pool, threshold).elites| <= keepSamples
      ensures forall s | s in Advance(elites, pool, threshold).elites :: s in pool || s in elites
    {
      var filtered := Above(pool, threshold);
      var padded := Padded(filtered, elites);
      var sorted := SortedPool(padded);
      var selected := SelectSamples(sorted);
      SortedPoolSorts(padded);
      AboveMembers(pool, threshold);
      forall s | s in selected
        ensures s in pool || s in elites
      {
        assert s in multiset(sorted);
        assert s in padded;
        var k :| 0 <= k < |padded| && padded[k] == s;
        if k < |filtered| {
          assert padded[..|filtered|][k] == s;
        }
      }
    }

    /**
     * After an improving generation with keepSamples at least 1, the
     * threshold is the top elite's score, strictly above the old threshold.
     */
    lemma AdvanceImproves(elites: seq<Sample>, pool: seq<Sample>, threshold: real)
      requires Above(pool, threshold) != [] && keepSamples >= 1
      ensures Advance(elites, pool, threshold).elites != []
      ensures Advance(elites, pool, threshold).threshold == Advance(elites, pool, threshold).elites[0].score > threshold
    {
      var filtered := Above(pool, threshold);
      var padded := Padded(filtered, elites);
      var sorted := SortedPool(padded);
      var selected := SelectSamples(sorted);
      SortedPoolSorts(padded);
      AboveMembers(pool, threshold);
      assert filtered[0] in filtered;
      assert filtered[0] in padded by {
        assert padded[..|filtered|][0] == filtered[0];
      }
      assert filtered[0] in multiset(sorted);
      var k :| 0 <= k < |sorted| && sorted[k] == filtered[0];
      DescendingHead(sorted, k);
      assert selected[0] == sorted[0];
      DescendingPrefix(sorted, |selected|);
      BestOfDescending(threshold, selected);
    }

    /** The threshold after a generation is at least the one before it. */
    lemma GenerationKeepsThreshold(name: string, generation: nat, population: Population, create: Create, mutate: Mutate, fitness: Fitness)
      ensures population.threshold <= Generation(name, generation, population, create, mutate, fitness).threshold
    {
      var pool := Scored(name, generation, Candidates(name, generation, population.elites, create, mutate), fitness);
      AdvanceKeeps(Rescored(population.elites, pool), pool, population.threshold);
    }

    /** No generation lowers the threshold. */
    lemma ThresholdMonotone(name: string, count: nat, later: nat, create: Create, mutate: Mutate, fitness: Fitness)
      requires count <= later
      ensures Generations(name, count, create, mutate, fitness).threshold <= Generations(name, later, create, mutate, fitness).threshold
    {
      var step := (generation: nat, p: Population) => Generation(name, generation, p, create, mutate, fitness);
      forall generation: nat, p: Population
        ensures p.threshold <= step(generation, p).threshold
      {
        GenerationKeepsThreshold(name, generation, p, create, mutate, fitness);
      }
      IterateMonotone(step, count, later);
    }

    /** The threshold never falls below its start of -999. */
    lemma ThresholdAboveStart(name: string, count: nat, create: Create, mutate: Mutate, fitness: Fitness)
      ensures StartThreshold <= Generations(name, count, create, mutate, fitness).threshold
    {
      ThresholdMonotone(name, 0, count, create, mutate, fitness);
    }

    /** A generation from named elites gives named elites: pool bots are restored from named states, and padding reuses old elites. */
    lemma GenerationNamed(name: string, generation: nat, population: Population, create: Create, mutate: Mutate, fitness: Fitness)
      requires NamedSamples(population.elites)
      ensures NamedSamples(Generation(name, generation, population, create, mutate, fitness).elites)
    {
      var pool := Scored(name, generation, Candidates(name, generation, population.elites, create, mutate), fitness);
      var elites := Rescored(population.elites, pool);
      var next := Advance(elites, pool, population.threshold);
      if Above(pool, population.threshold) != [] {
        AdvanceSelects(elites, pool, population.threshold);
        forall k | 0 <= k < |next.elites|
          ensures "name" in next.elites[k].state
        {
          assert next.elites[k] in next.elites;
          if next.elites[k] in pool {
            var p :| 0 <= p < |pool| && pool[p] == next.elites[k];
          } else {
            var p :| 0 <= p < |elites| && elites[p] == next.elites[k];
          }
        }
      }
    }

    /** Every elite of every generation holds a name, so cloning it always passes the identity check. */
    lemma ElitesNamed(name: string, count: nat, create: Create, mutate: Mutate, fitness: Fitness)
      ensures NamedSamples(Generations(name, count, create, mutate, fitness).elites)
    {
      var step := (generation: nat, p: Population) => Generation(name, generation, p, create, mutate, fitness);
      forall generation: nat, p: Population | NamedSamples(p.elites)
        ensures NamedSamples(step(generation, p).elites)
      {
        GenerationNamed(name, generation, p, create, mutate, fitness);
      }
      IterateNamed(step, count);
    }

    /** The threshold loop: the threshold rises to every selected score above it. */
    method RaiseThreshold(selected: seq<Sample>, threshold: real) returns (scoreThreshold: real)
      ensures scoreThreshold == Best(threshold, selected)
    {
      scoreThreshold := threshold;
      for i := 0 to |selected|
        invariant scoreThreshold == Best(threshold, selected[..i])
      {
        assert selected[..i + 1][..i] == selected[..i];
        if selected[i].score > scoreThreshold {
          scoreThreshold := selected[i].score;
        }
      }
      assert selected[..|selected|] == selected;
    }

    /** One pass of run's generation loop. */
    method Evolve(generation: nat, population: Population, create: Create, mutate: Mutate, fitness: Fitness) returns (next: Population)
      requires NamedSamples(population.elites)
      ensures next == Generation(geneticName, generation, population, create, mutate, fitness)
    {
      var newSamples: seq<PlayerState>;
      if |population.elites| > 0 {
        newSamples := GenerateSamples(population.elites, generation, mutate);
      } else {
        newSamples := GenerateOriginalSamples(generation, numSamples, 0, create);
      }
      if wildSamples > 0 {
        var wild := GenerateOriginalSamples(generation, wildSamples, |newSamples|, create);
        newSamples := newSamples + wild;
      }
      assert newSamples == Candidates(geneticName, generation, population.elites, create, mutate);
      var geneticPool := Evaluate(generation, newSamples, fitness);
      var elites := Rescored(population.elites, geneticPool);
      next := SelectElites(elites, geneticPool, population.threshold);
    }

    /** The rest of a generation: filter the pool, pad it with elites, sort it, keep its head and raise the threshold. */
    method SelectElites(elites: seq<Sample>, geneticPool: seq<Sample>, threshold: real) returns (next: Population)
      ensures next == Advance(elites, geneticPool, threshold)
    {
      var filteredPool := Above(geneticPool, threshold);
      if filteredPool == [] {
        return Population(elites, threshold);
      }
      if |filteredPool| < |elites| {
        filteredPool := filteredPool + elites[..|elites| - |filteredPool|];
      }
      assert filteredPool == Padded(Above(geneticPool, threshold), elites);
      var selectedSamples := SelectSamples(SortedPool(filteredPool));
      var scoreThreshold := RaiseThreshold(selectedSamples, threshold);
      next := Population(selectedSamples, scoreThreshold);
    }

    /**
     * run: set up the bots, stop at once when neither bot is genetic, and
     * otherwise evolve numGenerations generations from no elites and the
     * start threshold; the outcome is the final elites and threshold.
     */
    method Run(created: seq<GamePlayer>, create: Create, mutate: Mutate, fitness: Fitness) returns (outcome: Option<Population>)
      requires |created| >= 2
      modifies this`bots, this`geneticIndex, this`geneticName
      ensures bots == created && geneticIndex < 2 && (geneticIndex == 1 <==> !created[0].genetic)
      ensures geneticName == created[geneticIndex].name
      ensures outcome.None? <==> !created[0].genetic && !created[1].genetic
      ensures outcome.Some? ==> outcome.value == Generations(geneticName, numGenerations, create, mutate, fitness)
    {
      Setup(created);
      if !bots[geneticIndex].genetic {
        return None;
      }
      var population := Population([], StartThreshold);
      for gen := 0 to numGenerations
        invariant population == Generations(geneticName, gen, create, mutate, fitness)
        modifies {}
      {
        ElitesNamed(geneticName, gen, create, mutate, fitness);
        population := Evolve(gen, population, create, mutate, fitness);
      }
      return Some(population);
    }
  }

  lemma DivBelow(p: nat, n: nat, per: nat)
    requires per > 0 && p < n * per
    ensures p / per < n && p % per < per && p == (p / per) * per + p % per
  {
  }

  lemma MulBelow(i: nat, j: nat, n: nat, per: nat)
    requires i < n && j < per
    ensures i * per + j < n * per
  {
    assert (i + 1) * per <= n * per;
  }
}
