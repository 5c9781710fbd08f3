/**
 * The outcome of one game or of a batch (src/lib/gameresult.ts): a score per
 * identity, a status and an optional stated winner. The scores object is a
 * map together with the order in which its keys were first set, which is the
 * order Object.keys reports them in.
 */
module GameResults {
  import opened Misc

  datatype GameStatus = StatusNone | StatusWin | StatusTie | StatusBatch

  /**
   * The reduce of getWinner over the keys: the running key is kept only while
   * its score is strictly higher, so a tie goes to the later key.
   */
  function Leader(scores: map<string, real>, keys: seq<string>): (w: string)
    requires |keys| > 0 && forall i | 0 <= i < |keys| :: keys[i] in scores
    ensures w in scores
    decreases |keys|
  {
    if |keys| == 1 then keys[0]
    else
      var acc := Leader(scores, keys[..|keys| - 1]);
      var b := keys[|keys| - 1];
      if scores[acc] > scores[b] then acc else b
  }

  /**
   * The leader is a key with the highest score, and no key after its last
   * occurrence scores as much: the last key attaining the maximum.
   */
  lemma {:induction false} LeaderIsLastMaximum(scores: map<string, real>, keys: seq<string>)
    requires |keys| > 0 && forall i | 0 <= i < |keys| :: keys[i] in scores
    ensures Leader(scores, keys) in keys
    ensures forall i | 0 <= i < |keys| :: scores[keys[i]] <= scores[Leader(scores, keys)]
    ensures exists i | 0 <= i < |keys| ::
              keys[i] == Leader(scores, keys) && forall j | i < j < |keys| :: scores[keys[j]] < scores[Leader(scores, keys)]
    decreases |keys|
  {
    if |keys| > 1 {
      var init := keys[..|keys| - 1];
      LeaderIsLastMaximum(scores, init);
      var acc := Leader(scores, init);
      var b := keys[|keys| - 1];
      var i :| 0 <= i < |init| && init[i] == acc && forall j | i < j < |init| :: scores[init[j]] < scores[acc];
      if scores[acc] > scores[b] {
        assert keys[i] == acc;
        forall j | i < j < |keys|
          ensures scores[keys[j]] < scores[acc]
        {
          if j < |init| {
            assert keys[j] == init[j];
          }
        }
      } else {
        assert keys[|keys| - 1] == b;
      }
      forall k | 0 <= k < |keys|
        ensures scores[keys[k]] <= scores[Leader(scores, keys)]
      {
        if k < |init| {
          assert keys[k] == init[k];
        }
      }
    }
  }

  class GameResult {
    var scores: map<string, real>
    /** The keys of scores in the order they were first set. */
    var keys: seq<string>
    var status: GameStatus
    var winner: string

    ghost predicate Valid()
      reads this
    {
      Distinct(keys) && (forall i | 0 <= i < |keys| :: keys[i] in scores) &&
      forall k | k in scores :: k in keys
    }

    constructor ()
      ensures Valid()
      ensures scores == map[] && keys == [] && status == StatusNone && winner == ""
    {
      scores := map[];
      keys := [];
      status := StatusNone;
      winner := "";
    }

    /** setScore: the identity's score becomes score; a new identity is listed last. */
    method SetScore(identity: string, score: real)
      modifies this
      ensures old(Valid()) ==> Valid()
      ensures scores == old(scores)[identity := score]
      ensures keys == if identity in old(scores) then old(keys) else old(keys) + [identity]
      ensures status == old(status) && winner == old(winner)
      ensures GetScore(identity) == score
      ensures forall other | other in old(scores) && other != identity :: GetScore(other) == old(scores)[other]
    {
      if identity !in scores {
        keys := keys + [identity];
      }
      scores := scores[identity := score];
    }

    /** getScore; reading an identity that was never set is a caller error. */
    function GetScore(identity: string): real
      reads this
      requires identity in scores
    {
      scores[identity]
    }

    /**
     * getWinner: the stated winner when there is one; otherwise at least one
     * score is needed, and the answer is the last key with the highest score.
     */
    function GetWinner(): (w: string)
      reads this
      requires Valid() && (winner != "" || |keys| > 0)
      ensures winner != "" ==> w == winner
      ensures winner == "" ==> w in scores && forall k | k in scores :: scores[k] <= scores[w]
      ensures winner == "" ==> exists i | 0 <= i < |keys| :: keys[i] == w && forall j | i < j < |keys| :: scores[keys[j]] < scores[w]
    {
      if winner != "" then winner
      else
        LeaderIsLastMaximum(scores, keys);
        Leader(scores, keys)
    }

    method SetWin()
      modifies this
      ensures status == StatusWin && IsWin() && !IsTie() && !IsBatch()
      ensures scores == old(scores) && keys == old(keys) && winner == old(winner)
    {
      status := StatusWin;
    }

    method SetTie()
      modifies this
      ensures status == StatusTie && IsTie() && !IsWin() && !IsBatch()
      ensures scores == old(scores) && keys == old(keys) && winner == old(winner)
    {
      status := StatusTie;
    }

    method SetBatch()
      modifies this
      ensures status == StatusBatch && IsBatch() && !IsWin() && !IsTie()
      ensures scores == old(scores) && keys == old(keys) && winner == old(winner)
    {
      status := StatusBatch;
    }

    predicate IsWin()
      reads this
    {
      status == StatusWin
    }

    predicate IsTie()
      reads this
    {
      status == StatusTie
    }

    predicate IsBatch()
      reads this
    {
      status == StatusBatch
    }
  }
}
