/**
 * The state every player carries (src/lib/gameplayer.ts): its identity in the
 * current game, a name, a score that exists only once a game has ended, the
 * genetic and magic flags, and a key/value store of player data.
 */
module GamePlayers {
  import opened Wrappers

  /** The serialised form of a player: string keys to string values. */
  type PlayerState = map<string, string>

  /**
   * Object.assign({ name }, data) followed by Object.assign(…, own): later
   * sources overwrite earlier ones key by key.
   */
  function Merged(name: string, data: PlayerState, own: PlayerState): PlayerState
  {
    map["name" := name] + data + own
  }

  /** Every key of the three sources is present, and the latest source holding it supplies its value. */
  lemma MergedPrecedence(name: string, data: PlayerState, own: PlayerState)
    ensures forall k :: k in Merged(name, data, own) <==> k == "name" || k in data || k in own
    ensures forall k | k in own :: Merged(name, data, own)[k] == own[k]
    ensures forall k | k in data && k !in own :: Merged(name, data, own)[k] == data[k]
    ensures "name" !in data && "name" !in own ==> Merged(name, data, own)["name"] == name
  {
  }

  class GamePlayer {
    var identity: string
    var name: string
    /** The score of the last game; None until one is set or after clearScore. */
    var score: Option<real>
    var genetic: bool
    var magic: bool
    var data: PlayerState

    constructor ()
      ensures identity == "" && name == "" && score == None
      ensures !genetic && !magic && data == map[]
    {
      identity := "";
      name := "";
      score := None;
      genetic := false;
      magic := false;
      data := map[];
    }

    /** The score getter: reading a score before one is set is a caller error. */
    function Score(): real
      reads this
      requires score.Some?
    {
      score.value
    }

    /** The score setter. */
    method SetScore(value: real)
      modifies this
      ensures score == Some(value) && Score() == value
      ensures identity == old(identity) && name == old(name) && data == old(data)
      ensures genetic == old(genetic) && magic == old(magic)
    {
      score := Some(value);
    }

    method ClearScore()
      modifies this
      ensures score == None
      ensures identity == old(identity) && name == old(name) && data == old(data)
      ensures genetic == old(genetic) && magic == old(magic)
    {
      score := None;
    }

    method SetData(key: string, value: string)
      modifies this
      ensures data == old(data)[key := value]
      ensures GetData(key, "") == value
      ensures forall k | k in old(data) && k != key :: data[k] == old(data)[k]
      ensures identity == old(identity) && name == old(name) && score == old(score)
      ensures genetic == old(genetic) && magic == old(magic)
    {
      data := data[key := value];
    }

    /** getData: the stored value, or the default when the key was never set. */
    function GetData(key: string, default: string): (v: string)
      reads this
      ensures key in data ==> v == data[key]
      ensures key !in data ==> v == default
    {
      if key in data then data[key] else default
    }

    /** getState of the base player: nothing beyond name and data. */
    function GetState(): PlayerState
    {
      map[]
    }

    /** toDict: the name, then the data, then getState, each overwriting the keys it holds. */
    function ToDict(): PlayerState
      reads this`name, this`data
    {
      Merged(name, data, GetState())
    }

    /** fromDict: the whole state becomes the data; the base setState keeps nothing else. */
    method FromDict(state: PlayerState)
      modifies this
      ensures data == state
      ensures identity == old(identity) && name == old(name) && score == old(score)
      ensures genetic == old(genetic) && magic == old(magic)
    {
      data := state;
    }

    /** The base mutate only insists that the player is genetic. */
    method Mutate()
      requires genetic
      ensures unchanged(this)
    {
    }
  }

  /**
   * Restoring a player from its own toDict gives back its data, with the name
   * added under "name" when the data did not hold one.
   */
  lemma ToDictRoundTrip(name: string, data: PlayerState)
    ensures Merged(name, data, map[]) == data["name" := if "name" in data then data["name"] else name]
  {
    MergedPrecedence(name, data, map[]);
  }
}
