/** Types shared by the Ludo modules. */
module Common {

  datatype Option<T> = None | Some(value: T)

  /** One `token: position` pair of a move dictionary. */
  datatype Entry = Entry(token: string, target: int)

  /** A move dictionary `{token: target}`; the order of the entries is the
      dictionary's insertion order, which the legality checker depends on. */
  type Move = seq<Entry>

  /** Dictionary keys are unique. */
  predicate DistinctTokens(m: Move)
  {
    forall i, j :: 0 <= i < j < |m| ==> m[i].token != m[j].token
  }

  /** The key set of a move dictionary. */
  function MoveKeys(m: Move): (keys: set<string>)
    ensures forall i :: 0 <= i < |m| ==> m[i].token in keys
    ensures forall t :: t in keys ==> exists i :: 0 <= i < |m| && m[i].token == t
  {
    set i | 0 <= i < |m| :: m[i].token
  }

  /** A pre-generated roll: a single die for a one-player episode, a pair of
      dice (one per player) for a two-player episode. */
  datatype Roll = Single(die: int) | Pair(first: int, second: int)

  /** Python's `all(...)` on a list of booleans. */
  function AllTrue(bs: seq<bool>): (r: bool)
    ensures r <==> forall k :: 0 <= k < |bs| ==> bs[k]
  {
    if bs == [] then true else bs[0] && AllTrue(bs[1..])
  }
}
