/**
  The territory map of the game: a fixed-length sequence of territories, each
  with a name, the colour of the army holding it and a troop count.
 */
module Territories {

  /** Number of territories; the map always has exactly this many entries. */
  const NumTerritories: nat := 5

  /** One territory. Troops are a plain integer: the count is typed in by the
      user at setup and is not checked there. */
  datatype Territory = Territory(name: string, colour: string, troops: int)

  /** A map as the game allocates it. */
  predicate WellFormed(m: seq<Territory>)
  {
    |m| == NumTerritories
  }

  /** Every territory holds at least one troop. */
  predicate Garrisoned(m: seq<Territory>)
  {
    forall i :: 0 <= i < |m| ==> m[i].troops >= 1
  }

  /** Two maps list the same territory names in the same order. */
  predicate SameNames(m: seq<Territory>, m': seq<Territory>)
  {
    |m| == |m'| && forall i :: 0 <= i < |m| ==> m'[i].name == m[i].name
  }

  /** The army colours present on the map. */
  function Colours(m: seq<Territory>): set<string>
  {
    set i | 0 <= i < |m| :: m[i].colour
  }

  /** Sum of the troop counts of all territories. */
  function TotalTroops(m: seq<Territory>): int
  {
    if m == [] then 0 else m[0].troops + TotalTroops(m[1..])
  }

  /** Replacing one territory changes the total by the difference in its troops. */
  lemma {:induction false} TotalTroopsUpdate(m: seq<Territory>, i: nat, t: Territory)
    requires i < |m|
    ensures TotalTroops(m[i := t]) == TotalTroops(m) - m[i].troops + t.troops
  {
    if i == 0 {
      assert m[i := t][1..] == m[1..];
    } else {
      assert m[i := t][1..] == m[1..][i - 1 := t];
      TotalTroopsUpdate(m[1..], i - 1, t);
    }
  }
}
