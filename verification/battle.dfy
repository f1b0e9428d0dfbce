/**
  One battle round between an attacker and a defender that passed validation.
  Each side rolls one six-sided die; the attack roll is drawn first. A tie
  goes to the attacker.
 */
module Battle {
  import opened Territories

  /** The face of a six-sided die. */
  type Roll = x: int | 1 <= x <= 6 witness 1

  /** How a battle round ended. */
  datatype Outcome =
    | DefenceHeld        // the defence rolled strictly higher
    | DefenderLostTroop  // the attack won and the defender still has troops
    | Conquered          // the attack won and took the territory

  /** The attack wins the round; ties favour the attacker. */
  predicate AttackerWins(attackRoll: Roll, defenceRoll: Roll)
  {
    attackRoll >= defenceRoll
  }

  /** The outcome of a round in which territory `d` defends. */
  function OutcomeOf(m: seq<Territory>, d: nat, attackRoll: Roll, defenceRoll: Roll): Outcome
    requires d < |m|
  {
    if !AttackerWins(attackRoll, defenceRoll) then DefenceHeld
    else if m[d].troops - 1 == 0 then Conquered
    else DefenderLostTroop
  }

  /** Resolves one round of territory `a` attacking territory `d` (0-based).
      A winning attack costs the defender one troop; a defender brought to
      exactly zero is taken over by the attacker's colour with one troop,
      which the attacker pays for with one of its own. A winning defence
      changes nothing. */
  function ResolveBattle(m: seq<Territory>, a: nat, d: nat, attackRoll: Roll, defenceRoll: Roll): (r: seq<Territory>)
    requires a < |m| && d < |m| && a != d
    ensures |r| == |m| && SameNames(m, r)
    ensures forall i :: 0 <= i < |m| && i != a && i != d ==> r[i] == m[i]
    ensures !AttackerWins(attackRoll, defenceRoll) ==> r == m
    ensures AttackerWins(attackRoll, defenceRoll) && m[d].troops != 1 ==>
      r[a] == m[a] && r[d].colour == m[d].colour && r[d].troops == m[d].troops - 1
    ensures AttackerWins(attackRoll, defenceRoll) && m[d].troops == 1 ==>
      && r[d].colour == m[a].colour && r[d].troops == 1
      && r[a].colour == m[a].colour && r[a].troops == m[a].troops - 1
    ensures AttackerWins(attackRoll, defenceRoll) ==> r[d].troops != 0
  {
    if !AttackerWins(attackRoll, defenceRoll) then
      m
    else
      var wounded := m[d].(troops := m[d].troops - 1);
      if wounded.troops == 0 then
        var taken := m[d := wounded.(colour := m[a].colour, troops := 1)];
        taken[a := taken[a].(troops := taken[a].troops - 1)]
      else
        m[d := wounded]
  }

  /** Every round the attack wins removes exactly one troop from the map: the
      defender's loss, or on a conquest the troop that moves in replacing the
      one lost while the attacker gives one up. A held defence removes none. */
  lemma {:induction false} BattleTroopTotal(m: seq<Territory>, a: nat, d: nat, attackRoll: Roll, defenceRoll: Roll)
    requires a < |m| && d < |m| && a != d
    ensures AttackerWins(attackRoll, defenceRoll) ==>
      TotalTroops(ResolveBattle(m, a, d, attackRoll, defenceRoll)) == TotalTroops(m) - 1
    ensures !AttackerWins(attackRoll, defenceRoll) ==>
      TotalTroops(ResolveBattle(m, a, d, attackRoll, defenceRoll)) == TotalTroops(m)
  {
    if AttackerWins(attackRoll, defenceRoll) {
      var wounded := m[d].(troops := m[d].troops - 1);
      if wounded.troops == 0 {
        var taken := m[d := wounded.(colour := m[a].colour, troops := 1)];
        TotalTroopsUpdate(m, d, wounded.(colour := m[a].colour, troops := 1));
        TotalTroopsUpdate(taken, a, taken[a].(troops := taken[a].troops - 1));
      } else {
        TotalTroopsUpdate(m, d, wounded);
      }
    }
  }

  /** An attacker with the two troops validation demands still holds at
      least one troop after the round, conquest included. */
  lemma AttackerKeepsATroop(m: seq<Territory>, a: nat, d: nat, attackRoll: Roll, defenceRoll: Roll)
    requires a < |m| && d < |m| && a != d
    requires m[a].troops >= 2
    ensures ResolveBattle(m, a, d, attackRoll, defenceRoll)[a].troops >= 1
  {
  }

  /** When every territory starts with at least one troop and the attacker
      has the two troops validation demands, no territory is left empty. */
  lemma BattleKeepsGarrisons(m: seq<Territory>, a: nat, d: nat, attackRoll: Roll, defenceRoll: Roll)
    requires a < |m| && d < |m| && a != d
    requires Garrisoned(m) && m[a].troops >= 2
    ensures Garrisoned(ResolveBattle(m, a, d, attackRoll, defenceRoll))
  {
  }

  /** A battle never brings a new army colour onto the map: a conquered
      territory takes a colour the attacker already had. */
  lemma BattleColours(m: seq<Territory>, a: nat, d: nat, attackRoll: Roll, defenceRoll: Roll)
    requires a < |m| && d < |m| && a != d
    ensures Colours(ResolveBattle(m, a, d, attackRoll, defenceRoll)) <= Colours(m)
  {
    var r := ResolveBattle(m, a, d, attackRoll, defenceRoll);
    forall x | x in Colours(r) ensures x in Colours(m) {
      var j :| 0 <= j < |r| && r[j].colour == x;
      if j == d && r[d].colour != m[d].colour {
        assert x == m[a].colour;
      } else {
        assert x == m[j].colour;
      }
    }
  }

  /** The outcome names what happened to the defender, provided the two
      territories fly different colours as validation guarantees. */
  lemma OutcomeMatchesBattle(m: seq<Territory>, a: nat, d: nat, attackRoll: Roll, defenceRoll: Roll)
    requires a < |m| && d < |m| && a != d
    requires m[a].colour != m[d].colour
    ensures var r := ResolveBattle(m, a, d, attackRoll, defenceRoll);
      && (OutcomeOf(m, d, attackRoll, defenceRoll) == DefenceHeld <==> r == m)
      && (OutcomeOf(m, d, attackRoll, defenceRoll) == Conquered <==> r[d].colour != m[d].colour)
      && (OutcomeOf(m, d, attackRoll, defenceRoll) == DefenderLostTroop <==>
            r[d].colour == m[d].colour && r[d].troops == m[d].troops - 1)
  {
  }

  /** Equal rolls count as a win for the attack: the defender always loses
      a troop or its territory. */
  lemma TieFavoursAttacker(m: seq<Territory>, a: nat, d: nat, roll: Roll)
    requires a < |m| && d < |m| && a != d
    requires m[a].colour != m[d].colour
    ensures ResolveBattle(m, a, d, roll, roll) != m
    ensures OutcomeOf(m, d, roll, roll) != DefenceHeld
  {
    OutcomeMatchesBattle(m, a, d, roll, roll);
  }

  /** Troop counts are not checked when the map is entered, and conquest only
      fires when the defender reaches exactly zero: a defender entered with
      no troops drops to minus one and keeps its colour. */
  lemma EmptyDefenderIsNotConquered(m: seq<Territory>, a: nat, d: nat, attackRoll: Roll, defenceRoll: Roll)
    requires a < |m| && d < |m| && a != d
    requires m[d].troops == 0 && AttackerWins(attackRoll, defenceRoll)
    ensures var r := ResolveBattle(m, a, d, attackRoll, defenceRoll);
      r[d].troops == -1 && r[d].colour == m[d].colour && r[a] == m[a]
  {
  }
}
