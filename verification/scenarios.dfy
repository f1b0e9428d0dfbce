/** Concrete games on a five-territory map. */
module Scenarios {
  import opened Territories
  import opened AttackValidation
  import opened Battle
  import opened Game

  function Start(): (m: seq<Territory>)
    ensures WellFormed(m) && Garrisoned(m)
  {
    [ Territory("Alaska", "Blue", 5),
      Territory("Brasil", "Green", 1),
      Territory("Chile", "Green", 3),
      Territory("Egito", "Red", 1),
      Territory("India", "Blue", 2) ]
  }

  /** Territory 1 attacks territory 2, which holds its last troop; a six
      against a one takes it, and Blue moves one troop in. */
  lemma ConquestScenario()
    ensures var r := AttackPhase(Start(), 1, 2, 6, 1);
      && r.report == Fought(Attack(0, 1), Conquered)
      && r.territories == Start()[0 := Territory("Alaska", "Blue", 4)]
                                 [1 := Territory("Brasil", "Blue", 1)]
  {
  }

  /** Equal rolls: the defender of territory 3 loses one troop. */
  lemma TieScenario()
    ensures var r := AttackPhase(Start(), 1, 3, 4, 4);
      && r.report == Fought(Attack(0, 2), DefenderLostTroop)
      && r.territories == Start()[2 := Territory("Chile", "Green", 2)]
  {
  }

  /** A higher defence roll changes nothing. */
  lemma DefenceScenario()
    ensures AttackPhase(Start(), 1, 4, 2, 5) == PhaseResult(Fought(Attack(0, 3), DefenceHeld), Start())
  {
  }

  /** Territory 4 has a single troop and cannot attack; attacking itself, a
      friendly territory or an id past the map are refused too, each with
      its own error, and a bad id wins over a self-attack. */
  lemma RejectionScenarios()
    ensures AttackPhase(Start(), 4, 1, 6, 1) == PhaseResult(Rejected(NotEnoughTroops), Start())
    ensures AttackPhase(Start(), 3, 3, 6, 1) == PhaseResult(Rejected(SelfAttack), Start())
    ensures AttackPhase(Start(), 1, 5, 6, 1) == PhaseResult(Rejected(FriendlyTarget), Start())
    ensures AttackPhase(Start(), 6, 6, 6, 1) == PhaseResult(Rejected(InvalidTerritory), Start())
    ensures AttackPhase(Start(), 0, 2, 6, 1) == PhaseResult(Rejected(InvalidTerritory), Start())
  {
  }
}
