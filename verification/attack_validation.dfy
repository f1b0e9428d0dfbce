/**
  The checks an attack command goes through before any dice are rolled. The
  user names the attacker and the defender by their 1-based ids as shown in
  the map table; the checks run in a fixed order and the first one that fails
  rejects the command.
 */
module AttackValidation {
  import opened Wrappers
  import opened Territories

  /** Why an attack command was rejected, in the order the checks run. */
  datatype AttackError =
    | InvalidTerritory   // an id outside 1..NumTerritories
    | SelfAttack         // attacker and defender are the same territory
    | FriendlyTarget     // both territories belong to the same army colour
    | NotEnoughTroops    // the attacker holds fewer than two troops

  /** An accepted attack, by 0-based map index. */
  datatype Attack = Attack(attacker: nat, defender: nat)

  /** Position of each check in the validation order. */
  function Rank(e: AttackError): nat
  {
    match e
    case InvalidTerritory => 0
    case SelfAttack => 1
    case FriendlyTarget => 2
    case NotEnoughTroops => 3
  }

  /** A 1-based id as the user types it names a territory. */
  predicate ValidId(id: int)
  {
    1 <= id <= NumTerritories
  }

  /** The condition that check `e`, taken on its own, objects to. The checks
      that look at territories only apply once both ids name one. */
  predicate Violates(m: seq<Territory>, idA: int, idD: int, e: AttackError)
    requires WellFormed(m)
  {
    match e
    case InvalidTerritory => !ValidId(idA) || !ValidId(idD)
    case SelfAttack => idA == idD
    case FriendlyTarget =>
      ValidId(idA) && ValidId(idD) && m[idA - 1].colour == m[idD - 1].colour
    case NotEnoughTroops =>
      ValidId(idA) && ValidId(idD) && m[idA - 1].troops < 2
  }

  /** An attack between two 0-based indices that the rules allow. */
  predicate LegalAttack(m: seq<Territory>, a: int, d: int)
  {
    && 0 <= a < |m| && 0 <= d < |m|
    && a != d
    && m[a].colour != m[d].colour
    && m[a].troops >= 2
  }

  /** Validates the attack of territory `idA` on territory `idD` (1-based).
      The reported error is the first check, in validation order, that
      objects; an attack no check objects to is accepted and converted to
      0-based indices. */
  function ValidateAttack(m: seq<Territory>, idA: int, idD: int): (r: Result<Attack, AttackError>)
    requires WellFormed(m)
    ensures r.Failure? <==> exists e :: Violates(m, idA, idD, e)
    ensures r.Failure? ==> Violates(m, idA, idD, r.error)
    ensures r.Failure? ==>
      forall e :: Rank(e) < Rank(r.error) ==> !Violates(m, idA, idD, e)
    ensures r.Success? ==> r.value.attacker == idA - 1 && r.value.defender == idD - 1
    ensures r.Success? ==> LegalAttack(m, r.value.attacker, r.value.defender)
  {
    if idA < 1 || idA > NumTerritories || idD < 1 || idD > NumTerritories then
      assert Violates(m, idA, idD, InvalidTerritory);
      Failure(InvalidTerritory)
    else if idA == idD then
      assert Violates(m, idA, idD, SelfAttack);
      Failure(SelfAttack)
    else
      var a, d := idA - 1, idD - 1;
      if m[a].colour == m[d].colour then
        assert Violates(m, idA, idD, FriendlyTarget);
        Failure(FriendlyTarget)
      else if m[a].troops < 2 then
        assert Violates(m, idA, idD, NotEnoughTroops);
        Failure(NotEnoughTroops)
      else
        Success(Attack(a, d))
  }

  /** An attack is accepted exactly when the rules allow it between the
      0-based indices its ids stand for. */
  lemma ValidateAttackAcceptsLegal(m: seq<Territory>, idA: int, idD: int)
    requires WellFormed(m)
    ensures ValidateAttack(m, idA, idD).Success? <==> LegalAttack(m, idA - 1, idD - 1)
  {
    if LegalAttack(m, idA - 1, idD - 1) {
      assert !Violates(m, idA, idD, InvalidTerritory);
    }
  }

  /** An id outside the map is reported before every other problem, whatever
      the map holds and even when both ids are equal. */
  lemma {:induction false} InvalidIdReportedFirst(m: seq<Territory>, m': seq<Territory>, idA: int, idD: int)
    requires WellFormed(m) && WellFormed(m')
    requires !ValidId(idA) || !ValidId(idD)
    ensures ValidateAttack(m, idA, idD) == Failure(InvalidTerritory)
    ensures ValidateAttack(m, idA, idD) == ValidateAttack(m', idA, idD)
  {
  }
}
