/**
  The attack phase as the game loop runs it: validate the command, and only
  if it is accepted fight one battle round. A sequence of such phases is what
  a session of the game does to the map.
 */
module Game {
  import opened Wrappers
  import opened Territories
  import opened AttackValidation
  import opened Battle

  /** What an attack phase reports back to the player. */
  datatype Report =
    | Rejected(error: AttackError)
    | Fought(attack: Attack, outcome: Outcome)

  /** The report together with the map after the phase. */
  datatype PhaseResult = PhaseResult(report: Report, territories: seq<Territory>)

  /** One attack command: the two 1-based ids the player typed and the two
      dice that the battle, if it takes place, rolls in this order. */
  datatype Command = Command(attacker: int, defender: int, attackRoll: Roll, defenceRoll: Roll)

  /** Troops the map loses with the phase that produced `rep`. */
  function TroopsLost(rep: Report): nat
  {
    if rep.Fought? && rep.outcome != DefenceHeld then 1 else 0
  }

  /** Troops the map loses over a run of phases; at most one per phase. */
  function Losses(reports: seq<Report>): (n: nat)
    ensures n <= |reports|
  {
    if reports == [] then 0
    else Losses(reports[..|reports| - 1]) + TroopsLost(reports[|reports| - 1])
  }

  /** One attack phase. A rejected command leaves the map as it was; an
      accepted one resolves a battle between the two territories it names,
      and no other territory changes. */
  function AttackPhase(m: seq<Territory>, idA: int, idD: int, attackRoll: Roll, defenceRoll: Roll): (r: PhaseResult)
    requires WellFormed(m)
    ensures WellFormed(r.territories) && SameNames(m, r.territories)
    ensures r.report.Rejected? <==> !LegalAttack(m, idA - 1, idD - 1)
    ensures r.report.Rejected? ==>
      r.territories == m && ValidateAttack(m, idA, idD) == Failure(r.report.error)
    ensures r.report.Fought? ==>
      && r.report.attack.attacker == idA - 1 && r.report.attack.defender == idD - 1
      && r.territories == ResolveBattle(m, idA - 1, idD - 1, attackRoll, defenceRoll)
      && r.report.outcome == OutcomeOf(m, idD - 1, attackRoll, defenceRoll)
    ensures forall i :: 0 <= i < |m| && i != idA - 1 && i != idD - 1 ==> r.territories[i] == m[i]
  {
    ValidateAttackAcceptsLegal(m, idA, idD);
    match ValidateAttack(m, idA, idD)
    case Failure(e) => PhaseResult(Rejected(e), m)
    case Success(atk) =>
      PhaseResult(Fought(atk, OutcomeOf(m, atk.defender, attackRoll, defenceRoll)),
                  ResolveBattle(m, atk.attacker, atk.defender, attackRoll, defenceRoll))
  }

  /** Each of the four checks, in order, rejects the command with its own
      error and leaves the map unchanged once the checks before it pass. */
  lemma RejectionsLeaveMapUnchanged(m: seq<Territory>, idA: int, idD: int, attackRoll: Roll, defenceRoll: Roll)
    requires WellFormed(m)
    ensures !ValidId(idA) || !ValidId(idD) ==>
      AttackPhase(m, idA, idD, attackRoll, defenceRoll) == PhaseResult(Rejected(InvalidTerritory), m)
    ensures ValidId(idA) && ValidId(idD) && idA == idD ==>
      AttackPhase(m, idA, idD, attackRoll, defenceRoll) == PhaseResult(Rejected(SelfAttack), m)
    ensures ValidId(idA) && ValidId(idD) && idA != idD
            && m[idA - 1].colour == m[idD - 1].colour ==>
      AttackPhase(m, idA, idD, attackRoll, defenceRoll) == PhaseResult(Rejected(FriendlyTarget), m)
    ensures ValidId(idA) && ValidId(idD) && idA != idD
            && m[idA - 1].colour != m[idD - 1].colour && m[idA - 1].troops < 2 ==>
      AttackPhase(m, idA, idD, attackRoll, defenceRoll) == PhaseResult(Rejected(NotEnoughTroops), m)
  {
  }

  /** A phase lowers the total troop count by exactly the troops it reports
      lost: one when the attack roll wins, none otherwise. */
  lemma AttackPhaseTroopTotal(m: seq<Territory>, idA: int, idD: int, attackRoll: Roll, defenceRoll: Roll)
    requires WellFormed(m)
    ensures var r := AttackPhase(m, idA, idD, attackRoll, defenceRoll);
      && TotalTroops(r.territories) == TotalTroops(m) - TroopsLost(r.report)
      && (TroopsLost(r.report) == 1 <==> r.report.Fought? && AttackerWins(attackRoll, defenceRoll))
  {
    var r := AttackPhase(m, idA, idD, attackRoll, defenceRoll);
    if r.report.Fought? {
      BattleTroopTotal(m, idA - 1, idD - 1, attackRoll, defenceRoll);
    }
  }

  /** Starting from a map where every territory holds a troop, a phase never
      leaves a territory empty and never brings in a new army colour. */
  lemma AttackPhaseKeepsMap(m: seq<Territory>, idA: int, idD: int, attackRoll: Roll, defenceRoll: Roll)
    requires WellFormed(m)
    ensures var r := AttackPhase(m, idA, idD, attackRoll, defenceRoll);
      && (Garrisoned(m) ==> Garrisoned(r.territories))
      && Colours(r.territories) <= Colours(m)
  {
    var r := AttackPhase(m, idA, idD, attackRoll, defenceRoll);
    if r.report.Fought? {
      BattleColours(m, idA - 1, idD - 1, attackRoll, defenceRoll);
      if Garrisoned(m) {
        BattleKeepsGarrisons(m, idA - 1, idD - 1, attackRoll, defenceRoll);
      }
    }
  }

  /** What a run of phases keeps between the map `m` it started from and the
      map `after` it has reached, with the reports issued so far. */
  predicate RunKeeps(m: seq<Territory>, after: seq<Territory>, reports: seq<Report>)
  {
    && WellFormed(after) && SameNames(m, after)
    && TotalTroops(after) == TotalTroops(m) - Losses(reports)
    && (Garrisoned(m) ==> Garrisoned(after))
    && Colours(after) <= Colours(m)
  }

  /** One more phase keeps what a run keeps. */
  lemma PhaseKeepsRun(m: seq<Territory>, after: seq<Territory>, reports: seq<Report>, c: Command)
    requires RunKeeps(m, after, reports)
    ensures var step := AttackPhase(after, c.attacker, c.defender, c.attackRoll, c.defenceRoll);
      RunKeeps(m, step.territories, reports + [step.report])
  {
    var step := AttackPhase(after, c.attacker, c.defender, c.attackRoll, c.defenceRoll);
    AttackPhaseTroopTotal(after, c.attacker, c.defender, c.attackRoll, c.defenceRoll);
    AttackPhaseKeepsMap(after, c.attacker, c.defender, c.attackRoll, c.defenceRoll);
    assert (reports + [step.report])[..|reports|] == reports;
  }

  /** Report `k` is about command `k`: a fought report names the 0-based
      indices of the ids that command typed. */
  predicate ReportsFollow(reports: seq<Report>, cmds: seq<Command>)
  {
    && |reports| == |cmds|
    && forall k :: 0 <= k < |reports| && reports[k].Fought? ==>
         && reports[k].attack.attacker == cmds[k].attacker - 1
         && reports[k].attack.defender == cmds[k].defender - 1
  }

  /** Adding the report of the next command keeps reports and commands in step. */
  lemma ReportsFollowAppend(reports: seq<Report>, cmds: seq<Command>, rep: Report, c: Command)
    requires ReportsFollow(reports, cmds)
    requires rep.Fought? ==> rep.attack.attacker == c.attacker - 1 && rep.attack.defender == c.defender - 1
    ensures ReportsFollow(reports + [rep], cmds + [c])
  {
  }

  /** The map and the reports after a run of attack phases. */
  datatype Run = Run(territories: seq<Territory>, reports: seq<Report>)

  /** Runs the attack phases for `cmds` one after the other, as the game loop
      does each time the player chooses to attack. There is one report per
      command, and a fought report names its command's territories
      (`RunAttacksPlaysCommands` states that each report is exactly that
      command's phase); the map keeps its size and names, loses exactly the troops
      the reports count, keeps every territory garrisoned if it started so,
      and gains no army colour. */
  function RunAttacks(m: seq<Territory>, cmds: seq<Command>): (r: Run)
    requires WellFormed(m)
    ensures WellFormed(r.territories) && SameNames(m, r.territories)
    ensures ReportsFollow(r.reports, cmds)
    ensures TotalTroops(r.territories) == TotalTroops(m) - Losses(r.reports)
    ensures TotalTroops(m) - |cmds| <= TotalTroops(r.territories) <= TotalTroops(m)
    ensures Garrisoned(m) ==> Garrisoned(r.territories)
    ensures Colours(r.territories) <= Colours(m)
  {
    if cmds == [] then
      Run(m, [])
    else
      var before := RunAttacks(m, cmds[..|cmds| - 1]);
      var c := cmds[|cmds| - 1];
      var step := AttackPhase(before.territories, c.attacker, c.defender, c.attackRoll, c.defenceRoll);
      PhaseKeepsRun(m, before.territories, before.reports, c);
      assert cmds == cmds[..|cmds| - 1] + [c];
      ReportsFollowAppend(before.reports, cmds[..|cmds| - 1], step.report, c);
      Run(step.territories, before.reports + [step.report])
  }

  /** The reports of a run over the first `k` commands are the first `k`
      reports of the whole run. */
  lemma {:induction false} RunAttacksPrefix(m: seq<Territory>, cmds: seq<Command>, k: nat)
    requires WellFormed(m) && k <= |cmds|
    ensures RunAttacks(m, cmds[..k]).reports == RunAttacks(m, cmds).reports[..k]
    decreases |cmds|
  {
    if k < |cmds| {
      var init := cmds[..|cmds| - 1];
      var before := RunAttacks(m, init);
      var c := cmds[|cmds| - 1];
      var step := AttackPhase(before.territories, c.attacker, c.defender, c.attackRoll, c.defenceRoll);
      assert RunAttacks(m, cmds).reports == before.reports + [step.report];
      assert (before.reports + [step.report])[..k] == before.reports[..k];
      RunAttacksPrefix(m, init, k);
      assert init[..k] == cmds[..k];
    } else {
      assert cmds[..k] == cmds;
    }
  }

  /** The attack phase of command `k`, played on the map reached after the
      commands before it. */
  function PhaseOf(m: seq<Territory>, cmds: seq<Command>, k: nat): PhaseResult
    requires WellFormed(m) && k < |cmds|
  {
    var c := cmds[k];
    AttackPhase(RunAttacks(m, cmds[..k]).territories, c.attacker, c.defender, c.attackRoll, c.defenceRoll)
  }

  /** A run plays its commands in order: it starts from the given map with
      no reports, and report `k` and the map after `k + 1` commands are those
      of command `k`'s attack phase on the map reached before it. */
  lemma {:induction false} RunAttacksPlaysCommands(m: seq<Territory>, cmds: seq<Command>)
    requires WellFormed(m)
    ensures RunAttacks(m, []) == Run(m, [])
    ensures forall k :: 0 <= k < |cmds| ==>
      && RunAttacks(m, cmds).reports[k] == PhaseOf(m, cmds, k).report
      && RunAttacks(m, cmds[..k + 1]).territories == PhaseOf(m, cmds, k).territories
  {
    forall k | 0 <= k < |cmds|
      ensures RunAttacks(m, cmds).reports[k] == PhaseOf(m, cmds, k).report
      ensures RunAttacks(m, cmds[..k + 1]).territories == PhaseOf(m, cmds, k).territories
    {
      var pre := cmds[..k + 1];
      assert pre[..|pre| - 1] == cmds[..k];
      assert pre[|pre| - 1] == cmds[k];
      RunAttacksPrefix(m, cmds, k + 1);
      assert RunAttacks(m, cmds).reports[k] == RunAttacks(m, pre).reports[k];
    }
  }
}
