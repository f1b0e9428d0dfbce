# War — territory map and attack engine

A Dafny model of the game-state engine of a small terminal version of the board
game *War* (`war.c`). The map is a fixed-length sequence of `NumTerritories`
(5) territories, each with a name, the colour of the army holding it and a
troop count (`Territories.Territory`, after the `Territorio` record and
`NUM_TERRITORIOS` at war.c:19-28). On each attack the player names an attacker
and a defender by their 1-based ids. The engine then does two things:

- **Attack validation** (`AttackValidation`, after `faseDeAtaque`). It runs four
  checks in a fixed order: both ids on the map, attacker different from
  defender, different army colours, and at least two troops on the attacker.
  The first check that fails rejects the command. Each check is stated on its
  own as `Violates(e)`, with its position `Rank(e)`. `ValidateAttack` is proved
  to report the first violated check in that order, and to accept exactly when
  no check objects. An accepted attack is turned into 0-based indices.
- **Battle resolution** (`Battle`, after `simularBatalha`). Each side rolls one
  die (`Roll`, 1..6), attack first. The attack wins when its roll is at least
  the defence roll, so a tie goes to the attacker. A winning attack costs the
  defender one troop. A defender brought to exactly zero is conquered: it takes
  the attacker's colour and one troop, and the attacker gives up one troop. A
  winning defence changes nothing.

`Game.AttackPhase` puts the two together: a rejected command leaves the map
unchanged, and an accepted one resolves one battle round. `Game.RunAttacks`
runs a sequence of attack phases, one after the other, as the game loop does
each time the player chooses to attack. `Scenarios` states the outcome of a few
concrete games on a five-territory map.

The dice are parameters of the model, not drawn from a random source. In the
program the dice are only rolled once validation has passed. The model takes
them with every command and ignores them when the command is rejected.

Ties go to the attacker (war.c:179). A held defence changes nothing: neither
side loses a troop (war.c:195-197).

## Model

| member | source | states |
|---|---|---|
| `AttackValidation.ValidateAttack` | war.c:132-154 | a command is rejected exactly when some check objects; the reported error is a check that objects and every check ranked before it passes (range, then self-attack, then same colour, then fewer than two troops); an accepted command names the 0-based indices `id - 1` of a legal attack |
| `AttackValidation.ValidateAttackAcceptsLegal` | war.c:133-154 | a command is accepted if and only if its 0-based indices are on the map, distinct, of different colours, and the attacker holds at least two troops |
| `AttackValidation.InvalidIdReportedFirst` | war.c:133-136 | an id outside `1..NumTerritories` is reported as an invalid territory whatever the map holds, even when both ids are equal |
| `Battle.ResolveBattle` | war.c:170-197 | only the attacker and defender entries can change; length and names are kept; a lost attack changes nothing; a won attack takes one troop from a defender with other than one troop and leaves the attacker alone; a defender at one troop is conquered: attacker's colour, one troop, attacker one troop fewer; a won attack never leaves the defender at zero |
| `Battle.BattleTroopTotal` | war.c:179-194 | a won attack lowers the map's total troop count by exactly one, conquest included; a held defence keeps it |
| `Battle.AttackerKeepsATroop` | war.c:151-193 | an attacker holding at least two troops, as validation demands, still holds at least one after the round, even when it pays a troop for a conquest |
| `Battle.BattleKeepsGarrisons` | war.c:151-193 | if every territory holds at least one troop and the attacker at least two, every territory still holds at least one troop afterwards |
| `Battle.BattleColours` | war.c:189 | a battle brings no new army colour onto the map |
| `Battle.OutcomeMatchesBattle` | war.c:178-197 | for territories of different colours, the outcome is "defence held" iff the map is unchanged, "conquered" iff the defender's colour changed, and "defender lost a troop" iff it kept its colour and lost one troop |
| `Battle.TieFavoursAttacker` | war.c:178-181 | equal rolls always change the defender: it loses a troop or its territory |
| `Battle.EmptyDefenderIsNotConquered` | war.c:181-184 | a defender entered with zero troops drops to minus one when the attack wins, keeps its colour, and the attacker is unchanged |
| `Game.AttackPhase` | war.c:132-156 | a command is rejected iff the attack is not legal, and then the map is unchanged and the error is the one validation reports; an accepted one reports the 0-based pair, the battle's outcome, and the map `ResolveBattle` produces; entries other than the two named never change |
| `Game.RejectionsLeaveMapUnchanged` | war.c:133-154 | each check, once the earlier ones pass, rejects with its own error and returns the map unchanged |
| `Game.AttackPhaseTroopTotal` | war.c:178-197 | a phase lowers the total troop count by the troops its report counts as lost, which is one exactly when a battle was fought and the attack roll won |
| `Game.AttackPhaseKeepsMap` | war.c:151-193 | a phase keeps a fully garrisoned map fully garrisoned and adds no army colour |
| `Game.RunAttacks` | war.c:55-76 | over a sequence of attack commands: one report per command, and a fought report names the 0-based indices of its command's ids; the map keeps its size and names; the total drops by exactly the troops the reports count lost, at most one per command; a fully garrisoned map stays so; no new colour appears |
| `Game.RunAttacksPrefix` | war.c:55-76 | running the first `k` commands gives exactly the first `k` reports of the whole run, so a later command never changes an earlier report |
| `Game.RunAttacksPlaysCommands` | war.c:55-76 | a run with no commands leaves the map as it was and reports nothing; report `k` and the map after `k + 1` commands are exactly those of command `k`'s attack phase, played on the map reached after the commands before it |
| `Scenarios.ConquestScenario` | war.c:179-193 | territory 1 (Blue, 5 troops) rolling 6 against territory 2's 1 (Green, 1 troop) conquers it: territory 2 becomes Blue with 1 troop, territory 1 keeps 4 |
| `Scenarios.TieScenario` | war.c:178-181 | equal rolls of 4 cost the defender one troop |
| `Scenarios.DefenceScenario` | war.c:195-197 | a defence roll of 5 against an attack roll of 2 leaves the map unchanged |
| `Scenarios.RejectionScenarios` | war.c:133-154 | an attacker with one troop, a self-attack, an attack on the same colour and ids 6 and 0 are each rejected with their own error and change nothing |

## Left out

- Terminal input and output: `scanf`/`fgets` and newline stripping in `cadastrarTerritorios`, all `printf` narration, `exibirMapa` and `limparBufferEntrada`. The map and the commands are values given to the model.
- `rand()`, `srand(time(NULL))` and the `% 6 + 1` mapping: the two rolls are parameters of type `Roll` (1..6), attack roll first.
- `alocarMapa`'s `calloc`, the allocation-failure exit and `free`: the map is a value.
- The menu in `main`: reading the option, the invalid-option message and quitting. `Game.RunAttacks` covers only the attack choices.
- Name and colour truncation to the `MAX_NOME`/`MAX_COR` buffers: names and colours are unbounded strings, compared and copied whole as `strcmp`/`strcpy` do.
- 32-bit `int` limits on troop counts: counts are unbounded integers, so decrementing a count at the `int` minimum is not modelled.
- Troop counts are not checked when entered (war.c:113). The "every territory holds a troop" results take it as an assumption about the starting map.
