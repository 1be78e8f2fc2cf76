# Battle window encounter, modelled in Dafny

This project models the logic of the battle window of a small Unity game
(`BattleScripts.MainWindowMediator`). The player has four integer stats:
money, health, power and crime. Each stat has a "+" and a "-" button that
change it by one, with no bounds. The window offers two engagement buttons:

- "pass" is offered while crime is at most 3 and the encounter is not yet passed;
- "fight" is shown once crime goes above 3 while the encounter is not passed,
  and stays shown if crime falls back (`BattleRules.BothShownReachable`).

Passing sets a flag that is never cleared and hides both buttons. Fighting
compares the player's power with the enemy's power. The player wins on a tie.
The result is a (colour, text) message pair.

- `BattleRules.dfy` (module `BattleRules`) holds the pure rules as values:
  the stats record, the stat to text-field switch, the crime check, the
  button rule, the fight outcome and its messages. It also holds the window
  as a state machine (`Step`, `Run`) driven by stat clicks, the pass click,
  the fight click and frame updates. Lemmas over arbitrary event sequences
  live there too.
- `MainWindowMediator.dfy` (module `MainWindow`) holds the class
  `MainWindowMediator`. Its fields are the four stats, the pass flag and the
  two buttons' active flags. Its methods update those fields in place. Each
  state-changing method is proved equal to `BattleRules.Step` for the
  matching event, so the trace lemmas apply to the object;
  `MainWindow.PlayPassedEncounter` drives a window through its handlers and
  uses them.

The enemy's power comes from a class that is not part of this model. It is
an opaque integer parameter of `Fight` and of the `FightClicked` event.

## Model

| member | source | states |
|---|---|---|
| `BattleRules.GetTextComponent` | Assets/_Battle/Scripts/MainWindowMediator.cs:156-164 | the field chosen for a kind is the one that displays that kind (`StatShownBy` inverts it) |
| `BattleRules.GetTextComponentInjective` | Assets/_Battle/Scripts/MainWindowMediator.cs:156-164 | two kinds share a text field iff they are the same kind: the four targets are distinct |
| `BattleRules.AddToStat` | Assets/_Battle/Scripts/MainWindowMediator.cs:138-142 | the chosen stat moves by exactly `addition`, with no clamping; the other three stats are unchanged |
| `BattleRules.CrimeTooHigh` | Assets/_Battle/Scripts/MainWindowMediator.cs:216-222 | the check is false for every crime up to 3 and true for every crime from 4 up |
| `BattleRules.CrimeTooHighBoundary` | Assets/_Battle/Scripts/MainWindowMediator.cs:216-222 | the check is false at 3, true at 4, and stays true for any higher crime |
| `BattleRules.ShowButtons` | Assets/_Battle/Scripts/MainWindowMediator.cs:195-213 | passed hides both buttons; not passed with crime above 3 shows only fight; otherwise pass is shown and fight keeps its previous flag |
| `BattleRules.ShowButtonsIdempotent` | Assets/_Battle/Scripts/MainWindowMediator.cs:195-213 | applying the button rule twice gives the same buttons as applying it once |
| `BattleRules.IsVictory` | Assets/_Battle/Scripts/MainWindowMediator.cs:178-179 | a tie or a weaker enemy is a win; a stronger enemy is a loss |
| `BattleRules.IsVictoryCases` | Assets/_Battle/Scripts/MainWindowMediator.cs:178-179 | a fight is won iff the enemy is not stronger; a tie wins, one less power loses, one more power wins |
| `BattleRules.FightMessage` | Assets/_Battle/Scripts/MainWindowMediator.cs:181-183 | victory gives "Win" in "#07FF00", defeat gives "Lose" in "#FF0000"; neither equals the pass message |
| `BattleRules.Step` | Assets/_Battle/Scripts/MainWindowMediator.cs:135-213 | one event's effect: a stat click moves one stat by its addition and nothing else; pass sets the flag and hides both buttons, leaving the stats; a fight changes nothing; a frame applies the button rule only; no event clears the flag |
| `BattleRules.RunStatIsSumOfAdditions` | Assets/_Battle/Scripts/MainWindowMediator.cs:135-142 | after any sequence of events a stat equals its start value plus the sum of the additions clicked for it |
| `BattleRules.RunPassedIffPassClicked` | Assets/_Battle/Scripts/MainWindowMediator.cs:167-168 | after any sequence of events the pass flag is set iff it was set before or pass was clicked; no event clears it |
| `BattleRules.RunStaysHiddenAfterPass` | Assets/_Battle/Scripts/MainWindowMediator.cs:167-213 | from a passed state with both buttons hidden, every later sequence of events keeps the flag set and both buttons hidden |
| `BattleRules.HiddenForeverAfterPass` | Assets/_Battle/Scripts/MainWindowMediator.cs:167-213 | whatever happens before and after a pass click, both buttons end hidden and the flag set |
| `BattleRules.FrameUpdateIdempotent` | Assets/_Battle/Scripts/MainWindowMediator.cs:188-213 | two frames in a row leave the same state as one, and a frame never changes the stats or the pass flag |
| `BattleRules.SumOfRepeatedAdjust` | Assets/_Battle/Scripts/MainWindowMediator.cs:135-136 | clicking one stat button n times adds n times its step to that stat, nothing to the others, and never passes |
| `BattleRules.RunRepeatedAdjust` | Assets/_Battle/Scripts/MainWindowMediator.cs:135-142 | n clicks of one stat button move that stat by n times the step; the other stats, the pass flag and both button flags stay as they were |
| `BattleRules.CrimeFourThenFrame` | Assets/_Battle/Scripts/MainWindowMediator.cs:195-222 | from zero stats, four crime increments and a frame reach crime 4, not passed, pass hidden and fight shown |
| `BattleRules.EndToEndScenario` | Assets/_Battle/Scripts/MainWindowMediator.cs:135-222 | in one run from zero stats, four crime increments, a frame and ten power increments end with only fight shown, crime 4, power 10, and a ("#FF0000", "Lose") fight against enemy power 20 |
| `BattleRules.BothShownReachable` | Assets/_Battle/Scripts/MainWindowMediator.cs:197-212 | because the pass-offered branch keeps the fight flag, crime up to 4, a frame, crime down to 3 and a frame leave both buttons active |
| `MainWindow.MainWindowMediator.constructor` | Assets/_Battle/Scripts/MainWindowMediator.cs:39-45 | a new window has every stat at 0, the pass flag clear and the buttons as placed in the scene |
| `MainWindow.MainWindowMediator.AddToValue` | Assets/_Battle/Scripts/MainWindowMediator.cs:138-142 | the chosen stat field grows by `addition`; the other stats, the flag and the buttons are unchanged |
| `MainWindow.MainWindowMediator.IncreaseValue` | Assets/_Battle/Scripts/MainWindowMediator.cs:135 | the chosen stat grows by 1 and nothing else changes |
| `MainWindow.MainWindowMediator.DecreaseValue` | Assets/_Battle/Scripts/MainWindowMediator.cs:136 | the chosen stat shrinks by 1, possibly below zero, and nothing else changes |
| `MainWindow.MainWindowMediator.CheckCrime` | Assets/_Battle/Scripts/MainWindowMediator.cs:216-222 | true iff the crime field is above 3; reads only |
| `MainWindow.MainWindowMediator.PassFight` | Assets/_Battle/Scripts/MainWindowMediator.cs:167-174 | sets the pass flag, hides both buttons whatever the crime value, yields ("#07FF00", "Passed"), leaves the stats alone |
| `MainWindow.MainWindowMediator.Fight` | Assets/_Battle/Scripts/MainWindowMediator.cs:176-184 | "Win" in green iff power is at least the enemy's power, else "Lose" in red; no state change and no guard on the pass flag |
| `MainWindow.MainWindowMediator.ShowPassFightAndFightButtons` | Assets/_Battle/Scripts/MainWindowMediator.cs:195-213 | the three branches of the button rule on the fields; the fight flag keeps its old value in the pass-offered branch; stats and flag unchanged |
| `MainWindow.MainWindowMediator.Update` | Assets/_Battle/Scripts/MainWindowMediator.cs:188-192 | one frame applies the button rule and nothing else |
| `MainWindow.PlayPassedEncounter` | Assets/_Battle/Scripts/MainWindowMediator.cs:132-213 | four crime increments, a frame, pass, a crime increment and a frame through the handlers give exactly the `Run` of those events, ending passed with both buttons hidden |

## Left out

- `Start`, `OnDestroy`, `CreatePlayerData`, `DisposePlayerData`, `Subscribe` and `Unsubscribe` are Unity lifecycle and listener wiring. The constructor stands in for the fields' starting values, and `Update` is a method the caller invokes.
- The eight handlers `IncreaseMoney` … `DecreaseCrime` are `IncreaseValue`/`DecreaseValue` with a fixed kind; they are covered by the kind parameter.
- `ChangeDataWindow` writes text fields, and `ShowMessages` writes the message to the debug log with colour markup. Both are presentation output. The model returns the (colour, text) pair only.
- `Enemy.CalcPower` is not part of this model. Enemy power is an unconstrained integer parameter, with no formula.
- `PlayerData` is not part of this model. Its observer notification on a value change and its `Attach`/`Detach` are left out. Its constructor is not shown, so the model starts every stat at 0.
- The scene's initial button states are not visible in the code, so they are constructor parameters.
- `BattleRules.GetTextComponent`: the throwing default arm has no counterpart. A Dafny `DataType` can only hold the four kinds, while a C# enum variable can hold other integers.
- `MainWindow.MainWindowMediator.AddToValue`: does not model the 32-bit wrap-around of C# `int`. Stats are unbounded integers.
- `BattleRules.AddToStat`: does not model 32-bit wrap-around either, for the same reason.
- In the pass-offered branch the code leaves the fight button's flag unchanged, so both buttons can be active at once (`BattleRules.BothShownReachable`). The model keeps this.
