/**
 The battle window's mediator: the four player stats, the pass flag and the
 active flags of the pass and fight buttons, updated in place by the button
 handlers and by the per-frame update. Every state-changing method is proved
 to do exactly what BattleRules.Step says for the matching event.
 */
module MainWindow {
  import opened BattleRules

  class MainWindowMediator {
    var money: int
    var health: int
    var power: int
    var crime: int
    var isPassed: bool
    /** gameObject.activeSelf of the pass button and of the fight button. */
    var passActive: bool
    var fightActive: bool

    /** The window's state as a value. */
    function Model(): State
      reads this
    {
      State(Stats(money, health, power, crime), isPassed, Buttons(passActive, fightActive))
    }

    /**
     A fresh window: every stat at zero, not passed, and the buttons as the
     scene placed them.
     */
    constructor (passActive: bool, fightActive: bool)
      ensures Model() == State(Stats(0, 0, 0, 0), false, Buttons(passActive, fightActive))
    {
      money, health, power, crime := 0, 0, 0, 0;
      isPassed := false;
      this.passActive, this.fightActive := passActive, fightActive;
    }

    /** `Value += addition` on the chosen stat, without bounds; nothing else changes. */
    method AddToValue(addition: int, kind: DataType)
      modifies this`money, this`health, this`power, this`crime
      ensures Get(Model().stats, kind) == old(Get(Model().stats, kind)) + addition
      ensures forall k :: k != kind ==> Get(Model().stats, k) == old(Get(Model().stats, k))
      ensures Model() == Step(old(Model()), AdjustStat(kind, addition))
    {
      match kind
      case Money => money := money + addition;
      case Health => health := health + addition;
      case Power => power := power + addition;
      case Crime => crime := crime + addition;
    }

    /** The "+" button of a stat. */
    method IncreaseValue(kind: DataType)
      modifies this`money, this`health, this`power, this`crime
      ensures Get(Model().stats, kind) == old(Get(Model().stats, kind)) + 1
      ensures Model() == Step(old(Model()), AdjustStat(kind, 1))
    {
      AddToValue(1, kind);
    }

    /** The "-" button of a stat. */
    method DecreaseValue(kind: DataType)
      modifies this`money, this`health, this`power, this`crime
      ensures Get(Model().stats, kind) == old(Get(Model().stats, kind)) - 1
      ensures Model() == Step(old(Model()), AdjustStat(kind, -1))
    {
      AddToValue(-1, kind);
    }

    /** The crime check on the current crime value. */
    method CheckCrime() returns (r: bool)
      ensures r == CrimeTooHigh(crime)
    {
      if crime > 3 {
        r := true;
      } else {
        r := false;
      }
    }

    /**
     The pass button: sets the pass flag and hides both buttons whatever the
     crime value, and yields the "Passed" message.
     */
    method PassFight() returns (m: Message)
      modifies this`isPassed, this`passActive, this`fightActive
      ensures isPassed && !passActive && !fightActive
      ensures m == PassMessage
      ensures Model() == Step(old(Model()), PassClicked)
    {
      isPassed := true;
      fightActive := false;
      passActive := false;
      m := Message("#07FF00", "Passed");
    }

    /**
     The fight button against an enemy of the given power: a win iff the
     player's power is at least the enemy's. Changes no state and does not
     look at the pass flag.
     */
    method Fight(enemyPower: int) returns (m: Message)
      ensures m.text == "Win" <==> power >= enemyPower
      ensures m.text == "Lose" <==> power < enemyPower
      ensures m.color == (if power >= enemyPower then VictoryColor else DefeatColor)
      ensures m == FightMessage(IsVictory(power, enemyPower))
    {
      var isVictory := power >= enemyPower;
      var color := if isVictory then "#07FF00" else "#FF0000";
      var message := if isVictory then "Win" else "Lose";
      m := Message(color, message);
    }

    /** The button rule: only the two active flags may change. */
    method ShowPassFightAndFightButtons()
      modifies this`passActive, this`fightActive
      ensures old(isPassed) ==> !passActive && !fightActive
      ensures !old(isPassed) && CrimeTooHigh(old(crime)) ==> !passActive && fightActive
      ensures !old(isPassed) && !CrimeTooHigh(old(crime)) ==> passActive && fightActive == old(fightActive)
      ensures Model() == Step(old(Model()), FrameUpdate)
    {
      var crimeTooHigh := CheckCrime();
      if !crimeTooHigh && !isPassed {
        passActive := true;
      } else if isPassed {
        passActive := false;
        fightActive := false;
      } else {
        passActive := false;
        fightActive := true;
      }
    }

    /** One frame. */
    method Update()
      modifies this`passActive, this`fightActive
      ensures Model() == Step(old(Model()), FrameUpdate)
    {
      ShowPassFightAndFightButtons();
    }
  }

  /**
   A window driven through its handlers follows the event rules, so the trace
   lemmas apply to it: four crime increments, a frame, pass, another crime
   increment and a frame leave it passed with both buttons hidden.
   */
  method PlayPassedEncounter(w: MainWindowMediator)
    modifies w
    ensures w.Model() == Run(old(w.Model()),
              seq(4, _ => AdjustStat(Crime, 1)) + [FrameUpdate] + [PassClicked] + [AdjustStat(Crime, 1), FrameUpdate])
    ensures w.isPassed && !w.passActive && !w.fightActive
  {
    ghost var s0 := w.Model();
    ghost var es: seq<Event> := [];
    w.IncreaseValue(Crime);
    RunSnoc(s0, es, AdjustStat(Crime, 1));
    es := es + [AdjustStat(Crime, 1)];
    w.IncreaseValue(Crime);
    RunSnoc(s0, es, AdjustStat(Crime, 1));
    es := es + [AdjustStat(Crime, 1)];
    w.IncreaseValue(Crime);
    RunSnoc(s0, es, AdjustStat(Crime, 1));
    es := es + [AdjustStat(Crime, 1)];
    w.IncreaseValue(Crime);
    RunSnoc(s0, es, AdjustStat(Crime, 1));
    es := es + [AdjustStat(Crime, 1)];
    w.Update();
    RunSnoc(s0, es, FrameUpdate);
    es := es + [FrameUpdate];
    ghost var before := es;
    var m := w.PassFight();
    RunSnoc(s0, es, PassClicked);
    es := es + [PassClicked];
    w.IncreaseValue(Crime);
    RunSnoc(s0, es, AdjustStat(Crime, 1));
    es := es + [AdjustStat(Crime, 1)];
    w.Update();
    RunSnoc(s0, es, FrameUpdate);
    es := es + [FrameUpdate];
    assert before == seq(4, _ => AdjustStat(Crime, 1)) + [FrameUpdate];
    assert es == before + [PassClicked] + [AdjustStat(Crime, 1), FrameUpdate];
    HiddenForeverAfterPass(s0, before, [AdjustStat(Crime, 1), FrameUpdate]);
  }
}
