/**
 The rules of one battle encounter, as pure values: the four player stats,
 the stat -> text-field switch, the crime threshold, the pass/fight button
 rule, the fight outcome and its messages, and the encounter as a state
 machine driven by button clicks and frame updates.
 */
module BattleRules {

  /** The kind of a player stat. */
  datatype DataType = Money | Health | Power | Crime

  /** The four text fields of the window that show a player stat. */
  datatype TextTarget = CountMoneyText | CountHealthText | CountPowerText | CountCrimeText

  /** The stat a text field displays. */
  function StatShownBy(t: TextTarget): DataType
  {
    match t
    case CountMoneyText => Money
    case CountHealthText => Health
    case CountPowerText => Power
    case CountCrimeText => Crime
  }

  /**
   The text field that shows a stat of the given kind. The C# switch's
   default arm throws for an enum value outside the four kinds; a DataType
   value is always one of the four, so that arm has no counterpart here.
   */
  function GetTextComponent(kind: DataType): (t: TextTarget)
    ensures StatShownBy(t) == kind
  {
    match kind
    case Money => CountMoneyText
    case Health => CountHealthText
    case Power => CountPowerText
    case Crime => CountCrimeText
  }

  /** Distinct kinds are written to distinct text fields. */
  lemma GetTextComponentInjective(k1: DataType, k2: DataType)
    ensures GetTextComponent(k1) == GetTextComponent(k2) <==> k1 == k2
  {
  }

  /** The values of the four player stats; unbounded and possibly negative. */
  datatype Stats = Stats(money: int, health: int, power: int, crime: int)

  /** The value of the stat of the given kind. */
  function Get(s: Stats, kind: DataType): int
  {
    match kind
    case Money => s.money
    case Health => s.health
    case Power => s.power
    case Crime => s.crime
  }

  /** The stats after `Value += addition` on the stat of the given kind: no clamping, nothing else moves. */
  function AddToStat(s: Stats, addition: int, kind: DataType): (r: Stats)
    ensures Get(r, kind) == Get(s, kind) + addition
    ensures forall k :: k != kind ==> Get(r, k) == Get(s, k)
  {
    match kind
    case Money => s.(money := s.money + addition)
    case Health => s.(health := s.health + addition)
    case Power => s.(power := s.power + addition)
    case Crime => s.(crime := s.crime + addition)
  }

  /** Above this crime value the encounter cannot be passed. */
  const CrimeThreshold: int := 3

  /** The crime check: pass is still offered up to the threshold and blocked from one above it. */
  predicate CrimeTooHigh(crime: int): (r: bool)
    ensures crime <= CrimeThreshold ==> !r
    ensures crime >= CrimeThreshold + 1 ==> r
  {
    crime > CrimeThreshold
  }

  /** The boundary of the crime check: 3 still allows a pass, 4 does not, and the check is monotone. */
  lemma CrimeTooHighBoundary(c1: int, c2: int)
    ensures !CrimeTooHigh(3) && CrimeTooHigh(4)
    ensures c1 <= c2 && CrimeTooHigh(c1) ==> CrimeTooHigh(c2)
  {
  }

  /** The active flags of the pass and fight buttons' game objects. */
  datatype Buttons = Buttons(passActive: bool, fightActive: bool)

  predicate BothHidden(b: Buttons)
  {
    !b.passActive && !b.fightActive
  }

  /**
   The button rule run on every frame. When the encounter is neither passed
   nor blocked by crime only the pass button is switched on; the fight
   button keeps the state it had.
   */
  function ShowButtons(isPassed: bool, crimeTooHigh: bool, b: Buttons): (r: Buttons)
    ensures isPassed ==> BothHidden(r)
    ensures !isPassed && crimeTooHigh ==> !r.passActive && r.fightActive
    ensures !isPassed && !crimeTooHigh ==> r.passActive && r.fightActive == b.fightActive
  {
    if !crimeTooHigh && !isPassed then b.(passActive := true)
    else if isPassed then Buttons(false, false)
    else Buttons(false, true)
  }

  /** Running the button rule a second time changes nothing. */
  lemma ShowButtonsIdempotent(isPassed: bool, crimeTooHigh: bool, b: Buttons)
    ensures ShowButtons(isPassed, crimeTooHigh, ShowButtons(isPassed, crimeTooHigh, b))
         == ShowButtons(isPassed, crimeTooHigh, b)
  {
  }

  /** A (colour, text) pair handed to the message log. */
  datatype Message = Message(color: string, text: string)

  const VictoryColor: string := "#07FF00"
  const DefeatColor: string := "#FF0000"

  /** The message logged when the encounter is passed. */
  const PassMessage: Message := Message(VictoryColor, "Passed")

  /** The fight outcome: a tie or a weaker enemy is a win, a stronger enemy a loss. */
  predicate IsVictory(power: int, enemyPower: int): (r: bool)
    ensures enemyPower <= power ==> r
    ensures enemyPower > power ==> !r
  {
    power >= enemyPower
  }

  /** The fight outcome is a victory exactly when the enemy is no stronger; a tie favours the player. */
  lemma IsVictoryCases(power: int, enemyPower: int)
    ensures IsVictory(power, power)
    ensures IsVictory(power, enemyPower) <==> !(enemyPower > power)
    ensures !IsVictory(power - 1, power) && IsVictory(power + 1, power)
  {
  }

  /** The message logged after a fight. */
  function FightMessage(isVictory: bool): (m: Message)
    ensures m.text == "Win" <==> isVictory
    ensures m.text == "Lose" <==> !isVictory
    ensures m.color == VictoryColor <==> isVictory
    ensures m.color == (if isVictory then VictoryColor else DefeatColor)
    ensures m != PassMessage
  {
    if isVictory then Message(VictoryColor, "Win") else Message(DefeatColor, "Lose")
  }

  /** The observable state of one encounter window. */
  datatype State = State(stats: Stats, isPassed: bool, buttons: Buttons)

  /** What can happen to the window: a stat button, the pass button, the fight button, or a frame. */
  datatype Event =
    | AdjustStat(kind: DataType, addition: int)
    | PassClicked
    | FightClicked(enemyPower: int)
    | FrameUpdate

  /**
   One event's effect on the state. A stat click moves one stat, pass sets
   the flag and hides both buttons, a fight changes nothing and has no guard
   on the pass flag, and a frame applies the button rule.
   */
  function Step(s: State, e: Event): (r: State)
    ensures e.AdjustStat? ==>
              (r.isPassed == s.isPassed && r.buttons == s.buttons &&
               Get(r.stats, e.kind) == Get(s.stats, e.kind) + e.addition &&
               forall k :: k != e.kind ==> Get(r.stats, k) == Get(s.stats, k))
    ensures e.PassClicked? ==> r.stats == s.stats && r.isPassed && BothHidden(r.buttons)
    ensures e.FightClicked? ==> r == s
    ensures e.FrameUpdate? ==>
              (r.stats == s.stats && r.isPassed == s.isPassed &&
               r.buttons == ShowButtons(s.isPassed, CrimeTooHigh(s.stats.crime), s.buttons))
    ensures s.isPassed ==> r.isPassed
  {
    match e
    case AdjustStat(kind, addition) => s.(stats := AddToStat(s.stats, addition, kind))
    case PassClicked => s.(isPassed := true, buttons := Buttons(false, false))
    case FightClicked(_) => s
    case FrameUpdate => s.(buttons := ShowButtons(s.isPassed, CrimeTooHigh(s.stats.crime), s.buttons))
  }

  /** The state after a sequence of events, in order. */
  function Run(s: State, es: seq<Event>): State
    decreases |es|
  {
    if es == [] then s else Run(Step(s, es[0]), es[1..])
  }

  /** The sum of all additions applied to the stat of the given kind in a sequence of events. */
  function SumOfAdditions(es: seq<Event>, kind: DataType): int
    decreases |es|
  {
    if es == [] then 0
    else (match es[0]
          case AdjustStat(k, a) => if k == kind then a else 0
          case _ => 0) + SumOfAdditions(es[1..], kind)
  }

  /** A stat ends at its start value plus the sum of the additions applied to it: no clamping. */
  lemma {:induction false} RunStatIsSumOfAdditions(s: State, es: seq<Event>, kind: DataType)
    ensures Get(Run(s, es).stats, kind) == Get(s.stats, kind) + SumOfAdditions(es, kind)
    decreases |es|
  {
    if es != [] {
      RunStatIsSumOfAdditions(Step(s, es[0]), es[1..], kind);
    }
  }

  /** The pass flag is set after a run iff it was set before or the pass button was clicked: nothing clears it. */
  lemma {:induction false} RunPassedIffPassClicked(s: State, es: seq<Event>)
    ensures Run(s, es).isPassed <==> s.isPassed || PassClicked in es
    decreases |es|
  {
    if es != [] {
      RunPassedIffPassClicked(Step(s, es[0]), es[1..]);
      assert es == [es[0]] + es[1..];
    }
  }

  /** Once passed with both buttons hidden, every later event keeps both buttons hidden. */
  lemma {:induction false} RunStaysHiddenAfterPass(s: State, es: seq<Event>)
    requires s.isPassed && BothHidden(s.buttons)
    ensures Run(s, es).isPassed && BothHidden(Run(s, es).buttons)
    decreases |es|
  {
    if es != [] {
      RunStaysHiddenAfterPass(Step(s, es[0]), es[1..]);
    }
  }

  /** Clicking pass hides both buttons for the rest of the encounter, whatever happened before or after. */
  lemma {:induction false} HiddenForeverAfterPass(s: State, before: seq<Event>, after: seq<Event>)
    ensures Run(s, before + [PassClicked] + after).isPassed
    ensures BothHidden(Run(s, before + [PassClicked] + after).buttons)
  {
    var mid := Run(s, before + [PassClicked]);
    RunConcat(s, before, [PassClicked]);
    RunConcat(s, before + [PassClicked], after);
    RunStaysHiddenAfterPass(mid, after);
  }

  /** Running two sequences one after the other is running their concatenation. */
  lemma {:induction false} RunConcat(s: State, xs: seq<Event>, ys: seq<Event>)
    ensures Run(s, xs + ys) == Run(Run(s, xs), ys)
    decreases |xs|
  {
    if xs == [] {
      assert xs + ys == ys;
    } else {
      assert (xs + ys)[1..] == xs[1..] + ys;
      RunConcat(Step(s, xs[0]), xs[1..], ys);
    }
  }

  /** A frame update is idempotent, and no frame update changes the stats or the pass flag. */
  lemma FrameUpdateIdempotent(s: State)
    ensures Step(Step(s, FrameUpdate), FrameUpdate) == Step(s, FrameUpdate)
    ensures Step(s, FrameUpdate).stats == s.stats && Step(s, FrameUpdate).isPassed == s.isPassed
  {
    ShowButtonsIdempotent(s.isPassed, CrimeTooHigh(s.stats.crime), s.buttons);
  }

  /**
   Repeating one stat button n times adds n times its addition to that stat,
   leaves every other stat alone and never passes.
   */
  lemma {:induction false} SumOfRepeatedAdjust(kind: DataType, addition: int, n: nat, other: DataType)
    ensures SumOfAdditions(seq(n, _ => AdjustStat(kind, addition)), other)
         == if other == kind then n * addition else 0
    ensures PassClicked !in seq(n, _ => AdjustStat(kind, addition))
  {
    var es := seq(n, _ => AdjustStat(kind, addition));
    if n > 0 {
      assert es[1..] == seq(n - 1, _ => AdjustStat(kind, addition));
      SumOfRepeatedAdjust(kind, addition, n - 1, other);
      assert es == [es[0]] + es[1..];
    }
  }

  /**
   n clicks of one stat button move that stat by n times the step and leave
   everything else, the pass flag and the buttons included, as it was.
   */
  lemma {:induction false} RunRepeatedAdjust(s: State, kind: DataType, addition: int, n: nat)
    ensures Run(s, seq(n, _ => AdjustStat(kind, addition)))
         == s.(stats := AddToStat(s.stats, n * addition, kind))
    decreases n
  {
    var es := seq(n, _ => AdjustStat(kind, addition));
    if n == 0 {
      assert s.stats == AddToStat(s.stats, 0, kind);
    } else {
      assert es[1..] == seq(n - 1, _ => AdjustStat(kind, addition));
      var s' := Step(s, es[0]);
      RunRepeatedAdjust(s', kind, addition, n - 1);
      assert (n - 1) * addition + addition == n * addition;
      assert AddToStat(s'.stats, (n - 1) * addition, kind) == AddToStat(s.stats, n * addition, kind);
    }
  }

  /** The state reached from zero stats by four crime increments and a frame. */
  lemma CrimeFourThenFrame(b: Buttons)
    ensures Run(State(Stats(0, 0, 0, 0), false, b), seq(4, _ => AdjustStat(Crime, 1)) + [FrameUpdate])
         == State(Stats(0, 0, 0, 4), false, Buttons(false, true))
  {
    var s0 := State(Stats(0, 0, 0, 0), false, b);
    var crimes := seq(4, _ => AdjustStat(Crime, 1));
    RunRepeatedAdjust(s0, Crime, 1, 4);
    RunConcat(s0, crimes, [FrameUpdate]);
  }

  /**
   A whole encounter in one run: from zero stats, four crime increments and a
   frame leave only the fight button shown, and ten power increments after
   that keep it so and lose to an enemy of power 20.
   */
  lemma EndToEndScenario(b: Buttons)
    ensures var s := Run(State(Stats(0, 0, 0, 0), false, b),
                         seq(4, _ => AdjustStat(Crime, 1)) + [FrameUpdate] + seq(10, _ => AdjustStat(Power, 1)));
            s.stats.crime == 4 && s.stats.power == 10 && !s.isPassed
            && !s.buttons.passActive && s.buttons.fightActive
            && FightMessage(IsVictory(s.stats.power, 20)) == Message(DefeatColor, "Lose")
  {
    var s0 := State(Stats(0, 0, 0, 0), false, b);
    var prefix := seq(4, _ => AdjustStat(Crime, 1)) + [FrameUpdate];
    var powers := seq(10, _ => AdjustStat(Power, 1));
    CrimeFourThenFrame(b);
    var s1 := State(Stats(0, 0, 0, 4), false, Buttons(false, true));
    RunConcat(s0, prefix, powers);
    RunRepeatedAdjust(s1, Power, 1, 10);
    assert Run(s0, prefix + powers) == State(Stats(0, 0, 10, 4), false, Buttons(false, true));
  }

  /**
   Because the pass-offered branch keeps the fight flag, both buttons can be
   active at once: crime up to 4, a frame, crime back to 3, a frame.
   */
  lemma BothShownReachable(b: Buttons)
    ensures var s := Run(State(Stats(0, 0, 0, 0), false, b),
                         seq(4, _ => AdjustStat(Crime, 1)) + [FrameUpdate] + [AdjustStat(Crime, -1)] + [FrameUpdate]);
            !s.isPassed && s.buttons.passActive && s.buttons.fightActive
  {
    var s0 := State(Stats(0, 0, 0, 0), false, b);
    var prefix := seq(4, _ => AdjustStat(Crime, 1)) + [FrameUpdate];
    CrimeFourThenFrame(b);
    RunConcat(s0, prefix, [AdjustStat(Crime, -1)]);
    RunConcat(s0, prefix + [AdjustStat(Crime, -1)], [FrameUpdate]);
  }

  /** A run followed by one more event is that event's step after the run. */
  lemma RunSnoc(s: State, es: seq<Event>, e: Event)
    ensures Run(s, es + [e]) == Step(Run(s, es), e)
  {
    RunConcat(s, es, [e]);
  }
}
