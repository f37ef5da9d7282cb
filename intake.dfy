/** The intake counter of the hydration screen: how much water has been
    drunk, the daily goal, the progress percentage shown for it, and the
    update that adds a glass. Intake and goal are integer tenths of a
    litre, the one-decimal granularity the screen keeps (goal 30, start
    15). An added amount is a real number of litres, as `handleAddWater`
    takes any number; the button passes 0.5 L, which adds 5 tenths. */
module Intake {
  import opened DecimalText

  /** The daily goal, 3.0 L. It is a constant of the screen, so nothing
      can change it. */
  const Goal: int := 30
  /** The intake the screen starts from, 1.5 L. */
  const InitialIntake: int := 15
  /** The amount the add button passes, 0.5 L. */
  const ButtonAmount: real := 0.5

  datatype Theme = Light | Dark

  /** `Math.min((intake / goal) * 100, 100)`: progress in percent, held at
      100 once the goal is reached. */
  function PercentageOf(intake: int, goal: int): (p: real)
    requires goal > 0
    ensures p <= 100.0
    ensures p == 100.0 <==> intake >= goal
    ensures intake < goal ==> p * goal as real == 100.0 * intake as real
    ensures intake >= 0 ==> p >= 0.0
  {
    var raw := (intake as real / goal as real) * 100.0;
    if raw < 100.0 then raw else 100.0
  }

  /** More water never shows less progress. */
  lemma PercentageMonotone(i: int, j: int, goal: int)
    requires goal > 0 && i <= j
    ensures PercentageOf(i, goal) <= PercentageOf(j, goal)
  {
    var g := goal as real;
    assert i as real / g <= j as real / g by {
      assert i as real / g * g == i as real;
      assert j as real / g * g == j as real;
    }
  }

  /** The new intake after `prev => parseFloat((prev + amount).toFixed(1))`,
      in tenths: the exact sum rounded to the nearest tenth. */
  function AddStep(intake: int, amount: real): (r: int)
    ensures -0.5 <= r as real - (intake as real + 10.0 * amount) <= 0.5
  {
    RoundTenths(intake as real / 10.0 + amount)
  }

  /** Adding a whole number of tenths is exact: rounding to one decimal
      never lets the sum drift. */
  lemma AddStepExact(intake: int, k: int)
    ensures AddStep(intake, k as real / 10.0) == intake + k
  {
  }

  /** Adding a non-negative amount never lowers the intake. */
  lemma AddStepNonDecreasing(intake: int, amount: real)
    requires amount >= 0.0
    ensures AddStep(intake, amount) >= intake
  {
  }

  /** From a non-negative intake, a non-negative amount raises the intake
      exactly when it is at least 0.05 L: anything smaller rounds away. */
  lemma AddStepIncreases(intake: int, amount: real)
    requires intake >= 0 && amount >= 0.0
    ensures AddStep(intake, amount) > intake <==> amount >= 0.05
  {
  }

  function RealSum(amounts: seq<real>): real
  {
    if amounts == [] then 0.0 else amounts[0] + RealSum(amounts[1..])
  }

  /** The intake after the given additions, one after another. Because
      `App.AddWater` sets the intake to `AddStep(old(intake), amount)`,
      calling it with each of `amounts` in turn leaves the intake at
      `Replay(start, amounts)`; the lemmas about `Replay` below are
      therefore statements about runs of `App.AddWater` calls. Each
      rounding moves the intake by at most half a tenth, so the result
      is within half a tenth per addition of the exact sum. */
  function Replay(intake: int, amounts: seq<real>): (r: int)
    ensures -0.5 * |amounts| as real <= r as real - (intake as real + 10.0 * RealSum(amounts)) <= 0.5 * |amounts| as real
    decreases |amounts|
  {
    if amounts == [] then intake else Replay(AddStep(intake, amounts[0]), amounts[1..])
  }

  function Sum(ks: seq<int>): int
  {
    if ks == [] then 0 else ks[0] + Sum(ks[1..])
  }

  /** Any run of additions that are whole tenths ends at the exact decimal
      sum: repeated rounding accumulates no error. */
  lemma {:induction false} ReplayExact(intake: int, amounts: seq<real>, ks: seq<int>)
    requires |amounts| == |ks|
    requires forall i :: 0 <= i < |ks| ==> amounts[i] == ks[i] as real / 10.0
    ensures Replay(intake, amounts) == intake + Sum(ks)
    decreases |amounts|
  {
    if amounts != [] {
      AddStepExact(intake, ks[0]);
      ReplayExact(AddStep(intake, amounts[0]), amounts[1..], ks[1..]);
    }
  }

  /** An amount that is a whole number of tenths plus an error of less
      than half a tenth either way (the error a binary sum carries) still
      adds exactly that many tenths: the rounding removes the error. */
  lemma AddStepAbsorbs(intake: int, k: int, e: real)
    requires -0.05 < e < 0.05
    ensures AddStep(intake, k as real / 10.0 + e) == intake + k
  {
  }

  /** A run of additions, each within less than half a tenth of a whole
      number of tenths, ends at the exact decimal sum: the error of one
      addition is removed before the next one starts. */
  lemma {:induction false} ReplayAbsorbs(intake: int, amounts: seq<real>, ks: seq<int>)
    requires |amounts| == |ks|
    requires forall i :: 0 <= i < |ks| ==> -0.05 < amounts[i] - ks[i] as real / 10.0 < 0.05
    ensures Replay(intake, amounts) == intake + Sum(ks)
    decreases |amounts|
  {
    if amounts != [] {
      AddStepAbsorbs(intake, ks[0], amounts[0] - ks[0] as real / 10.0);
      ReplayAbsorbs(AddStep(intake, amounts[0]), amounts[1..], ks[1..]);
    }
  }

  /** Non-negative additions never lower the intake. */
  lemma {:induction false} ReplayNonDecreasing(intake: int, amounts: seq<real>)
    requires forall i :: 0 <= i < |amounts| ==> amounts[i] >= 0.0
    ensures Replay(intake, amounts) >= intake
    decreases |amounts|
  {
    if amounts != [] {
      AddStepNonDecreasing(intake, amounts[0]);
      ReplayNonDecreasing(AddStep(intake, amounts[0]), amounts[1..]);
    }
  }

  /** Every intake the screen can reach, from 1.5 L through additions that
      are not negative, shows a progress between 0 and 100 inclusive. */
  lemma ReachablePercentageInRange(amounts: seq<real>)
    requires forall i :: 0 <= i < |amounts| ==> amounts[i] >= 0.0
    ensures Replay(InitialIntake, amounts) >= InitialIntake
    ensures 0.0 <= PercentageOf(Replay(InitialIntake, amounts), Goal) <= 100.0
  {
    ReplayNonDecreasing(InitialIntake, amounts);
  }

  /** 0.1 L added ten times to an empty counter gives exactly 1.0 L. */
  lemma TenTenthsMakeALitre()
    ensures Replay(0, seq(10, _ => 0.1)) == 10
  {
    ReplayExact(0, seq(10, _ => 0.1), seq(10, _ => 1));
    SumConstant(10, 1);
  }

  /** Pressing the add button `k` times from the initial state: the intake
      grows by exactly 0.5 L a press and is never clamped, while the
      percentage reaches 100 from the third press on and stays there. */
  lemma {:induction false} ButtonPresses(k: nat)
    ensures Replay(InitialIntake, seq(k, _ => ButtonAmount)) == InitialIntake + 5 * k
    ensures var r := Replay(InitialIntake, seq(k, _ => ButtonAmount));
            (PercentageOf(r, Goal) == 100.0 <==> k >= 3) && (k >= 4 ==> r > Goal)
  {
    ReplayExact(InitialIntake, seq(k, _ => ButtonAmount), seq(k, _ => 5));
    SumConstant(k, 5);
  }

  lemma {:induction false} SumConstant(k: nat, c: int)
    ensures Sum(seq(k, _ => c)) == k * c
  {
    if k > 0 {
      assert seq(k, _ => c)[1..] == seq(k - 1, _ => c);
      SumConstant(k - 1, c);
    }
  }

  /** The screen's state: the intake cell, the theme cell and the sidebar
      cell, with the goal a constant beside them. */
  class App {
    var intake: int
    var theme: Theme
    var sidebarOpen: bool

    /** Starts at 1.5 L of 3.0 L, light theme, sidebar closed. */
    constructor ()
      ensures intake == InitialIntake && theme == Light && !sidebarOpen
      ensures Percentage() == 50.0
    {
      intake := InitialIntake;
      theme := Light;
      sidebarOpen := false;
    }

    /** The progress shown on the ring, derived from the intake. */
    function Percentage(): (p: real)
      reads this
      ensures p <= 100.0
      ensures p == 100.0 <==> intake >= Goal
      ensures intake < Goal ==> p * Goal as real == 100.0 * intake as real
    {
      PercentageOf(intake, Goal)
    }

    /** `handleAddWater`: renders the sum with one decimal, reads it back
        and stores it as the intake. Only the intake changes. */
    method AddWater(amount: real)
      modifies this
      ensures intake == AddStep(old(intake), amount)
      ensures amount >= 0.0 ==> intake >= old(intake) && Percentage() >= old(Percentage())
      ensures theme == old(theme) && sidebarOpen == old(sidebarOpen)
    {
      var sum := intake as real / 10.0 + amount;
      var text := ToFixed1(sum);
      var parsed := ParseFixed1(text);
      ParseToFixed1(sum);
      if amount >= 0.0 {
        AddStepNonDecreasing(intake, amount);
        PercentageMonotone(intake, parsed.value, Goal);
      }
      intake := parsed.value;
    }

    /** The add button: 0.5 L more, exactly. */
    method PressAddButton()
      modifies this
      ensures intake == old(intake) + 5
      ensures theme == old(theme) && sidebarOpen == old(sidebarOpen)
    {
      AddStepExact(intake, 5);
      AddWater(ButtonAmount);
    }

    /** The menu button opens the settings sidebar. */
    method OpenSidebar()
      modifies this
      ensures sidebarOpen
      ensures intake == old(intake) && theme == old(theme)
    {
      sidebarOpen := true;
    }

    /** The sidebar's close action. */
    method CloseSidebar()
      modifies this
      ensures !sidebarOpen
      ensures intake == old(intake) && theme == old(theme)
    {
      sidebarOpen := false;
    }

    /** The sidebar's theme choice. */
    method SetTheme(t: Theme)
      modifies this
      ensures theme == t
      ensures intake == old(intake) && sidebarOpen == old(sidebarOpen)
    {
      theme := t;
    }
  }
}
