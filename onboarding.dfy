/** Onboarding.tsx: a four-step questionnaire. `step` counts up by one per
    answer; the fourth screen hands the collected answers on. */
module Onboarding {
  import opened Types

  /** Step 1: "Você costuma anotar seus gastos atualmente?" */
  const HABIT_OPTIONS: seq<string> := ["Sim", "Não"]

  /** Step 2: "O que mais pesa no seu bolso hoje?", as (label, value) pairs. */
  const BURDEN_OPTIONS: seq<(string, string)> := [
    ("Cartão de crédito", "cartao"),
    ("Gastos do dia a dia", "dia_a_dia"),
    ("Falta de controle", "controle"),
    ("Tudo isso 😅", "tudo")
  ]

  /** Step 3: "Seu objetivo com o NEXO é:" */
  const GOAL_OPTIONS: seq<string> := [
    "Organizar melhor meu dinheiro",
    "Economizar",
    "Entender onde estou gastando demais"
  ]

  const NO_ANSWERS: OnboardingData := OnboardingData("", "", "")

  /** What `renderStep` shows. */
  datatype StepScreen = HabitQuestion | BurdenQuestion | GoalQuestion | Finished

  /** `renderStep`: one screen per step 1..4, nothing (`null`) for any other step. */
  function RenderStep(step: int): (r: Option<StepScreen>)
    ensures r.Some? <==> 1 <= step <= 4
    ensures r == Some(HabitQuestion) <==> step == 1
    ensures r == Some(BurdenQuestion) <==> step == 2
    ensures r == Some(GoalQuestion) <==> step == 3
    ensures r == Some(Finished) <==> step == 4
  {
    if step == 1 then Some(HabitQuestion)
    else if step == 2 then Some(BurdenQuestion)
    else if step == 3 then Some(GoalQuestion)
    else if step == 4 then Some(Finished)
    else None
  }

  /** The four progress segments: segment `i` (1-based) is lit when `step >= i`. */
  function Progress(step: int): (lit: seq<bool>)
    ensures |lit| == 4
    ensures forall i, j :: 0 <= i < j < 4 && lit[j] ==> lit[i]
    ensures 1 <= step <= 4 ==> forall i :: 0 <= i < 4 ==> (lit[i] <==> i < step)
    ensures step < 1 ==> forall i :: 0 <= i < 4 ==> !lit[i]
  {
    [step >= 1, step >= 2, step >= 3, step >= 4]
  }

  /** The labels of step 2 are not its value codes, so what is stored is the label. */
  lemma BurdenLabelsAreNotCodes()
    ensures forall k, j :: 0 <= k < 4 && 0 <= j < 4 ==> BURDEN_OPTIONS[k].0 != BURDEN_OPTIONS[j].1
  {
  }

  class Wizard {
    var step: int
    var answers: OnboardingData

    /** Each answered question holds one of its options; the others are still empty. */
    ghost predicate Valid()
      reads this
    {
      && 1 <= step <= 4
      && (if step > 1 then answers.anotaGastos in HABIT_OPTIONS else answers.anotaGastos == "")
      && (if step > 2 then exists k :: 0 <= k < 4 && answers.maiorPeso == BURDEN_OPTIONS[k].0 else answers.maiorPeso == "")
      && (if step > 3 then answers.objetivo in GOAL_OPTIONS else answers.objetivo == "")
    }

    /** The wizard starts at step 1 with every answer empty. */
    constructor ()
      ensures Valid() && step == 1 && answers == OnboardingData("", "", "")
    {
      step, answers := 1, NO_ANSWERS;
    }

    /** A click on option `k` of step 1. */
    method ChooseHabit(k: nat)
      requires Valid() && step == 1 && k < |HABIT_OPTIONS|
      modifies this
      ensures Valid() && step == old(step) + 1
      ensures answers == old(answers).(anotaGastos := HABIT_OPTIONS[k])
    {
      answers := answers.(anotaGastos := HABIT_OPTIONS[k]);
      step := step + 1;
    }

    /** A click on option `k` of step 2: the label is stored, not the value code. */
    method ChooseBurden(k: nat)
      requires Valid() && step == 2 && k < |BURDEN_OPTIONS|
      modifies this
      ensures Valid() && step == old(step) + 1
      ensures answers == old(answers).(maiorPeso := BURDEN_OPTIONS[k].0)
    {
      answers := answers.(maiorPeso := BURDEN_OPTIONS[k].0);
      step := step + 1;
    }

    /** A click on option `k` of step 3. */
    method ChooseGoal(k: nat)
      requires Valid() && step == 3 && k < |GOAL_OPTIONS|
      modifies this
      ensures Valid() && step == old(step) + 1
      ensures answers == old(answers).(objetivo := GOAL_OPTIONS[k])
    {
      answers := answers.(objetivo := GOAL_OPTIONS[k]);
      step := step + 1;
    }

    /** "Criar minha conta", shown only on step 4: hands on all three answers. */
    method Complete() returns (data: OnboardingData)
      requires Valid() && step == 4
      ensures data == answers
      ensures data.anotaGastos in HABIT_OPTIONS && data.objetivo in GOAL_OPTIONS
      ensures exists k :: 0 <= k < 4 && data.maiorPeso == BURDEN_OPTIONS[k].0
    {
      data := answers;
    }
  }

  /** A full run: three clicks, then completion, yield exactly the three chosen answers. */
  method Run(habit: nat, burden: nat, goal: nat) returns (data: OnboardingData)
    requires habit < 2 && burden < 4 && goal < 3
    ensures data == OnboardingData(HABIT_OPTIONS[habit], BURDEN_OPTIONS[burden].0, GOAL_OPTIONS[goal])
  {
    var w := new Wizard();
    w.ChooseHabit(habit);
    w.ChooseBurden(burden);
    w.ChooseGoal(goal);
    data := w.Complete();
  }
}
