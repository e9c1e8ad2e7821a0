/** The first-run walkthrough (components/OnboardingFlow.tsx): five steps shown
    one at a time, a step counter moved by the Next and Back buttons, the
    answers collected along the way, and the progress bar. */
module Onboarding {
  import opened Base

  /** The answers the walkthrough collects and hands to `onComplete`. */
  datatype UserData = UserData(
    displayName: string,
    defaultCurrency: string,
    monthlyBudget: string,
    categories: seq<string>,
    notifications: bool)

  const InitialUserData: UserData :=
    UserData("", "USD", "", ["Food & Dining", "Transportation", "Shopping"], true)

  /** The steps' ids, in order. */
  const StepIds: seq<string> := ["welcome", "profile", "budget", "notifications", "complete"]

  const LastStep: nat := |StepIds| - 1

  /** The keys the steps pass to updateUserData, each with its value. */
  datatype Update =
    | SetDisplayName(name: string)
    | SetDefaultCurrency(currency: string)
    | SetMonthlyBudget(budget: string)
    | SetNotifications(on: bool)

  /** updateUserData: `{ ...prev, [key]: value }`. */
  function Apply(d: UserData, u: Update): (r: UserData)
    ensures u.SetDisplayName? ==> r == d.(displayName := u.name)
    ensures u.SetDefaultCurrency? ==> r == d.(defaultCurrency := u.currency)
    ensures u.SetMonthlyBudget? ==> r == d.(monthlyBudget := u.budget)
    ensures u.SetNotifications? ==> r == d.(notifications := u.on)
  {
    match u
    case SetDisplayName(name) => d.(displayName := name)
    case SetDefaultCurrency(currency) => d.(defaultCurrency := currency)
    case SetMonthlyBudget(budget) => d.(monthlyBudget := budget)
    case SetNotifications(on) => d.(notifications := on)
  }

  /** The number of fields of `a` and `b` that differ. */
  function Differences(a: UserData, b: UserData): nat
  {
    (if a.displayName != b.displayName then 1 else 0)
    + (if a.defaultCurrency != b.defaultCurrency then 1 else 0)
    + (if a.monthlyBudget != b.monthlyBudget then 1 else 0)
    + (if a.categories != b.categories then 1 else 0)
    + (if a.notifications != b.notifications then 1 else 0)
  }

  /** An update changes at most its own field, keeps the categories, and setting
      a field to the value it already holds changes nothing. */
  lemma ApplyChangesOneField(d: UserData, u: Update)
    ensures Differences(d, Apply(d, u)) <= 1
    ensures Apply(d, u).categories == d.categories
    ensures Apply(Apply(d, u), u) == Apply(d, u)
  {
  }

  /** The notification switch's press, `!userData.notifications`, undone by a second
      press. */
  lemma ToggleNotificationsTwice(d: UserData)
    ensures Apply(Apply(d, SetNotifications(!d.notifications)), SetNotifications(!Apply(d, SetNotifications(!d.notifications)).notifications)) == d
    ensures Differences(d, Apply(d, SetNotifications(!d.notifications))) == 1
  {
  }

  // ------------------------------------------------- the step counter

  /** handleNext's effect on the counter: unchanged on the last step (where
      `onComplete` is called instead), otherwise the next step. */
  function NextStep(step: nat): (r: nat)
    requires step <= LastStep
    ensures r <= LastStep
    ensures step == LastStep ==> r == step
    ensures step < LastStep ==> r == step + 1
  {
    if step == LastStep then step else step + 1
  }

  /** handlePrevious: unchanged on the first step, otherwise the previous step. */
  function PreviousStep(step: nat): (r: nat)
    requires step <= LastStep
    ensures r <= LastStep
    ensures step == 0 ==> r == 0
    ensures step > 0 ==> r == step - 1
  {
    if step == 0 then step else step - 1
  }

  /** Back undoes Next wherever Next moves, and Next undoes Back wherever Back
      moves. */
  lemma NextPreviousInverse(step: nat)
    requires step <= LastStep
    ensures step < LastStep ==> PreviousStep(NextStep(step)) == step
    ensures step > 0 ==> NextStep(PreviousStep(step)) == step
  {
  }

  datatype Press = Next | Back

  function StepAfter(step: nat, p: Press): nat
    requires step <= LastStep
  {
    match p
    case Next => NextStep(step)
    case Back => PreviousStep(step)
  }

  /** The step after a run of presses. */
  function Run(step: nat, ps: seq<Press>): (r: nat)
    requires step <= LastStep
    ensures r <= LastStep
    decreases |ps|
  {
    if ps == [] then step else Run(StepAfter(step, ps[0]), ps[1..])
  }

  function CountNext(ps: seq<Press>): nat
    decreases |ps|
  {
    if ps == [] then 0 else (if ps[0] == Next then 1 else 0) + CountNext(ps[1..])
  }

  /** Starting from the first step, Next pressed `n` times in a row reaches step
      `n`, or the last step when `n` is larger; Back never leaves the first step. */
  lemma {:induction false} RunOfNexts(step: nat, ps: seq<Press>)
    requires step <= LastStep
    requires forall k :: 0 <= k < |ps| ==> ps[k] == Next
    ensures Run(step, ps) == if step + |ps| <= LastStep then step + |ps| else LastStep
    decreases |ps|
  {
    if ps != [] {
      RunOfNexts(NextStep(step), ps[1..]);
    }
  }

  /** A run of presses moves the counter by at most one step each, and never
      further forward than the number of Next presses. */
  lemma {:induction false} RunBounds(step: nat, ps: seq<Press>)
    requires step <= LastStep
    ensures Run(step, ps) <= step + CountNext(ps)
    ensures Run(step, ps) >= step - |ps|
    decreases |ps|
  {
    if ps != [] {
      RunBounds(StepAfter(step, ps[0]), ps[1..]);
    }
  }

  // ------------------------------------------------- the progress bar and buttons

  /** The progress bar: segment `i` is highlighted when `i <= currentStep`. */
  function Progress(step: nat): (r: seq<bool>)
    ensures |r| == |StepIds|
    ensures forall i :: 0 <= i < |r| ==> (r[i] <==> i <= step)
  {
    seq(|StepIds|, i requires 0 <= i < |StepIds| => i <= step)
  }

  function CountTrue(bs: seq<bool>): nat
    decreases |bs|
  {
    if bs == [] then 0 else CountTrue(bs[..|bs| - 1]) + (if bs[|bs| - 1] then 1 else 0)
  }

  /** Among the first `n` segments, those up to the current step are lit. */
  lemma {:induction false} CountPrefix(bs: seq<bool>, step: nat, n: nat)
    requires n <= |bs|
    requires forall i :: 0 <= i < |bs| ==> (bs[i] <==> i <= step)
    ensures CountTrue(bs[..n]) == if n <= step then n else step + 1
    decreases n
  {
    if n > 0 {
      assert bs[..n][..n - 1] == bs[..n - 1];
      CountPrefix(bs, step, n - 1);
    }
  }

  /** Exactly `currentStep + 1` segments are lit: the first and those up to the
      current step. */
  lemma ProgressCount(step: nat)
    requires step <= LastStep
    ensures CountTrue(Progress(step)) == step + 1
    ensures Progress(step)[0]
    ensures step < LastStep ==> !Progress(step)[LastStep]
  {
    var bs := Progress(step);
    CountPrefix(bs, step, |bs|);
    assert bs[..|bs|] == bs;
  }

  /** The primary button reads 'Get Started' on the last step and 'Next' before
      it; on the first step the left button is the inert 'Skip', elsewhere 'Back'. */
  function PrimaryLabel(step: nat): (r: string)
    ensures r == "Get Started" <==> step == LastStep
  {
    if step == LastStep then "Get Started" else "Next"
  }

  function SecondaryLabel(step: nat): (r: string)
    ensures r == "Skip" <==> step == 0
  {
    if step == 0 then "Skip" else "Back"
  }

  // ------------------------------------------------- the component's state

  class Walkthrough {
    var currentStep: nat
    var userData: UserData

    predicate Valid()
      reads this
    {
      currentStep <= LastStep
    }

    constructor()
      ensures currentStep == 0 && userData == InitialUserData
      ensures Valid()
    {
      currentStep := 0;
      userData := InitialUserData;
    }

    method UpdateUserData(u: Update)
      modifies this
      ensures userData == Apply(old(userData), u) && currentStep == old(currentStep)
    {
      userData := Apply(userData, u);
    }

    /** handleNext. On the last step the answers go to `onComplete`, returned here
        as `completed`, and the step stays; otherwise the counter advances. */
    method HandleNext() returns (completed: Option<UserData>)
      requires Valid()
      modifies this
      ensures currentStep == NextStep(old(currentStep)) && userData == old(userData)
      ensures completed == if old(currentStep) == LastStep then Some(userData) else None
      ensures Valid()
    {
      if currentStep == LastStep {
        completed := Some(userData);
      } else {
        currentStep := currentStep + 1;
        completed := None;
      }
    }

    method HandlePrevious()
      requires Valid()
      modifies this
      ensures currentStep == PreviousStep(old(currentStep)) && userData == old(userData)
      ensures Valid()
    {
      if currentStep != 0 {
        currentStep := currentStep - 1;
      }
    }
  }
}
