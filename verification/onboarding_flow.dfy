/** The onboarding flow: a step counter over four fixed steps, the answers
    collected on the way, and the completion that leaves for the login screen. */
module OnboardingFlow {
  import opened Common

  datatype StepInfo = StepInfo(id: string, title: string, subtitle: string, icon: string)

  const Steps := [
    StepInfo("welcome", "Welcome to MentorMatch", "Connect with professionals who can help you grow", "🚀"),
    StepInfo("role", "Are you a Mentor or Mentee?", "Choose your role", "👥"),
    StepInfo("goals", "What are your goals?", "Tell us what you want to achieve", "🎯"),
    StepInfo("skills", "Your skills", "Help us match you better", "💡")
  ]

  const LastStep := |Steps| - 1

  /** `completeOnboarding`: navigate to Login first, then store the first-launch flag. */
  const Completion := [Navigate("Login"), StorageSet("@firstLaunch", "false")]

  /** One press of the button: the next step, or the completion on the last one. */
  function NextF(step: nat): (r: (nat, seq<Effect>))
    requires step <= LastStep
    ensures r.0 <= LastStep
    ensures step < LastStep ==> r == (step + 1, [])
    ensures step == LastStep ==> r == (step, Completion)
  {
    if step < LastStep then (step + 1, []) else (step, Completion)
  }

  /** `n` presses from `step`: where the flow ends up and what it did. */
  function Presses(step: nat, n: nat): (nat, seq<Effect>)
    requires step <= LastStep
    decreases n
  {
    if n == 0 then (step, [])
    else
      var (s1, fx) := NextF(step);
      var (s2, fx2) := Presses(s1, n - 1);
      (s2, fx + fx2)
  }

  /** From the first step, three presses reach the last step without effects;
      every further press completes again and stays there. */
  lemma PressesFromStart(n: nat)
    ensures n <= LastStep ==> Presses(0, n) == (n, [])
    ensures n > LastStep ==> Presses(0, n).0 == LastStep && |Presses(0, n).1| == 2 * (n - LastStep)
  {
    if n > LastStep {
      PressesBeyond(0, n);
    } else {
      StepsAhead(0, n);
    }
  }

  lemma {:induction false} StepsAhead(step: nat, n: nat)
    requires step + n <= LastStep
    ensures Presses(step, n) == (step + n, [])
    decreases n
  {
    if n > 0 {
      StepsAhead(step + 1, n - 1);
      var none: seq<Effect> := [];
      assert NextF(step) == (step + 1, none);
      assert none + none == none;
    }
  }

  lemma {:induction false} PressesBeyond(step: nat, n: nat)
    requires step <= LastStep < step + n
    ensures Presses(step, n).0 == LastStep && |Presses(step, n).1| == 2 * (step + n - LastStep)
    decreases n
  {
    if step < LastStep {
      PressesBeyond(step + 1, n - 1);
    } else if n > 1 {
      PressesBeyond(step, n - 1);
    }
  }

  /** The button's label. */
  function ButtonTitle(step: nat): (t: string)
    ensures t == "Get Started" <==> step == LastStep
    ensures t == "Next" <==> step != LastStep
  {
    if step == |Steps| - 1 then "Get Started" else "Next"
  }

  class Flow {
    var currentStep: nat
    var userData: map<string, string>
    var effects: seq<Effect>

    ghost predicate Valid()
      reads this
    {
      currentStep <= LastStep
    }

    constructor()
      ensures Valid() && currentStep == 0 && effects == []
      ensures userData == map["userType" := "", "goals" := "", "skills" := ""]
    {
      currentStep, effects := 0, [];
      userData := map["userType" := "", "goals" := "", "skills" := ""];
    }

    /** `updateData(key, value)`: that key set, every other key kept. */
    method UpdateData(key: string, value: string)
      modifies this
      ensures userData == old(userData)[key := value]
      ensures currentStep == old(currentStep) && effects == old(effects)
    {
      userData := userData[key := value];
    }

    /** `handleNext`. */
    method HandleNext()
      requires Valid()
      modifies this
      ensures Valid()
      ensures (currentStep, effects) == (NextF(old(currentStep)).0, old(effects) + NextF(old(currentStep)).1)
      ensures userData == old(userData)
    {
      if currentStep < |Steps| - 1 {
        assert effects + [] == effects;
        currentStep := currentStep + 1;
      } else {
        effects := effects + [Navigate("Login"), StorageSet("@firstLaunch", "false")];
      }
    }

    function CurrentStepData(): StepInfo
      requires Valid()
      reads this
    {
      Steps[currentStep]
    }
  }
}
