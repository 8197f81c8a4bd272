/**
 * The vaping advisor: three questions asked one step at a time, then a
 * request for recommendations whose outcome is shown as results or as an
 * error. The request itself is modelled in `Gemini.VapingRecommendation`;
 * here its outcome is a parameter.
 */
module Advisor {
  import opened Wrappers
  import opened Types
  import Gemini
  import Gateway

  datatype Step = Start | Habit | Goal | PreferenceStep | Loading | Results | ErrorStep

  /** The three radio groups; each sets its own answer field. */
  datatype Field = SmokingHabit | VapingGoal | Preference

  const NoAnswers: AdvisorAnswers := AdvisorAnswers("", "", "")

  const UnknownError: string := "An unknown error occurred."

  /** The values each radio group offers; none is empty. */
  function Options(f: Field): (opts: seq<string>)
    ensures forall k :: 0 <= k < |opts| ==> opts[k] != []
  {
    match f
    case SmokingHabit =>
      ["No fumo, soy vaper", "Menos de 10 cigarrillos al día",
       "Entre 10 y 20 cigarrillos al día", "Más de 20 cigarrillos al día"]
    case VapingGoal =>
      ["Dejar de fumar", "Disfrutar de sabores intensos",
       "Producir grandes nubes de vapor", "Algo sencillo y sin complicaciones"]
    case Preference =>
      ["Discreto y portátil", "Potente y con muchas opciones",
       "Equilibrado, ni muy grande ni muy pequeño"]
  }

  /** The answers with only the named field set to `v`. */
  function WithAnswer(a: AdvisorAnswers, f: Field, v: string): (r: AdvisorAnswers)
    ensures f == SmokingHabit ==> r == AdvisorAnswers(v, a.vapingGoal, a.preference)
    ensures f == VapingGoal ==> r == AdvisorAnswers(a.smokingHabit, v, a.preference)
    ensures f == Preference ==> r == AdvisorAnswers(a.smokingHabit, a.vapingGoal, v)
  {
    match f
    case SmokingHabit => a.(smokingHabit := v)
    case VapingGoal => a.(vapingGoal := v)
    case Preference => a.(preference := v)
  }

  /**
   * `nextStep`: start always moves to the habit question; each question
   * moves on only once its own answer is given, and the last one submits
   * (which shows the loading step). Every other step stays where it is.
   */
  function NextOf(step: Step, a: AdvisorAnswers): (next: Step)
    ensures step == Start ==> next == Habit
    ensures step == Habit ==> next == (if a.smokingHabit != [] then Goal else Habit)
    ensures step == Goal ==> next == (if a.vapingGoal != [] then PreferenceStep else Goal)
    ensures step == PreferenceStep ==> next == (if a.preference != [] then Loading else PreferenceStep)
    ensures step in {Loading, Results, ErrorStep} ==> next == step
  {
    match step
    case Start => Habit
    case Habit => if a.smokingHabit != [] then Goal else Habit
    case Goal => if a.vapingGoal != [] then PreferenceStep else Goal
    case PreferenceStep => if a.preference != [] then Loading else PreferenceStep
    case _ => step
  }

  /** The "next" button is shown on the three question steps only. */
  predicate NextShown(step: Step) {
    step != Start && step != Loading && step != Results && step != ErrorStep
  }

  /** The button is disabled without a habit answer, or without the current question's own answer. */
  predicate NextEnabled(step: Step, a: AdvisorAnswers) {
    !(a.smokingHabit == [] || (step == Goal && a.vapingGoal == []) || (step == PreferenceStep && a.preference == []))
  }

  /** Answers that the steps already passed guarantee. */
  predicate AnswersFit(step: Step, a: AdvisorAnswers) {
    (step in {Goal, PreferenceStep, Loading, Results, ErrorStep} ==> a.smokingHabit != []) &&
    (step in {PreferenceStep, Loading, Results, ErrorStep} ==> a.vapingGoal != [])
  }

  /**
   * An enabled button always moves the advisor on, and once the earlier
   * answers are in place, a step that would move on has its button enabled.
   */
  lemma EnabledIffAdvances(step: Step, a: AdvisorAnswers)
    requires NextShown(step)
    ensures NextEnabled(step, a) ==> NextOf(step, a) != step
    ensures AnswersFit(step, a) && NextOf(step, a) != step ==> NextEnabled(step, a)
  {
  }

  /** Moving on keeps the answers consistent with the step reached. */
  lemma NextKeepsFit(step: Step, a: AdvisorAnswers)
    requires AnswersFit(step, a)
    ensures AnswersFit(NextOf(step, a), a)
  {
  }

  /** The message shown for a failed request: `err.message || 'An unknown error occurred.'`. */
  function ErrorText(message: string): (t: string)
    ensures t != []
    ensures message != [] ==> t == message
  {
    if message != [] then message else UnknownError
  }

  /** The request never fails with an empty message, so the default text is never shown. */
  lemma AdvisorErrorIsFixed(reply: Gemini.LlmReply,
                            parse: string -> Gateway.Decoded<Option<seq<Recommendation>>>)
    requires Gemini.VapingRecommendation(reply, parse).FetchFailed?
    ensures ErrorText(Gemini.VapingRecommendation(reply, parse).message) == Gemini.AdvisorUnavailable
  {
  }

  class VapingAdvisor {
    var step: Step
    var answers: AdvisorAnswers
    var recommendations: seq<Recommendation>
    var error: Option<string>

    /** The error is shown exactly on the error step, and the answers fit the step. */
    predicate Valid()
      reads this
    {
      (step == ErrorStep <==> error.Some?) && AnswersFit(step, answers)
    }

    constructor()
      ensures Valid()
      ensures step == Start && answers == NoAnswers && recommendations == [] && error == None
    {
      step := Start;
      answers := NoAnswers;
      recommendations := [];
      error := None;
    }

    /** `handleAnswerChange`: a radio button sets its own field to its value. */
    method ChangeAnswer(f: Field, v: string)
      requires Valid()
      requires v in Options(f)
      modifies this
      ensures Valid()
      ensures answers == WithAnswer(old(answers), f, v)
      ensures step == old(step) && recommendations == old(recommendations) && error == old(error)
    {
      answers := WithAnswer(answers, f, v);
    }

    /** `handleSubmit`'s synchronous part: the loading step, with the error cleared. */
    method Submit()
      requires Valid()
      requires answers.smokingHabit != [] && answers.vapingGoal != []
      modifies this
      ensures Valid()
      ensures step == Loading && error == None
      ensures answers == old(answers) && recommendations == old(recommendations)
    {
      step := Loading;
      error := None;
    }

    /** `nextStep`. */
    method NextStep()
      requires Valid()
      modifies this
      ensures Valid()
      ensures step == NextOf(old(step), old(answers))
      ensures answers == old(answers) && recommendations == old(recommendations)
      ensures step == Loading && old(step) == PreferenceStep ==> error == None
      ensures old(step) != PreferenceStep || step != Loading ==> error == old(error)
    {
      match step
      case Start => step := Habit;
      case Habit => if answers.smokingHabit != [] { step := Goal; }
      case Goal => if answers.vapingGoal != [] { step := PreferenceStep; }
      case PreferenceStep => if answers.preference != [] { Submit(); }
      case _ =>
    }

    /** The request's outcome arrives: results with the list, or the error step with its message. */
    method Resolve(outcome: Gemini.Fetched<seq<Recommendation>>)
      requires Valid()
      requires step == Loading
      modifies this
      ensures Valid()
      ensures outcome.Fetched? ==> step == Results && recommendations == outcome.value && error == old(error)
      ensures outcome.FetchFailed? ==>
        step == ErrorStep && error == Some(ErrorText(outcome.message)) && recommendations == old(recommendations)
      ensures answers == old(answers)
    {
      match outcome
      case Fetched(list) =>
        recommendations := list;
        step := Results;
      case FetchFailed(message) =>
        error := Some(ErrorText(message));
        step := ErrorStep;
    }

    /** `resetAdvisor`: every answer and recommendation cleared, no error, back to the start. */
    method Reset()
      modifies this
      ensures Valid()
      ensures step == Start && answers == NoAnswers && recommendations == [] && error == None
    {
      answers := NoAnswers;
      recommendations := [];
      error := None;
      step := Start;
    }
  }
}
