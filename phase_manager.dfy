/**
  The sequencing of the multi-assessment game (parte2_oficial.py): a manager
  that runs the assessments one after another, shows a result screen after
  each and ends on a thank-you screen.
*/
module PhaseManagement {
  import opened Wrappers
  import opened Assessment

  /** The screen the manager currently shows. */
  datatype Phase =
    | Unstarted                                  // before `start`, the phase is None
    | Assessing(index: nat, score: int)          // questions of assessments[current]
    | ShowingResult(title: string, text: string) // the result of assessments[current]
    | ThankYou                                   // the final screen

  /** An input event, with clicks already resolved to the option button hit. */
  datatype Event =
    | Enter                 // the ENTER key
    | OptionClick(button: nat)  // a click inside option button `button`
    | Quit                  // the window's close event
    | Other                 // any other event

  /** The result screen of assessment `a` for the final score `score`. */
  function ResultScreen(a: AssessmentData, score: int): Phase {
    var category := CategoryOf(a.categories, score);
    ShowingResult(ResultTitle(a.title, category), Recommendation(a.recommendations, category))
  }

  /** The phase after selecting value `v` at question `index` of `a`, with
      `score` accumulated so far. */
  function AfterSelect(a: AssessmentData, index: nat, score: int, v: nat): Phase {
    if index + 1 >= a.questionCount then ResultScreen(a, score + v)
    else Assessing(index + 1, score + v)
  }

  ghost function Titles(list: seq<AssessmentData>): seq<string> {
    seq(|list|, i requires 0 <= i < |list| => list[i].title)
  }

  lemma TitlesExtend(list: seq<AssessmentData>, n: nat)
    requires n < |list|
    ensures Titles(list[..n + 1]) == Titles(list[..n]) + [list[n].title]
  {
  }

  class PhaseManager {
    const assessments: seq<AssessmentData>
    var current: nat
    var phase: Phase
    /** False once the program has quit. */
    var running: bool
    /** The values selected so far in the current assessment. */
    ghost var selections: seq<int>
    /** Titles of the assessments whose result has been produced, in order. */
    ghost var finished: seq<string>

    ghost predicate Valid()
      reads this
    {
      assessments == Assessments &&
      current <= |assessments| &&
      match phase
      case Unstarted =>
        current == 0 && finished == []
      case Assessing(index, score) =>
        current < |assessments| && index < assessments[current].questionCount &&
        |selections| == index && OptionValues(selections) && score == Sum(selections) &&
        finished == Titles(assessments[..current])
      case ShowingResult(_, _) =>
        current < |assessments| &&
        |selections| == assessments[current].questionCount && OptionValues(selections) &&
        phase == ResultScreen(assessments[current], Sum(selections)) &&
        finished == Titles(assessments[..current + 1])
      case ThankYou =>
        current == |assessments| && finished == Titles(assessments)
    }

    constructor ()
      ensures Valid()
      ensures current == 0 && phase == Unstarted && running
    {
      assessments := Assessments;
      current := 0;
      phase := Unstarted;
      running := true;
      selections := [];
      finished := [];
    }

    /** Opens the first question of assessments[current]. */
    method StartAssessment()
      requires current < |assessments|
      modifies this
      ensures phase == Assessing(0, 0) && selections == []
      ensures current == old(current) && running == old(running) && finished == old(finished)
    {
      phase := Assessing(0, 0);
      selections := [];
    }

    /** Starts the game with the first assessment. */
    method Start()
      requires Valid() && phase == Unstarted
      modifies this
      ensures Valid()
      ensures phase == Assessing(0, 0) && current == 0 && running == old(running)
    {
      StartAssessment();
      assert assessments[..0] == [];
    }

    /** With a non-empty result title, shows that result; otherwise moves to
        the next assessment, or to the thank-you screen after the last one. */
    method NextStep(resultTitle: Option<string>, resultText: string)
      modifies this
      ensures running == old(running) && finished == old(finished)
      ensures resultTitle.Some? && resultTitle.value != "" ==>
                phase == ShowingResult(resultTitle.value, resultText) &&
                current == old(current) && selections == old(selections)
      ensures !(resultTitle.Some? && resultTitle.value != "") ==>
                current == old(current) + 1 &&
                if current < |assessments| then phase == Assessing(0, 0) && selections == []
                else phase == ThankYou && selections == old(selections)
    {
      if resultTitle.Some? && resultTitle.value != "" {
        phase := ShowingResult(resultTitle.value, resultText);
      } else {
        current := current + 1;
        if current < |assessments| {
          StartAssessment();
        } else {
          phase := ThankYou;
        }
      }
    }

    /** Looks up the category of `score`, its recommendation, and shows the
        result screen of assessments[current]. */
    method Finish(score: int)
      requires current < |assessments|
      modifies this
      ensures current == old(current) && running == old(running) && selections == old(selections)
      ensures phase == ResultScreen(assessments[current], score)
      ensures finished == old(finished) + [assessments[current].title]
    {
      var a := assessments[current];
      var category := CategoryOf(a.categories, score);
      var text := Recommendation(a.recommendations, category);
      finished := finished + [a.title];
      NextStep(Some(ResultTitle(a.title, category)), text);
    }

    /** Adds the value of the clicked button to the score and advances to the
        next question, finishing the assessment after its last question. */
    method Select(v: nat)
      requires Valid() && phase.Assessing? && v < |OptionLabels|
      modifies this
      ensures Valid()
      ensures current == old(current) && running == old(running)
      ensures phase == AfterSelect(assessments[current], old(phase).index, old(phase).score, v)
      ensures selections == old(selections) + [v]
    {
      var index, score := phase.index + 1, phase.score + v;
      selections := selections + [v];
      SumAppend(old(selections), v);
      assert OptionValues(selections) && score == Sum(selections) && |selections| == index;
      if index >= assessments[current].questionCount {
        Finish(score);
        TitlesExtend(assessments, current);
      } else {
        phase := Assessing(index, score);
      }
    }

    /** Dispatches one event to the current phase, as the main loop does. */
    method HandleEvent(e: Event)
      requires Valid() && running && !phase.Unstarted?
      modifies this
      ensures Valid()
      ensures e.Quit? ==> !running && phase == old(phase) && current == old(current)
      ensures old(phase).Assessing? && e.OptionClick? && e.button < |OptionLabels| ==>
                running && current == old(current) &&
                selections == old(selections) + [e.button] &&
                phase == AfterSelect(assessments[current], old(phase).index, old(phase).score, e.button)
      ensures old(phase).ShowingResult? && e.Enter? ==>
                running && current == old(current) + 1 &&
                phase == if current < |assessments| then Assessing(0, 0) else ThankYou
      ensures old(phase).ThankYou? && e.Enter? ==> !running && phase == ThankYou
      ensures !e.Quit? &&
              !(old(phase).Assessing? && e.OptionClick? && e.button < |OptionLabels|) &&
              !(old(phase).ShowingResult? && e.Enter?) &&
              !(old(phase).ThankYou? && e.Enter?) ==>
                running && phase == old(phase) && current == old(current)
    {
      if e.Quit? {
        running := false;
      } else {
        match phase
        case Assessing(_, _) =>
          if e.OptionClick? && e.button < |OptionLabels| {
            Select(e.button);
          }
        case ShowingResult(_, _) =>
          if e.Enter? {
            NextStep(None, "");
            assert current == |assessments| ==> assessments[..current] == assessments;
          }
        case ThankYou =>
          if e.Enter? {
            running := false;
          }
      }
    }
  }

  /** The thank-you screen is reached only after the results of the three
      assessments, each once, in the order Depressão, Ansiedade, Estresse. */
  lemma ThankYouAfterAllThree(m: PhaseManager)
    requires m.Valid() && m.phase == ThankYou
    ensures m.finished == ["Depressão", "Ansiedade", "Estresse"]
  {
  }
}
