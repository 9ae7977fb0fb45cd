/**
  The click-driven state machine of the stone questionnaires. The two scripts
  jogo_saudemental/pedras_teste.py and jogo_saudemental/teste.py run the same
  machine; they differ in the wording of one option and in which button the
  verdict creates, so the machine takes the script as a `Variant`.
*/
module StoneGame {
  import opened Wrappers
  import opened StoneBoard

  datatype Variant = PedrasTeste | Teste

  /** The questionnaire has 21 questions; only their number matters here. */
  const QuestionCount: nat := 21

  const PedrasOptions: seq<string> := [
    "Aplicou-se em algum grau, ou por pouco de tempo",
    "Aplicou-se em um grau considerável, ou por uma boa parte do tempo",
    "Aplicou-se muito, ou na maioria do tempo",
    "Não se aplicou de maneira alguma"
  ]

  const TesteOptions: seq<string> := [
    "Aplicou-se em algum grau, ou por pouco de tempo",
    "Aplicou-se em um grau considerável, ou por boa parte do tempo",
    "Aplicou-se muito, ou na maioria do tempo",
    "Não se aplicou de maneira alguma"
  ]

  function Options(v: Variant): seq<string> {
    match v
    case PedrasTeste => PedrasOptions
    case Teste => TesteOptions
  }

  function Stones(v: Variant): seq<Stone> {
    Layout(Options(v))
  }

  /** The index of an answer option. */
  type OptionIndex = i: int | 0 <= i < 4

  datatype Feedback = NoFeedback | Preocupante | NaoPreocupante

  /** Phase 1 shows the questions and then the verdict; phase 2 the tips. */
  datatype Screen = Questionnaire | Tips

  /** A single button on the verdict or tips screen. Both buttons a script
      creates share one rectangle, so only their text tells them apart. */
  datatype Button = Button(text: string)

  const ShowTipsButton: Button := Button("Ver Dicas")
  const ExitButton: Button := Button("Sair")

  /** The variables of the main loop, plus the module-level click counter. */
  datatype GameState = GameState(
    currentQ: nat,
    answers: seq<OptionIndex>,
    counter: map<string, int>,
    phase: Screen,
    gameOver: bool,
    feedback: Feedback,
    showTips: Option<Button>,
    exitButton: Option<Button>,
    running: bool)

  /** An input event. `onButton` says whether a click lies inside the single
      button's rectangle; `Other` is any event the loop does not react to,
      such as a key press or a mouse motion. `onButton` is not tied to
      (x, y): the button's top edge is below y = 480, where the lowest stone
      ends, so no click is both on a stone and on the button, and each
      branch of `Transition` reads only one of the two. */
  datatype Event = Quit | MouseDown(x: int, y: int, onButton: bool) | Other

  /** The exceptions the script can raise. */
  datatype Fault = KeyError(key: string) | TypeError | IndexError

  datatype Outcome = Ok(state: GameState) | Crash(fault: Fault)

  /** The state when the questionnaire begins. */
  function Initial(): GameState {
    GameState(0, [], map["Amarelo" := 0, "Verde" := 0, "Azul" := 0, "Vermelho" := 0],
              Questionnaire, false, NoFeedback, None, None, true)
  }

  /** Sum of the score weights of the answers. */
  function Total(answers: seq<OptionIndex>): (t: int)
    ensures 0 <= t <= 3 * |answers|
  {
    if answers == [] then 0 else Total(answers[..|answers| - 1]) + ScoreMap[answers[|answers| - 1]]
  }

  /** Number of answers equal to `k`. */
  function Count(answers: seq<OptionIndex>, k: int): nat {
    if answers == [] then 0
    else Count(answers[..|answers| - 1], k) + if answers[|answers| - 1] == k then 1 else 0
  }

  /** The verdict: worrying when the average weight over the questions is at least 2. */
  function Verdict(answers: seq<OptionIndex>): Feedback {
    var average := (Total(answers) as real) / (QuestionCount as real);
    if average >= 2.0 then Preocupante else NaoPreocupante
  }

  /** Records the verdict and creates the button it leads to. */
  function Finish(v: Variant, s: GameState): GameState {
    var feedback := Verdict(s.answers);
    var t := s.(gameOver := true, feedback := feedback);
    match v
    case PedrasTeste =>
      if feedback == Preocupante then t.(showTips := Some(ShowTipsButton))
      else t.(exitButton := Some(ExitButton))
    case Teste =>
      t.(showTips := Some(if feedback == Preocupante then ShowTipsButton else ExitButton))
  }

  /** A hit on stone `i`: record its option, count its colour, advance, and
      finish after the last question. */
  function OnStone(v: Variant, s: GameState, i: nat): Outcome
    requires i < |OptionColors|
  {
    var stone := Stones(v)[i];
    var idx := IndexOf(Options(v), stone.option);
    var name := ColorName(stone.color);
    if name !in s.counter then Crash(KeyError(name))
    else
      var t := s.(answers := s.answers + [idx],
                  counter := s.counter[name := s.counter[name] + 1],
                  currentQ := s.currentQ + 1);
      Ok(if t.currentQ >= QuestionCount then Finish(v, t) else t)
  }

  /** A click on the verdict or tips screen. Reading a button that is `None`
      raises a TypeError whether or not the click is on it. */
  function OnButtons(s: GameState, onButton: bool): Outcome {
    if s.phase == Questionnaire && s.gameOver then
      if s.feedback == Preocupante then
        match s.showTips
        case None => Crash(TypeError)
        case Some(_) => Ok(if onButton then s.(phase := Tips) else s)
      else
        match s.exitButton
        case None => Crash(TypeError)
        case Some(_) => Ok(if onButton then s.(running := false) else s)
    else if s.phase == Tips && s.exitButton.Some? && onButton then Ok(s.(running := false))
    else Ok(s)
  }

  /** The effect of one event on the state. */
  function Transition(v: Variant, s: GameState, e: Event): Outcome {
    match e
    case Quit => Ok(s.(running := false))
    case MouseDown(x, y, onButton) =>
      if s.phase == Questionnaire && !s.gameOver then
        match FirstHit(Stones(v), x, y)
        case None => Ok(s)
        case Some(i) => OnStone(v, s, i)
      else OnButtons(s, onButton)
    case Other => Ok(s)
  }

  /** What drawing a frame does to the state: it reads the current question,
      unpacks the verdict screen's button, and creates the exit button on the
      tips screen. */
  function Render(s: GameState): Outcome {
    if s.phase == Questionnaire && !s.gameOver then
      if s.currentQ < QuestionCount then Ok(s) else Crash(IndexError)
    else if s.phase == Questionnaire then
      if (if s.feedback == Preocupante then s.showTips else s.exitButton).Some? then Ok(s)
      else Crash(TypeError)
    else if s.exitButton.None? then Ok(s.(exitButton := Some(ExitButton)))
    else Ok(s)
  }

  /** The events polled in one frame, in order. */
  function Events(v: Variant, s: GameState, events: seq<Event>): Outcome
    decreases |events|
  {
    if events == [] then Ok(s)
    else match Transition(v, s, events[0])
      case Crash(f) => Crash(f)
      case Ok(t) => Events(v, t, events[1..])
  }

  /** One iteration of the main loop: the frame's events, then drawing. */
  function Frame(v: Variant, s: GameState, events: seq<Event>): Outcome {
    match Events(v, s, events)
    case Crash(f) => Crash(f)
    case Ok(t) => Render(t)
  }

  /** The main loop over a sequence of frames; it stops once not running. */
  function Run(v: Variant, s: GameState, frames: seq<seq<Event>>): Outcome
    decreases |frames|
  {
    if frames == [] || !s.running then Ok(s)
    else match Frame(v, s, frames[0])
      case Crash(f) => Crash(f)
      case Ok(t) => Run(v, t, frames[1..])
  }

  /** The buttons each script holds once the verdict is known. */
  predicate VerdictButtons(v: Variant, s: GameState) {
    if s.feedback == Preocupante then
      s.showTips == Some(ShowTipsButton) &&
      (s.exitButton.Some? ==> s.phase == Tips && s.exitButton == Some(ExitButton))
    else match v
      case PedrasTeste => s.showTips == None && s.exitButton == Some(ExitButton)
      case Teste => s.showTips == Some(ExitButton) && s.exitButton == None
  }

  /** The invariant of the main loop's state. */
  ghost predicate Valid(v: Variant, s: GameState) {
    s.currentQ == |s.answers| <= QuestionCount &&
    s.counter.Keys == {"Amarelo", "Verde", "Azul", "Vermelho"} &&
    (forall k | 0 <= k < |ColorNames| ::
       ColorNames[k] in s.counter && s.counter[ColorNames[k]] == Count(s.answers, k)) &&
    (s.gameOver <==> s.currentQ == QuestionCount) &&
    (!s.gameOver ==> s.phase == Questionnaire && s.feedback == NoFeedback &&
                     s.showTips == None && s.exitButton == None) &&
    (s.gameOver ==> s.feedback == Verdict(s.answers) && VerdictButtons(v, s)) &&
    (s.phase == Tips ==> s.feedback == Preocupante)
  }

  lemma InitialValid(v: Variant)
    ensures Valid(v, Initial())
  {
  }

  /** The verdict is "Preocupante" exactly when the total weight is at least
      twice the number of questions. */
  lemma VerdictThreshold(answers: seq<OptionIndex>)
    ensures Verdict(answers) == Preocupante <==> Total(answers) >= 2 * QuestionCount
  {
  }

  lemma CountAppend(answers: seq<OptionIndex>, x: OptionIndex, k: int)
    ensures Count(answers + [x], k) == Count(answers, k) + if x == k then 1 else 0
  {
    assert (answers + [x])[..|answers|] == answers;
  }

  lemma TotalAppend(answers: seq<OptionIndex>, x: OptionIndex)
    ensures Total(answers + [x]) == Total(answers) + ScoreMap[x]
  {
    assert (answers + [x])[..|answers|] == answers;
  }

  /** The four colour counters add up to the number of answers. */
  lemma {:induction false} CountsSum(answers: seq<OptionIndex>)
    ensures Count(answers, 0) + Count(answers, 1) + Count(answers, 2) + Count(answers, 3) == |answers|
  {
    if answers != [] {
      CountsSum(answers[..|answers| - 1]);
    }
  }

  /** In every valid state the counter has exactly the four colour keys, and
      their values add up to the number of answers, which is the question
      index. */
  lemma CountersMatchAnswers(v: Variant, s: GameState)
    requires Valid(v, s)
    ensures forall k | 0 <= k < |ColorNames| :: ColorNames[k] in s.counter
    ensures s.counter.Keys == {"Amarelo", "Verde", "Azul", "Vermelho"}
    ensures s.counter[ColorNames[0]] + s.counter[ColorNames[1]] +
            s.counter[ColorNames[2]] + s.counter[ColorNames[3]] == |s.answers| == s.currentQ
  {
    CountsSum(s.answers);
  }

  /** A click on stone `i` before the end appends option `i`, adds one to
      that colour's counter and no other, and advances the question index. */
  lemma StoneClickRecords(v: Variant, s: GameState, x: int, y: int, onButton: bool, i: nat)
    requires Valid(v, s) && !s.gameOver && i < |OptionColors| && Hits(Stones(v)[i], x, y)
    ensures Transition(v, s, MouseDown(x, y, onButton)).Ok?
    ensures var t := Transition(v, s, MouseDown(x, y, onButton)).state;
            t.answers == s.answers + [i] && t.currentQ == s.currentQ + 1 &&
            t.counter == s.counter[ColorNames[i] := s.counter[ColorNames[i]] + 1] &&
            t.gameOver == (t.currentQ == QuestionCount)
  {
    OnlyHit(Options(v), x, y, i);
    assert Transition(v, s, MouseDown(x, y, onButton)) == OnStone(v, s, i);
    OnStoneRecords(v, s, i);
  }

  /** The effect of a hit on stone `i` in a valid state before the end. */
  lemma OnStoneRecords(v: Variant, s: GameState, i: nat)
    requires Valid(v, s) && !s.gameOver && i < |OptionColors|
    ensures OnStone(v, s, i) ==
            Ok(if s.currentQ + 1 == QuestionCount then Finish(v, Answered(s, i)) else Answered(s, i))
    ensures var t := OnStone(v, s, i).state;
            t.answers == s.answers + [i] && t.currentQ == s.currentQ + 1 &&
            t.counter == s.counter[ColorNames[i] := s.counter[ColorNames[i]] + 1] &&
            t.gameOver == (t.currentQ == QuestionCount)
  {
    OnStoneUnfold(v, s, i);
    assert ColorNames[i] in s.counter;
    if s.currentQ + 1 == QuestionCount {
      FinishButtons(v, Answered(s, i));
    }
  }

  /** A hit on stone `i` raises a KeyError when colour name `i` is not a
      counter key; otherwise it records option `i` under that colour and,
      after the last question, finishes. */
  lemma OnStoneUnfold(v: Variant, s: GameState, i: nat)
    requires i < |OptionColors|
    ensures OnStone(v, s, i) ==
            if ColorNames[i] !in s.counter then Crash(KeyError(ColorNames[i]))
            else Ok(if s.currentQ + 1 >= QuestionCount then Finish(v, Answered(s, i)) else Answered(s, i))
  {
    StoneMeaning(v, i);
  }

  /** The state once option `i` is recorded and counted, before the check
      for the last question. */
  function Answered(s: GameState, i: OptionIndex): GameState
    requires ColorNames[i] in s.counter
  {
    s.(answers := s.answers + [i],
       counter := s.counter[ColorNames[i] := s.counter[ColorNames[i]] + 1],
       currentQ := s.currentQ + 1)
  }

  /** Each script's four option texts differ from one another. */
  lemma OptionsDistinct(v: Variant)
    ensures |Options(v)| == |OptionColors| && Distinct(Options(v))
  {
  }

  /** Stone `i` stands for option `i` and is named after colour `i`. */
  lemma StoneMeaning(v: Variant, i: nat)
    requires i < |OptionColors|
    ensures Stones(v)[i].option in Options(v)
    ensures IndexOf(Options(v), Stones(v)[i].option) == i
    ensures ColorName(Stones(v)[i].color) == ColorNames[i]
  {
    OptionsDistinct(v);
    OptionIndexOfStone(Options(v), i);
    StoneColorsNamed(Options(v), i);
  }

  /** A hit on a stone keeps a valid state valid. */
  lemma OnStoneValid(v: Variant, s: GameState, i: nat)
    requires Valid(v, s) && !s.gameOver && i < |OptionColors|
    ensures OnStone(v, s, i).Ok? && Valid(v, OnStone(v, s, i).state)
  {
    OnStoneRecords(v, s, i);
    AnsweredCounts(s, i);
    if s.currentQ + 1 == QuestionCount {
      FinishButtons(v, Answered(s, i));
    }
  }

  /** Recording an answer keeps every colour counter equal to the number of
      answers of that colour. */
  lemma AnsweredCounts(s: GameState, i: OptionIndex)
    requires forall k | 0 <= k < |ColorNames| ::
               ColorNames[k] in s.counter && s.counter[ColorNames[k]] == Count(s.answers, k)
    ensures forall k | 0 <= k < |ColorNames| ::
              ColorNames[k] in Answered(s, i).counter &&
              Answered(s, i).counter[ColorNames[k]] == Count(Answered(s, i).answers, k)
  {
    var t := Answered(s, i);
    forall k | 0 <= k < |ColorNames|
      ensures t.counter[ColorNames[k]] == Count(t.answers, k)
    {
      CountAppend(s.answers, i, k);
      if k != i {
        assert |ColorNames[k]| != |ColorNames[i]|;
      }
    }
  }

  /** Finishing records the verdict of the answers and creates the buttons
      that verdict calls for. */
  lemma FinishButtons(v: Variant, s: GameState)
    requires s.phase == Questionnaire && s.showTips == None && s.exitButton == None
    ensures var t := Finish(v, s);
            t.gameOver && t.feedback == Verdict(s.answers) && VerdictButtons(v, t) &&
            t.answers == s.answers && t.counter == s.counter && t.currentQ == s.currentQ &&
            t.phase == Questionnaire && t.running == s.running
  {
  }

  /** A click that hits no stone before the end changes nothing. */
  lemma MissIgnored(v: Variant, s: GameState, x: int, y: int, onButton: bool)
    requires !s.gameOver && s.phase == Questionnaire
    requires forall i | 0 <= i < |OptionColors| :: !Hits(Stones(v)[i], x, y)
    ensures Transition(v, s, MouseDown(x, y, onButton)) == Ok(s)
  {
  }

  /** Once the questionnaire is over, no event changes the answers, the
      counters or the question index. */
  lemma GameOverFreezesAnswers(v: Variant, s: GameState, e: Event)
    requires s.gameOver && Transition(v, s, e).Ok?
    ensures var t := Transition(v, s, e).state;
            t.answers == s.answers && t.counter == s.counter && t.currentQ == s.currentQ
  {
  }

  /** The counter key of a stone always exists: a valid state never raises
      a KeyError. */
  lemma NoKeyError(v: Variant, s: GameState, e: Event)
    requires Valid(v, s)
    ensures !(Transition(v, s, e).Crash? && Transition(v, s, e).fault.KeyError?)
  {
    if e.MouseDown? && s.phase == Questionnaire && !s.gameOver {
      var hit := FirstHit(Stones(v), e.x, e.y);
      if hit.Some? {
        StoneColorsNamed(Options(v), hit.value);
      }
    }
  }

  /** Every event keeps the state valid. */
  lemma TransitionValid(v: Variant, s: GameState, e: Event)
    requires Valid(v, s) && Transition(v, s, e).Ok?
    ensures Valid(v, Transition(v, s, e).state)
  {
    if e.MouseDown? && s.phase == Questionnaire && !s.gameOver {
      var hit := FirstHit(Stones(v), e.x, e.y);
      if hit.Some? {
        OnStoneValid(v, s, hit.value);
      }
    }
  }

  /** Drawing keeps the state valid. */
  lemma RenderValid(v: Variant, s: GameState)
    requires Valid(v, s) && Render(s).Ok?
    ensures Valid(v, Render(s).state)
  {
  }

  lemma {:induction false} EventsValid(v: Variant, s: GameState, events: seq<Event>)
    requires Valid(v, s) && Events(v, s, events).Ok?
    ensures Valid(v, Events(v, s, events).state)
    decreases |events|
  {
    if events != [] {
      TransitionValid(v, s, events[0]);
      EventsValid(v, Transition(v, s, events[0]).state, events[1..]);
    }
  }

  /** Every run of the main loop from a valid state ends in a valid state. */
  lemma {:induction false} RunValid(v: Variant, s: GameState, frames: seq<seq<Event>>)
    requires Valid(v, s) && Run(v, s, frames).Ok?
    ensures Valid(v, Run(v, s, frames).state)
    decreases |frames|
  {
    if frames != [] && s.running {
      EventsValid(v, s, frames[0]);
      RenderValid(v, Events(v, s, frames[0]).state);
      RunValid(v, Frame(v, s, frames[0]).state, frames[1..]);
    }
  }

  /** The tips screen is reached only after all 21 answers with a
      "Preocupante" verdict, that is with a total weight of at least 42. */
  lemma TipsOnlyWhenWorrying(v: Variant, frames: seq<seq<Event>>)
    requires Run(v, Initial(), frames).Ok? && Run(v, Initial(), frames).state.phase == Tips
    ensures var t := Run(v, Initial(), frames).state;
            t.feedback == Preocupante && |t.answers| == QuestionCount &&
            Total(t.answers) >= 2 * QuestionCount
  {
    InitialValid(v);
    RunValid(v, Initial(), frames);
    VerdictThreshold(Run(v, Initial(), frames).state.answers);
  }

  /** After a "Não preocupante" verdict the tips screen is never entered:
      the only change a click can make is to stop the program. */
  lemma NotWorryingOnlyExits(v: Variant, s: GameState, e: Event)
    requires Valid(v, s) && s.gameOver && s.feedback == NaoPreocupante && Transition(v, s, e).Ok?
    ensures var t := Transition(v, s, e).state;
            t.phase == Questionnaire && t == s.(running := t.running)
  {
  }

  /** A click on the centre of the yellow stone, option 0 of weight 1. */
  const YellowClick: Event := MouseDown(StoneX, StartY, false)

  /** `n` frames, each holding one click on the yellow stone. */
  function YellowFrames(n: nat): seq<seq<Event>> {
    seq(n, _ => [YellowClick])
  }

  /** The state after `k` yellow answers, before the end. */
  function YellowState(k: nat): GameState {
    GameState(k, seq(k, _ => 0), map["Amarelo" := k, "Verde" := 0, "Azul" := 0, "Vermelho" := 0],
              Questionnaire, false, NoFeedback, None, None, true)
  }

  lemma {:induction false} CountZeros(k: nat, j: int)
    ensures Count(seq(k, _ => 0), j) == if j == 0 then k else 0
  {
    if k > 0 {
      assert seq(k, _ => 0)[..k - 1] == seq(k - 1, _ => 0);
      CountZeros(k - 1, j);
    }
  }

  /** Answers that all pick the yellow stone weigh one each. */
  lemma {:induction false} TotalZeros(k: nat)
    ensures Total(seq(k, _ => 0)) == k
  {
    if k > 0 {
      assert seq(k, _ => 0)[..k - 1] == seq(k - 1, _ => 0);
      TotalZeros(k - 1);
    }
  }

  /** 21 answers of weight 1 total 21, an average of 1: "Não preocupante". */
  lemma AllWeightOneVerdict()
    ensures Total(seq(QuestionCount, _ => 0)) == 21
    ensures Verdict(seq(QuestionCount, _ => 0)) == NaoPreocupante
  {
    TotalZeros(QuestionCount);
  }

  lemma YellowStateValid(v: Variant, k: nat)
    requires k < QuestionCount
    ensures Valid(v, YellowState(k))
  {
    forall j | 0 <= j < |ColorNames| ensures YellowState(k).counter[ColorNames[j]] == Count(YellowState(k).answers, j) {
      CountZeros(k, j);
    }
  }

  /** Before the last question, a frame with one yellow click adds one yellow answer. */
  lemma YellowFrame(v: Variant, k: nat)
    requires k + 1 < QuestionCount
    ensures Frame(v, YellowState(k), [YellowClick]) == Ok(YellowState(k + 1))
  {
    YellowStateValid(v, k);
    assert Hits(Stones(v)[0], StoneX, StartY);
    StoneClickRecords(v, YellowState(k), StoneX, StartY, false, 0);
    assert seq(k, _ => 0) + [0] == seq(k + 1, _ => 0);
    var t := Transition(v, YellowState(k), YellowClick).state;
    assert t.counter == YellowState(k + 1).counter;
    assert Events(v, YellowState(k), [YellowClick]) == Events(v, t, []);
  }

  /** The last yellow click finishes the questionnaire with "Não preocupante". */
  lemma YellowLastClick(v: Variant)
    ensures Events(v, YellowState(QuestionCount - 1), [YellowClick]).Ok?
    ensures var t := Events(v, YellowState(QuestionCount - 1), [YellowClick]).state;
            t.gameOver && t.feedback == NaoPreocupante && t.running &&
            t.phase == Questionnaire && t.answers == seq(QuestionCount, _ => 0)
  {
    var k := QuestionCount - 1;
    YellowStateValid(v, k);
    assert Hits(Stones(v)[0], StoneX, StartY);
    StoneClickRecords(v, YellowState(k), StoneX, StartY, false, 0);
    assert seq(k, _ => 0) + [0] == seq(k + 1, _ => 0);
    AllWeightOneVerdict();
    var t := Transition(v, YellowState(k), YellowClick).state;
    assert Events(v, YellowState(k), [YellowClick]) == Events(v, t, []);
  }

  /** Twenty-one frames of yellow clicks from the start run exactly as the
      last of them does from the state with twenty yellow answers. */
  lemma {:induction false} YellowRun(v: Variant, k: nat, n: nat)
    requires n >= 1 && k + n == QuestionCount
    ensures Run(v, YellowState(k), YellowFrames(n)) ==
            Run(v, YellowState(QuestionCount - 1), YellowFrames(1))
    decreases n
  {
    if n > 1 {
      YellowFrame(v, k);
      assert YellowFrames(n)[1..] == YellowFrames(n - 1);
      YellowRun(v, k + 1, n - 1);
    }
  }
}
