/**
  The click handling of jogo_saudemental/pedras_teste.py: the body of the
  main loop's event dispatch, where a stone hit is followed by `break`.
*/
module PedrasScript {
  import opened Wrappers
  import opened StoneBoard
  import opened StoneGame

  /** The body of the stone loop for a hit on stone `i`: append its option
      index, count its colour, advance, and give the verdict after the last
      question. */
  method RecordHit(s: GameState, i: nat) returns (r: Outcome)
    requires i < |OptionColors|
    ensures r == OnStone(PedrasTeste, s, i)
  {
    StoneMeaning(PedrasTeste, i);
    OnStoneUnfold(PedrasTeste, s, i);
    var stone := Stones(PedrasTeste)[i];
    var g := s;
    var idx := IndexOf(Options(PedrasTeste), stone.option);
    g := g.(answers := g.answers + [idx]);
    var name := ColorName(stone.color);
    if name !in g.counter {
      return Crash(KeyError(name));
    }
    g := g.(counter := g.counter[name := g.counter[name] + 1]);
    g := g.(currentQ := g.currentQ + 1);
    assert g == Answered(s, i);
    if g.currentQ >= QuestionCount {
      ghost var answered := g;
      var average := (Total(g.answers) as real) / (QuestionCount as real);
      g := g.(gameOver := true, feedback := if average >= 2.0 then Preocupante else NaoPreocupante);
      assert g.feedback == Verdict(answered.answers);
      if g.feedback == Preocupante {
        g := g.(showTips := Some(ShowTipsButton));
      } else {
        g := g.(exitButton := Some(ExitButton));
      }
      assert g == Finish(PedrasTeste, answered);
    }
    r := Ok(g);
  }

  /** The stone loop for a click at (x, y): the first stone hit is recorded
      and the loop stops (`break`). */
  method ClickStones(s: GameState, x: int, y: int) returns (r: Outcome)
    ensures r == match FirstHit(Stones(PedrasTeste), x, y)
                 case None => Ok(s)
                 case Some(i) => OnStone(PedrasTeste, s, i)
  {
    var stones := Stones(PedrasTeste);
    r := Ok(s);
    var i := 0;
    while i < |stones|
      invariant 0 <= i <= |stones|
      invariant forall j | 0 <= j < i :: !Hits(stones[j], x, y)
      invariant r == Ok(s)
    {
      var stone := stones[i];
      var dx, dy := x - stone.cx, y - stone.cy;
      if dx * dx + dy * dy <= stone.radius * stone.radius {
        r := RecordHit(s, i);
        break;
      }
      i := i + 1;
    }
  }

  /** Handles one polled event: quit, a click on the stones while questions
      remain, a click on the verdict or tips screen, or any other event,
      which changes nothing. */
  method Step(s: GameState, e: Event) returns (r: Outcome)
    ensures r == Transition(PedrasTeste, s, e)
  {
    if e.Quit? {
      return Ok(s.(running := false));
    }
    if e.Other? {
      return Ok(s);
    }
    if s.phase == Questionnaire && !s.gameOver {
      r := ClickStones(s, e.x, e.y);
    } else {
      r := OnButtons(s, e.onButton);
    }
  }

  /** In this script no event and no frame raises from a valid state. */
  lemma FrameNeverCrashes(s: GameState, events: seq<Event>)
    requires Valid(PedrasTeste, s)
    ensures Frame(PedrasTeste, s, events).Ok?
    ensures Valid(PedrasTeste, Frame(PedrasTeste, s, events).state)
  {
    EventsNeverCrash(s, events);
    EventsValid(PedrasTeste, s, events);
    RenderValid(PedrasTeste, Events(PedrasTeste, s, events).state);
  }

  lemma {:induction false} EventsNeverCrash(s: GameState, events: seq<Event>)
    requires Valid(PedrasTeste, s)
    ensures Events(PedrasTeste, s, events).Ok?
    decreases |events|
  {
    if events != [] {
      var e := events[0];
      if e.MouseDown? && s.phase == Questionnaire && !s.gameOver {
        var hit := FirstHit(Stones(PedrasTeste), e.x, e.y);
        if hit.Some? {
          StoneColorsNamed(Options(PedrasTeste), hit.value);
        }
      }
      TransitionValid(PedrasTeste, s, e);
      EventsNeverCrash(Transition(PedrasTeste, s, e).state, events[1..]);
    }
  }

  /** The main loop of this script never raises, whatever the user does. */
  lemma {:induction false} RunNeverCrashes(s: GameState, frames: seq<seq<Event>>)
    requires Valid(PedrasTeste, s)
    ensures Run(PedrasTeste, s, frames).Ok?
    decreases |frames|
  {
    if frames != [] && s.running {
      FrameNeverCrashes(s, frames[0]);
      RunNeverCrashes(Frame(PedrasTeste, s, frames[0]).state, frames[1..]);
    }
  }

  /** 21 yellow answers end on the verdict screen with "Não preocupante" and
      the Sair button. */
  lemma AllYellowShowsExit()
    ensures Run(PedrasTeste, Initial(), YellowFrames(QuestionCount)).Ok?
    ensures var t := Run(PedrasTeste, Initial(), YellowFrames(QuestionCount)).state;
            t.gameOver && t.feedback == NaoPreocupante && t.exitButton == Some(ExitButton) &&
            t.phase == Questionnaire
  {
    assert Initial() == YellowState(0);
    YellowRun(PedrasTeste, 0, QuestionCount);
    YellowLastClick(PedrasTeste);
    YellowStateValid(PedrasTeste, QuestionCount - 1);
    EventsValid(PedrasTeste, YellowState(QuestionCount - 1), [YellowClick]);
    assert YellowFrames(1)[1..] == [];
  }
}
