/**
  The click handling of jogo_saudemental/teste.py: the same dispatch as in
  pedras_teste.py, but the stone loop has no `break`, and both verdicts
  store their button in `btn_show_tips`.
*/
module TesteScript {
  import opened Wrappers
  import opened StoneBoard
  import opened StoneGame

  /** The body of the stone loop for a hit on stone `i`: append its option
      index, count its colour, advance, and give the verdict after the last
      question. */
  method RecordHit(s: GameState, i: nat) returns (r: Outcome)
    requires i < |OptionColors|
    ensures r == OnStone(Teste, s, i)
  {
    StoneMeaning(Teste, i);
    OnStoneUnfold(Teste, s, i);
    var stone := Stones(Teste)[i];
    var g := s;
    var idx := IndexOf(Options(Teste), stone.option);
    g := g.(answers := g.answers + [idx]);
    var name := ColorName(stone.color);
    if name !in g.counter {
      return Crash(KeyError(name));
    }
    g := g.(counter := g.counter[name := g.counter[name] + 1]);
    g := g.(currentQ := g.currentQ + 1);
    assert g == Answered(s, i);
    if g.currentQ >= QuestionCount {
      ghost var answered := g;
      var average := (Total(g.answers) as real) / (QuestionCount as real);
      g := g.(gameOver := true, feedback := if average >= 2.0 then Preocupante else NaoPreocupante);
      assert g.feedback == Verdict(answered.answers);
      g := g.(showTips := Some(if g.feedback == Preocupante then ShowTipsButton else ExitButton));
      assert g == Finish(Teste, answered);
    }
    r := Ok(g);
  }

  /** The stone loop for a click at (x, y). After a hit the loop goes on
      testing the remaining stones; since the stones are disjoint, none of
      them is hit, so at most one answer is recorded. */
  method ClickStones(s: GameState, x: int, y: int) returns (r: Outcome)
    ensures r == match FirstHit(Stones(Teste), x, y)
                 case None => Ok(s)
                 case Some(i) => OnStone(Teste, s, i)
  {
    var stones := Stones(Teste);
    var g := s;
    ghost var hit: Option<nat> := None;
    var i := 0;
    while i < |stones|
      invariant 0 <= i <= |stones|
      invariant hit.None? ==> g == s && forall j | 0 <= j < i :: !Hits(stones[j], x, y)
      invariant hit.Some? ==> hit.value < i && Hits(stones[hit.value], x, y) &&
                              OnStone(Teste, s, hit.value) == Ok(g) &&
                              forall j | 0 <= j < |stones| && j != hit.value :: !Hits(stones[j], x, y)
    {
      var stone := stones[i];
      var dx, dy := x - stone.cx, y - stone.cy;
      if dx * dx + dy * dy <= stone.radius * stone.radius {
        OnlyHit(Options(Teste), x, y, i);
        r := RecordHit(g, i);
        if r.Crash? {
          return;
        }
        g := r.state;
        hit := Some(i);
      }
      i := i + 1;
    }
    r := Ok(g);
  }

  /** Handles one polled event: quit, a click on the stones while questions
      remain, a click on the verdict or tips screen, or any other event,
      which changes nothing. */
  method Step(s: GameState, e: Event) returns (r: Outcome)
    ensures r == Transition(Teste, s, e)
  {
    if e.Quit? {
      return Ok(s.(running := false));
    }
    if e.Other? {
      return Ok(s);
    }
    if s.phase == Questionnaire && !s.gameOver {
      r := ClickStones(s, e.x, e.y);
    } else {
      r := OnButtons(s, e.onButton);
    }
  }

  /** After a "Não preocupante" verdict, drawing the verdict screen unpacks
      the missing exit button, and so does any click: both raise a TypeError. */
  lemma NotWorryingCrashes(s: GameState, x: int, y: int, onButton: bool)
    requires Valid(Teste, s) && s.gameOver && s.feedback == NaoPreocupante
    ensures Render(s) == Crash(TypeError)
    ensures Transition(Teste, s, MouseDown(x, y, onButton)) == Crash(TypeError)
  {
  }

  /** 21 yellow answers, a total of 21 and so "Não preocupante", make the
      frame of the last answer raise a TypeError. */
  lemma AllYellowCrashes()
    ensures Run(Teste, Initial(), YellowFrames(QuestionCount)) == Crash(TypeError)
  {
    assert Initial() == YellowState(0);
    YellowRun(Teste, 0, QuestionCount);
    YellowLastClick(Teste);
    YellowStateValid(Teste, QuestionCount - 1);
    EventsValid(Teste, YellowState(QuestionCount - 1), [YellowClick]);
  }
}
