# Mental-health questionnaire games: a Dafny model

The repository holds two small pygame games for young people.

- `parte2_oficial.py` runs three short self-assessments in a fixed order: Depressão, Ansiedade, Estresse.
  - Each has five questions, answered with buttons worth 0 to 4.
  - After each assessment, the score is looked up in a category table ("NORMAL" … "EXTREMAMENTE SEVERO"). The game shows the category and its recommendations.
  - A thank-you screen ends the game.
- `jogo_saudemental/pedras_teste.py` and `jogo_saudemental/teste.py` are two versions of a "magic stones" questionnaire with 21 questions.
  - Each answer is a click on one of four coloured stones.
  - The answer's weight is added up and the click is counted per colour.
  - The average weight sets the verdict, "Preocupante" or "Não preocupante". That verdict decides whether the tips screen can be reached.

The model has the following files:

- `wrappers.dfy`: the `Option` type.
- `assessment.dfy` (module `Assessment`):
  - the category table shared by the three assessments;
  - the first-match category lookup with its "NORMAL" fallback;
  - the recommendation lookup and the result title;
  - the running score as a sum of the selected values.
- `phase_manager.dfy` (module `PhaseManagement`): the class `PhaseManager`.
  - Its fields are `current`, `phase` and the assessment records.
  - Its methods change them in place as `_start_assessment`, `next_step`, `_select` and `_finish` do.
  - `HandleEvent` dispatches one event to the current phase, with option clicks already resolved to the button hit.
  - A ghost invariant keeps these facts:
    - the question index stays in bounds;
    - the score equals the sum of the selected values;
    - the results produced so far are those of the assessments before `current`. On a result screen they also include the result of `assessments[current]`, which is the one shown.
- `stone_board.dfy` (module `StoneBoard`):
  - `get_color_name`;
  - the stone layout;
  - the integer circle hit test;
  - the first stone hit;
  - `options.index`.
- `stone_game.dfy` (module `StoneGame`): the main loop of the stone games as a state machine over a value record.
  - The record holds the loop's locals plus the module-level `click_counter`.
  - `Transition` covers the mouse-click branch, `Render` covers what drawing a frame reads and creates, and `Run` is the loop.
  - The two scripts share this machine, with a `Variant` that carries their differences:
    - option 1's wording;
    - which button the verdict creates.
  - `teste.py`'s `get_color_name` (89-95), stone layout (155-159), hit test (169-171) and verdict (177-180) are the same definitions as `pedras_teste.py`'s. The shared `StoneBoard` and `StoneGame` members model both.
- `pedras_teste.dfy` (module `PedrasScript`) and `teste.dfy` (module `TesteScript`): the click loop of each script as imperative methods, proved equal to `Transition`.
  - `pedras_teste.py`'s loop stops at the first stone hit (`break`).
  - `teste.py`'s loop goes on through all stones. The stones' discs are disjoint, so at most one stone is ever hit, and the outcome is the same.

## Model

| member | source | states |
|---|---|---|
| Assessment.CategoryOf | parte2_oficial.py:138-141 | the result is the name of the first table entry, in table order, whose inclusive range holds the score, and "NORMAL" when no entry holds it |
| Assessment.ResultTitle | parte2_oficial.py:144 | the title is the assessment title, then ": ", then the category, and so is never empty |
| Assessment.SharedTableWellFormed | parte2_oficial.py:221-227 | the ranges 0-4, 5-9, 10-14, 15-19, 20-27 are non-empty, contiguous and pairwise disjoint, and span exactly 0..27 |
| Assessment.ContiguousDisjoint | parte2_oficial.py:221-227 | a table whose ranges each begin right after the previous one ends has no two overlapping ranges |
| Assessment.InRangeYieldsName | parte2_oficial.py:138-141 | in a disjoint table, a score inside entry k's range gets entry k's name |
| Assessment.CoveredScoreMatches | parte2_oficial.py:138-141 | in a contiguous table, every score from the first low to the last high lies inside some entry's range |
| Assessment.SumBounds | parte2_oficial.py:129-131 | with every selection in 0..4, the score after n selections lies in 0..4n |
| Assessment.SumAppend | parte2_oficial.py:130 | selecting v adds exactly v to the running score |
| Assessment.CompletedScoreCategorized | parte2_oficial.py:214-227 | five selections give a score in 0..20, which lies in a real table entry whose name is the category found |
| Assessment.CompletedRecommendation | parte2_oficial.py:142 | for each of the three assessments, the category of a completed score is a recommendation key, so the text shown is that key's text and not the empty default |
| Assessment.Sum | parte2_oficial.py:130 | the running score; SumAppend states that each selection adds its value, and SumBounds bounds it by 0..4n |
| Assessment.Recommendation | parte2_oficial.py:142 | the text keyed by the category, or "" when the key is absent; CompletedRecommendation states that for a completed assessment the key is always present |
| PhaseManagement.ResultScreen | parte2_oficial.py:137-146 | the result screen of an assessment for a final score; PhaseManager.Finish states that `_finish` shows exactly this screen |
| PhaseManagement.AfterSelect | parte2_oficial.py:129-135 | the phase after a selection: the next question, or the result screen once the index reaches the question count; PhaseManager.Select states that `_select` produces it and keeps score = sum of selections |
| PhaseManagement.PhaseManager.constructor | parte2_oficial.py:363-369 | starts with current = 0, no phase yet, and the three assessment records in order |
| PhaseManagement.PhaseManager.StartAssessment | parte2_oficial.py:374-382 | opens question 0 of assessments[current] with score 0; current is unchanged |
| PhaseManagement.PhaseManager.Start | parte2_oficial.py:371-372 | the game begins at question 0 of the first assessment, and the invariant is established |
| PhaseManagement.PhaseManager.NextStep | parte2_oficial.py:384-392 | with a non-empty title: shows that result and current is unchanged; otherwise: current + 1, then the next assessment's first question, or the thank-you screen after the last |
| PhaseManagement.PhaseManager.Finish | parte2_oficial.py:137-146 | shows the result screen of the looked-up category and its recommendation for assessments[current]; current is unchanged |
| PhaseManagement.PhaseManager.Select | parte2_oficial.py:129-135 | records the selected value and adds it to the score; moves to the next question, or to the result screen after the last question; keeps the invariant (index in bounds, score = sum of selections) |
| PhaseManagement.PhaseManager.HandleEvent | parte2_oficial.py:155-414 | a click on option button b selects value b; ENTER on a result moves on, and ENTER on the thank-you screen exits; quitting stops; any other event changes nothing; the invariant is kept |
| PhaseManagement.ThankYouAfterAllThree | parte2_oficial.py:363-392 | the thank-you screen is reached only after the results of Depressão, Ansiedade and Estresse, each once and in that order |
| StoneBoard.ColorName | jogo_saudemental/pedras_teste.py:88-94 | option colour k maps to colour name k (both directions), and any other colour maps to "Desconhecido" |
| StoneBoard.FirstHit | jogo_saudemental/pedras_teste.py:175-178 | returns the first stone whose disc holds the click, or none when no disc holds it |
| StoneBoard.IndexOf | jogo_saudemental/pedras_teste.py:180 | returns the first position of an option that is present |
| StoneBoard.StonesDisjoint | jogo_saudemental/pedras_teste.py:160-166 | no click lies in two stones' discs (same x, centres 100 apart, radius 30) |
| StoneBoard.OnlyHit | jogo_saudemental/pedras_teste.py:175-194 | a click inside stone i hits stone i first, and no other stone |
| StoneBoard.OptionIndexOfStone | jogo_saudemental/pedras_teste.py:157-166 | with distinct option texts, stone i's label is option i |
| StoneBoard.StoneColorsNamed | jogo_saudemental/pedras_teste.py:19-25 | stone i's colour is named by colour name i, never "Desconhecido" |
| StoneBoard.Layout | jogo_saudemental/pedras_teste.py:157-166 | the four stones at x = 300, y = 150 + 100i, radius 30, with colour i and label option i; StonesDisjoint, OptionIndexOfStone and StoneColorsNamed state its properties |
| StoneBoard.Hits | jogo_saudemental/pedras_teste.py:176-178 | integer disc containment dx*dx + dy*dy <= r*r; FirstHit and OnlyHit state what it selects |
| StoneGame.Initial | jogo_saudemental/pedras_teste.py:141-148 | the loop's starting locals plus the zeroed click_counter of line 25; InitialValid states that it meets the loop invariant |
| StoneGame.Total | jogo_saudemental/pedras_teste.py:186 | the sum of score_map over the answers, with the bound 0 <= total <= 3 * len(answers) in its own contract; TotalAppend states that each answer adds its weight |
| StoneGame.Verdict | jogo_saudemental/pedras_teste.py:186-188 | "Preocupante" iff the average over 21 is at least 2; VerdictThreshold states the equivalence with total >= 42 in both directions |
| StoneGame.Finish | jogo_saudemental/pedras_teste.py:184-192 | records the verdict and creates the button each script creates; FinishButtons states its effect and that nothing else changes |
| StoneGame.OnStone | jogo_saudemental/pedras_teste.py:179-192 | the effect of a stone hit; OnStoneRecords, StoneClickRecords and OnStoneValid state it and the invariant it keeps |
| StoneGame.OnButtons | jogo_saudemental/pedras_teste.py:195-203 | the clicks on the verdict and tips screens; NotWorryingOnlyExits, TipsOnlyWhenWorrying and GameOverFreezesAnswers state their properties, and TesteScript.NotWorryingCrashes states the missing-button crash |
| StoneGame.Transition | jogo_saudemental/pedras_teste.py:170-203 | the effect of one polled event, where events other than quit and a click change nothing; TransitionValid, MissIgnored and NoKeyError state its properties, and PedrasScript.Step and TesteScript.Step are proved equal to it |
| StoneGame.Render | jogo_saudemental/pedras_teste.py:205-239 | what drawing a frame reads and creates; RenderValid states that it keeps the invariant |
| StoneGame.Events | jogo_saudemental/pedras_teste.py:170-203 | the events polled in one frame, handled in order, with those after a quit still handled; EventsValid states that they keep the invariant, and PedrasScript.EventsNeverCrash that in this script they never raise |
| StoneGame.Frame | jogo_saudemental/pedras_teste.py:169-242 | one pass of `while running`: the frame's events, then drawing; PedrasScript.FrameNeverCrashes states that in this script a frame never raises and keeps the invariant |
| StoneGame.Run | jogo_saudemental/pedras_teste.py:168-242 | the `while running` loop over frames; RunValid and PedrasScript.RunNeverCrashes state its properties |
| StoneGame.OptionsDistinct | jogo_saudemental/pedras_teste.py:12-17 | each script's four option texts differ from one another |
| StoneGame.StoneMeaning | jogo_saudemental/pedras_teste.py:157-166 | stone i stands for option index i and is counted under colour name i |
| StoneGame.InitialValid | jogo_saudemental/pedras_teste.py:141-148 | the starting state satisfies the loop invariant |
| StoneGame.VerdictThreshold | jogo_saudemental/pedras_teste.py:186-188 | the average over 21 questions is at least 2 exactly when the total weight is at least 42 |
| StoneGame.CountsSum | jogo_saudemental/pedras_teste.py:182 | the four colour counts add up to the number of answers |
| StoneGame.CountersMatchAnswers | jogo_saudemental/pedras_teste.py:180-183 | in every valid state the counter has exactly the keys Amarelo, Verde, Azul and Vermelho, and the sum of all its values is len(answers) = current_q |
| StoneGame.OnStoneUnfold | jogo_saudemental/pedras_teste.py:179-192 | a hit on stone i raises a KeyError when colour name i is not a counter key; otherwise it records option i under colour i and finishes after the 21st answer |
| StoneGame.OnStoneRecords | jogo_saudemental/pedras_teste.py:180-192 | a hit on stone i appends i and adds one to colour i's counter; it advances current_q, and finishes after the 21st answer |
| StoneGame.StoneClickRecords | jogo_saudemental/pedras_teste.py:174-194 | a click inside stone i before the end appends i and adds one to that colour's counter and no other; it advances current_q, and the game is over exactly at 21 |
| StoneGame.OnStoneValid | jogo_saudemental/pedras_teste.py:179-192 | a stone hit keeps the loop invariant |
| StoneGame.FinishButtons | jogo_saudemental/pedras_teste.py:184-192 | finishing records the verdict of the answers and creates the button that verdict calls for, and changes nothing else |
| StoneGame.MissIgnored | jogo_saudemental/pedras_teste.py:175-178 | a click outside every stone changes nothing |
| StoneGame.GameOverFreezesAnswers | jogo_saudemental/pedras_teste.py:174-203 | once the game is over, no event changes answers, counters or current_q |
| StoneGame.NoKeyError | jogo_saudemental/pedras_teste.py:182 | from a valid state, the counter increment never raises a KeyError |
| StoneGame.TransitionValid | jogo_saudemental/pedras_teste.py:170-203 | every event keeps the loop invariant |
| StoneGame.RenderValid | jogo_saudemental/pedras_teste.py:205-239 | drawing a frame keeps the loop invariant |
| StoneGame.EventsValid | jogo_saudemental/pedras_teste.py:170-203 | a frame's events, applied in order, keep the loop invariant |
| StoneGame.RunValid | jogo_saudemental/pedras_teste.py:168-242 | the main loop keeps the invariant over any sequence of frames |
| StoneGame.TipsOnlyWhenWorrying | jogo_saudemental/pedras_teste.py:189-199 | the tips screen is reached only after 21 answers with verdict "Preocupante", that is a total of at least 42 |
| StoneGame.NotWorryingOnlyExits | jogo_saudemental/pedras_teste.py:195-203 | after "Não preocupante", an event can only stop the program; the phase stays 1 |
| StoneGame.AllWeightOneVerdict | jogo_saudemental/pedras_teste.py:184-188 | 21 answers of weight 1 total 21, which is "Não preocupante" |
| PedrasScript.RecordHit | jogo_saudemental/pedras_teste.py:179-192 | the in-place updates of a hit give the same state as the stone-hit transition |
| PedrasScript.ClickStones | jogo_saudemental/pedras_teste.py:175-194 | the loop over the stones with `break` records the first stone hit, or nothing when none is hit |
| PedrasScript.Step | jogo_saudemental/pedras_teste.py:170-203 | the click branch computes exactly `Transition` for this script |
| PedrasScript.FrameNeverCrashes | jogo_saudemental/pedras_teste.py:168-242 | from a valid state, no frame of this script raises, and the invariant is kept |
| PedrasScript.EventsNeverCrash | jogo_saudemental/pedras_teste.py:170-203 | from a valid state, no event sequence raises |
| PedrasScript.RunNeverCrashes | jogo_saudemental/pedras_teste.py:168-242 | this script's main loop never raises, whatever the input |
| PedrasScript.AllYellowShowsExit | jogo_saudemental/pedras_teste.py:184-192 | 21 yellow answers end on the verdict screen with "Não preocupante" and the Sair button |
| TesteScript.RecordHit | jogo_saudemental/teste.py:172-181 | the in-place updates of a hit give the same state as the stone-hit transition, including this script's button assignment |
| TesteScript.ClickStones | jogo_saudemental/teste.py:168-182 | the loop over all stones without `break` records the one stone hit, or nothing when none is hit |
| TesteScript.Step | jogo_saudemental/teste.py:163-191 | the click branch computes exactly `Transition` for this script |
| TesteScript.NotWorryingCrashes | jogo_saudemental/teste.py:181-210 | after "Não preocupante", drawing the verdict screen and any click both raise a TypeError, because the exit button is missing |
| TesteScript.AllYellowCrashes | jogo_saudemental/teste.py:177-210 | 21 yellow answers make the last frame raise a TypeError |

## Left out

- Drawing, images, fonts, `draw_wrapped_text`, `fade`, `load_image` and `welcome_screen`: these only call pygame. `Render` keeps only what drawing reads or creates: the current question, the verdict screen's button, and the exit button on the tips screen.
- Event polling, `clock.tick`, `pygame.quit` and `sys.exit`: events arrive as a sequence. Quitting, and exiting from the thank-you screen, set `running` to false.
- `pygame.Rect.collidepoint`: clicks on rectangles arrive already resolved.
  - In `parte2_oficial.py`, a click is `OptionClick(b)` for option button b. `_create_option_buttons` (116-127) gives button b the value b.
  - In the stone games, a click carries whether it lies on the single button.
  - Because the buttons are resolved, their rebuilding after each selection is not modelled either.
- The stone games' average is a Python float division. The model compares the exact rational `total / 21` with 2. For totals from 0 to 63, the float comparison gives the same answer.
- The texts of the questions, tips and recommendations.
  - Questions count only by their number (5 per assessment, 21 stone questions).
  - Recommendations are stand-in texts under the same five category keys as the source.
  - The option texts of the stone games are kept, because `options.index` looks them up.
- `PhaseManager.instance`, the class-level singleton through which `_finish` reaches the manager: the model calls the manager directly.
- The per-colour stone images of `pedra_imagens` are not modelled. `StoneColorsNamed` shows that every stone's colour name is one of their keys.
- `click_counter` is a module-level dictionary. It is a field of the loop's state record, because the loop is the only code that updates it.

## Findings

| source | as written | input that shows it | evidently intended | confidence | as-written member | corrected member |
|---|---|---|---|---|---|---|
| jogo_saudemental/teste.py:181 | both verdicts assign `btn_show_tips`, so `btn_exit` stays `None` after "Não preocupante". The verdict screen then unpacks `None` at line 210, and a click subscripts it at line 188: each raises a TypeError | 21 clicks on the yellow stone: total 21, average 1, "Não preocupante" | assign the "Sair" button to `btn_exit` on the "Não preocupante" path, as jogo_saudemental/pedras_teste.py:189-192 does | high; not executed | TesteScript.AllYellowCrashes | PedrasScript.RunNeverCrashes |
