/**
 * The quiz session (`QuizGame`): construction from the loaded questions,
 * the turn-by-turn play loop, and the final summary.
 *
 * The console is replaced by data. What the player types is a sequence of
 * lines, one consumed per turn; what the game prints is a sequence of
 * events, one per message category (the exact wording is not modelled).
 */
module Game {
  import opened QuizText
  import opened QuizLoader

  /** What one line of input makes of one turn. */
  datatype Turn = Quit | Answered(correct: bool) | Invalid

  /** What the game prints, by category. */
  datatype Event =
    | Welcome                          // banner before the first question
    | Shown(q: Question)               // question text and its four options
    | Correct
    | Incorrect(expected: string)      // carries the answer field verbatim
    | InvalidInput
    | Exiting                          // the player typed quit
    | Ended                            // "Quiz Ended!"
    | Total(score: nat, attempts: nat) // "Total Score: score/attempts"
    | NoAttempts                       // "No questions were attempted."

  /** Why the loop stopped. */
  datatype Ending =
    | Completed        // every question was presented
    | QuitEarly        // the player typed quit
    | InputExhausted   // the input ran out: `input()` raises and play aborts

  /**
   * The effect of a run of turns: how many answers were correct, how many
   * were valid attempts, how many turns were consumed without quitting, why
   * the run stopped, and what it printed.
   */
  datatype Outcome = Outcome(score: nat, attempts: nat, turns: nat, ending: Ending, events: seq<Event>)

  /** The option letters and the option text each one selects. */
  function OptionMap(q: Question): map<string, string> {
    map["a" := q.optionA, "b" := q.optionB, "c" := q.optionC, "d" := q.optionD]
  }

  /**
   * The verdict on one raw input line, as `play` reads it: the line is
   * normalized; "quit" stops; an option letter is an attempt that is correct
   * when the option's text equals the answer field ignoring case; anything
   * else is invalid.
   */
  function Judge(q: Question, line: string): Turn {
    var choice := Normalize(line);
    if choice == "quit" then Quit
    else if choice in OptionMap(q) then
      Answered(Lower(OptionMap(q)[choice]) == Lower(q.answer))
    else Invalid
  }

  /** What one non-quitting turn prints after the question. */
  function Reply(q: Question, t: Turn): Event
    requires t != Quit
  {
    match t
    case Answered(ok) => if ok then Correct else Incorrect(q.answer)
    case Invalid => InvalidInput
  }

  /** What a turn adds to the score. */
  function Gain(t: Turn): nat {
    if t == Answered(true) then 1 else 0
  }

  /** What a turn adds to the attempts. */
  function Tried(t: Turn): nat {
    if t.Answered? then 1 else 0
  }

  /**
   * The verdicts of the turns that get a line of input: one per question,
   * in order, for as long as lines last.
   */
  function Verdicts(qs: seq<Question>, inputs: seq<string>): (vs: seq<Turn>)
    ensures |vs| == if |qs| <= |inputs| then |qs| else |inputs|
  {
    if qs == [] || inputs == [] then []
    else [Judge(qs[0], inputs[0])] + Verdicts(qs[1..], inputs[1..])
  }

  /**
   * The state `play` starts its loop in. While the loop runs, the ending
   * `Completed` stands for "not stopped yet"; `Run` replaces it only when
   * the loop stops early.
   */
  const Start := Outcome(0, 0, 0, Completed, [])

  /** A loop state after `i` turns, none of them a quit. */
  predicate Midway(st: Outcome, i: nat) {
    st.turns == i && st.ending == Completed && st.score <= st.attempts <= i
  }

  /** The state after one more turn that is not a quit. */
  function Advance(st: Outcome, q: Question, t: Turn): Outcome
    requires t != Quit
  {
    Outcome(st.score + Gain(t), st.attempts + Tried(t), st.turns + 1, st.ending,
            st.events + [Shown(q), Reply(q, t)])
  }

  /**
   * The play loop from position `i` on, in state `st`, given the verdicts
   * `vs` of the turns that get a line: question `i` is shown; if no line is
   * left for it, `input()` raises; on a quit the loop stops; otherwise the
   * turn is counted and the loop goes on. Counters never decrease, correct
   * answers never exceed valid attempts, which never exceed the turns taken;
   * the loop completes exactly when every question had its turn, and runs
   * out of input only when there are fewer lines than questions.
   */
  function Run(qs: seq<Question>, vs: seq<Turn>, i: nat, st: Outcome): (r: Outcome)
    requires i <= |vs| <= |qs| && Midway(st, i)
    decreases |qs| - i
    ensures st.score <= r.score <= r.attempts <= r.turns <= |vs|
    ensures st.attempts <= r.attempts
    ensures r.ending == Completed <==> r.turns == |qs|
    ensures r.ending == InputExhausted ==> r.turns == |vs| < |qs|
  {
    if i == |qs| then st
    else if i == |vs| then st.(ending := InputExhausted, events := st.events + [Shown(qs[i])])
    else if vs[i] == Quit then st.(ending := QuitEarly, events := st.events + [Shown(qs[i]), Exiting])
    else Run(qs, vs, i + 1, Advance(st, qs[i], vs[i]))
  }

  /**
   * The reference semantics of a whole `play` over `qs` with the lines
   * `inputs`: `0 <= score <= attempts <= turns`, and the turns taken never
   * exceed the questions or the lines; the loop completes exactly when
   * every question had its turn, and it can only run out of input when
   * there are fewer lines than questions.
   */
  function Session(qs: seq<Question>, inputs: seq<string>): (r: Outcome)
    ensures r.score <= r.attempts <= r.turns <= |qs|
    ensures r.turns <= |inputs|
    ensures r.ending == Completed <==> r.turns == |qs|
    ensures r.ending == InputExhausted ==> r.turns == |inputs| < |qs|
  {
    Run(qs, Verdicts(qs, inputs), 0, Start)
  }

  /** The summary line printed after the loop. */
  function Summary(score: nat, attempts: nat): Event {
    if attempts > 0 then Total(score, attempts) else NoAttempts
  }

  /** What is printed once the loop is over (nothing when `input()` raised). */
  function Closing(ending: Ending, score: nat, attempts: nat): seq<Event> {
    if ending == InputExhausted then [] else [Ended, Summary(score, attempts)]
  }

  /** The verdict `Session` records for turn `i` is `Judge` of its line. */
  lemma {:induction false} VerdictAt(qs: seq<Question>, inputs: seq<string>, i: nat)
    requires i < |qs| && i < |inputs|
    ensures i < |Verdicts(qs, inputs)| && Verdicts(qs, inputs)[i] == Judge(qs[i], inputs[i])
  {
    assert Verdicts(qs, inputs) == [Judge(qs[0], inputs[0])] + Verdicts(qs[1..], inputs[1..]);
    if i > 0 {
      VerdictAt(qs[1..], inputs[1..], i - 1);
      assert qs[1..][i - 1] == qs[i] && inputs[1..][i - 1] == inputs[i];
    }
  }

  /** Letter case in what the player types never changes the verdict. */
  lemma JudgeIgnoresCase(q: Question, s: string, t: string)
    requires Lower(s) == Lower(t)
    ensures Judge(q, s) == Judge(q, t)
  {
    NormalizeIgnoresCase(s, t);
  }

  /** Whitespace typed around the input never changes the verdict. */
  lemma JudgeIgnoresPadding(q: Question, p: string, s: string, x: string)
    requires AllSpace(p) && AllSpace(x)
    ensures Judge(q, p + s + x) == Judge(q, s)
  {
    NormalizeIgnoresPadding(p, s, x);
  }

  /**
   * Only the input is stripped, not the answer field: with an answer
   * stored as "4 " the option "4" is judged wrong, while the same input
   * against an answer stored as "4" is judged right.
   */
  lemma AnswerFieldNotStripped()
    ensures var q := Question("2 + 2 = ?", "3", "4", "5", "6", "4 ");
            Judge(q, " B ") == Answered(false) && Judge(q.(answer := "4"), " B ") == Answered(true)
  {
    assert " " + "B" + " " == " B ";
    StripUnique(" ", "B", " ");
    assert Lower("B") == "b";
  }

  /**
   * Correctness compares option text, not letters: when two options carry
   * the same text up to case, both letters are judged right.
   */
  lemma DuplicateOptionsBothCorrect()
    ensures var q := Question("Capital of France?", "Paris", "Lyon", "PARIS", "Nice", "paris");
            Judge(q, "a") == Answered(true) && Judge(q, "C") == Answered(true)
  {
    var q := Question("Capital of France?", "Paris", "Lyon", "PARIS", "Nice", "paris");
    NormalizeTrimmed("a");
    NormalizeTrimmed("C");
    assert Normalize("a") == "a" by { assert Lower("a") == "a"; }
    assert Normalize("C") == "c" by { assert Lower("C") == "c"; }
    assert Lower("Paris") == "paris";
    assert Lower("PARIS") == "paris";
  }

  /** Turn `i` of `play`: read its line and judge it against question `i`. */
  method TakeTurn(qs: seq<Question>, inputs: seq<string>, i: nat) returns (t: Turn)
    requires i < |qs| && i < |inputs|
    ensures i < |Verdicts(qs, inputs)| && t == Verdicts(qs, inputs)[i]
  {
    t := Judge(qs[i], inputs[i]);
    VerdictAt(qs, inputs, i);
  }

  /** The first `k` verdicts of a session are those of its first `k` turns alone. */
  lemma VerdictsPrefix(qs: seq<Question>, inputs: seq<string>, k: nat)
    requires k <= |qs| && k <= |inputs|
    ensures Verdicts(qs[..k], inputs[..k]) == Verdicts(qs, inputs)[..k]
  {
    forall j | 0 <= j < k
      ensures Verdicts(qs[..k], inputs[..k])[j] == Verdicts(qs, inputs)[j]
    {
      VerdictAt(qs[..k], inputs[..k], j);
      VerdictAt(qs, inputs, j);
      assert qs[..k][j] == qs[j] && inputs[..k][j] == inputs[j];
    }
  }

  /**
   * A run that takes its turns up to `k` without quitting can be cut at
   * `k`: what it does is the run over the first `k` questions alone,
   * continued from `k` in the state that run ends in.
   */
  lemma {:induction false} RunSplit(qs: seq<Question>, vs: seq<Turn>, k: nat, i: nat, st: Outcome)
    requires i <= k <= |vs| <= |qs| && Midway(st, i)
    requires Run(qs[..k], vs[..k], i, st).ending == Completed
    ensures Run(qs, vs, i, st) == Run(qs, vs, k, Run(qs[..k], vs[..k], i, st))
    decreases k - i
  {
    if i < k {
      assert qs[..k][i] == qs[i] && vs[..k][i] == vs[i];
      RunSplit(qs, vs, k, i + 1, Advance(st, qs[i], vs[i]));
    }
  }

  /**
   * A session whose first `k` turns run without a quit is the session of
   * those `k` turns, continued from turn `k` on.
   */
  lemma SessionSplit(qs: seq<Question>, inputs: seq<string>, k: nat)
    requires k <= |qs| && k <= |inputs|
    requires Session(qs[..k], inputs[..k]).ending == Completed
    ensures var p := Session(qs[..k], inputs[..k]);
            Midway(p, k) && Session(qs, inputs) == Run(qs, Verdicts(qs, inputs), k, p)
  {
    var vs := Verdicts(qs, inputs);
    VerdictsPrefix(qs, inputs, k);
    RunSplit(qs, vs, k, 0, Start);
  }

  /**
   * The turn after `k` completed turns, on its own: the session over the
   * first `k + 1` questions and lines is the one over the first `k`,
   * advanced by the verdict on line `k`.
   */
  lemma SessionNext(qs: seq<Question>, inputs: seq<string>, k: nat)
    requires k < |qs| && k < |inputs|
    requires Session(qs[..k], inputs[..k]).ending == Completed
    requires Judge(qs[k], inputs[k]) != Quit
    ensures var p := Session(qs[..k], inputs[..k]);
            Midway(p, k)
            && Session(qs[..k + 1], inputs[..k + 1]) == Advance(p, qs[k], Judge(qs[k], inputs[k]))
  {
    var qs', inputs' := qs[..k + 1], inputs[..k + 1];
    assert qs'[..k] == qs[..k] && inputs'[..k] == inputs[..k];
    SessionSplit(qs', inputs', k);
    VerdictAt(qs', inputs', k);
  }

  /**
   * "quit" ends the loop at once: the quitting turn changes neither
   * counter, and nothing after question `k` is shown or read; the outcome
   * is that of the turns before it, with the exit message.
   */
  lemma QuitStops(qs: seq<Question>, inputs: seq<string>, k: nat)
    requires k < |qs| && k < |inputs|
    requires Session(qs[..k], inputs[..k]).ending == Completed
    requires Normalize(inputs[k]) == "quit"
    ensures var p := Session(qs[..k], inputs[..k]);
            Session(qs, inputs)
            == Outcome(p.score, p.attempts, k, QuitEarly, p.events + [Shown(qs[k]), Exiting])
  {
    SessionSplit(qs, inputs, k);
    VerdictAt(qs, inputs, k);
  }

  /**
   * Input that is neither "quit" nor an option letter counts nothing: both
   * counters stay as they were, and the loop moves on to the next question
   * (the turn is used up; there is no second prompt).
   */
  lemma InvalidSkips(qs: seq<Question>, inputs: seq<string>, k: nat)
    requires k < |qs| && k < |inputs|
    requires Session(qs[..k], inputs[..k]).ending == Completed
    requires Normalize(inputs[k]) !in {"quit", "a", "b", "c", "d"}
    ensures var p := Session(qs[..k], inputs[..k]);
            Session(qs[..k + 1], inputs[..k + 1])
            == Outcome(p.score, p.attempts, k + 1, Completed, p.events + [Shown(qs[k]), InvalidInput])
  {
    SessionNext(qs, inputs, k);
  }

  /**
   * An option letter is one more attempt, and one more point exactly when
   * that option's text equals the answer field up to letter case; a wrong
   * answer shows the answer field as stored.
   */
  lemma LetterCounts(qs: seq<Question>, inputs: seq<string>, k: nat)
    requires k < |qs| && k < |inputs|
    requires Session(qs[..k], inputs[..k]).ending == Completed
    requires Normalize(inputs[k]) in {"a", "b", "c", "d"}
    ensures var p, r := Session(qs[..k], inputs[..k]), Session(qs[..k + 1], inputs[..k + 1]);
            var ok := Lower(OptionMap(qs[k])[Normalize(inputs[k])]) == Lower(qs[k].answer);
            r.attempts == p.attempts + 1 && r.turns == k + 1 && r.ending == Completed
            && r.score == p.score + (if ok then 1 else 0)
            && r.events == p.events + [Shown(qs[k]), if ok then Correct else Incorrect(qs[k].answer)]
  {
    SessionNext(qs, inputs, k);
  }

  class QuizGame {
    var questions: seq<Question>
    var score: nat
    var attempts: nat

    /** Correct answers are a subset of valid attempts. */
    ghost predicate Valid()
      reads this
    {
      score <= attempts
    }

    /**
     * `__init__` after a successful load: the questions in some random
     * order, and both counters at zero.
     */
    constructor (loaded: seq<Question>)
      ensures Valid()
      ensures |questions| == |loaded| && multiset(questions) == multiset(loaded)
      ensures score == 0 && attempts == 0
    {
      var order := Shuffle(loaded);
      questions := order;
      score := 0;
      attempts := 0;
    }

    /**
     * `play`: one turn per question, in order, consuming one input line per
     * turn; the counters grow by what `Session` says, and the printed trace
     * is the banner, the turns' events and, unless input ran out, the
     * closing lines with the final counters.
     */
    method Play(inputs: seq<string>) returns (trace: seq<Event>)
      requires Valid()
      modifies this`score, this`attempts
      ensures Valid()
      ensures var out := Session(questions, inputs);
                score == old(score) + out.score
                && attempts == old(attempts) + out.attempts
                && trace == [Welcome] + out.events + Closing(out.ending, score, attempts)
      ensures old(attempts) <= attempts <= old(attempts) + |questions|
      ensures score - old(score) <= attempts - old(attempts)
    {
      ghost var s0, a0 := score, attempts;
      var qs := questions;
      ghost var vs := Verdicts(qs, inputs);
      ghost var st := Start;
      var log: seq<Event> := [];
      var ending := Completed;
      var i := 0;
      while i < |qs|
        invariant i <= |qs| && i <= |inputs| && i <= |vs| <= |qs|
        invariant Midway(st, i) && ending == st.ending
        invariant score == s0 + st.score && attempts == a0 + st.attempts && log == st.events
        invariant Run(qs, vs, i, st) == Session(qs, inputs)
      {
        var q := qs[i];
        if i == |inputs| {
          log := log + [Shown(q)];
          ending := InputExhausted;
          st := st.(ending := ending, events := log);
          break;
        }
        var turn := TakeTurn(qs, inputs, i);
        if turn == Quit {
          log := log + [Shown(q), Exiting];
          ending := QuitEarly;
          st := st.(ending := ending, events := log);
          break;
        }
        st := Advance(st, q, turn);
        if turn.Answered? {
          attempts := attempts + 1;
          if turn.correct {
            log := log + [Shown(q), Correct];
            score := score + 1;
          } else {
            log := log + [Shown(q), Incorrect(q.answer)];
          }
        } else {
          log := log + [Shown(q), InvalidInput];
        }
        i := i + 1;
      }
      assert st == Session(qs, inputs);
      trace := [Welcome] + log;
      if ending != InputExhausted {
        trace := trace + [Ended, Summary(score, attempts)];
      }
    }
  }

  /**
   * `QuizGame(filename)`: load, and on success shuffle and start at zero;
   * a load failure propagates and no game is created.
   */
  method NewGame(header: set<string>, rows: seq<Row>) returns (r: Result<QuizGame, LoadError>)
    requires RowsMatchHeader(header, rows)
    ensures Load(header, rows).Failure? ==> r == Failure(Load(header, rows).error)
    ensures Load(header, rows).Success? ==>
              r.Success? && fresh(r.value) && r.value.Valid()
              && r.value.score == 0 && r.value.attempts == 0
              && multiset(r.value.questions) == multiset(Load(header, rows).value)
  {
    var loaded := LoadQuestions(header, rows);
    if loaded.Failure? {
      return Failure(loaded.error);
    }
    var game := new QuizGame(loaded.value);
    return Success(game);
  }
}
