# Quiz game, modelled and verified in Dafny

This project models `QuizGame` from `quiz_game.py`, a terminal multiple-choice quiz. The model covers three things:

- **Loading.** `load_questions` checks that the CSV header names the six required columns. If it does, it collects the rows in file order.
- **Construction.** `__init__` shuffles the loaded questions and sets `score` and `attempts` to zero.
- **Play.** `play` shows each question and reads one line per question. It normalizes the line with `.strip().lower()`, then acts on it:
  - `quit` stops the loop;
  - an option letter `a`–`d` counts an attempt, and a point when the option text equals the answer field ignoring case;
  - anything else is reported as invalid and the loop moves on.

  After the loop it prints `score/attempts`, or a no-attempts line.

Files:

- `text.dfy` (module `QuizText`):
  - `Strip` and `Lower`, and their composition `Normalize`;
  - their properties: idempotence, stripping and case folding commute, and padding and case do not matter.
- `loader.dfy` (module `QuizLoader`):
  - the `Question` record;
  - the loader as a specification function `Load`, and the loop `LoadQuestions` proved equal to it;
  - the Fisher–Yates `Shuffle`, proved to return a permutation.
- `game.dfy` (module `Game`):
  - the per-turn verdict `Judge`;
  - the reference semantics `Run` and `Session` of the play loop;
  - the class `QuizGame`, whose `Play` loop is proved to change the counters and print exactly what `Session` says;
  - lemmas for the per-turn rules (quit, invalid input, option letter).

The console is replaced by data. The player's input is a sequence of lines, one consumed per question. The output is a sequence of events, one per message category; the exact wording is not modelled.

A `Question` is shown before its line is read. If the lines run out first, Python's `input()` raises `EOFError` and `play` ends without the closing lines. The model records this as the `InputExhausted` ending: the last question is shown and nothing follows. `play` has no handler for `EOFError` (quiz_game.py:114), so running out of input aborts it.

`score` and `attempts` are never reset by `play`. A second call therefore adds to the totals of the first. `Play`'s contract states this: the counters grow by what `Session` computes.

## Model

| member | source | states |
|---|---|---|
| `QuizText.IsSpace` | quiz_game.py:114 | the characters `.strip()` removes: exactly those for which Python's `str.isspace()` holds; `Lead`, `Trail` and `StripUnique` are stated over this set |
| `QuizText.Lower` | quiz_game.py:114 | `.lower()`: same length; each ASCII capital becomes its own lower-case letter, 32 code points on, so no capital is left; every other character kept |
| `QuizText.LowerOptionLetters` | quiz_game.py:114-122 | the capital option letters `A`–`D` fold to the accepted letters `a`–`d` |
| `QuizText.Normalize` | quiz_game.py:114 | `.strip().lower()`: the result neither starts nor ends with whitespace and holds no ASCII capital; `NormalizeIgnoresCase`, `NormalizeIgnoresPadding` and `NormalizeIdempotent` carry the rest |
| `QuizText.Lead` | quiz_game.py:114 | the first non-whitespace position at or after `i`; everything skipped is whitespace |
| `QuizText.Trail` | quiz_game.py:114 | the end of the text once trailing whitespace is dropped; everything dropped is whitespace |
| `QuizText.Strip` | quiz_game.py:114 | `.strip()` yields text that neither starts nor ends with whitespace |
| `QuizText.StripParts` | quiz_game.py:114 | the input is exactly the stripped text with whitespace-only runs before and after it |
| `QuizText.StripUnique` | quiz_game.py:114 | whatever trimmed text sits between two whitespace runs is exactly what `.strip()` returns |
| `QuizText.StripIgnoresPadding` | quiz_game.py:114 | adding whitespace around the input does not change the result of `.strip()` |
| `QuizText.LowerConcat` | quiz_game.py:114 | `.lower()` works character by character, so it distributes over concatenation |
| `QuizText.LowerKeepsSpaces` | quiz_game.py:114 | case folding neither creates nor removes whitespace, at the ends or anywhere |
| `QuizText.StripLower` | quiz_game.py:114 | stripping then lower-casing equals lower-casing then stripping |
| `QuizText.LowerIdempotent` | quiz_game.py:114 | lower-casing twice is lower-casing once |
| `QuizText.NormalizeIgnoresCase` | quiz_game.py:114 | inputs that agree up to letter case normalize to the same text |
| `QuizText.NormalizeIgnoresPadding` | quiz_game.py:114 | whitespace around an input does not change its normalized form |
| `QuizText.NormalizeTrimmed` | quiz_game.py:114 | input with no whitespace at either end is only case-folded |
| `QuizText.NormalizeIdempotent` | quiz_game.py:114 | normalizing an already normalized input changes nothing |
| `QuizLoader.Load` | quiz_game.py:57-77 | fails exactly when a required column is missing from the header, and then names exactly the missing ones (a nonempty set disjoint from the header); otherwise returns one record per row, in row order, with every field equal to the row's cell |
| `QuizLoader.LoadQuestions` | quiz_game.py:62-69 | the header check followed by the append loop computes exactly `Load` |
| `QuizLoader.Shuffle` | quiz_game.py:32 | the shuffled list is a permutation of the input: same length, same multiset |
| `Game.OptionMap` | quiz_game.py:106-111 | the letters `a`–`d`, each selecting its option's text; what it implies for verdicts is proved in `LetterCounts` and `DuplicateOptionsBothCorrect` |
| `Game.Judge` | quiz_game.py:114-134 | one turn's verdict on a raw line: quit on `quit`; an option letter is an attempt, correct iff the option text equals the answer up to case; anything else is invalid. What is proved about it is in `JudgeIgnoresCase`, `JudgeIgnoresPadding`, `QuitStops`, `InvalidSkips` and `LetterCounts` |
| `Game.Verdicts` | quiz_game.py:97-114 | one verdict per question, as long as lines last: there are `min(questions, lines)` of them |
| `Game.VerdictAt` | quiz_game.py:97-114 | turn `i`'s verdict is `Judge` applied to question `i` and line `i` |
| `Game.TakeTurn` | quiz_game.py:114-134 | reading and judging line `i` yields exactly the verdict `Session` uses for turn `i` |
| `Game.JudgeIgnoresCase` | quiz_game.py:114 | letter case in the typed input never changes the verdict |
| `Game.JudgeIgnoresPadding` | quiz_game.py:114 | whitespace typed around the input never changes the verdict |
| `Game.AnswerFieldNotStripped` | quiz_game.py:126 | the answer field is compared unstripped: answer `"4 "` makes option `"4"` wrong for input `" B "`, while answer `"4"` makes it right |
| `Game.DuplicateOptionsBothCorrect` | quiz_game.py:106-128 | correctness compares option text, so two options with the same text up to case are both judged correct |
| `Game.Run` | quiz_game.py:97-134 | from any loop state, counters never decrease; `score <= attempts <= turns <= lines`; the loop completes iff every question had a turn; it runs out of input only with fewer lines than questions |
| `Game.Session` | quiz_game.py:97-134 | a whole session keeps `0 <= score <= attempts <= turns <= min(questions, lines)`; it completes iff every question had a turn; it runs out of input only when lines are fewer than questions |
| `Game.RunSplit` | quiz_game.py:97-134 | a run without a quit up to turn `k` equals the run over the first `k` questions, continued from turn `k` in the state that run ends in |
| `Game.SessionSplit` | quiz_game.py:97-134 | a session whose first `k` turns completed equals the `k`-turn session continued from turn `k` |
| `Game.SessionNext` | quiz_game.py:114-134 | after `k` completed turns, turn `k + 1` advances the counters and the output by the verdict on line `k` |
| `Game.QuitStops` | quiz_game.py:114-119 | a `quit` at turn `k` stops the loop at once; that turn changes neither counter; nothing after question `k` is shown or read |
| `Game.InvalidSkips` | quiz_game.py:122-134 | input that is neither `quit` nor a letter leaves both counters unchanged, reports invalid input, and moves to the next question without re-prompting |
| `Game.LetterCounts` | quiz_game.py:122-131 | an option letter adds exactly one attempt, and one point iff the option text equals the answer up to case; a miss reveals the stored answer |
| `Game.Summary` | quiz_game.py:138-141 | the final line: `score/attempts` when `attempts > 0`, else the no-attempts line; `Play`'s ensures ties it to the final counters |
| `Game.Closing` | quiz_game.py:137-141 | after the loop ends normally or by quit, the completion notice and then the summary; nothing when input ran out; `Play`'s ensures appends it to the trace |
| `Game.QuizGame.constructor` | quiz_game.py:30-34 | the questions are a permutation of the loaded ones; `score` and `attempts` start at zero |
| `Game.QuizGame.Play` | quiz_game.py:93-141 | `score` and `attempts` grow by exactly the correct answers and valid attempts of `Session`; the invariant `score <= attempts` is kept, and attempts grow by at most the number of questions; the output is the banner, the session's events, then (unless input ran out) the completion notice with `score/attempts` when `attempts > 0`, else the no-attempts line |
| `Game.NewGame` | quiz_game.py:18-34 | a load failure propagates and no game is created; otherwise a fresh game holds a permutation of the loaded questions, with both counters at zero |

## Left out

- Opening the file, UTF-8 decoding and `csv.DictReader` parsing (quiz_game.py:59-60) are library I/O. The model starts from the header's column names as a set and from each row as a map from column name to cell text.
- The `FileNotFoundError` and `csv.Error` handlers (quiz_game.py:70-75) only print and re-raise. Neither case exists in the model, because there is no file.
- An empty file, where `reader.fieldnames` is `None` (quiz_game.py:64), is not modelled: the header is always a set.
- Ragged rows are not modelled. For a short row `csv.DictReader` fills cells with `None`, and a long row gets an extra `None` key. The model assumes every row has a text cell for each header column.
- `load_questions` keeps each row's whole dictionary, extra columns included. The model keeps only the six required fields, because nothing else is ever read.
- QuizLoader.Shuffle: the distribution of `random.shuffle` is not modelled. The model proves only that some permutation comes out, since each random draw is left nondeterministic.
- QuizLoader.Shuffle: works on a sequence value rather than on the list in place. Nothing else holds a reference to that list, so no aliasing is lost.
- QuizText.Lower: folds only the ASCII letters `A`–`Z`. Python's `str.lower` also folds other Unicode letters, and for some of them changes the length (`'İ'.lower()` has two characters), so `|r| == |s|` holds only for this ASCII fold.
- The exact console text is not modelled: messages, option labels, the `\n` spacing and the unused question counter from `enumerate`. Output is modelled as categories of events.
- Game.QuizGame.Play: the `EOFError` raised when input runs out is recorded as the `InputExhausted` ending. The exception itself, and what its caller does with it, are not modelled.
- The `__main__` entry point (quiz_game.py:144-147) is not modelled.
