/**
 * Loading the question bank (`QuizGame.load_questions`) and putting it in a
 * random order (the `random.shuffle` call in `QuizGame.__init__`).
 *
 * Opening and decoding the file and splitting it into cells belong to the
 * CSV library; the model starts from what that library hands back: the set
 * of header names and, per data row, a map from header name to cell text.
 */
module QuizLoader {

  datatype Result<T, E> = Success(value: T) | Failure(error: E)

  /** One quiz item, the six columns the loader insists on. */
  datatype Question = Question(
    question: string,
    optionA: string,
    optionB: string,
    optionC: string,
    optionD: string,
    answer: string)

  /** The only way loading fails once the file has been parsed. */
  datatype LoadError = MissingColumns(missing: set<string>)

  /** One parsed data row: header name to cell text. */
  type Row = map<string, string>

  const RequiredColumns: set<string> :=
    {"question", "option_a", "option_b", "option_c", "option_d", "answer"}

  /**
   * What the CSV reader guarantees: every row it yields has a cell for each
   * name in the header.
   */
  predicate RowsMatchHeader(header: set<string>, rows: seq<Row>) {
    forall k :: 0 <= k < |rows| ==> header <= rows[k].Keys
  }

  /** The record kept for one row: its six required cells, verbatim. */
  function ToQuestion(row: Row): Question
    requires RequiredColumns <= row.Keys
  {
    Question(row["question"], row["option_a"], row["option_b"],
             row["option_c"], row["option_d"], row["answer"])
  }

  /**
   * The loader's outcome as a function of the parsed file: it fails exactly
   * when some required column is absent from the header, naming exactly the
   * absent ones; otherwise it yields one record per row, in row order, with
   * each field the row's cell unchanged.
   */
  function Load(header: set<string>, rows: seq<Row>): (r: Result<seq<Question>, LoadError>)
    requires RowsMatchHeader(header, rows)
    ensures r.Failure? <==> !(RequiredColumns <= header)
    ensures r.Failure? ==> r.error.missing == RequiredColumns - header
                           && r.error.missing != {}
                           && r.error.missing !! header
    ensures r.Success? ==> |r.value| == |rows|
    ensures r.Success? ==> forall k :: 0 <= k < |rows| ==>
              r.value[k].question == rows[k]["question"]
              && r.value[k].optionA == rows[k]["option_a"]
              && r.value[k].optionB == rows[k]["option_b"]
              && r.value[k].optionC == rows[k]["option_c"]
              && r.value[k].optionD == rows[k]["option_d"]
              && r.value[k].answer == rows[k]["answer"]
  {
    if !(RequiredColumns <= header) then
      SomeMissing(header);
      Failure(MissingColumns(RequiredColumns - header))
    else
      Success(seq(|rows|, k requires 0 <= k < |rows| => ToQuestion(rows[k])))
  }

  lemma SomeMissing(header: set<string>)
    requires !(RequiredColumns <= header)
    ensures RequiredColumns - header != {}
  {
    var c :| c in RequiredColumns && c !in header;
    assert c in RequiredColumns - header;
  }

  /**
   * `load_questions`: check the header, then append the rows one by one.
   */
  method LoadQuestions(header: set<string>, rows: seq<Row>)
      returns (r: Result<seq<Question>, LoadError>)
    requires RowsMatchHeader(header, rows)
    ensures r == Load(header, rows)
  {
    if !(RequiredColumns <= header) {
      var missing := RequiredColumns - header;
      return Failure(MissingColumns(missing));
    }
    var questions: seq<Question> := [];
    for k := 0 to |rows|
      invariant |questions| == k
      invariant forall j :: 0 <= j < k ==> questions[j] == ToQuestion(rows[j])
    {
      questions := questions + [ToQuestion(rows[k])];
    }
    assert questions == seq(|rows|, k requires 0 <= k < |rows| => ToQuestion(rows[k]));
    return Success(questions);
  }

  /**
   * `random.shuffle`: the Fisher-Yates pass CPython runs, from the last
   * position down to the second, swapping each with a position at or below
   * it. The random draw is left open (any position in range may come up),
   * so the model promises only that the result is some permutation.
   */
  method Shuffle(s: seq<Question>) returns (r: seq<Question>)
    ensures |r| == |s|
    ensures multiset(r) == multiset(s)
  {
    r := s;
    var i := |r| - 1;
    while i > 0
      invariant i < |r| || |r| == 0
      invariant |r| == |s|
      invariant multiset(r) == multiset(s)
    {
      var j :| 0 <= j <= i;
      r := r[i := r[j]][j := r[i]];
      i := i - 1;
    }
  }
}
