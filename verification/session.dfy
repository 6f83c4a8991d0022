/** The script's input-processing step and the sessions it produces: a
    submitted query appends the user turn and then the reply generated for
    the prompt of the whole log. Building the prompt is taken never to fail;
    a run that aborts after appending only the user turn is not modelled. */
module Session {

  import opened Options
  import opened Text
  import opened Transcript
  import opened PromptAssembly
  import opened Responder

  /** The completion engine behind `prompt | llm_engine | StrOutputParser()`:
      a prompt in, an outcome out. */
  type Engine = seq<Entry> -> Completion

  /** Truthiness of the chat input: no input, or the empty string, is falsy. */
  predicate Submitted(query: Option<string>)
  {
    query.Some? && query.value != ""
  }

  /** Processes one run of the script against the stored log, with prompt
      building taken never to fail. */
  function Step(log: Log, query: Option<string>, engine: Engine): (r: Log)
    ensures !Submitted(query) ==> r == log
    ensures Submitted(query) ==>
      && |r| == |log| + 2
      && r[..|log|] == log
      && r[|log|] == Turn(User, query.value)
      && r[|log| + 1] == Turn(AI, Generate(engine(Prompt(log) + [Human(query.value)])))
      && !Contains(r[|log| + 1].content, LeakMarker)
  {
    if Submitted(query) then
      var asked := Turn(User, query.value);
      var withQuery := log + [asked];
      PromptExtends(log, asked);
      var reply := Generate(engine(Prompt(withQuery)));
      GenerateNeverLeaks(engine(Prompt(withQuery)));
      withQuery + [Turn(AI, reply)]
    else
      log
  }

  /** The texts of the submitted queries, in order. */
  function Asked(queries: seq<Option<string>>): seq<string>
  {
    if |queries| == 0 then []
    else
      var q := queries[|queries| - 1];
      Asked(queries[..|queries| - 1]) + if Submitted(q) then [q.value] else []
  }

  /** The contents of the `"user"` turns of a log, in order. */
  function UserTexts(log: Log): seq<string>
  {
    if |log| == 0 then []
    else
      var t := log[|log| - 1];
      UserTexts(log[..|log| - 1]) + if t.role == User then [t.content] else []
  }

  /** The log after the script has run once per input, in order. */
  function Run(log: Log, queries: seq<Option<string>>, engine: Engine): (r: Log)
    ensures |r| == |log| + 2 * |Asked(queries)|
    ensures r[..|log|] == log
  {
    if |queries| == 0 then log
    else
      var before := Run(log, queries[..|queries| - 1], engine);
      var r := Step(before, queries[|queries| - 1], engine);
      assert r[..|before|] == before;
      assert r[..|log|] == before[..|log|];
      r
  }

  /** The user turns of a run are those already in the log followed by the
      submitted queries, in submission order: none lost, none reordered. */
  lemma {:induction false} RunRecordsQueries(log: Log, queries: seq<Option<string>>, engine: Engine)
    ensures UserTexts(Run(log, queries, engine)) == UserTexts(log) + Asked(queries)
  {
    if |queries| > 0 {
      var front := queries[..|queries| - 1];
      var q := queries[|queries| - 1];
      var before := Run(log, front, engine);
      RunRecordsQueries(log, front, engine);
      if Submitted(q) {
        var withQuery := before + [Turn(User, q.value)];
        var after := Step(before, q, engine);
        assert after[..|withQuery|] == withQuery;
        assert withQuery[..|before|] == before;
        assert UserTexts(after) == UserTexts(before) + [q.value];
      }
    }
  }

  /** The shape of every log a fresh session reaches when no run aborts
      while building its prompt: odd length, `"ai"` at
      even positions and `"user"` at odd ones, and no `"ai"` turn containing
      the leak marker. */
  ghost predicate Alternating(log: Log)
  {
    && |log| % 2 == 1
    && (forall i :: 0 <= i < |log| ==> log[i].role == if i % 2 == 0 then AI else User)
    && (forall i :: 0 <= i < |log| && log[i].role == AI ==> !Contains(log[i].content, LeakMarker))
  }

  /** The greeting does not contain the leak marker. */
  lemma GreetingIsClean()
    ensures !Contains(Greeting, LeakMarker)
  {
    NoCapitalD(Greeting);
  }

  /** A freshly seeded log has the alternating shape. */
  lemma SeedAlternating()
    ensures Alternating(Seed(None))
  {
    GreetingIsClean();
  }

  /** One step keeps the alternating shape. */
  lemma StepKeepsAlternating(log: Log, query: Option<string>, engine: Engine)
    requires Alternating(log)
    ensures Alternating(Step(log, query, engine))
  {
    var r := Step(log, query, engine);
    if Submitted(query) {
      forall i | 0 <= i < |r|
        ensures r[i].role == if i % 2 == 0 then AI else User
        ensures r[i].role == AI ==> !Contains(r[i].content, LeakMarker)
      {
        if i < |log| {
          assert r[i] == r[..|log|][i];
        }
      }
    }
  }

  /** Every run keeps the alternating shape. */
  lemma {:induction false} RunKeepsAlternating(log: Log, queries: seq<Option<string>>, engine: Engine)
    requires Alternating(log)
    ensures Alternating(Run(log, queries, engine))
  {
    if |queries| > 0 {
      RunKeepsAlternating(log, queries[..|queries| - 1], engine);
      StepKeepsAlternating(Run(log, queries[..|queries| - 1], engine), queries[|queries| - 1], engine);
    }
  }

  /** In a session that started fresh, every turn reaches the prompt: the
      prompt has exactly one entry more than the log, and entry `i + 1`
      carries turn `i`'s role and content. */
  lemma {:induction false} SessionPromptIsFaithful(queries: seq<Option<string>>, engine: Engine)
    ensures var log := Run(Seed(None), queries, engine);
      && |Prompt(log)| == |log| + 1
      && forall i :: 0 <= i < |log| ==> Prompt(log)[i + 1] == EntryOf(log[i])
  {
    var log := Run(Seed(None), queries, engine);
    SeedAlternating();
    RunKeepsAlternating(Seed(None), queries, engine);
    PromptOfConversational(log);
  }

  /** A submitted question answered by the engine: the log is the greeting,
      the question and the answer, in that order. */
  lemma AnsweredScenario()
    ensures Step(Seed(None), Some("how do I aim better?"),
                 _ => Success("Work on your " + "crosshair " + "placement daily."))
         == [GreetingTurn, Turn(User, "how do I aim better?"),
             Turn(AI, "Work on your " + "crosshair " + "placement daily.")]
  {
    NoCapitalD("Work on your " + "crosshair " + "placement daily.");
  }

  /** The same question with the engine unreachable: the answer is the
      fallback text and the log still grows by exactly two turns. */
  lemma UnavailableScenario()
    ensures Step(Seed(None), Some("how do I aim better?"), _ => Failure)
         == [GreetingTurn, Turn(User, "how do I aim better?"), Turn(AI, Fallback)]
  {
  }
}
