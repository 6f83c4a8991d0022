/** Prompt assembly: the transcript replayed, in order, behind the fixed
    persona instructions. */
module PromptAssembly {

  import opened Transcript

  /** One entry of the prompt handed to the completion engine. */
  datatype Entry = System(text: string) | Human(text: string) | AIMsg(text: string)

  /** The coach persona, sent as the first entry of every prompt. */
  const Persona: string :=
    "You are a professional Valorant coach helping a player improve their skills. "
    + "You provide guidance on aim training, crosshair placement, team coordination, and game sense. "
    + "Focus on giving **practical and concise tips**."

  /** Turns whose role string is `"user"` or `"ai"`; only these reach the
      prompt. The test is on the role string, so a non-canonical role value
      that spells one of those names is treated like the canonical one. */
  predicate Conversational(t: Turn)
  {
    NameOf(t.role) == "user" || NameOf(t.role) == "ai"
  }

  /** The prompt entry a conversational turn becomes. */
  function EntryOf(t: Turn): (e: Entry)
    requires Conversational(t)
    ensures !e.System? && e.text == t.content
    ensures e.Human? <==> NameOf(t.role) == "user"
  {
    if NameOf(t.role) == "user" then Human(t.content) else AIMsg(t.content)
  }

  /** The number of conversational turns in the log. */
  function Count(log: Log): (n: nat)
    ensures n <= |log|
    ensures n == |log| <==> forall i :: 0 <= i < |log| ==> Conversational(log[i])
  {
    if |log| == 0 then 0
    else
      var front := log[..|log| - 1];
      assert forall i :: 0 <= i < |front| ==> front[i] == log[i];
      Count(front) + if Conversational(log[|log| - 1]) then 1 else 0
  }

  /** One entry per conversational turn, in log order. */
  function Entries(log: Log): (es: seq<Entry>)
    ensures |es| == Count(log)
    ensures forall j :: 0 <= j < |es| ==> !es[j].System?
  {
    if |log| == 0 then []
    else
      var last := log[|log| - 1];
      Entries(log[..|log| - 1]) + if Conversational(last) then [EntryOf(last)] else []
  }

  /** The prompt for a log: the persona first and only there, then the
      entries of the conversational turns. */
  function Prompt(log: Log): (p: seq<Entry>)
    ensures |p| == 1 + Count(log)
    ensures p[0] == System(Persona)
    ensures forall j :: 1 <= j < |p| ==> !p[j].System?
  {
    [System(Persona)] + Entries(log)
  }

  /** Builds the prompt by walking the log once, appending a human entry for
      each `"user"` turn and an AI entry for each `"ai"` turn. */
  method BuildPrompt(log: Log) returns (p: seq<Entry>)
    ensures p == Prompt(log)
  {
    p := [System(Persona)];
    for i := 0 to |log|
      invariant p == Prompt(log[..i])
    {
      var msg := log[i];
      if NameOf(msg.role) == "user" {
        p := p + [Human(msg.content)];
      } else if NameOf(msg.role) == "ai" {
        p := p + [AIMsg(msg.content)];
      }
      assert log[..i + 1][..i] == log[..i];
    }
    assert log[..|log|] == log;
  }

  /** Appending a turn to the log appends its entry to the prompt when it is
      conversational, and leaves the prompt unchanged otherwise. */
  lemma PromptExtends(log: Log, t: Turn)
    ensures Conversational(t) ==> Prompt(log + [t]) == Prompt(log) + [EntryOf(t)]
    ensures !Conversational(t) ==> Prompt(log + [t]) == Prompt(log)
  {
    assert (log + [t])[..|log|] == log;
  }

  /** The conversational turn at log position `i` lands in the prompt right
      after the persona and the entries of the conversational turns before it. */
  lemma {:induction false} PromptPlacesTurn(log: Log, i: int)
    requires 0 <= i < |log| && Conversational(log[i])
    ensures 1 + Count(log[..i]) < |Prompt(log)|
    ensures Prompt(log)[1 + Count(log[..i])] == EntryOf(log[i])
  {
    EntriesPlaceTurn(log, i);
  }

  lemma {:induction false} EntriesPlaceTurn(log: Log, i: int)
    requires 0 <= i < |log| && Conversational(log[i])
    ensures Count(log[..i]) < |Entries(log)|
    ensures Entries(log)[Count(log[..i])] == EntryOf(log[i])
  {
    var front := log[..|log| - 1];
    if i == |log| - 1 {
      assert log[..i] == front;
    } else {
      assert front[..i] == log[..i];
      assert front[i] == log[i];
      EntriesPlaceTurn(front, i);
    }
  }

  /** Every entry after the persona comes from one conversational turn: the
      one with exactly that many conversational turns before it. */
  lemma {:induction false} PromptEntrySource(log: Log, j: int)
    requires 1 <= j < |Prompt(log)|
    ensures exists i :: 0 <= i < |log| && Conversational(log[i])
              && Count(log[..i]) == j - 1 && Prompt(log)[j] == EntryOf(log[i])
  {
    var i := EntrySource(log, j - 1);
    assert Prompt(log)[j] == Entries(log)[j - 1];
  }

  /** The log position of the turn behind entry `k` of `Entries(log)`. */
  lemma {:induction false} EntrySource(log: Log, k: int) returns (i: int)
    requires 0 <= k < |Entries(log)|
    ensures 0 <= i < |log| && Conversational(log[i])
    ensures Count(log[..i]) == k && Entries(log)[k] == EntryOf(log[i])
  {
    var front := log[..|log| - 1];
    if k < |Entries(front)| {
      i := EntrySource(front, k);
      assert front[..i] == log[..i];
    } else {
      i := |log| - 1;
      assert log[..i] == front;
    }
  }

  /** When every turn is conversational, the prompt has one entry more than
      the log and entry `i + 1` is the image of turn `i`. */
  lemma {:induction false} PromptOfConversational(log: Log)
    requires forall i :: 0 <= i < |log| ==> Conversational(log[i])
    ensures |Prompt(log)| == |log| + 1
    ensures forall i :: 0 <= i < |log| ==> Prompt(log)[i + 1] == EntryOf(log[i])
  {
    forall i | 0 <= i < |log|
      ensures Prompt(log)[i + 1] == EntryOf(log[i])
    {
      var front := log[..i];
      assert forall m :: 0 <= m < |front| ==> Conversational(front[m]);
      assert Count(front) == i;
      PromptPlacesTurn(log, i);
    }
  }
}
