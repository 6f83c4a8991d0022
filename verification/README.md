# Valorant coach chat: conversational core

A Dafny model of the conversational core of `gamer_gpt.py`, a one-page chat
app that forwards a player's questions to a locally served language model in
the persona of a Valorant coach. The model keeps only the logic. The session's
message log is an explicit immutable sequence of turns, and each script run is
a pure function over that log. The completion engine is a function parameter
that returns `Success(text)` or `Failure`.

Modules:

- `Options`: `Option<T>`, for a session-state key that may be absent and for a chat input that may be empty.
- `Text`: literal, case-sensitive substring containment. This is the `in` test on strings. It has a specification (`Contains`) and an executable search (`Find`) proved equal to it.
- `Transcript`: roles (`User`, `AI`, `Other(name)`), turns, the log, the greeting, and the seeding step.
- `PromptAssembly`: `build_prompt`, both as a definition (`Prompt`) and as the source's loop (`BuildPrompt`). It also holds the lemmas on order, content, dropped roles and length.
- `Responder`: the reply post-processing of `generate_response`. It covers the identity-leak filter, the redirect text and the failure fallback.
- `Session`: one run of the input-processing step (`Step`), a sequence of runs (`Run`), and the invariant that every freshly started session keeps. That invariant is: odd length, `"ai"` and `"user"` turns alternating, and no `"ai"` turn containing the leak marker.

The program stores roles as the strings `"user"` and `"ai"` (gamer_gpt.py:53,
94, 100). It drops any other role string when it builds the prompt (86-89).
The greeting, redirect and fallback texts are the exact literals at lines 53,
74 and 80.

## Model

| member | source | states |
|---|---|---|
| Transcript.RoleOf | gamer_gpt.py:86-88 | A role string is classified by exact comparison with `"user"` and `"ai"`. The result is canonical and maps back to the same string. |
| Transcript.RoleRoundTrip | gamer_gpt.py:86-88 | Mapping a role value to its string and back gives the same value exactly when the value is canonical. `Other` never wraps `"user"` or `"ai"`. |
| Transcript.Seed | gamer_gpt.py:52-53 | A session with no stored log gets exactly one turn: role `"ai"`, with the fixed greeting. A stored log is kept unchanged. |
| Transcript.SeedIdempotent | gamer_gpt.py:52-53 | Seeding an already seeded session changes nothing. |
| Text.Find | gamer_gpt.py:73 | The executable left-to-right search is true exactly when the text contains the substring at some position. |
| PromptAssembly.EntryOf | gamer_gpt.py:86-89 | The test is on the role string. A `"user"` turn becomes a human entry and an `"ai"` turn becomes an AI entry. The content is identical. It is never a system entry. |
| PromptAssembly.Count | gamer_gpt.py:85-89 | The count of conversational turns is at most the log length. It equals the log length exactly when every turn is `"user"` or `"ai"`. |
| PromptAssembly.Entries | gamer_gpt.py:85-89 | There is one entry per conversational turn. None of them is a system entry. |
| PromptAssembly.Prompt | gamer_gpt.py:83-90 | The persona entry comes first and appears exactly once. The length is 1 plus the number of `"user"`/`"ai"` turns. |
| PromptAssembly.BuildPrompt | gamer_gpt.py:83-90 | The source's loop over the log builds the same prompt as the definition `Prompt`. |
| PromptAssembly.PromptExtends | gamer_gpt.py:85-89 | Appending a conversational turn appends its entry to the prompt. Appending a turn with any other role leaves the prompt unchanged. |
| PromptAssembly.PromptPlacesTurn | gamer_gpt.py:85-89 | Turn `i`, if conversational, sits at position 1 + (the number of conversational turns before `i`), with the same role and content. |
| PromptAssembly.EntriesPlaceTurn | gamer_gpt.py:85-89 | The same placement, stated on the entries that follow the persona. |
| PromptAssembly.PromptEntrySource | gamer_gpt.py:85-89 | The converse placement: every prompt entry after the persona comes from one conversational turn of the log, at the matching position. |
| PromptAssembly.EntrySource | gamer_gpt.py:85-89 | This gives the log position of the turn behind each entry. |
| PromptAssembly.PromptOfConversational | gamer_gpt.py:84-89 | When every turn is `"user"` or `"ai"`, a k-turn log gives a prompt of length k+1. Entry i+1 carries turn i. |
| Responder.RedirectIsClean | gamer_gpt.py:73-74 | The redirect text does not contain `"I'm DeepSeek"`. |
| Responder.FallbackIsClean | gamer_gpt.py:80 | The fallback text does not contain `"I'm DeepSeek"`. |
| Responder.FilterLeak | gamer_gpt.py:73-76 | A reply that contains `"I'm DeepSeek"` anywhere becomes exactly the redirect text. Any other reply is returned unchanged. |
| Responder.FilterLeakIdempotent | gamer_gpt.py:73-74 | Applying the leak filter twice is the same as applying it once. |
| Responder.Generate | gamer_gpt.py:67-80 | A failed completion yields exactly the fallback text and never an error. A success is filtered as above. |
| Responder.GenerateNeverLeaks | gamer_gpt.py:67-80 | Whatever the engine returns, the text given back does not contain `"I'm DeepSeek"`. |
| Session.Step | gamer_gpt.py:93-100 | A falsy input (none, or empty) leaves the log unchanged. A non-empty query grows the log by exactly 2 and keeps the old log as a prefix. The new turns are `("user", query)` and then `("ai", reply)`. The reply is generated from the old prompt plus the query as a human entry, and it never leaks. This assumes prompt building never raises (see Left out). |
| Session.Run | gamer_gpt.py:93-100 | After any sequence of inputs, the log has grown by 2 per submitted query and the original log is still a prefix. This assumes prompt building never raises (see Left out). |
| Session.RunRecordsQueries | gamer_gpt.py:93-100 | The user turns after a run are the earlier ones followed by the submitted queries, in order. None are lost and none are reordered. This assumes prompt building never raises (see Left out). |
| Session.GreetingIsClean | gamer_gpt.py:53 | The greeting does not contain `"I'm DeepSeek"`. |
| Session.SeedAlternating | gamer_gpt.py:52-53 | A freshly seeded log has odd length and alternating roles, starting with `"ai"`, and contains no leak. |
| Session.StepKeepsAlternating | gamer_gpt.py:93-100 | One step preserves the alternating, leak-free shape. This assumes prompt building never raises (see Left out). |
| Session.RunKeepsAlternating | gamer_gpt.py:93-100 | Any sequence of steps preserves the alternating, leak-free shape. This assumes prompt building never raises (see Left out). |
| Session.SessionPromptIsFaithful | gamer_gpt.py:83-100 | In a fresh session, every turn reaches the prompt. The prompt has length k+1 for k turns, and entry i+1 carries turn i. This assumes prompt building never raises (see Left out). |
| Session.AnsweredScenario | gamer_gpt.py:93-100 | One answered question: the log is the greeting, then the question, then the answer. |
| Session.UnavailableScenario | gamer_gpt.py:78-80 | With the engine failing, the log is the greeting, then the question, then the fallback text. |

## Left out

- Page styling, title, sidebar, chat rendering, the spinner and `st.rerun` (gamer_gpt.py:7-35, 56-64, 96, 101). These are presentation only.
- The `ChatOllama` engine, its HTTP endpoint, and the `prompt | llm_engine | StrOutputParser()` pipeline (gamer_gpt.py:38-42, 69-70). These are a network call into a foreign library. They appear only as the `Engine` parameter, which returns `Success(text)` or `Failure`.
- Template semantics of `from_template` (gamer_gpt.py:45-49, 87, 89). The library interprets braces in message text, and that code is not part of this model. Contents are opaque strings.
- The diagnostic `print` on failure (gamer_gpt.py:79), and the model choice and temperature (gamer_gpt.py:26, 41). These are logging and configuration, and they do not affect the logic.
- Session state as ambient framework storage. The log is passed and returned explicitly. Reading the chat input is an `Option<string>` parameter.
- Session.Step: assumes prompt building never raises. In the program, `build_prompt` runs outside the `try` of `generate_response` (gamer_gpt.py:97), after the user turn is appended (94). `from_template` rejects text with an unmatched brace, and that would end the run with only the user turn appended. That library code is not part of this model, and contents are opaque strings. So the growth by exactly two turns in `Session.Step` and `Session.Run`, the query record in `Session.RunRecordsQueries`, and the alternating shape in `Session.StepKeepsAlternating`, `Session.RunKeepsAlternating` and `Session.SessionPromptIsFaithful` hold only under that assumption.
