/** The transcript store: the session's ordered log of turns, each a role
    tag and a text, and the step that seeds it when the session starts. */
module Transcript {

  import opened Options

  /** Speaker of a turn. The log stores roles as plain strings; `"user"` and
      `"ai"` are the two the program writes, and any other string is kept
      as `Other`. */
  datatype Role = User | AI | Other(name: string)

  /** The role string a log entry carries. */
  function NameOf(r: Role): string
  {
    match r
    case User => "user"
    case AI => "ai"
    case Other(name) => name
  }

  /** A role value that some role string maps to: `Other` never wraps one
      of the two reserved names. */
  predicate Canonical(r: Role)
  {
    r.Other? ==> r.name != "user" && r.name != "ai"
  }

  /** Classifies a role string by exact comparison with `"user"` and `"ai"`. */
  function RoleOf(name: string): (r: Role)
    ensures Canonical(r)
    ensures NameOf(r) == name
  {
    if name == "user" then User
    else if name == "ai" then AI
    else Other(name)
  }

  /** Decoding a role value's string gives the value back exactly when the
      value is canonical. */
  lemma RoleRoundTrip(r: Role)
    ensures RoleOf(NameOf(r)) == r <==> Canonical(r)
  {
  }

  /** One utterance: immutable once appended. */
  datatype Turn = Turn(role: Role, content: string)

  /** The message log, oldest turn first. */
  type Log = seq<Turn>

  /** The assistant's fixed opening line, written in pieces so that the
      verifier can check character membership piece by piece. */
  const Greeting: string := "Hi! I'm your " + "Valorant Coach! " + "🎮 How can I " + "help you rank up?"

  /** The turn a fresh session starts with. */
  const GreetingTurn: Turn := Turn(AI, Greeting)

  /** Seeds the log when the session state holds none; a log that is
      already stored is kept as it is. */
  function Seed(stored: Option<Log>): (log: Log)
    ensures stored.None? ==> |log| == 1 && log[0].role == AI && log[0].content == Greeting
    ensures stored.Some? ==> log == stored.value
  {
    match stored
    case None => [GreetingTurn]
    case Some(existing) => existing
  }

  /** Seeding a session that has already been seeded changes nothing. */
  lemma SeedIdempotent(stored: Option<Log>)
    ensures Seed(Some(Seed(stored))) == Seed(stored)
  {
  }
}
