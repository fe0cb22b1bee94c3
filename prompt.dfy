/** The prompt composer of `gpt_response`: the fixed tables that choose the
    effective system instruction for a (mode, personality) pair, and the request
    that replaces the stored system message with it. */
module Prompt {
  import opened Messages

  const WittyTone := "You are witty, humorous, and use light emojis and jokes appropriately."
  const ProfessionalTone := "You are professional, clear, and concise, with minimal emojis."
  const FunTone := "You are playful, fun, and love emojis and ASCII art."
  const FriendlyTone := "You are warm, friendly, and engaging with positive language."

  const SummarizeInstruction := "Summarize the user's input concisely."
  const ExplainInstruction := "Explain concepts clearly and simply."
  const CodeInstruction := "Provide working code examples when appropriate."

  /** The `personalities` dictionary. */
  const Personalities: map<string, string> := map[
    "witty" := WittyTone,
    "professional" := ProfessionalTone,
    "fun" := FunTone,
    "friendly" := FriendlyTone
  ]

  /** Python's `d.get(key, default)`. */
  function Get(d: map<string, string>, key: string, default: string): string
  {
    if key in d then d[key] else default
  }

  /** `personalities.get(personality, personalities["witty"])`: the tone text of a
      known personality, the witty text for any other. */
  function Tone(personality: string): (t: string)
    ensures personality == "witty" ==> t == WittyTone
    ensures personality == "professional" ==> t == ProfessionalTone
    ensures personality == "fun" ==> t == FunTone
    ensures personality == "friendly" ==> t == FriendlyTone
    ensures personality !in {"witty", "professional", "fun", "friendly"} ==> t == WittyTone
  {
    Get(Personalities, personality, Personalities["witty"])
  }

  /** The mode dictionary, whose `chat` entry depends on the personality. */
  function Modes(personality: string): (m: map<string, string>)
    ensures m.Keys == {"chat", "summarize", "explain", "code"}
    ensures m["chat"] == Tone(personality)
  {
    map[
      "chat" := Tone(personality),
      "summarize" := SummarizeInstruction,
      "explain" := ExplainInstruction,
      "code" := CodeInstruction
    ]
  }

  /** The effective system instruction `system_msg`. The three task modes give their
      own instruction whatever the personality; `chat` and every unknown mode give
      the personality's tone, itself the witty tone for an unknown personality. */
  function SystemMessage(mode: string, personality: string): (s: string)
    ensures mode == "summarize" ==> s == SummarizeInstruction
    ensures mode == "explain" ==> s == ExplainInstruction
    ensures mode == "code" ==> s == CodeInstruction
    ensures mode !in {"summarize", "explain", "code"} ==> s == Tone(personality)
  {
    Get(Modes(personality), mode, Tone(personality))
  }

  /** An unknown mode behaves as `chat`, and an unknown personality as `witty`. */
  lemma FallbacksAreDefaults(mode: string, personality: string)
    ensures mode !in {"chat", "summarize", "explain", "code"} ==>
      SystemMessage(mode, personality) == SystemMessage("chat", personality)
    ensures personality !in {"witty", "professional", "fun", "friendly"} ==>
      SystemMessage(mode, personality) == SystemMessage(mode, "witty")
  {
  }

  /** An unknown mode does not fall back to the witty tone: with any known personality
      other than `witty` it keeps that personality's own tone, which differs from the
      witty text. */
  lemma UnknownModeKeepsPersonality(mode: string, personality: string)
    requires mode !in {"chat", "summarize", "explain", "code"}
    requires personality in {"professional", "fun", "friendly"}
    ensures SystemMessage(mode, personality) == Tone(personality) != WittyTone
  {
  }

  /** Python's `history[1:]`. */
  function DropFirst(history: Transcript): (r: Transcript)
    ensures |r| == if |history| == 0 then 0 else |history| - 1
    ensures forall i :: 0 <= i < |r| ==> r[i] == history[i + 1]
  {
    if |history| == 0 then [] else history[1..]
  }

  /** `temp_history`: the effective system message followed by every stored message
      except the one at index 0. */
  function OutgoingRequest(history: Transcript, mode: string, personality: string): (r: Transcript)
    ensures |r| == if |history| == 0 then 1 else |history|
    ensures r[0] == Message(System, SystemMessage(mode, personality))
    ensures forall i :: 1 <= i < |r| ==> r[i] == history[i]
  {
    [Message(System, SystemMessage(mode, personality))] + DropFirst(history)
  }

  /** The request sent after the user turn is appended has the transcript's length
      and differs from it at most at index 0, where the effective system message
      stands instead of the stored one. It ends with the new user turn unless the
      transcript was empty before: then that turn sits at index 0 and is replaced. */
  lemma RequestAfterUserTurn(history: Transcript, userInput: string, mode: string, personality: string)
    ensures var h := history + [Message(User, userInput)];
      var r := OutgoingRequest(h, mode, personality);
      |r| == |h| &&
      r[0] == Message(System, SystemMessage(mode, personality)) &&
      r[1..] == h[1..] &&
      (|history| > 0 ==> r[|r| - 1] == Message(User, userInput)) &&
      (|history| == 0 ==> r == [Message(System, SystemMessage(mode, personality))])
  {
    var h := history + [Message(User, userInput)];
    var r := OutgoingRequest(h, mode, personality);
    if |history| > 0 {
      assert r[|r| - 1] == h[|h| - 1];
    }
  }
}
