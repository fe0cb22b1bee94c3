# Conversation core of the GPT-powered command-line chatbot

`Chatbot.py` is a console chat client. This Dafny project models the deterministic part
under its I/O:

- the **prompt composer** of `gpt_response`. A fixed table maps a (mode, personality) pair
  to the effective system instruction. The outgoing request puts that instruction where
  the stored system message at index 0 of the transcript would be.
- the **transcript update** of `gpt_response`. The user turn is appended before the
  completion call. The emoji-decorated reply is appended after it.
- **`auto_emoji`**, which appends one emoji for each keyword found in the lower-cased,
  growing text.
- **`current_greeting`**, with the hour as a parameter.
- the **multi-user store** (`all_users_history`, `save_user_history`), the seeding of new
  transcripts, and the **command loop of `main`**. The loop skips blank lines, matches
  commands on the lower-cased line, and handles `exit`, `history`, `switch_user`, `gpt`,
  the decoration commands and free chat.
- the entry selection of `display_conversation`.

Modules:

- `Text`: `str.lower()` and substring search.
- `Messages`: messages and transcripts.
- `Greeting`: `current_greeting`.
- `Prompt`: the composer's tables, the effective system message and the outgoing request.
- `Emoji`: `auto_emoji` as a loop (`AutoEmoji`), proved against the function `Decorate`.
- `Dispatch`: the state of `main` as a value (`Session`). It holds one pass of the loop
  (`Transition`), the loop over a sequence of inputs (`Replay`) and the lemmas about them.
- `Chatbot`: a class whose fields are the module-level store and the locals of `main`. Its
  methods update them in place. Each method is proved equal to the matching function in
  `Dispatch`.

The completion service is not called. Each pass of the loop receives, as part of its
input, the reply the service gives to the request that pass sends (`Answer(text)` or
`Failure`). The request itself is part of what the pass outputs. The follow-up prompts
(the new user name, the `gpt` mode and text) are also fields of the input. Each of these
strings is the value rich's `Prompt.ask` returns. That library strips surrounding
whitespace, so a line of spaces arrives as the empty line and `" Exit "` arrives as
`exit`. For the mode it gives "chat" when the answer is empty.

Notes on the code:

- An unknown mode falls back to the *personality's* tone, not to the witty tone.
  `Prompt.UnknownModeKeepsPersonality` states this for the personalities other than
  `witty`.
- There is no `try` around the completion call. A failed call raises out of `main` and
  ends the program. The user turn is already appended and nothing is saved. The model
  reaches a stopped state with output `Crashed`; the loop does not continue.
- The loop has no command that changes the mode or the personality. The personality is
  chosen once at start and kept by every pass (`Dispatch.Transition`). The mode is asked
  for each `gpt` command and is not lower-cased.
- Only the empty string returned by `Prompt.ask` is skipped as a blank line.

## Model

| member | source | states |
|---|---|---|
| Greeting.CurrentGreeting | Chatbot.py:40-47 | every hour 0..23 gets exactly one greeting: "Good morning" exactly for 5 ≤ h < 12, "Good afternoon" exactly for 12 ≤ h < 18, "Good evening" exactly for the other hours |
| Prompt.Tone | Chatbot.py:52-60 | each of witty, professional, fun and friendly gets its own tone text; any other personality gets the witty text; the lookup is `Prompt.Get`, Python's `dict.get` with a default |
| Prompt.SystemMessage | Chatbot.py:59-64 | summarize, explain and code give their own instruction whatever the personality; chat and every unknown mode give the personality's tone |
| Prompt.FallbacksAreDefaults | Chatbot.py:59-64 | an unknown mode yields the same instruction as `chat`; an unknown personality yields the same as `witty`, in every mode |
| Prompt.UnknownModeKeepsPersonality | Chatbot.py:64 | for every mode outside the four of the table and every personality among professional, fun and friendly, the instruction is that personality's tone, which is not the witty text (for `witty` the two coincide) |
| Prompt.Modes | Chatbot.py:59-63 | the mode table has exactly the modes chat, summarize, explain and code; its chat entry is the personality's tone |
| Prompt.DropFirst | Chatbot.py:66 | Python's `[1:]`: one element shorter than a non-empty transcript (empty for an empty one), holding the messages from index 1 on in order |
| Prompt.OutgoingRequest | Chatbot.py:66 | the request has the transcript's length (at least 1); index 0 is the effective system message; every later index holds the stored message at that index |
| Prompt.RequestAfterUserTurn | Chatbot.py:50-66 | after the user append, the request has the transcript's length and equals it from index 1 on; it ends with the new user turn when the transcript was non-empty; from an empty transcript that turn is replaced and never sent |
| Text.Lower | Chatbot.py:128 | lower-casing keeps the length and maps each character by itself |
| Text.Contains | Chatbot.py:128 | Python's `in` on strings; a definition with no contract of its own, specified by `Text.ContainsIff` |
| Text.ContainsIff | Chatbot.py:128 | `w in s` holds exactly when `w` occurs in `s` at some index |
| Text.LowerIdempotent | Chatbot.py:183 | lower-casing twice equals lower-casing once |
| Text.LetterFreeAppendKeepsWords | Chatbot.py:128-129 | appending text none of whose characters lower-cases to a letter a–z neither creates nor removes a keyword match in the lower-cased text |
| Emoji.Mark | Chatbot.py:128-129 | one pass of the `auto_emoji` loop; a definition with no contract of its own, specified through `Emoji.DecorateIsBadges` |
| Emoji.Decorate | Chatbot.py:127-129 | the whole `auto_emoji` loop as a recursive definition; specified by `Emoji.DecorateIsBadges`, `Emoji.AutoEmojiAppendsBadges` and `Emoji.AutoEmojiUnchangedIff` |
| Emoji.AutoEmoji | Chatbot.py:115-130 | the loop returns exactly what `Decorate` gives: the keyword table, in order, applied to the growing text |
| Emoji.KeywordsWellFormed | Chatbot.py:116-126 | every keyword is a non-empty run of the letters a–z, and no character of an emoji string (with its leading space) lower-cases to a letter a–z |
| Emoji.DecorateIsBadges | Chatbot.py:127-129 | with a well-formed table, the loop appends exactly " emoji" for each keyword found in the original lower-cased text, in table order; appended emoji never trigger a later keyword |
| Emoji.AutoEmojiAppendsBadges | Chatbot.py:115-130 | `auto_emoji` keeps its input as a prefix and appends " emoji" for each keyword the lower-cased input contains, in table order |
| Emoji.BadgesEmptyIff | Chatbot.py:127-129 | nothing is appended exactly when no keyword of the table occurs |
| Emoji.AutoEmojiUnchangedIff | Chatbot.py:127-130 | `auto_emoji` returns its input unchanged exactly when the lower-cased input contains none of the nine keywords |
| Dispatch.ParseCommand | Chatbot.py:180-221 | the empty line is skipped; `exit`, `history`, `switch_user` and `gpt` are recognised exactly when the lower-cased line equals them; a chat turn is exactly a non-empty line whose lower-cased form is not a command word |
| Dispatch.ParseCommandCaseInsensitive | Chatbot.py:183 | lower-casing a line first selects the same branch |
| Dispatch.Seed | Chatbot.py:173-175 | a new transcript is one system message, "You are a <personality> assistant who loves to help users." |
| Dispatch.LoadOrSeed | Chatbot.py:217-219 | a known user gets the stored transcript; an unknown user gets the seed |
| Dispatch.SaveUser | Chatbot.py:156-157 | after saving, the user's entry is the given transcript; the keys are the old keys plus that user; every other entry is unchanged |
| Dispatch.Start | Chatbot.py:167-175 | the loop starts running with the loaded store, which is also the file's content, with the chosen personality, and with the user's stored or seeded transcript |
| Dispatch.ChatTurn | Chatbot.py:49-75 | `gpt_response` on values; a definition with no contract of its own, specified by `Dispatch.ChatTurnAppends` |
| Dispatch.ChatTurnAppends | Chatbot.py:49-75 | a turn sends the request composed after the user append; it keeps every earlier message, index 0 included; it appends `user: input` and, when answered, `assistant: auto_emoji(reply)`, growing by exactly two; on failure it grows by the user turn only |
| Dispatch.HistoryLines | Chatbot.py:83-88 | one printed line per message after index 0, with that message's content; labelled "You" exactly for user messages and the chatbot label otherwise; each line is `Dispatch.Line` of its message, the label choice of line 86 |
| Dispatch.Settle | Chatbot.py:203-209 | installing a chat turn changes only the active transcript, set to the turn's, and the running flag, which stays set exactly when the service answered; the pass shows a reply exactly then |
| Dispatch.Converse | Chatbot.py:223-226 | a chat turn from the session; a definition with no contract of its own, specified by `Dispatch.ConverseOnlyExtends` |
| Dispatch.ConverseOnlyExtends | Chatbot.py:203-209 | a chat turn changes only the active transcript, which it extends with the user turn first; it shows a reply exactly when the service answered, and the loop keeps running exactly when it ran before and a reply was shown, so a running loop stops exactly when the service fails |
| Dispatch.Transition | Chatbot.py:177-227 | one pass of the loop keeps the chosen personality; every command other than `exit` and `switch_user` leaves the store and the file unchanged; the branch lemmas below state each command's effect (`Dispatch.TransitionOnGpt` and `Dispatch.TransitionOnChat` for the two chat turns) |
| Dispatch.TransitionOnGpt | Chatbot.py:203-209 | `gpt` is a chat turn on the text and the mode given at its follow-up prompts, with the session's personality |
| Dispatch.TransitionOnChat | Chatbot.py:223-226 | any other non-empty line is a chat turn in `chat` mode on the line itself |
| Dispatch.BlankLineIsNoOp | Chatbot.py:180-181 | an empty line changes nothing and shows nothing |
| Dispatch.DecorationCommandsChangeNothing | Chatbot.py:192-213 | `fact`, `ascii`, `emoji` and `weather`, in any letter case, leave the whole session (transcript, store, file, user, running flag) unchanged and show only `Decoration` |
| Dispatch.ExitSavesAndStops | Chatbot.py:185-188 | `exit` stores the active transcript under the active user, writes the whole store to the file and stops the loop |
| Dispatch.SwitchUserSavesOutgoing | Chatbot.py:214-221 | `switch_user` stores and writes the outgoing transcript and keeps every other entry; the new user's transcript is then their stored one, the outgoing one when switching to oneself, or a fresh seed |
| Dispatch.HistoryShowsTail | Chatbot.py:189-191 | `history` leaves the state unchanged and shows exactly the messages after index 0, each labelled by its role |
| Dispatch.ChatUsesLineAsTyped | Chatbot.py:223-225 | any other non-empty line is a `chat`-mode turn on the line as typed, not on its lower-cased form |
| Dispatch.PersistedOnlyOnSave | Chatbot.py:156-159 | only `exit` and `switch_user` change the store or the file; after either one, the file holds the store, which differs from before only at the outgoing user |
| Dispatch.TranscriptOnlyGrows | Chatbot.py:177-225 | outside `switch_user`, the active user stays the same and the old transcript is a prefix of the new one |
| Dispatch.TransitionKeepsWellFormed | Chatbot.py:173-225 | if every transcript, active or stored, starts with a system message, it still does after any pass |
| Dispatch.Replay | Chatbot.py:177-188 | the `while True` loop over a sequence of inputs, ending at `exit` or at a failed call; a definition with no contract of its own, specified by `Dispatch.ReplayAfterStop` and `Dispatch.ReplayKeepsWellFormed` |
| Dispatch.ReplayAfterStop | Chatbot.py:185-188 | once the loop has stopped, later inputs change neither the state nor the outputs |
| Dispatch.ReplayKeepsWellFormed | Chatbot.py:177-227 | the loop keeps every transcript starting with a system message and shows at most one output per input |
| Dispatch.StartWellFormed | Chatbot.py:173-175 | starting from a store whose transcripts all begin with a system message, the first state does too |
| Dispatch.FirstTurnOfNewUser | Chatbot.py:173-225 | a new user with personality "professional" and one chat line gets a transcript of three messages: seed, user line, decorated reply; the request was the professional tone followed by the line; nothing is written |
| Chatbot.Chatbot.constructor | Chatbot.py:167-175 | the object starts in the state `Start` gives |
| Chatbot.Chatbot.SaveUserHistory | Chatbot.py:156-159 | the store is updated at one key as `SaveUser` says, and the file then holds the whole store |
| Chatbot.Chatbot.GptResponse | Chatbot.py:49-81 | the transcript, the request sent and the returned reply are those of `ChatTurn` on the old transcript |
| Chatbot.Chatbot.Converse | Chatbot.py:203-209 | a chat turn leaves the object in the state of the value-level `Converse` and shows the same output |
| Chatbot.Chatbot.Step | Chatbot.py:177-227 | one pass updates the object to the state of `Transition` and returns its output |
| Chatbot.Chatbot.Run | Chatbot.py:177-227 | the loop over a sequence of inputs ends in the state of `Replay` and returns its outputs; inputs after `exit` or a failure are not read |

## Left out

- The OpenAI client call (Chatbot.py:23, 68-73) is a remote service. Its reply is an
  input of each pass. `response.choices[0].message.content` is assumed to be a string.
- Text-to-speech, rich console and Markdown rendering, panels and `time.sleep`
  (Chatbot.py:25-29, 78-79, 132-135) only produce output.
- `analyze_sentiment` (Chatbot.py:137-145) computes a floating-point polarity with
  TextBlob. `react_ascii` only prints.
- `get_weather` (Chatbot.py:147-153) is an HTTP request.
- `ascii_art` and `emoji_message` (Chatbot.py:109-113) wrap pyfiglet and emoji.
- `random_fun_fact` and the random reaction (Chatbot.py:106-107, 208) use randomness.
  The `fact`, `ascii`, `emoji` and `weather` commands show as `Decoration`. They do not
  change any state, which `Dispatch.DecorationCommandsChangeNothing` states.
- JSON load and save, `.env` and environment reads (Chatbot.py:20-22, 32-36, 158-159) are
  file and OS I/O. The store is an in-memory map. The file's content is the field
  `persisted`, a copy of the store taken at each save (the loaded store at start). A
  missing file is an empty loaded store.
- A malformed history file, or roles other than system, user and assistant in it, is
  outside the model. JSON round-tripping is a property of the `json` library.
- Errors raised while writing the history file are not modelled.
- `datetime.now()` (Chatbot.py:41, 87): the greeting takes the hour as a parameter, and
  the timestamps of the history display are dropped.
- The welcome banner and the name and personality prompts of `main` (Chatbot.py:163-171)
  are I/O. Their answers are the constructor's parameters.
- The whitespace stripping and the defaults of rich's `Prompt.ask` (Chatbot.py:167-171,
  178, 204-205, 216) belong to that library. The strings in `Input` and the constructor's
  parameters are its results, already stripped.
- Aliasing: after a save or load, Python's store entry for the active user is the same
  list as `conversation_history`. The model copies values instead. The difference never
  reaches the file: between a switch into a user and the next save, the active user never
  changes, and every save writes the active transcript under that user.
- Text.Lower: lower-cases only 'A'-'Z' and KELVIN SIGN (U+212A, which Python maps to
  'k'). It leaves other characters unchanged, unlike Python's full Unicode mapping. The
  only other character whose Python lower-case form contains an ASCII letter is U+0130
  (to "i" plus U+0307). No keyword and no command can match because of it, so every
  keyword and command test in the model agrees with Python's.
- The emoji strings and the chatbot label are the characters `Chatbot.py` holds at those
  places. These are emoji whose UTF-8 bytes were read back as Windows-1252 text, with
  that code page's undefined bytes missing. Some of these characters are letters (U+00F0, U+00E2, U+00EF,
  U+0178, U+017D, U+0152). The model's proofs only need that no character of an emoji
  string lower-cases to a letter a–z. That holds for these characters under Python's full
  `lower()` too, which maps U+0178, U+017D and U+0152 to U+00FF, U+017E and U+0153. It
  holds for the intended emoji as well.
