/** The conversation state of `main` and the command dispatch of its loop, as
    functions on values. The class in module Chatbot is proved against them. */
module Dispatch {
  import opened Messages
  import opened Text
  import Prompt
  import Emoji

  /** `all_users_history`: user name to transcript. */
  type Store = map<string, Transcript>

  /** What the completion service gives back for one request. */
  datatype Reply = Answer(text: string) | Failure

  /** One pass of the loop reads the command line and, for some commands, the
      follow-up prompts: the new name for `switch_user`, the mode and text for `gpt`.
      Each of `line`, `newName`, `gptMode` and `gptText` is the string rich's
      `Prompt.ask` returns, after that library has stripped surrounding whitespace
      (and, for the mode, put in the default "chat" for an empty answer). `reply` is
      what the completion service answers to the request the pass sends, if it
      sends one. */
  datatype Input = Input(line: string, newName: string, gptMode: string, gptText: string, reply: Reply)

  /** A chat turn: the transcript after it, the request it sent and the reply it got. */
  datatype Turn = Turn(history: Transcript, request: Transcript, reply: Reply)

  datatype Command =
    | Blank | Exit | ShowHistory | Fact | Ascii | EmojiText | Gpt | Weather | SwitchUser | Chat

  /** What the pass shows. Fun facts, ASCII art, emoji text and weather only print
      what outside libraries and services produce; they all show as `Decoration`. */
  datatype Output =
    | Nothing
    | Goodbye(user: string)
    | HistoryShown(lines: seq<HistoryLine>)
    | Decoration
    | Replied(request: Transcript, text: string)
    | Switched(user: string)
    | Crashed(request: Transcript)

  /** One printed line of `display_conversation`, without its timestamp. */
  datatype HistoryLine = HistoryLine(speaker: string, content: string)

  /** The state `main` works on: the in-memory store, the store as last written to
      the history file, the active user, the chosen personality, the active
      transcript, and whether the loop still runs. */
  datatype Session = Session(
    store: Store,
    persisted: Store,
    userName: string,
    personality: string,
    history: Transcript,
    running: bool)

  const CommandWords: set<string> :=
    {"exit", "history", "fact", "ascii", "emoji", "gpt", "weather", "switch_user"}

  /** The branch of the loop a line selects: a blank line is skipped, a command word
      is recognised in any letter case, everything else is a chat turn. */
  function ParseCommand(line: string): (c: Command)
    ensures c == Blank <==> line == ""
    ensures c == Exit <==> Lower(line) == "exit"
    ensures c == ShowHistory <==> Lower(line) == "history"
    ensures c == SwitchUser <==> Lower(line) == "switch_user"
    ensures c == Gpt <==> Lower(line) == "gpt"
    ensures c == Chat <==> line != "" && Lower(line) !in CommandWords
  {
    if line == "" then Blank
    else
      var command := Lower(line);
      if command == "exit" then Exit
      else if command == "history" then ShowHistory
      else if command == "fact" then Fact
      else if command == "ascii" then Ascii
      else if command == "emoji" then EmojiText
      else if command == "gpt" then Gpt
      else if command == "weather" then Weather
      else if command == "switch_user" then SwitchUser
      else Chat
  }

  /** Lower-casing a line first selects the same branch. */
  lemma ParseCommandCaseInsensitive(line: string)
    ensures ParseCommand(Lower(line)) == ParseCommand(line)
  {
    LowerIdempotent(line);
  }

  /** The transcript a user starts with when the store has none. */
  function Seed(personality: string): (t: Transcript)
    ensures |t| == 1 && StartsWithSystem(t)
    ensures t[0].content == "You are a " + personality + " assistant who loves to help users."
  {
    [Message(System, "You are a " + personality + " assistant who loves to help users.")]
  }

  /** `all_users_history.get(name, seed)`. */
  function LoadOrSeed(store: Store, name: string, personality: string): (t: Transcript)
    ensures name in store ==> t == store[name]
    ensures name !in store ==> t == Seed(personality)
  {
    if name in store then store[name] else Seed(personality)
  }

  /** `save_user_history` on the in-memory store: the user's entry becomes the given
      transcript, every other entry stays as it was. */
  function SaveUser(store: Store, name: string, history: Transcript): (s: Store)
    ensures s.Keys == store.Keys + {name}
    ensures s[name] == history
    ensures forall k :: k in store && k != name ==> s[k] == store[k]
  {
    store[name := history]
  }

  /** The state when the loop starts: the loaded store, which is also what the file
      holds, and the user's stored or seeded transcript. */
  function Start(loaded: Store, name: string, personality: string): (s: Session)
    ensures s.running && s.store == loaded && s.persisted == loaded && s.userName == name
    ensures s.personality == personality
    ensures s.history == LoadOrSeed(loaded, name, personality)
  {
    Session(loaded, loaded, name, personality, LoadOrSeed(loaded, name, personality), true)
  }

  /** `gpt_response` on values: the user turn is appended, the composed request is
      sent and, when the service answers, the decorated answer is appended. A
      failure raises out of the program with the user turn in place. */
  function ChatTurn(history: Transcript, userInput: string, mode: string, personality: string,
                    answer: Reply): Turn
  {
    var withUser := history + [Message(User, userInput)];
    var request := Prompt.OutgoingRequest(withUser, mode, personality);
    match answer
    case Answer(text) =>
      var decorated := Emoji.Decorate(text, Emoji.Keywords);
      Turn(withUser + [Message(Assistant, decorated)], request, Answer(decorated))
    case Failure => Turn(withUser, request, Failure)
  }

  /** A turn grows the transcript by the user message and then, when the service
      answers, by the assistant message holding the decorated answer; every earlier
      message, index 0 included, stays in place. The request is composed from the
      transcript with the user message. */
  lemma ChatTurnAppends(history: Transcript, userInput: string, mode: string, personality: string,
                        answer: Reply)
    ensures var t := ChatTurn(history, userInput, mode, personality, answer);
      t.request == Prompt.OutgoingRequest(history + [Message(User, userInput)], mode, personality) &&
      t.history[..|history|] == history &&
      t.history[|history|] == Message(User, userInput) &&
      (answer.Answer? ==>
        |t.history| == |history| + 2 &&
        t.reply == Answer(Emoji.Decorate(answer.text, Emoji.Keywords)) &&
        t.history[|history| + 1] == Message(Assistant, t.reply.text)) &&
      (answer.Failure? ==> |t.history| == |history| + 1 && t.reply == Failure)
  {
    var withUser := history + [Message(User, userInput)];
    var t := ChatTurn(history, userInput, mode, personality, answer);
    assert t.history[..|history|] == withUser[..|history|];
  }

  /** The printed entries of `display_conversation`: every message after index 0, a
      user message labelled "You" and any other one the chatbot's label. */
  function HistoryLines(history: Transcript): (lines: seq<HistoryLine>)
    ensures |lines| == |Prompt.DropFirst(history)|
    ensures forall i :: 0 <= i < |lines| ==>
      lines[i].content == history[i + 1].content &&
      (lines[i].speaker == "You" <==> history[i + 1].role == User) &&
      (history[i + 1].role != User ==> lines[i].speaker == ChatbotLabel)
  {
    if |history| <= 1 then [] else [Line(history[1])] + HistoryLines(history[1..])
  }

  /** The label Chatbot.py prints for the assistant, "Chatbot " and the characters its
      source holds for a robot-face emoji. */
  const ChatbotLabel := "Chatbot \U{F0}\U{178}\U{A4}\U{2013}"

  function Line(m: Message): HistoryLine
  {
    HistoryLine(if m.role == User then "You" else ChatbotLabel, m.content)
  }

  /** Installs the outcome of a chat turn: the reply is shown, or the program stops. */
  function Settle(s: Session, turn: Turn): (r: (Session, Output))
    ensures r.0.store == s.store && r.0.persisted == s.persisted
    ensures r.0.userName == s.userName && r.0.personality == s.personality
    ensures r.0.history == turn.history
    ensures r.0.running <==> s.running && turn.reply.Answer?
    ensures r.1.Replied? <==> turn.reply.Answer?
  {
    match turn.reply
    case Answer(decorated) => (s.(history := turn.history), Replied(turn.request, decorated))
    case Failure => (s.(history := turn.history, running := false), Crashed(turn.request))
  }

  /** A chat turn from the session. */
  function Converse(s: Session, text: string, mode: string, answer: Reply): (Session, Output)
  {
    Settle(s, ChatTurn(s.history, text, mode, s.personality, answer))
  }

  /** A chat turn touches only the active transcript, which it extends by at least
      the user turn, and the running flag, which it clears only on a failure. */
  lemma ConverseOnlyExtends(s: Session, text: string, mode: string, answer: Reply)
    ensures var (t, out) := Converse(s, text, mode, answer);
      t.store == s.store && t.persisted == s.persisted && t.userName == s.userName &&
      t.personality == s.personality &&
      s.history <= t.history && |t.history| > |s.history| &&
      t.history[|s.history|] == Message(User, text) &&
      (t.running <==> s.running && out.Replied?) &&
      (out.Replied? <==> answer.Answer?)
  {
    ChatTurnAppends(s.history, text, mode, s.personality, answer);
  }

  /** One pass of the `while True` loop of `main`. */
  function Transition(s: Session, input: Input): (r: (Session, Output))
    ensures r.0.personality == s.personality
    ensures ParseCommand(input.line) !in {Exit, SwitchUser} ==>
      r.0.store == s.store && r.0.persisted == s.persisted
  {
    match ParseCommand(input.line)
    case Blank => (s, Nothing)
    case Exit =>
      var saved := SaveUser(s.store, s.userName, s.history);
      (s.(store := saved, persisted := saved, running := false), Goodbye(s.userName))
    case ShowHistory => (s, HistoryShown(HistoryLines(s.history)))
    case Fact => (s, Decoration)
    case Ascii => (s, Decoration)
    case EmojiText => (s, Decoration)
    case Weather => (s, Decoration)
    case Gpt => Converse(s, input.gptText, input.gptMode, input.reply)
    case SwitchUser =>
      var saved := SaveUser(s.store, s.userName, s.history);
      (s.(store := saved, persisted := saved, userName := input.newName,
          history := LoadOrSeed(saved, input.newName, s.personality)),
       Switched(input.newName))
    case Chat => Converse(s, input.line, "chat", input.reply)
  }

  /** The `gpt` branch of Transition, for callers that should not unfold it. */
  lemma TransitionOnGpt(s: Session, input: Input)
    requires ParseCommand(input.line) == Gpt
    ensures Transition(s, input) == Converse(s, input.gptText, input.gptMode, input.reply)
  {
  }

  /** The chat branch of Transition, for callers that should not unfold it. */
  lemma TransitionOnChat(s: Session, input: Input)
    requires ParseCommand(input.line) == Chat
    ensures Transition(s, input) == Converse(s, input.line, "chat", input.reply)
  {
  }

  /** A blank line changes nothing and shows nothing. */
  lemma BlankLineIsNoOp(s: Session, input: Input)
    requires input.line == ""
    ensures Transition(s, input) == (s, Nothing)
  {
  }

  /** `fact`, `ascii`, `emoji` and `weather` only print what outside libraries and
      services produce and then continue: the session is unchanged. */
  lemma DecorationCommandsChangeNothing(s: Session, input: Input)
    requires Lower(input.line) in {"fact", "ascii", "emoji", "weather"}
    ensures Transition(s, input) == (s, Decoration)
  {
  }

  /** `exit` writes the active transcript into the store under the active user, writes
      the whole store to the file and stops the loop. */
  lemma ExitSavesAndStops(s: Session, input: Input)
    requires Lower(input.line) == "exit"
    ensures var (t, out) := Transition(s, input);
      !t.running && out == Goodbye(s.userName) &&
      t.store == t.persisted && t.store == s.store[s.userName := s.history] &&
      t.userName == s.userName && t.history == s.history
  {
  }

  /** `switch_user` saves the outgoing user's transcript before loading the incoming
      one: the store and the file gain the outgoing transcript, every other user's
      entry is kept, and the new transcript is the stored one or a fresh seed. */
  lemma SwitchUserSavesOutgoing(s: Session, input: Input)
    requires Lower(input.line) == "switch_user"
    ensures var (t, out) := Transition(s, input);
      t.running == s.running && out == Switched(input.newName) &&
      t.store == t.persisted &&
      t.store[s.userName] == s.history &&
      (forall k :: k in s.store && k != s.userName ==> k in t.store && t.store[k] == s.store[k]) &&
      t.userName == input.newName &&
      (input.newName == s.userName ==> t.history == s.history) &&
      (input.newName != s.userName && input.newName in s.store ==> t.history == s.store[input.newName]) &&
      (input.newName != s.userName && input.newName !in s.store ==> t.history == Seed(s.personality))
  {
  }

  /** `history` shows every message after index 0 and changes nothing. */
  lemma HistoryShowsTail(s: Session, input: Input)
    requires Lower(input.line) == "history"
    ensures var (t, out) := Transition(s, input);
      t == s && out.HistoryShown? &&
      |out.lines| == |Prompt.DropFirst(s.history)| &&
      forall i :: 0 <= i < |out.lines| ==> out.lines[i] == Line(s.history[i + 1])
  {
  }

  /** Any other non-blank line is a chat turn in `chat` mode on the line exactly as
      typed, not on its lower-cased form. */
  lemma ChatUsesLineAsTyped(s: Session, input: Input)
    requires input.line != "" && Lower(input.line) !in CommandWords
    ensures Transition(s, input) == Converse(s, input.line, "chat", input.reply)
    ensures var (t, _) := Transition(s, input);
      t.history[|s.history|] == Message(User, input.line)
  {
    TransitionOnChat(s, input);
    ConverseOnlyExtends(s, input.line, "chat", input.reply);
  }

  /** The file is written only by `exit` and `switch_user`, and then holds the
      in-memory store; the store changes only at the outgoing user's entry. */
  lemma PersistedOnlyOnSave(s: Session, input: Input)
    ensures var (t, _) := Transition(s, input);
      var c := ParseCommand(input.line);
      (c != Exit && c != SwitchUser ==> t.persisted == s.persisted && t.store == s.store) &&
      (c == Exit || c == SwitchUser ==> t.persisted == t.store && t.store == s.store[s.userName := s.history])
  {
    var c := ParseCommand(input.line);
    if c == Gpt {
      TransitionOnGpt(s, input);
      ConverseOnlyExtends(s, input.gptText, input.gptMode, input.reply);
    } else if c == Chat {
      TransitionOnChat(s, input);
      ConverseOnlyExtends(s, input.line, "chat", input.reply);
    }
  }

  /** Outside `switch_user` the active transcript only grows at its end. */
  lemma TranscriptOnlyGrows(s: Session, input: Input)
    requires ParseCommand(input.line) != SwitchUser
    ensures var (t, _) := Transition(s, input);
      s.history <= t.history && t.userName == s.userName
  {
    var c := ParseCommand(input.line);
    if c == Gpt {
      TransitionOnGpt(s, input);
      ConverseOnlyExtends(s, input.gptText, input.gptMode, input.reply);
    } else if c == Chat {
      TransitionOnChat(s, input);
      ConverseOnlyExtends(s, input.line, "chat", input.reply);
    }
  }

  /** Every transcript, active or stored, starts with a system message. */
  predicate WellFormed(s: Session)
  {
    StartsWithSystem(s.history) &&
    forall k :: k in s.store ==> StartsWithSystem(s.store[k])
  }

  /** Every pass keeps every transcript starting with a system message. */
  lemma TransitionKeepsWellFormed(s: Session, input: Input)
    requires WellFormed(s)
    ensures WellFormed(Transition(s, input).0)
  {
    var c := ParseCommand(input.line);
    if c == Gpt {
      TransitionOnGpt(s, input);
      ConverseOnlyExtends(s, input.gptText, input.gptMode, input.reply);
    } else if c == Chat {
      TransitionOnChat(s, input);
      ConverseOnlyExtends(s, input.line, "chat", input.reply);
    }
  }

  /** The loop over a sequence of inputs: each is handled while the loop runs, the
      rest are never read. Gives the final state and what each handled pass showed. */
  function Replay(s: Session, inputs: seq<Input>): (Session, seq<Output>)
    decreases |inputs|
  {
    if inputs == [] then (s, [])
    else
      var (before, shown) := Replay(s, inputs[..|inputs| - 1]);
      if before.running then
        var (after, out) := Transition(before, inputs[|inputs| - 1]);
        (after, shown + [out])
      else (before, shown)
  }

  /** Once the loop has stopped, later inputs change nothing. */
  lemma {:induction false} ReplayAfterStop(s: Session, inputs: seq<Input>, k: nat)
    requires k <= |inputs| && !Replay(s, inputs[..k]).0.running
    ensures Replay(s, inputs) == Replay(s, inputs[..k])
    decreases |inputs| - k
  {
    if k < |inputs| {
      var shorter := inputs[..|inputs| - 1];
      assert shorter[..k] == inputs[..k];
      ReplayAfterStop(s, shorter, k);
    } else {
      assert inputs[..k] == inputs;
    }
  }

  /** The loop keeps every transcript starting with a system message, and it shows
      one output per input it handled. */
  lemma {:induction false} ReplayKeepsWellFormed(s: Session, inputs: seq<Input>)
    requires WellFormed(s)
    ensures WellFormed(Replay(s, inputs).0)
    ensures |Replay(s, inputs).1| <= |inputs|
    decreases |inputs|
  {
    if inputs != [] {
      ReplayKeepsWellFormed(s, inputs[..|inputs| - 1]);
      var before := Replay(s, inputs[..|inputs| - 1]).0;
      if before.running {
        TransitionKeepsWellFormed(before, inputs[|inputs| - 1]);
      }
    }
  }

  /** Starting from a well-formed store, the state at the start is well-formed. */
  lemma StartWellFormed(loaded: Store, name: string, personality: string)
    requires forall k :: k in loaded ==> StartsWithSystem(loaded[k])
    ensures WellFormed(Start(loaded, name, personality))
  {
  }

  /** A user new to the store, with personality "professional", types a chat line:
      the transcript becomes the seed, the user turn and the decorated reply, and the
      request holds the professional tone in place of the seed. */
  lemma FirstTurnOfNewUser(name: string, line: string, text: string)
    requires line != "" && Lower(line) !in CommandWords
    ensures var s := Start(map[], name, "professional");
      var (t, out) := Transition(s, Input(line, "", "", "", Answer(text)));
      var shown := Emoji.Decorate(text, Emoji.Keywords);
      t.history == Seed("professional") + [Message(User, line), Message(Assistant, shown)] &&
      out == Replied([Message(System, Prompt.ProfessionalTone), Message(User, line)], shown) &&
      t.persisted == map[]
  {
    var s := Start(map[], name, "professional");
    var input := Input(line, "", "", "", Answer(text));
    TransitionOnChat(s, input);
    var request := Prompt.OutgoingRequest(s.history + [Message(User, line)], "chat", "professional");
    assert request == [Message(System, Prompt.ProfessionalTone), Message(User, line)];
  }
}
