/** The running program: the module-level `all_users_history` and the locals of
    `main`, updated in place by `save_user_history`, `gpt_response` and the loop. */
module Chatbot {
  import opened Messages
  import opened Dispatch
  import Prompt
  import Emoji

  class Chatbot {
    /** `all_users_history`. */
    var store: Store
    /** The contents of the history file as last written (the loaded store at start). */
    var persisted: Store
    var userName: string
    /** Chosen once at start and never changed by the loop. */
    const personality: string
    /** `conversation_history` of the active user. */
    var history: Transcript
    var running: bool

    /** The state as a value, so that the methods can be stated against Dispatch. */
    function State(): Session
      reads this
    {
      Session(store, persisted, userName, personality, history, running)
    }

    /** The start of `main`, after the name and personality prompts: the file's store
        is loaded and the user's transcript is fetched or seeded. */
    constructor (loaded: Store, name: string, personality: string)
      ensures State() == Start(loaded, name, personality)
    {
      store := loaded;
      persisted := loaded;
      userName := name;
      this.personality := personality;
      history := LoadOrSeed(loaded, name, personality);
      running := true;
    }

    /** `save_user_history`: one entry of the store is overwritten, then the whole
        store is written to the file. */
    method SaveUserHistory(name: string, transcript: Transcript)
      modifies this`store, this`persisted
      ensures store == SaveUser(old(store), name, transcript)
      ensures persisted == store
    {
      store := store[name := transcript];
      persisted := store;
    }

    /** `gpt_response`: appends the user turn, composes the request to send and, when
        the service answers, appends and returns the decorated answer. Like the
        source function it takes the personality as an argument (`persona`). */
    method GptResponse(userInput: string, mode: string, persona: string, answer: Reply)
      returns (request: Transcript, reply: Reply)
      modifies this`history
      ensures Turn(history, request, reply) == ChatTurn(old(history), userInput, mode, persona, answer)
    {
      history := history + [Message(User, userInput)];
      request := Prompt.OutgoingRequest(history, mode, persona);
      match answer
      case Answer(text) =>
        var decorated := Emoji.AutoEmoji(text);
        history := history + [Message(Assistant, decorated)];
        reply := Answer(decorated);
      case Failure =>
        reply := Failure;
    }

    /** A chat turn of the loop; a failed request ends the program. */
    method Converse(text: string, mode: string, answer: Reply) returns (out: Output)
      modifies this`history, this`running
      ensures (State(), out) == Dispatch.Converse(old(State()), text, mode, answer)
    {
      ghost var before := State();
      var request, reply := GptResponse(text, mode, personality, answer);
      match reply
      case Answer(decorated) =>
        out := Replied(request, decorated);
      case Failure =>
        running := false;
        out := Crashed(request);
      assert (State(), out) == Settle(before, Turn(history, request, reply));
    }

    /** One pass of the `while True` loop of `main`. */
    method Step(input: Input) returns (out: Output)
      requires running
      modifies this
      ensures (State(), out) == Transition(old(State()), input)
    {
      var line := input.line;
      if line == "" {
        return Nothing;
      }
      var command := ParseCommand(line);
      match command
      case Exit =>
        SaveUserHistory(userName, history);
        running := false;
        out := Goodbye(userName);
      case ShowHistory =>
        out := HistoryShown(HistoryLines(history));
      case Fact =>
        out := Decoration;
      case Ascii =>
        out := Decoration;
      case EmojiText =>
        out := Decoration;
      case Weather =>
        out := Decoration;
      case Gpt =>
        TransitionOnGpt(State(), input);
        out := Converse(input.gptText, input.gptMode, input.reply);
      case SwitchUser =>
        SaveUserHistory(userName, history);
        userName := input.newName;
        history := LoadOrSeed(store, userName, personality);
        out := Switched(userName);
      case Chat =>
        TransitionOnChat(State(), input);
        out := Converse(line, "chat", input.reply);
      case Blank =>
        out := Nothing;
    }

    /** The loop of `main` over the lines typed, until `exit` or a failed request
        stops it; inputs after that are never read. */
    method Run(inputs: seq<Input>) returns (shown: seq<Output>)
      requires running
      modifies this
      ensures (State(), shown) == Replay(old(State()), inputs)
    {
      ghost var start := State();
      shown := [];
      var i := 0;
      while i < |inputs| && running
        invariant 0 <= i <= |inputs|
        invariant (State(), shown) == Replay(start, inputs[..i])
      {
        var out := Step(inputs[i]);
        shown := shown + [out];
        assert inputs[..i + 1][..i] == inputs[..i];
        i := i + 1;
      }
      if i < |inputs| {
        ReplayAfterStop(start, inputs, i);
      } else {
        assert inputs[..i] == inputs;
      }
    }
  }
}
