/**
 * The session side of StreamlitApp.py: the history list kept in session
 * state, the page a script run draws, the render loop `draw_messages`,
 * `clear_chat`, and the part of `main` that redraws the history and
 * handles one user input.
 *
 * The agent client is not modelled; its call (line 164) is the `reply`
 * parameter: the response's content, or the description of the exception
 * it raised.
 */
module App {
  import opened Wrappers
  import opened Schema
  import opened Render
  import opened RenderProperties
  import opened Replay

  /** Shown in an AI block when the history is empty (line 149). */
  const WELCOME: string := "Oi! Seja bem vindo ao Whatsapp Clone"

  /** Put in front of the exception text when the client call fails (line 173). */
  const ERROR_PREFIX: string := "Ocorreu um erro! "

  /** What the agent client call gives back. */
  datatype Reply = Success(content: string) | Failure(description: string)

  /** The turns one user input adds to the history (lines 159, 168): the AI reply only on success. */
  function Turn(input: string, reply: Reply): seq<ChatMessage> {
    [ChatMessage(HUMAN, input)] + (if reply.Success? then [ChatMessage(AI, reply.content)] else [])
  }

  /** The AI block drawn for the reply (lines 169, 173); a failure is shown, never stored. */
  function ReplyBlock(reply: Reply): Block {
    Block(Ai, [if reply.Success? then reply.content else ERROR_PREFIX + reply.description])
  }

  /** What a script run draws of the stored history before any input (lines 148-154). */
  function HistoryView(history: seq<ChatMessage>): seq<Block> {
    if history == [] then [Block(Ai, [WELCOME])] else ReplayBlocks(history)
  }

  /** `st.chat_input` gives a value that counts as an input only when it is a non-empty string (line 156). */
  predicate IsInput(input: Option<string>) {
    input.Some? && input.value != ""
  }

  class ChatApp {
    /** `st.session_state.messages`: the stored turns, oldest first. */
    var messages: seq<ChatMessage>
    /** The chat blocks drawn so far in the current script run. */
    var page: seq<Block>

    /** A new session: no history yet (lines 143-144), nothing drawn. */
    constructor ()
      ensures messages == [] && page == []
    {
      messages := [];
      page := [];
    }

    /**
     * `draw_messages` (lines 18-76): walks the events once, drawing onto
     * the page and, with `isNew`, storing every "ai" turn it meets. The
     * result is exactly the pure pass `Run` from a fresh render state.
     */
    method DrawMessages(events: seq<Event>, isNew: bool) returns (outcome: Outcome)
      modifies this
      ensures var p := Run(Start(old(page), old(messages)), events, isNew);
        page == p.state.page && messages == p.state.history && outcome == p.outcome
    {
      ghost var start := Start(page, messages);
      var lastType := NoType;
      var lastMessage: Option<nat> := None;
      var content := "";
      var placeholder: Option<Place> := None;
      var i := 0;
      while i < |events|
        invariant 0 <= i <= |events|
        invariant Valid(State(lastType, lastMessage, content, placeholder, page, messages))
        invariant Run(State(lastType, lastMessage, content, placeholder, page, messages), events[i..], isNew)
                  == Run(start, events, isNew)
        decreases |events| - i
      {
        ghost var before := State(lastType, lastMessage, content, placeholder, page, messages);
        var e := events[i];
        assert events[i..][0] == e && events[i..][1..] == events[i + 1..];
        if e == End {
          return Finished;
        }
        if e.Fragment? {
          lastType, lastMessage, content, placeholder :=
            DrawFragment(e.text, lastType, lastMessage, content, placeholder);
        } else if e.Msg? {
          lastType, lastMessage, content, placeholder :=
            DrawTurn(e.msg, isNew, lastType, lastMessage, content, placeholder);
        } else {
          return Halted;
        }
        assert State(lastType, lastMessage, content, placeholder, page, messages) == Step(before, e, isNew);
        i := i + 1;
      }
      return Finished;
    }

    /**
     * Lines 34-46, one streamed fragment: with no placeholder open, one is
     * opened in the current AI block (opening that block first when the
     * last role is not "ai"); the fragment is added to the accumulator,
     * which the placeholder then shows.
     */
    method DrawFragment(text: string, lastType: LastType, lastMessage: Option<nat>, content: string,
                        placeholder: Option<Place>)
      returns (nextType: LastType, nextMessage: Option<nat>, nextContent: string, nextPlaceholder: Option<Place>)
      requires Valid(State(lastType, lastMessage, content, placeholder, page, messages))
      modifies this
      ensures State(nextType, nextMessage, nextContent, nextPlaceholder, page, messages)
              == FragmentStep(State(lastType, lastMessage, content, placeholder, old(page), old(messages)), text)
    {
      nextType, nextMessage, nextPlaceholder := lastType, lastMessage, placeholder;
      if nextPlaceholder == None {
        if nextType != AiType {
          nextType := AiType;
          nextMessage := Some(|page|);
          page := page + [Block(Ai, [])];
        }
        var b := nextMessage.value;
        nextPlaceholder := Some(Place(b, |page[b].paras|));
        page := AppendPara(page, b, "");
      }
      nextContent := content + text;
      page := SetPara(page, nextPlaceholder.value, nextContent);
    }

    /**
     * Lines 53-76, one finished turn: a human turn is drawn as a block of
     * its own; an "ai" turn is stored when `isNew` is set, opens an AI block
     * when the last role is not "ai", and its non-empty content replaces
     * the open placeholder's text or else becomes a new paragraph of the
     * current block.
     */
    method DrawTurn(m: ChatMessage, isNew: bool, lastType: LastType, lastMessage: Option<nat>, content: string,
                    placeholder: Option<Place>)
      returns (nextType: LastType, nextMessage: Option<nat>, nextContent: string, nextPlaceholder: Option<Place>)
      requires Valid(State(lastType, lastMessage, content, placeholder, page, messages))
      modifies this
      ensures State(nextType, nextMessage, nextContent, nextPlaceholder, page, messages)
              == MsgStep(State(lastType, lastMessage, content, placeholder, old(page), old(messages)), m, isNew)
    {
      nextType, nextMessage, nextContent, nextPlaceholder := lastType, lastMessage, content, placeholder;
      if m.who == HUMAN {
        nextType := HumanType;
        page := page + [Block(Human, [m.content])];
      }
      if m.who == AI {
        if isNew {
          messages := messages + [m];
        }
        if nextType != AiType {
          nextType := AiType;
          nextMessage := Some(|page|);
          page := page + [Block(Ai, [])];
        }
        if m.content != "" {
          if nextPlaceholder.Some? {
            page := SetPara(page, nextPlaceholder.value, m.content);
            nextContent := "";
            nextPlaceholder := None;
          } else {
            page := AppendPara(page, nextMessage.value, m.content);
          }
        }
      }
    }

    /** `clear_chat` (lines 83-84): the history becomes empty. */
    method ClearChat()
      modifies this
      ensures messages == [] && page == old(page)
    {
      messages := [];
    }

    /**
     * Lines 148-154: the welcome text when the history is empty, otherwise
     * a replay of the history; the history itself is left unchanged, and
     * the welcome text is never stored.
     */
    method DrawHistory()
      modifies this
      ensures messages == old(messages)
      ensures page == old(page) + HistoryView(messages)
    {
      if |messages| == 0 {
        page := page + [Block(Ai, [WELCOME])];
      } else {
        ghost var s := Start(page, messages);
        var outcome := DrawMessages(Finals(messages), false);
        ReplayDrawsGroups(s, old(messages));
        HistoryGrowth(s, Finals(old(messages)), false);
      }
    }

    /**
     * Lines 159-173: the human turn is stored and drawn before the client
     * is called; a successful reply is stored and drawn after it, a
     * failure is drawn as an error and not stored.
     */
    method HandleInput(input: string, reply: Reply)
      modifies this
      ensures messages == old(messages) + Turn(input, reply)
      ensures page == old(page) + [Block(Human, [input]), ReplyBlock(reply)]
    {
      messages := messages + [ChatMessage(HUMAN, input)];
      page := page + [Block(Human, [input])];
      match reply
      case Success(content) =>
        messages := messages + [ChatMessage(AI, content)];
        page := page + [Block(Ai, [content])];
      case Failure(description) =>
        page := page + [Block(Ai, [ERROR_PREFIX + description])];
    }

    /**
     * One run of `main` from line 142 on, over an empty page: the history
     * is drawn, and then the input, if there is one, is handled.
     */
    method RunScript(input: Option<string>, reply: Reply)
      modifies this
      ensures messages == old(messages) + (if IsInput(input) then Turn(input.value, reply) else [])
      ensures page == HistoryView(old(messages)) +
                      (if IsInput(input) then [Block(Human, [input.value]), ReplyBlock(reply)] else [])
    {
      page := [];
      DrawHistory();
      if IsInput(input) {
        HandleInput(input.value, reply);
      }
    }
  }
}
