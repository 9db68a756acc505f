# Chat transcript renderer — a Dafny model

This project models the core of a small Streamlit chat front end
("Whatsapp Clone"). The core is the render loop `draw_messages`. It walks an
ordered list of transcript events and decides how they group into chat
blocks on the page. There are three kinds of event:

- a `str` is a streamed fragment of an AI reply;
- a `ChatMessage` is a finished turn;
- `None` ends the pass.

Around the loop sit the session history and the operations that change it:

- `clear_chat` empties the history;
- the part of `main` that redraws the history on every script run;
- the part of `main` that handles one user input: store the human turn,
  call the agent, store the reply on success.

Files:

- `Schema.dfy`: the `ChatMessage` record. Its `who` is any string, because
  the source does not check it.
- `Render.dfy`: the render pass as a pure state machine. It has one step
  function per kind of event, and `Run` folds them over an event list. The
  page is a sequence of blocks. Each block has a role and its paragraphs.
  A live placeholder is remembered as a (block, paragraph) position whose
  text can be overwritten. `Valid` is the invariant that holds between
  events.
- `RenderProperties.dfy`: lemmas over whole passes. They cover where a pass
  stops, how the history grows and how fragments accumulate.
- `Replay.dfy`: `ReplayBlocks` is a reference definition of what a replay of
  the stored history draws. It groups the turns into blocks directly,
  without the renderer's state. A lemma proves the renderer draws exactly
  these blocks.
- `Transcripts.dfy`: the blocks drawn for some small transcripts, worked
  out one event at a time.
- `App.dfy`: class `ChatApp`. Its fields are the session history
  (`messages`) and the page of the current script run. `DrawMessages` is
  the imperative loop of `draw_messages`, proved to compute `Run`. Its two
  branches, for a fragment and for a finished turn, are the methods
  `DrawFragment` and `DrawTurn`, each proved to compute one step. Beside it
  sit `ClearChat`, `DrawHistory`, `HandleInput` and `RunScript`.
- `Conversation.dfy`: the history over many inputs, and reruns.

The agent client is not modelled. Its result is a `Reply` parameter: either
`Success(content)` or `Failure(description)`. The model therefore covers
both branches of the `try` at StreamlitApp.py:163-173, whichever one the
real client takes.

Two points of the code's behaviour shape the model:

- With `is_new` set, the renderer stores every "ai" turn it meets, with no
  membership check, and never stores a human turn (StreamlitApp.py:57-60).
- An object that is neither a string nor a `ChatMessage` is checked for at
  run time and stops the pass (StreamlitApp.py:48-51), so the model has an
  `Unknown` event and a `Halted` outcome.

A human turn leaves the placeholder and the accumulator open
(StreamlitApp.py:53-55). A later "ai" turn then opens a new, empty AI block
but writes its content into the placeholder of an earlier block. The model
keeps this behaviour, and `HumanKeepsPlaceholderOpen` shows it.

## Model

| member | source | states |
|---|---|---|
| `Render.Start` | StreamlitApp.py:22-27 | a pass starts with no last role, no `last_message`, an empty accumulator, no placeholder, and the page and history as given; this state satisfies the between-events invariant |
| `Render.OpenAiBlock` | StreamlitApp.py:62-65 | a new empty AI block is added after the existing page exactly when the last role is not "ai"; afterwards the last role is "ai"; the streaming state and the history are unchanged |
| `Render.OpenPlaceholder` | StreamlitApp.py:37-42 | the placeholder opens as a new, empty paragraph after the existing paragraphs of the current (last) AI block; the rest of the page is unchanged; `last_message` stays and the accumulator is still empty |
| `Render.FragmentStep` | StreamlitApp.py:34-46 | the accumulator grows by the fragment; an open placeholder is reused and its paragraph alone is rewritten to the whole accumulator; with none open, the fragment becomes a new last paragraph of the current AI block when the last role is "ai", and otherwise a new AI block holding only it, and that paragraph is the placeholder; the rest of the page and the history are unchanged |
| `Render.WriteAiContent` | StreamlitApp.py:67-76 | non-empty AI content either replaces the open placeholder's text, which is not concatenated with the fragments, or, with no placeholder, is added as a new paragraph after the existing ones of the current block; nothing else on the page changes; afterwards no placeholder is open and the accumulator is empty |
| `Render.AiMsgStep` | StreamlitApp.py:57-76 | an "ai" turn is stored exactly when `is_new` is set, whatever its content; an empty AI block is added exactly when the last role was not "ai"; empty content writes nothing and leaves the placeholder and the accumulator as they were; non-empty content replaces an open placeholder's text, or else is added as a new paragraph after the existing ones of the current block; nothing else on the page changes |
| `Render.MsgStep` | StreamlitApp.py:53-76 | a human turn adds one human block holding its content, sets the last role to "human", and does not close the placeholder or clear the accumulator; a turn whose `who` is neither "human" nor "ai" changes nothing |
| `Render.Step` | StreamlitApp.py:30-76 | handling one fragment or turn keeps the invariant; the history grows only by an "ai" turn, and only with `is_new` |
| `Render.Run` | StreamlitApp.py:30-51 | every pass ends in a state satisfying the invariant; a pass halts with an error only if an unknown object is among its events |
| `RenderProperties.EndStopsPass` | StreamlitApp.py:30-32 | events after a `None` are never handled: the pass over `before + [None] + after` equals the pass over `before`, page, history and outcome alike |
| `RenderProperties.UnknownHaltsPass` | StreamlitApp.py:48-51 | an unknown object halts the pass; the page and history are exactly those reached by the events before it, and nothing after it is handled |
| `RenderProperties.HistoryGrowth` | StreamlitApp.py:57-60 | with `is_new` the history grows by exactly the "ai" turns before the first `None` or unknown object, in order; fragments and human turns are never stored; without `is_new` the history is unchanged |
| `RenderProperties.FragmentsAccumulate` | StreamlitApp.py:34-46 | after a non-empty run of fragments a placeholder is open; it and the accumulator both show the earlier accumulator followed by all the fragments, concatenated |
| `RenderProperties.RunAppend` | StreamlitApp.py:30-51 | a pass over two event lists, the first without `None` or an unknown object, is the pass over the first continued by the pass over the second |
| `RenderProperties.NoAiTurnsKeepClosed` | StreamlitApp.py:53-57 | turns that are not "ai" never make the last role "ai" and never open a placeholder |
| `RenderProperties.FirstAiEventOpensBlock` | StreamlitApp.py:22-65 | the first AI event of a pass, a fragment or an "ai" turn after any number of human or other non-"ai" turns, always adds one new AI block after the blocks drawn so far and leaves those unchanged; the last role is then "ai" |
| `Transcripts.FragmentOpensBlock` | StreamlitApp.py:37-46 | a fragment with no placeholder open and a last role other than "ai" adds one AI block whose only paragraph is the placeholder showing the fragment; that block becomes `last_message` and the accumulator holds the fragment |
| `Transcripts.HumanTurnStep` | StreamlitApp.py:53-55 | a human turn only adds its block and sets the last role to "human"; `last_message`, the placeholder, the accumulator and the history stay as they were |
| `Transcripts.AiTurnFillsPlaceholder` | StreamlitApp.py:63-74 | a non-empty "ai" turn while the last role is not "ai" and a placeholder is still open adds an empty AI block that becomes `last_message`, writes its content into the earlier placeholder, and closes the placeholder |
| `Transcripts.MergeRule` | StreamlitApp.py:53-65 | two non-empty "ai" turns with no human turn between them are drawn as one AI block with two paragraphs |
| `Transcripts.HumanSplitsAiBlocks` | StreamlitApp.py:53-65 | "ai", "human", "ai" turns are drawn as three blocks in that order |
| `Transcripts.FinalReplacesFragments` | StreamlitApp.py:34-76 | the fragments "he" and "llo" followed by the "ai" turn "hello world" give one AI block showing only "hello world" |
| `Transcripts.HumanKeepsPlaceholderOpen` | StreamlitApp.py:53-74 | after a fragment and then a human turn, an "ai" turn opens a new empty AI block but writes its content into the first block's placeholder |
| `Replay.AiTurnExtends` | StreamlitApp.py:63-76 | while the last role is "ai" and no placeholder is open, a turn that is not human only adds its paragraph, if any, to the current block |
| `Replay.AiTurnOpens` | StreamlitApp.py:63-76 | when the last role is not "ai" and no placeholder is open, an "ai" turn opens a new AI block holding its paragraph, if any |
| `Replay.AiTurnsExtendBlock` | StreamlitApp.py:57-76 | while the last role is "ai", a run of turns with no human among them only appends their non-empty "ai" contents to the current block |
| `Replay.AiTurnOpensBlock` | StreamlitApp.py:57-76 | an "ai" turn after a non-"ai" role opens one AI block, which takes every later turn up to the next human turn |
| `Replay.ReplayDrawsGroups` | StreamlitApp.py:153-154 | replaying stored turns finishes and draws exactly the reference grouping: one block per human turn holding its content; an "ai" turn starts an AI block that also takes every later turn up to the next human one, with one paragraph per non-empty "ai" turn; turns with any other `who` draw nothing |
| `App.ChatApp.constructor` | StreamlitApp.py:143-144 | a new session starts with an empty history |
| `App.ChatApp.DrawMessages` | StreamlitApp.py:18-76 | the imperative loop leaves exactly the page, history and outcome of the pure pass `Run` from a fresh render state |
| `App.ChatApp.DrawFragment` | StreamlitApp.py:34-46 | the fragment branch of the loop leaves exactly the render state, page and history of `FragmentStep` |
| `App.ChatApp.DrawTurn` | StreamlitApp.py:53-76 | the finished-turn branch of the loop leaves exactly the render state, page and history of `MsgStep` |
| `App.ChatApp.ClearChat` | StreamlitApp.py:83-84 | the history becomes empty; the page is unchanged |
| `App.ChatApp.DrawHistory` | StreamlitApp.py:142-154 | the welcome block is drawn when the history is empty, and otherwise the replay grouping of the history; the history is unchanged, so the welcome text is never stored |
| `App.ChatApp.HandleInput` | StreamlitApp.py:156-173 | the history grows by exactly the human turn and the reply on success, or by the human turn alone on failure; the page gains the human block and then the reply or the error text |
| `App.ChatApp.RunScript` | StreamlitApp.py:142-173 | a script run draws the history view on a fresh page; a non-empty input is then handled as in `HandleInput`; without one, nothing is stored |
| `Conversation.HistoryOrder` | StreamlitApp.py:159-173 | after any sequence of inputs, the human turns in the history are the inputs in order; the "ai" turns are the successful replies in order; nothing else is stored |
| `Conversation.HumanTurnComesFirst` | StreamlitApp.py:159-168 | an input's human turn is stored right after the earlier history and before its reply; the reply follows it exactly when the call succeeded |
| `Conversation.Converse` | StreamlitApp.py:143-173 | a new session that handles a sequence of inputs stores exactly `History` of them: the inputs as human turns in order and the successful replies as "ai" turns in order |
| `Conversation.RerunTwice` | StreamlitApp.py:148-154 | two script runs without input draw the same page and store nothing |
| `Conversation.ClearThenRerun` | StreamlitApp.py:83-84 | after `clear_chat` the history is empty and the next run shows only the welcome block |

## Left out

- Page chrome and configuration (StreamlitApp.py:87-139) are not modelled. This covers the page config, the injected CSS, the toolbar-mode rerun, the sidebar, popover and radio widgets, the `uuid4` session id, the `SERVICE_URL` lookup and the clear button's wiring. They are UI and environment input with no logic to verify.
- `st.rerun()` after a successful reply (line 171) is not modelled as control flow. A rerun is simply the next `RunScript` call. `st.stop()` is modelled only as the `Halted` outcome.
- The error element and the dump of the bad object on an unknown event (lines 49-50) are not drawn on the modelled page. The pass only reports `Halted`.
- `get_agent_client` memoisation (lines 79-81) and the HTTP client in ChatClient.py are not modelled. They are a library cache and network I/O. The client's result is the `Reply` parameter.
- The session id and service URL are not modelled. They only feed the client call.
- `async`/`asyncio` scheduling is not modelled. The passes run to completion one at a time.
- Markdown rendering and other visual detail are not modelled. The page keeps only blocks, roles and paragraph texts.
- The render pass walks a value snapshot of its event list. In the source, a pass with `is_new` over the same list it appends to would see its own appends. `main` never makes such a call.
- `st.session_state.last_message` survives a pass in session state. In the model it is part of the render state, because every pass resets it before use (line 23).
