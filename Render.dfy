/**
 * The render pass of `draw_messages` (StreamlitApp.py:18-76) as a pure
 * state machine: one step function per kind of event and `Run`, which
 * folds them over an event sequence. The imperative loop in module App is
 * proved to compute exactly `Run`.
 *
 * The Streamlit page is modelled as a sequence of blocks (one per
 * `st.chat_message` container), each holding the paragraphs written into
 * it. A live placeholder (`st.empty()`) is a paragraph whose position the
 * renderer remembers so that it can overwrite its text later.
 */
module Render {
  import opened Wrappers
  import opened Schema

  /** One element of the list the renderer walks. */
  datatype Event =
    | Fragment(text: string)   // a `str`: a streamed piece of an AI reply
    | Msg(msg: ChatMessage)    // a finished turn
    | End                      // `None`: stop the pass
    | Unknown                  // any other object: the pass halts with an error

  /** The role a chat block is drawn with. */
  datatype Role = Human | Ai

  /** One `st.chat_message` container and the paragraphs written into it, in order. */
  datatype Block = Block(role: Role, paras: seq<string>)

  /** Position of one paragraph on the page: block index, paragraph index. */
  datatype Place = Place(block: nat, para: nat)

  /** The values `last_message_type` takes: `None`, "human" or "ai". */
  datatype LastType = NoType | HumanType | AiType

  /**
   * Everything a render pass reads and writes: the three local variables,
   * `st.session_state.last_message` (as the index of the block it names),
   * the page drawn so far and the session history.
   */
  datatype State = State(
    last: LastType,
    lastMessage: Option<nat>,
    content: string,
    placeholder: Option<Place>,
    page: seq<Block>,
    history: seq<ChatMessage>)

  /** How a pass ends: it ran out of events or met `None`, or it met an unknown object. */
  datatype Outcome = Finished | Halted

  datatype Pass = Pass(state: State, outcome: Outcome)

  predicate ValidPlace(page: seq<Block>, p: Place) {
    p.block < |page| && p.para < |page[p.block].paras|
  }

  /** `st.write(text)` inside block `b`: a new paragraph at the end of that block. */
  function AppendPara(page: seq<Block>, b: nat, text: string): seq<Block>
    requires b < |page|
  {
    page[b := page[b].(paras := page[b].paras + [text])]
  }

  /** `placeholder.write(text)`: the placeholder's paragraph now shows `text` only. */
  function SetPara(page: seq<Block>, p: Place, text: string): seq<Block>
    requires ValidPlace(page, p)
  {
    page[p.block := page[p.block].(paras := page[p.block].paras[p.para := text])]
  }

  /**
   * What holds between any two events of a pass:
   * - `last_message` names an AI block on the page;
   * - while the last role is "ai", it names the last block;
   * - an open placeholder is a paragraph on the page that shows exactly
   *   the accumulated fragment text;
   * - with no placeholder open, the accumulator is empty.
   */
  ghost predicate Valid(s: State) {
    && (s.lastMessage.Some? ==>
          s.lastMessage.value < |s.page| && s.page[s.lastMessage.value].role == Ai)
    && (s.last == AiType ==> |s.page| > 0 && s.lastMessage == Some(|s.page| - 1))
    && (s.placeholder.Some? ==>
          ValidPlace(s.page, s.placeholder.value) &&
          s.page[s.placeholder.value.block].paras[s.placeholder.value.para] == s.content)
    && (s.placeholder.None? ==> s.content == "")
  }

  /** The state at the top of every pass (lines 22-27), over the given page and history. */
  function Start(page: seq<Block>, history: seq<ChatMessage>): (s: State)
    ensures Valid(s)
    ensures s.page == page && s.history == history
    ensures s.last == NoType && s.lastMessage == None && s.placeholder == None && s.content == ""
  {
    State(NoType, None, "", None, page, history)
  }

  /**
   * Lines 38-40 and 63-65: unless the last role is already "ai", open a new
   * empty AI block and make it `last_message`.
   */
  function OpenAiBlock(s: State): (r: State)
    requires Valid(s)
    ensures Valid(r) && r.last == AiType
    ensures |r.page| == |s.page| + (if s.last == AiType then 0 else 1)
    ensures r.page[..|s.page|] == s.page
    ensures s.last != AiType ==> r.page[|s.page|] == Block(Ai, [])
    ensures r.content == s.content && r.placeholder == s.placeholder && r.history == s.history
  {
    if s.last != AiType then
      s.(last := AiType, lastMessage := Some(|s.page|), page := s.page + [Block(Ai, [])])
    else
      s
  }

  /** Lines 41-42: inside `last_message`, open a placeholder paragraph, still empty. */
  function OpenPlaceholder(s: State): (r: State)
    requires Valid(s) && s.last == AiType && s.placeholder.None?
    ensures Valid(r) && r.last == AiType && r.lastMessage == s.lastMessage
    ensures var b := |s.page| - 1;
      && r.placeholder == Some(Place(b, |s.page[b].paras|))
      && r.page == AppendPara(s.page, b, "")
    ensures r.content == s.content == "" && r.history == s.history
  {
    var b := s.lastMessage.value;
    s.(page := AppendPara(s.page, b, ""), placeholder := Some(Place(b, |s.page[b].paras|)))
  }

  /**
   * A `str` event (lines 34-46). The fragment is added to the accumulator
   * and the placeholder shows the whole accumulator. A placeholder is
   * opened first if none is; a new AI block is opened for it only when
   * the last role is not "ai".
   */
  function FragmentStep(s: State, text: string): (r: State)
    requires Valid(s)
    ensures Valid(r) && r.placeholder.Some?
    ensures r.content == s.content + text
    ensures s.placeholder.Some? ==> r.placeholder == s.placeholder && r.last == s.last
    ensures s.placeholder.None? ==> r.last == AiType
    ensures |r.page| == |s.page| + (if s.placeholder.None? && s.last != AiType then 1 else 0)
    ensures s.placeholder.Some? ==> r.page == SetPara(s.page, s.placeholder.value, s.content + text)
    ensures s.placeholder.None? && s.last == AiType ==>
      var b := |s.page| - 1;
      && r.page == AppendPara(s.page, b, text)
      && r.placeholder == Some(Place(b, |s.page[b].paras|))
    ensures s.placeholder.None? && s.last != AiType ==>
      && r.page == s.page + [Block(Ai, [text])]
      && r.placeholder == Some(Place(|s.page|, 0))
    ensures r.history == s.history
  {
    if s.placeholder.Some? then
      var c := s.content + text;
      s.(content := c, page := SetPara(s.page, s.placeholder.value, c))
    else
      var s0 := OpenAiBlock(s);
      var s1 := OpenPlaceholder(s0);
      var c := s1.content + text;
      assert c == text by { assert s1.content == ""; }
      OverwriteNewPara(s0.page, |s0.page| - 1, c);
      assert s.last != AiType ==> AppendPara(s0.page, |s.page|, c) == s.page + [Block(Ai, [c])] by {
        assert [] + [c] == [c];
      }
      s1.(content := c, page := SetPara(s1.page, s1.placeholder.value, c))
  }

  /** Writing into a paragraph just added at the end of a block is the same as adding the text itself. */
  lemma OverwriteNewPara(page: seq<Block>, b: nat, text: string)
    requires b < |page|
    ensures ValidPlace(AppendPara(page, b, ""), Place(b, |page[b].paras|))
    ensures SetPara(AppendPara(page, b, ""), Place(b, |page[b].paras|), text) == AppendPara(page, b, text)
  {
    var paras := page[b].paras;
    assert (paras + [""])[|paras| := text] == paras + [text];
  }

  /**
   * Lines 70-76, inside `last_message`: non-empty content either
   * overwrites an open placeholder, which is then closed with the
   * accumulator reset, or becomes a new paragraph of the AI block.
   */
  function WriteAiContent(s: State, text: string): (r: State)
    requires Valid(s) && s.last == AiType && text != ""
    ensures Valid(r) && r.last == AiType
    ensures r.placeholder == None && r.content == ""
    ensures |r.page| == |s.page| && r.history == s.history
    ensures s.placeholder.Some? ==>
      ValidPlace(r.page, s.placeholder.value) &&
      r.page[s.placeholder.value.block].paras[s.placeholder.value.para] == text
    ensures s.placeholder.Some? ==> r.page == SetPara(s.page, s.placeholder.value, text)
    ensures s.placeholder.None? ==> r.page == AppendPara(s.page, |s.page| - 1, text)
  {
    if s.placeholder.Some? then
      s.(page := SetPara(s.page, s.placeholder.value, text), content := "", placeholder := None)
    else
      s.(page := AppendPara(s.page, s.lastMessage.value, text))
  }

  /**
   * An "ai" `ChatMessage` (lines 57-76): appended to the history when
   * `isNew`, whatever its content; an AI block is opened unless the last
   * role is "ai"; empty content writes nothing and leaves the streaming
   * state as it was.
   */
  function AiMsgStep(s: State, m: ChatMessage, isNew: bool): (r: State)
    requires Valid(s)
    ensures Valid(r) && r.last == AiType
    ensures r.history == s.history + (if isNew then [m] else [])
    ensures |r.page| == |s.page| + (if s.last == AiType then 0 else 1)
    ensures m.content == "" ==> r.placeholder == s.placeholder && r.content == s.content
    ensures m.content != "" ==> r.placeholder == None && r.content == ""
    ensures m.content != "" && s.placeholder.Some? ==>
      ValidPlace(r.page, s.placeholder.value) &&
      r.page[s.placeholder.value.block].paras[s.placeholder.value.para] == m.content
    ensures var withBlock := if s.last == AiType then s.page else s.page + [Block(Ai, [])];
      && (m.content == "" ==> r.page == withBlock)
      && (m.content != "" && s.placeholder.Some? ==>
            ValidPlace(withBlock, s.placeholder.value) &&
            r.page == SetPara(withBlock, s.placeholder.value, m.content))
      && (m.content != "" && s.placeholder.None? ==> r.page == AppendPara(withBlock, |withBlock| - 1, m.content))
  {
    var s1 := if isNew then s.(history := s.history + [m]) else s;
    var s2 := OpenAiBlock(s1);
    if m.content == "" then s2 else WriteAiContent(s2, m.content)
  }

  /**
   * A `ChatMessage` event (lines 53-76). A "human" one gets a new human
   * block holding its content and leaves the streaming state alone; an
   * "ai" one is handled by `AiMsgStep`; with any other `who` nothing
   * happens.
   */
  function MsgStep(s: State, m: ChatMessage, isNew: bool): (r: State)
    requires Valid(s)
    ensures Valid(r)
    ensures m.who == HUMAN ==>
      r.page == s.page + [Block(Human, [m.content])] && r.last == HumanType &&
      r.placeholder == s.placeholder && r.content == s.content && r.history == s.history
    ensures m.who != HUMAN && m.who != AI ==> r == s
  {
    if m.who == HUMAN then
      s.(last := HumanType, page := s.page + [Block(Human, [m.content])])
    else if m.who == AI then
      AiMsgStep(s, m, isNew)
    else
      s
  }

  /**
   * One handled event, a fragment or a finished turn. Only an "ai" turn,
   * and only with `isNew`, changes the history: it is appended to it.
   */
  function Step(s: State, e: Event, isNew: bool): (r: State)
    requires Valid(s) && (e.Fragment? || e.Msg?)
    ensures Valid(r)
    ensures r.history == s.history + (if isNew && e.Msg? && e.msg.who == AI then [e.msg] else [])
  {
    if e.Fragment? then FragmentStep(s, e.text) else MsgStep(s, e.msg, isNew)
  }

  /**
   * The whole pass: events are handled in order until the list runs out or
   * a `None` is met (both finish), or an unknown object is met (the pass
   * halts there, with everything drawn so far left on the page).
   */
  function Run(s: State, events: seq<Event>, isNew: bool): (p: Pass)
    requires Valid(s)
    ensures Valid(p.state)
    ensures p.outcome == Halted ==> Unknown in events
    decreases |events|
  {
    if events == [] || events[0] == End then Pass(s, Finished)
    else if events[0] == Unknown then Pass(s, Halted)
    else Run(Step(s, events[0], isNew), events[1..], isNew)
  }

  /** One step of a pass: a fragment or a turn at the front is handled, then the rest. */
  lemma RunUnfold(s: State, events: seq<Event>, isNew: bool)
    requires Valid(s) && events != [] && (events[0].Fragment? || events[0].Msg?)
    ensures Run(s, events, isNew) == Run(Step(s, events[0], isNew), events[1..], isNew)
  {
  }
}
