/**
 * What a replay of the stored history draws. `main` hands the history
 * list itself to the renderer (StreamlitApp.py:153-154), so every event is
 * a finished turn and no fragment, `None` or unknown object occurs.
 * `ReplayBlocks` says, independently of the renderer's state machine, which
 * blocks such a list gives; `ReplayDrawsGroups` proves the renderer draws
 * exactly those.
 */
module Replay {
  import opened Wrappers
  import opened Schema
  import opened Render
  import opened RenderProperties

  /** The history as the event list the renderer walks. */
  function Finals(msgs: seq<ChatMessage>): seq<Event> {
    if msgs == [] then [] else [Msg(msgs[0])] + Finals(msgs[1..])
  }

  /** The paragraph an "ai" turn adds when no placeholder is open: none if it is not "ai" or is empty. */
  function AiText(m: ChatMessage): seq<string> {
    if m.who == AI && m.content != "" then [m.content] else []
  }

  /** The paragraphs the "ai" turns of `msgs` add, in order. */
  function AiTexts(msgs: seq<ChatMessage>): seq<string> {
    if msgs == [] then [] else AiText(msgs[0]) + AiTexts(msgs[1..])
  }

  /** How many turns at the front of `msgs` come before the first human turn. */
  function TurnsBeforeHuman(msgs: seq<ChatMessage>): (k: nat)
    ensures k <= |msgs|
    ensures forall i :: 0 <= i < k ==> msgs[i].who != HUMAN
    ensures k < |msgs| ==> msgs[k].who == HUMAN
  {
    if msgs == [] || msgs[0].who == HUMAN then 0 else 1 + TurnsBeforeHuman(msgs[1..])
  }

  /**
   * The blocks a replay of `msgs` draws: each human turn is a block of its
   * own holding its content; an "ai" turn starts an AI block that also
   * takes every later turn up to the next human one, with one paragraph
   * per non-empty "ai" turn; turns with any other `who` draw nothing.
   */
  function ReplayBlocks(msgs: seq<ChatMessage>): seq<Block>
    decreases |msgs|
  {
    if msgs == [] then []
    else if msgs[0].who == HUMAN then [Block(Human, [msgs[0].content])] + ReplayBlocks(msgs[1..])
    else if msgs[0].who == AI then
      var k := 1 + TurnsBeforeHuman(msgs[1..]);
      [Block(Ai, AiTexts(msgs[..k]))] + ReplayBlocks(msgs[k..])
    else ReplayBlocks(msgs[1..])
  }

  /** The current AI block (the last one) with `texts` added as paragraphs. */
  function ExtendLast(s: State, texts: seq<string>): (r: State)
    requires Valid(s) && s.last == AiType && s.placeholder == None
    ensures Valid(r) && r.last == AiType && r.placeholder == None
    ensures r.history == s.history && |r.page| == |s.page|
  {
    var b := |s.page| - 1;
    s.(page := s.page[b := Block(Ai, s.page[b].paras + texts)])
  }

  lemma {:induction false} ExtendLastTwice(s: State, a: seq<string>, b: seq<string>)
    requires Valid(s) && s.last == AiType && s.placeholder == None
    ensures ExtendLast(ExtendLast(s, a), b) == ExtendLast(s, a + b)
  {
    var n := |s.page| - 1;
    AppendAssociates(s.page[n].paras, a, b);
  }

  lemma AiTextsFront(msgs: seq<ChatMessage>, k: nat)
    requires 0 < k <= |msgs|
    ensures AiTexts(msgs[..k]) == AiText(msgs[0]) + AiTexts(msgs[1..][..k - 1])
  {
    assert msgs[..k][0] == msgs[0] && msgs[..k][1..] == msgs[1..][..k - 1];
  }

  /** An "ai" turn while the last role is "ai" only adds its paragraph, if any (lines 63-76). */
  lemma AiTurnExtends(s: State, m: ChatMessage)
    requires Valid(s) && s.last == AiType && s.placeholder == None
    requires m.who != HUMAN
    ensures MsgStep(s, m, false) == ExtendLast(s, AiText(m))
  {
    var b := |s.page| - 1;
    if m.who == AI && m.content != "" {
      assert MsgStep(s, m, false).page == AppendPara(s.page, b, m.content);
    } else {
      assert s.page[b].paras + [] == s.page[b].paras;
      assert s.page[b := Block(Ai, s.page[b].paras)] == s.page;
    }
  }

  /** An "ai" turn while the last role is not "ai" opens a new block holding its paragraph, if any (lines 63-76). */
  lemma AiTurnOpens(s: State, m: ChatMessage)
    requires Valid(s) && s.last != AiType && s.placeholder == None
    requires m.who == AI
    ensures MsgStep(s, m, false) == OpenBlock(s, AiText(m))
  {
    var open := OpenBlock(s, []);
    if m.content != "" {
      assert MsgStep(s, m, false).page == AppendPara(open.page, |s.page|, m.content);
      assert [] + [m.content] == [m.content] == AiText(m);
      assert AppendPara(open.page, |s.page|, m.content) == s.page + [Block(Ai, [m.content])];
    } else {
      assert open.page[|s.page| := Block(Ai, [])] == open.page;
    }
  }

  /**
   * While the last role is "ai" and no placeholder is open, turns that are
   * not human only add paragraphs to the current AI block (lines 57-76
   * with `last_message_type == "ai"`).
   */
  lemma {:induction false} AiTurnsExtendBlock(s: State, msgs: seq<ChatMessage>, k: nat)
    requires Valid(s) && s.last == AiType && s.placeholder == None
    requires k <= |msgs|
    requires forall i :: 0 <= i < k ==> msgs[i].who != HUMAN
    ensures Run(s, Finals(msgs), false) ==
            Run(ExtendLast(s, AiTexts(msgs[..k])), Finals(msgs[k..]), false)
    decreases k
  {
    if k == 0 {
      var b := |s.page| - 1;
      assert msgs[..0] == [] && msgs[0..] == msgs;
      assert s.page[b].paras + [] == s.page[b].paras;
      assert s.page[b := Block(Ai, s.page[b].paras)] == s.page;
      assert ExtendLast(s, []) == s;
    } else {
      var m := msgs[0];
      var s1 := MsgStep(s, m, false);
      AiTurnExtends(s, m);
      assert Finals(msgs)[0] == Msg(m) && Finals(msgs)[1..] == Finals(msgs[1..]);
      assert Run(s, Finals(msgs), false) == Run(s1, Finals(msgs[1..]), false);
      AiTurnsExtendBlock(s1, msgs[1..], k - 1);
      ExtendLastTwice(s, AiText(m), AiTexts(msgs[1..][..k - 1]));
      AiTextsFront(msgs, k);
      assert msgs[1..][k - 1..] == msgs[k..];
    }
  }

  /** The fresh AI block an "ai" turn opens when the last role is not "ai" (lines 63-65). */
  function OpenBlock(s: State, paras: seq<string>): (r: State)
    requires Valid(s) && s.placeholder == None && s.last != AiType
    ensures Valid(r) && r.last == AiType && r.placeholder == None
    ensures r.page == s.page + [Block(Ai, paras)]
  {
    s.(last := AiType, lastMessage := Some(|s.page|), page := s.page + [Block(Ai, paras)])
  }

  lemma {:induction false} OpenThenExtend(s: State, a: seq<string>, b: seq<string>)
    requires Valid(s) && s.placeholder == None && s.last != AiType
    ensures ExtendLast(OpenBlock(s, a), b) == OpenBlock(s, a + b)
  {
    assert OpenBlock(s, a).page[|s.page| := Block(Ai, a + b)] == s.page + [Block(Ai, a + b)];
  }

  /**
   * From a state whose last role is not "ai", an "ai" turn opens a new AI
   * block, and it and the turns after it up to the next human one fill
   * that block (lines 57-76).
   */
  lemma {:induction false} AiTurnOpensBlock(s: State, msgs: seq<ChatMessage>)
    requires Valid(s) && s.placeholder == None && s.last != AiType
    requires msgs != [] && msgs[0].who == AI
    ensures var k := 1 + TurnsBeforeHuman(msgs[1..]);
      Run(s, Finals(msgs), false) == Run(OpenBlock(s, AiTexts(msgs[..k])), Finals(msgs[k..]), false)
  {
    var m := msgs[0];
    var k := 1 + TurnsBeforeHuman(msgs[1..]);
    var later := AiTexts(msgs[1..][..k - 1]);
    var s1 := OpenBlock(s, AiText(m));
    assert Run(s, Finals(msgs), false) == Run(s1, Finals(msgs[1..]), false) by {
      assert Finals(msgs)[0] == Msg(m) && Finals(msgs)[1..] == Finals(msgs[1..]);
      AiTurnOpens(s, m);
    }
    assert Run(s1, Finals(msgs[1..]), false) ==
           Run(OpenBlock(s, AiTexts(msgs[..k])), Finals(msgs[k..]), false) by {
      AiTurnsExtendBlock(s1, msgs[1..], k - 1);
      OpenThenExtend(s, AiText(m), later);
      AiTextsFront(msgs, k);
      assert msgs[1..][k - 1..] == msgs[k..];
    }
  }

  /**
   * A replay of the history (finished turns only, `is_new` unset) finishes
   * and adds to the page exactly the blocks `ReplayBlocks` gives. It holds from
   * the start of a pass, and from any state with no placeholder open whose
   * last role is not "ai" unless a human turn comes next.
   */
  lemma {:induction false} ReplayDrawsGroups(s: State, msgs: seq<ChatMessage>)
    requires Valid(s) && s.placeholder == None
    requires s.last == AiType ==> msgs == [] || msgs[0].who == HUMAN
    ensures Run(s, Finals(msgs), false).outcome == Finished
    ensures Run(s, Finals(msgs), false).state.page == s.page + ReplayBlocks(msgs)
    decreases |msgs|
  {
    if msgs == [] {
      assert s.page + [] == s.page;
    } else {
      var m := msgs[0];
      if m.who == AI {
        var k := 1 + TurnsBeforeHuman(msgs[1..]);
        var texts := AiTexts(msgs[..k]);
        AiTurnOpensBlock(s, msgs);
        var s2 := OpenBlock(s, texts);
        ReplayDrawsGroups(s2, msgs[k..]);
        AppendAssociates(s.page, [Block(Ai, texts)], ReplayBlocks(msgs[k..]));
      } else {
        assert Finals(msgs)[0] == Msg(m) && Finals(msgs)[1..] == Finals(msgs[1..]);
        var s1 := MsgStep(s, m, false);
        assert Run(s, Finals(msgs), false) == Run(s1, Finals(msgs[1..]), false);
        ReplayDrawsGroups(s1, msgs[1..]);
        if m.who == HUMAN {
          AppendAssociates(s.page, [Block(Human, [m.content])], ReplayBlocks(msgs[1..]));
        }
      }
    }
  }
}
