/**
 * The blocks drawn for some small transcripts, worked out step by step
 * with the one-event lemmas below and those of module Replay.
 */
module Transcripts {
  import opened Wrappers
  import opened Schema
  import opened Render
  import opened Replay

  /**
   * A fragment with no placeholder open and a last role other than "ai"
   * opens a new AI block whose one paragraph is the placeholder, showing
   * the fragment (lines 37-46).
   */
  lemma FragmentOpensBlock(s: State, text: string)
    requires Valid(s) && s.placeholder == None && s.last != AiType
    ensures var n := |s.page|;
      FragmentStep(s, text) ==
      State(AiType, Some(n), text, Some(Place(n, 0)), s.page + [Block(Ai, [text])], s.history)
  {
    var n := |s.page|;
    var s1 := OpenPlaceholder(OpenAiBlock(s));
    assert s1.page == s.page + [Block(Ai, [""])] by {
      assert [] + [""] == [""];
    }
    assert SetPara(s1.page, Place(n, 0), text) == s.page + [Block(Ai, [text])] by {
      assert [""][0 := text] == [text];
    }
    assert "" + text == text;
  }

  /** A human turn adds its block and changes nothing else of the render state (lines 53-55). */
  lemma HumanTurnStep(s: State, m: ChatMessage)
    requires Valid(s) && m.who == HUMAN
    ensures MsgStep(s, m, false) == s.(last := HumanType, page := s.page + [Block(Human, [m.content])])
  {
  }

  /**
   * A non-empty "ai" turn while the placeholder of an earlier block is
   * still open and the last role is not "ai": a new empty AI block is
   * opened, and the content goes into the placeholder (lines 63-74).
   */
  lemma AiTurnFillsPlaceholder(s: State, m: ChatMessage)
    requires Valid(s) && s.placeholder.Some? && s.last != AiType
    requires m.who == AI && m.content != ""
    ensures MsgStep(s, m, false) ==
      State(AiType, Some(|s.page|), "", None,
            SetPara(s.page + [Block(Ai, [])], s.placeholder.value, m.content), s.history)
  {
  }

  /** A pass over two fragments or turns finishes after handling both. */
  lemma RunTwo(s: State, e1: Event, e2: Event, isNew: bool)
    requires Valid(s) && (e1.Fragment? || e1.Msg?) && (e2.Fragment? || e2.Msg?)
    ensures Run(s, [e1, e2], isNew) == Pass(Step(Step(s, e1, isNew), e2, isNew), Finished)
  {
    RunUnfold(s, [e1, e2], isNew);
    assert [e1, e2][1..] == [e2];
    RunUnfold(Step(s, e1, isNew), [e2], isNew);
    assert [e2][1..] == [];
  }

  /** A pass over three fragments or turns finishes after handling all three. */
  lemma RunThree(s: State, e1: Event, e2: Event, e3: Event, isNew: bool)
    requires Valid(s) && (e1.Fragment? || e1.Msg?) && (e2.Fragment? || e2.Msg?) && (e3.Fragment? || e3.Msg?)
    ensures Run(s, [e1, e2, e3], isNew) == Pass(Step(Step(Step(s, e1, isNew), e2, isNew), e3, isNew), Finished)
  {
    RunUnfold(s, [e1, e2, e3], isNew);
    assert [e1, e2, e3][1..] == [e2, e3];
    RunTwo(Step(s, e1, isNew), e2, e3, isNew);
  }

  /** Two "ai" turns with no human turn between them share one block (lines 53-55, 63-65). */
  lemma MergeRule(a: string, b: string)
    requires a != "" && b != ""
    ensures Run(Start([], []), [Msg(ChatMessage(AI, a)), Msg(ChatMessage(AI, b))], false).state.page
            == [Block(Ai, [a, b])]
  {
    var events := [Msg(ChatMessage(AI, a)), Msg(ChatMessage(AI, b))];
    var s0 := Start([], []);
    var s1 := OpenBlock(s0, [a]);
    assert MsgStep(s0, ChatMessage(AI, a), false) == s1 by {
      AiTurnOpens(s0, ChatMessage(AI, a));
      assert AiText(ChatMessage(AI, a)) == [a];
    }
    var s2 := OpenBlock(s0, [a, b]);
    assert MsgStep(s1, ChatMessage(AI, b), false) == s2 by {
      AiTurnExtends(s1, ChatMessage(AI, b));
      assert AiText(ChatMessage(AI, b)) == [b] && [a] + [b] == [a, b];
      OpenThenExtend(s0, [a], [b]);
    }
    RunTwo(s0, events[0], events[1], false);
  }

  /** A human turn between two "ai" turns gives three blocks (lines 53-55, 63-65). */
  lemma HumanSplitsAiBlocks(a: string, x: string, b: string)
    requires a != "" && b != ""
    ensures Run(Start([], []),
                [Msg(ChatMessage(AI, a)), Msg(ChatMessage(HUMAN, x)), Msg(ChatMessage(AI, b))],
                false).state.page
            == [Block(Ai, [a]), Block(Human, [x]), Block(Ai, [b])]
  {
    var events := [Msg(ChatMessage(AI, a)), Msg(ChatMessage(HUMAN, x)), Msg(ChatMessage(AI, b))];
    var s0 := Start([], []);
    var s1 := OpenBlock(s0, [a]);
    assert MsgStep(s0, ChatMessage(AI, a), false) == s1 by {
      AiTurnOpens(s0, ChatMessage(AI, a));
      assert AiText(ChatMessage(AI, a)) == [a];
    }
    var s2 := s1.(last := HumanType, page := [Block(Ai, [a]), Block(Human, [x])]);
    assert MsgStep(s1, ChatMessage(HUMAN, x), false) == s2 by {
      HumanTurnStep(s1, ChatMessage(HUMAN, x));
    }
    var s3 := OpenBlock(s2, [b]);
    assert MsgStep(s2, ChatMessage(AI, b), false) == s3 by {
      AiTurnOpens(s2, ChatMessage(AI, b));
      assert AiText(ChatMessage(AI, b)) == [b];
    }
    RunThree(s0, events[0], events[1], events[2], false);
  }

  /**
   * A finished "ai" turn overwrites the streamed text rather than being
   * appended to it (lines 70-74): "he", "llo" and then "hello world" leave
   * a single AI block showing "hello world".
   */
  lemma FinalReplacesFragments()
    ensures Run(Start([], []),
                [Fragment("he"), Fragment("llo"), Msg(ChatMessage(AI, "hello world"))],
                false).state.page
            == [Block(Ai, ["hello world"])]
  {
    var events := [Fragment("he"), Fragment("llo"), Msg(ChatMessage(AI, "hello world"))];
    var s0 := Start([], []);
    var s1 := State(AiType, Some(0), "he", Some(Place(0, 0)), [Block(Ai, ["he"])], []);
    assert FragmentStep(s0, "he") == s1 by {
      FragmentOpensBlock(s0, "he");
    }
    var s2 := s1.(content := "hello", page := [Block(Ai, ["hello"])]);
    assert FragmentStep(s1, "llo") == s2 by {
      assert "he" + "llo" == "hello";
      assert ["he"][0 := "hello"] == ["hello"];
    }
    var s3 := s2.(content := "", placeholder := None, page := [Block(Ai, ["hello world"])]);
    assert MsgStep(s2, ChatMessage(AI, "hello world"), false) == s3 by {
      assert ["hello"][0 := "hello world"] == ["hello world"];
    }
    RunThree(s0, events[0], events[1], events[2], false);
  }

  /**
   * A human turn does not close an open placeholder (lines 53-55), so an
   * "ai" turn after it opens a new, empty AI block but writes its content
   * into the placeholder of the earlier block (lines 63-74).
   */
  lemma HumanKeepsPlaceholderOpen(f: string, x: string, b: string)
    requires b != ""
    ensures Run(Start([], []),
                [Fragment(f), Msg(ChatMessage(HUMAN, x)), Msg(ChatMessage(AI, b))],
                false).state.page
            == [Block(Ai, [b]), Block(Human, [x]), Block(Ai, [])]
  {
    var events := [Fragment(f), Msg(ChatMessage(HUMAN, x)), Msg(ChatMessage(AI, b))];
    var s0 := Start([], []);
    var s1 := State(AiType, Some(0), f, Some(Place(0, 0)), [Block(Ai, [f])], []);
    assert FragmentStep(s0, f) == s1 by {
      FragmentOpensBlock(s0, f);
    }
    var s2 := s1.(last := HumanType, page := [Block(Ai, [f]), Block(Human, [x])]);
    assert MsgStep(s1, ChatMessage(HUMAN, x), false) == s2 by {
      HumanTurnStep(s1, ChatMessage(HUMAN, x));
    }
    var s3 := State(AiType, Some(2), "", None, [Block(Ai, [b]), Block(Human, [x]), Block(Ai, [])], []);
    assert MsgStep(s2, ChatMessage(AI, b), false) == s3 by {
      AiTurnFillsPlaceholder(s2, ChatMessage(AI, b));
      assert [f][0 := b] == [b];
    }
    RunThree(s0, events[0], events[1], events[2], false);
  }
}
