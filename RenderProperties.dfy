/**
 * Properties of the render pass that relate several events: where a pass
 * stops, how the history grows, how fragments accumulate, and the
 * block structure of some small transcripts.
 */
module RenderProperties {
  import opened Wrappers
  import opened Schema
  import opened Render

  /** The events a pass actually handles: everything before the first `None` or unknown object. */
  function LivePrefix(events: seq<Event>): (live: seq<Event>)
    ensures |live| <= |events|
    ensures End !in live && Unknown !in live
  {
    if events == [] || events[0] == End || events[0] == Unknown then []
    else [events[0]] + LivePrefix(events[1..])
  }

  /** The "ai" turns among the events, in order. */
  function AiMessages(events: seq<Event>): seq<ChatMessage> {
    if events == [] then []
    else (if events[0].Msg? && events[0].msg.who == AI then [events[0].msg] else [])
         + AiMessages(events[1..])
  }

  /** A `None` ends the pass: nothing after it is drawn or stored (lines 31-32). */
  lemma {:induction false} EndStopsPass(s: State, before: seq<Event>, after: seq<Event>, isNew: bool)
    requires Valid(s)
    ensures Run(s, before + [End] + after, isNew) == Run(s, before, isNew)
    decreases |before|
  {
    var all := before + [End] + after;
    if before == [] {
      assert all[0] == End;
    } else {
      assert all[0] == before[0];
      assert all[1..] == before[1..] + [End] + after;
      if before[0] != End && before[0] != Unknown {
        EndStopsPass(Step(s, before[0], isNew), before[1..], after, isNew);
      }
    }
  }

  /**
   * An object that is neither a string nor a `ChatMessage` halts the pass
   * (lines 48-51): what was drawn before it stays, and nothing after it
   * is handled.
   */
  lemma {:induction false} UnknownHaltsPass(s: State, before: seq<Event>, after: seq<Event>, isNew: bool)
    requires Valid(s)
    requires End !in before && Unknown !in before
    ensures Run(s, before, isNew).outcome == Finished
    ensures Run(s, before + [Unknown] + after, isNew) == Pass(Run(s, before, isNew).state, Halted)
    decreases |before|
  {
    var all := before + [Unknown] + after;
    if before == [] {
      assert all[0] == Unknown;
    } else {
      assert all[0] == before[0] && before[0] in before;
      assert all[1..] == before[1..] + [Unknown] + after;
      assert forall e :: e in before[1..] ==> e in before;
      UnknownHaltsPass(Step(s, before[0], isNew), before[1..], after, isNew);
    }
  }

  /**
   * With `isNew` the history grows by exactly the "ai" turns the pass
   * handles, in order; fragments and human turns are never stored
   * (lines 59-60). Without `isNew` the history is left as it was.
   */
  lemma {:induction false} HistoryGrowth(s: State, events: seq<Event>, isNew: bool)
    requires Valid(s)
    ensures Run(s, events, isNew).state.history ==
            s.history + (if isNew then AiMessages(LivePrefix(events)) else [])
    decreases |events|
  {
    if events != [] && events[0] != End && events[0] != Unknown {
      var e := events[0];
      var s1 := Step(s, e, isNew);
      assert Run(s, events, isNew) == Run(s1, events[1..], isNew);
      HistoryGrowth(s1, events[1..], isNew);
      var mine := if e.Msg? && e.msg.who == AI then [e.msg] else [];
      var later := AiMessages(LivePrefix(events[1..]));
      assert AiMessages(LivePrefix(events)) == mine + later by {
        assert LivePrefix(events) == [e] + LivePrefix(events[1..]);
        assert ([e] + LivePrefix(events[1..]))[1..] == LivePrefix(events[1..]);
      }
      if isNew {
        var h := s.history;
        assert s1.history == h + mine;
        AppendAssociates(h, mine, later);
      } else {
        assert s1.history == s.history;
      }
    }
  }

  lemma AppendAssociates<T>(a: seq<T>, b: seq<T>, c: seq<T>)
    ensures (a + b) + c == a + (b + c)
  {
  }

  /** A run of streamed fragments. */
  function Fragments(texts: seq<string>): seq<Event> {
    if texts == [] then [] else [Fragment(texts[0])] + Fragments(texts[1..])
  }

  /** All the texts joined together. */
  function Concat(texts: seq<string>): string {
    if texts == [] then "" else texts[0] + Concat(texts[1..])
  }

  /**
   * Consecutive fragments concatenate (lines 44-45): after a non-empty
   * run of fragments a placeholder is open, and it shows the accumulator
   * as it was before the run followed by every fragment of the run.
   */
  lemma {:induction false} FragmentsAccumulate(s: State, texts: seq<string>, isNew: bool)
    requires Valid(s) && texts != []
    ensures var r := Run(s, Fragments(texts), isNew);
      && r.outcome == Finished
      && r.state.placeholder.Some?
      && r.state.content == s.content + Concat(texts)
      && r.state.page[r.state.placeholder.value.block].paras[r.state.placeholder.value.para]
         == s.content + Concat(texts)
      && r.state.history == s.history
    decreases |texts|
  {
    var s1 := FragmentStep(s, texts[0]);
    assert Run(s, Fragments(texts), isNew) == Run(s1, Fragments(texts[1..]), isNew) by {
      assert Fragments(texts)[0] == Fragment(texts[0]);
      assert Fragments(texts)[1..] == Fragments(texts[1..]);
    }
    if |texts| == 1 {
      assert texts[1..] == [];
      assert Concat(texts) == texts[0] + "" == texts[0];
    } else {
      FragmentsAccumulate(s1, texts[1..], isNew);
      AppendAssociates(s.content, texts[0], Concat(texts[1..]));
    }
  }

  /**
   * A pass over `before + after`, when `before` holds no `None` and no
   * unknown object, is the pass over `before` followed by the pass over
   * `after` from where the first one left off.
   */
  lemma {:induction false} RunAppend(s: State, before: seq<Event>, after: seq<Event>, isNew: bool)
    requires Valid(s)
    requires End !in before && Unknown !in before
    ensures Run(s, before, isNew).outcome == Finished
    ensures Run(s, before + after, isNew) == Run(Run(s, before, isNew).state, after, isNew)
    decreases |before|
  {
    if before == [] {
      assert before + after == after;
    } else {
      assert (before + after)[0] == before[0] && before[0] in before;
      assert (before + after)[1..] == before[1..] + after;
      assert forall e :: e in before[1..] ==> e in before;
      RunAppend(Step(s, before[0], isNew), before[1..], after, isNew);
    }
  }

  /** Turns none of which is "ai": human turns, or turns with any other `who`. */
  predicate NoAiTurns(before: seq<Event>) {
    forall i :: 0 <= i < |before| ==> before[i].Msg? && before[i].msg.who != AI
  }

  /** Turns that are not "ai" never open an AI block or a placeholder (lines 53-57). */
  lemma {:induction false} NoAiTurnsKeepClosed(s: State, before: seq<Event>, isNew: bool)
    requires Valid(s) && s.last != AiType && s.placeholder == None
    requires NoAiTurns(before)
    ensures Run(s, before, isNew).state.last != AiType
    ensures Run(s, before, isNew).state.placeholder == None
    decreases |before|
  {
    if before != [] {
      var s1 := Step(s, before[0], isNew);
      assert s1.last != AiType && s1.placeholder == None;
      assert NoAiTurns(before[1..]) by {
        forall i | 0 <= i < |before[1..]| ensures before[1..][i].Msg? && before[1..][i].msg.who != AI {
          assert before[1..][i] == before[i + 1];
        }
      }
      NoAiTurnsKeepClosed(s1, before[1..], isNew);
    }
  }

  /**
   * A pass starts with no last role (lines 22-23), and turns that are not
   * "ai" never make it "ai", so the first AI event of a pass, a fragment
   * or an "ai" turn, always opens a new AI block after whatever is on the
   * page by then, and leaves those blocks unchanged (lines 38-40, 63-65).
   */
  lemma FirstAiEventOpensBlock(page: seq<Block>, history: seq<ChatMessage>, before: seq<Event>, e: Event,
                               isNew: bool)
    requires NoAiTurns(before)
    requires e.Fragment? || (e.Msg? && e.msg.who == AI)
    ensures var drawn := Run(Start(page, history), before, isNew).state.page;
      var r := Run(Start(page, history), before + [e], isNew);
      && r.outcome == Finished
      && |r.state.page| == |drawn| + 1
      && r.state.page[..|drawn|] == drawn
      && r.state.page[|drawn|].role == Ai
      && r.state.last == AiType
  {
    var s0 := Start(page, history);
    assert End !in before && Unknown !in before by {
      forall i | 0 <= i < |before| ensures before[i] != End && before[i] != Unknown {
        assert before[i].Msg?;
      }
    }
    RunAppend(s0, before, [e], isNew);
    var s := Run(s0, before, isNew).state;
    NoAiTurnsKeepClosed(s0, before, isNew);
    RunUnfold(s, [e], isNew);
    assert [e][1..] == [];
  }
}
