/**
 * What a sequence of user inputs does to the history, and what a rerun
 * without input draws. Each input is handled by `ChatApp.HandleInput`,
 * which adds exactly `Turn(input, reply)`; the lemmas here follow the
 * history over many inputs.
 */
module Conversation {
  import opened Wrappers
  import opened Schema
  import opened Render
  import opened App

  /** One user input and what the client gave back for it. */
  datatype Exchange = Exchange(input: string, reply: Reply)

  /** The history after the given exchanges, oldest first, starting from an empty one. */
  function History(xs: seq<Exchange>): seq<ChatMessage>
    decreases |xs|
  {
    if xs == [] then []
    else History(xs[..|xs| - 1]) + Turn(xs[|xs| - 1].input, xs[|xs| - 1].reply)
  }

  /** The contents of the turns of `h` whose `who` is `role`, in order. */
  function Said(h: seq<ChatMessage>, role: string): seq<string>
    decreases |h|
  {
    if h == [] then []
    else Said(h[..|h| - 1], role) + (if h[|h| - 1].who == role then [h[|h| - 1].content] else [])
  }

  /** The inputs, in order. */
  function Inputs(xs: seq<Exchange>): seq<string>
    decreases |xs|
  {
    if xs == [] then [] else Inputs(xs[..|xs| - 1]) + [xs[|xs| - 1].input]
  }

  /** The contents of the successful replies, in order. */
  function Answers(xs: seq<Exchange>): seq<string>
    decreases |xs|
  {
    if xs == [] then []
    else Answers(xs[..|xs| - 1]) +
         (if xs[|xs| - 1].reply.Success? then [xs[|xs| - 1].reply.content] else [])
  }

  lemma {:induction false} SaidAppend(a: seq<ChatMessage>, b: seq<ChatMessage>, role: string)
    ensures Said(a + b, role) == Said(a, role) + Said(b, role)
    decreases |b|
  {
    if b == [] {
      assert a + b == a;
    } else {
      var c := b[..|b| - 1];
      assert (a + b)[..|a + b| - 1] == a + c;
      SaidAppend(a, c, role);
    }
  }

  /**
   * The history holds the human turns in the order they were typed and
   * the successful replies in the order they came, and nothing else: one
   * human turn per input, one AI turn per successful reply, and a failed
   * call leaves no AI turn (lines 159-173).
   */
  lemma {:induction false} HistoryOrder(xs: seq<Exchange>)
    ensures Said(History(xs), HUMAN) == Inputs(xs)
    ensures Said(History(xs), AI) == Answers(xs)
    ensures |History(xs)| == |Inputs(xs)| + |Answers(xs)|
    decreases |xs|
  {
    if xs != [] {
      var x := xs[|xs| - 1];
      var t := Turn(x.input, x.reply);
      HistoryOrder(xs[..|xs| - 1]);
      SaidAppend(History(xs[..|xs| - 1]), t, HUMAN);
      SaidAppend(History(xs[..|xs| - 1]), t, AI);
      assert t[..1] == [ChatMessage(HUMAN, x.input)];
      assert t[..1][..0] == [];
      assert Said(t[..1], HUMAN) == [x.input] && Said(t[..1], AI) == [];
      if x.reply.Success? {
        assert t[..|t| - 1] == t[..1];
        assert Said(t, HUMAN) == [x.input] && Said(t, AI) == [x.reply.content];
      } else {
        assert t == t[..1];
      }
    }
  }

  /**
   * Each input's human turn is stored before its reply: the turn an input
   * adds to the history comes first, and a reply, if stored, right after it.
   */
  lemma {:induction false} HumanTurnComesFirst(xs: seq<Exchange>, x: Exchange)
    ensures var h := History(xs + [x]);
      var n := |History(xs)|;
      && |h| > n
      && h[..n] == History(xs)
      && h[n] == ChatMessage(HUMAN, x.input)
      && (x.reply.Success? <==> |h| == n + 2)
      && (x.reply.Success? ==> h[n + 1] == ChatMessage(AI, x.reply.content))
  {
    assert (xs + [x])[..|xs + [x]| - 1] == xs;
  }

  /**
   * A new session that handles the exchanges one after another, as
   * successive script runs with input do (lines 143-144, 159-173): its
   * history is `History(xs)`, so `HistoryOrder` describes it.
   */
  method Converse(xs: seq<Exchange>) returns (app: ChatApp)
    ensures fresh(app)
    ensures app.messages == History(xs)
    ensures Said(app.messages, HUMAN) == Inputs(xs) && Said(app.messages, AI) == Answers(xs)
  {
    app := new ChatApp();
    var i := 0;
    while i < |xs|
      invariant 0 <= i <= |xs|
      invariant app.messages == History(xs[..i])
      decreases |xs| - i
    {
      app.HandleInput(xs[i].input, xs[i].reply);
      assert xs[..i + 1][..i] == xs[..i];
      i := i + 1;
    }
    assert xs[..i] == xs;
    HistoryOrder(xs);
  }

  /**
   * A rerun with no input draws the history the same way each time and
   * stores nothing, so two reruns in a row show the same page.
   */
  method RerunTwice(app: ChatApp, reply: Reply) returns (first: seq<Block>, second: seq<Block>)
    modifies app
    ensures first == second == HistoryView(old(app.messages))
    ensures app.messages == old(app.messages)
  {
    app.RunScript(None, reply);
    first := app.page;
    assert app.messages == old(app.messages) + [] == old(app.messages);
    assert first == HistoryView(old(app.messages)) + [];
    app.RunScript(None, reply);
    second := app.page;
  }

  /** A session after `clear_chat` shows only the welcome text on its next run (lines 83-84, 148-151). */
  method ClearThenRerun(app: ChatApp, reply: Reply)
    modifies app
    ensures app.messages == []
    ensures app.page == [Block(Ai, [WELCOME])]
  {
    app.ClearChat();
    app.RunScript(None, reply);
  }
}
