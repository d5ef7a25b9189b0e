/**
 How the stored history is turned into the text sent to the model: the
 transcript of earlier turns, and the question prefixed with it.
 */
module Context {
  import opened History

  /** The first line of a non-empty transcript. */
  const Header: string := "Previous conversation:\n"

  /** The separator placed between the transcript and the new question. */
  const QuestionPrefix: string := "\nHuman: "

  /** Concatenation regrouped, so proofs over transcripts need not compare
      them character by character. */
  lemma AppendAssoc<T>(a: seq<T>, b: seq<T>, c: seq<T>)
    ensures (a + b) + c == a + (b + c)
  {
  }

  /** One earlier turn as two transcript lines: "Human: " and the question,
      then "AI: " and the answer, each line ended by a newline. */
  function RenderTurn(t: Turn): (lines: string)
    ensures |lines| == |t.question| + |t.answer| + 13
    ensures lines[..7] == "Human: " && lines[7..7 + |t.question|] == t.question
    ensures lines[|lines| - |t.answer| - 1..] == t.answer + "\n"
  {
    "Human: " + t.question + "\nAI: " + t.answer + "\n"
  }

  /** The turns of `h` rendered one after the other, oldest first. Every
      turn adds at least its 13 fixed characters, so the text is empty
      exactly when there are no turns. */
  function RenderTurns(h: seq<Turn>): (text: string)
    ensures |text| >= 13 * |h|
    ensures text == "" <==> h == []
  {
    if h == [] then "" else RenderTurns(h[..|h| - 1]) + RenderTurn(h[|h| - 1])
  }

  /** The transcript of the history: empty when there is no history,
      otherwise the header followed by every turn, oldest first. */
  function RenderContext(h: seq<Turn>): (c: string)
    ensures c == "" <==> h == []
    ensures h != [] ==> c == Header + RenderTurns(h) && c[..|Header|] == Header
  {
    if h == [] then "" else Header + RenderTurns(h)
  }

  /** The text sent to the model: the raw question when there is no
      transcript, otherwise the transcript, a "Human: " line and the question. */
  function Contextualize(h: seq<Turn>, question: string): (prompt: string)
    ensures h == [] ==> prompt == question
    ensures h != [] ==> prompt == RenderContext(h) + QuestionPrefix + question
  {
    var context := RenderContext(h);
    if context != "" then context + QuestionPrefix + question else question
  }

  /** The transcript of two consecutive stretches of history is the
      transcript of the first followed by that of the second. */
  lemma {:induction false} RenderTurnsAppend(a: seq<Turn>, b: seq<Turn>)
    ensures RenderTurns(a + b) == RenderTurns(a) + RenderTurns(b)
    decreases |b|
  {
    if b == [] {
      assert a + b == a;
    } else {
      var front := b[..|b| - 1];
      assert (a + b)[..|a + b| - 1] == a + front;
      assert (a + b)[|a + b| - 1] == b[|b| - 1];
      RenderTurnsAppend(a, front);
      AppendAssoc(RenderTurns(a), RenderTurns(front), RenderTurn(b[|b| - 1]));
    }
  }

  /** Oldest first: the transcript of a history starts with its first turn. */
  lemma RenderTurnsFirst(t: Turn, h: seq<Turn>)
    ensures RenderTurns([t] + h) == RenderTurn(t) + RenderTurns(h)
  {
    RenderTurnsAppend([t], h);
    assert [t][..0] == [];
  }

  /** When a turn is remembered without dropping any, the transcript grows by
      exactly that turn's two lines. */
  lemma RenderContextGrows(h: seq<Turn>, t: Turn)
    requires h != []
    ensures RenderContext(h + [t]) == RenderContext(h) + RenderTurn(t)
  {
    var h' := h + [t];
    assert h'[..|h'| - 1] == h && h'[|h'| - 1] == t;
    assert RenderTurns(h') == RenderTurns(h) + RenderTurn(t);
    AppendAssoc(Header, RenderTurns(h), RenderTurn(t));
  }

  /** The question can always be read back from the prompt: two questions
      asked against the same history give different prompts. */
  lemma ContextualizeInjective(h: seq<Turn>, q1: string, q2: string)
    requires Contextualize(h, q1) == Contextualize(h, q2)
    ensures q1 == q2
  {
    if h != [] {
      var prefix := RenderContext(h) + QuestionPrefix;
      assert Contextualize(h, q1) == prefix + q1;
      assert (prefix + q1)[|prefix|..] == q1;
      assert (prefix + q2)[|prefix|..] == q2;
    }
  }

  /** The raw question always ends the prompt. */
  lemma ContextualizeEndsWithQuestion(h: seq<Turn>, q: string)
    ensures var p := Contextualize(h, q); |q| <= |p| && p[|p| - |q|..] == q
  {
    var p := Contextualize(h, q);
    if h != [] {
      var prefix := RenderContext(h) + QuestionPrefix;
      assert p == prefix + q;
      assert p[|prefix|..] == q;
    }
  }

  /** A second question asked after one answered question carries that
      question and its answer as context: the prompt reads
      "Previous conversation:\nHuman: q1\nAI: a1\n\nHuman: q2". */
  lemma SecondQuestionSeesFirst(q1: string, a1: string, q2: string)
    ensures Contextualize(AppendTurn([], Turn(q1, a1)), q2)
         == "Previous conversation:\n" + ("Human: " + q1 + "\nAI: " + a1 + "\n") + "\nHuman: " + q2
  {
    var h := AppendTurn([], Turn(q1, a1));
    assert h == [Turn(q1, a1)];
    assert h[..0] == [];
    assert RenderTurns(h) == "" + RenderTurn(Turn(q1, a1)) == RenderTurn(Turn(q1, a1));
  }

  /** Builds the transcript turn by turn, as the request handler does. */
  method BuildContext(h: seq<Turn>) returns (context: string)
    ensures context == RenderContext(h)
  {
    context := "";
    if h != [] {
      context := Header;
      for i := 0 to |h|
        invariant context == Header + RenderTurns(h[..i])
      {
        assert h[..i + 1][..i] == h[..i];
        AppendAssoc(Header, RenderTurns(h[..i]), RenderTurn(h[i]));
        context := context + RenderTurn(h[i]);
      }
      assert h[..|h|] == h;
    }
  }
}
