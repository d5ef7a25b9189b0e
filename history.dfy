/**
 The process-wide conversation history of the chat service: the record kept
 for each answered question, the bound on how many are kept, and the
 append-then-truncate update applied after every answered question.
 */
module History {

  /** One answered question as it is stored: the raw question the client
      sent (never the contextualised prompt) and the model's reply. */
  datatype Turn = Turn(question: string, answer: string)

  /** The number of most recent turns the service remembers. */
  const MaxHistoryLength: nat := 10

  function Min(a: int, b: int): int
  {
    if a <= b then a else b
  }

  /** Python's slice `s[start:]`: a negative start counts from the end and is
      clamped at the front, a start past the end gives the empty list. Either
      way the result is the tail of `s` of the stated length. */
  function SliceFrom<T>(s: seq<T>, start: int): (r: seq<T>)
    ensures |r| == if start < 0 then Min(|s|, -start) else |s| - Min(|s|, start)
    ensures r == s[|s| - |r|..]
  {
    if start < 0 then
      (if |s| + start < 0 then s else s[|s| + start..])
    else
      s[Min(start, |s|)..]
  }

  /** The history after one answered question: the new turn is appended and,
      when the list has grown longer than MaxHistoryLength, only its last
      MaxHistoryLength entries are kept (the oldest are dropped first). */
  function AppendTurn(h: seq<Turn>, t: Turn): (r: seq<Turn>)
    ensures |r| == Min(|h| + 1, MaxHistoryLength)
    ensures r == (h + [t])[|h| + 1 - |r|..]
    ensures r[|r| - 1] == t
    ensures |h| < MaxHistoryLength ==> r == h + [t]
  {
    var appended := h + [t];
    if |appended| > MaxHistoryLength then SliceFrom(appended, -(MaxHistoryLength as int)) else appended
  }

  /** Reference definition of a sliding window: drop the oldest element
      until no more than `n` remain. */
  function KeepLast<T>(s: seq<T>, n: nat): seq<T>
    decreases |s|
  {
    if |s| <= n then s else KeepLast(s[1..], n)
  }

  /** Dropping from the front one at a time leaves exactly the last
      min(|s|, n) elements, in their original order. */
  lemma {:induction false} KeepLastIsSuffix<T>(s: seq<T>, n: nat)
    ensures KeepLast(s, n) == s[|s| - Min(|s|, n)..]
  {
    if |s| > n {
      var tail := s[1..];
      KeepLastIsSuffix(tail, n);
      assert KeepLast(s, n) == KeepLast(tail, n);
      assert Min(|tail|, n) == n && Min(|s|, n) == n;
      assert tail[|tail| - n..] == s[|s| - n..] by {
        assert |tail| - n == |s| - n - 1;
      }
    }
  }

  /** Keeping the last `n` of a tail of `s` that is at least that long is the
      same as keeping the last `n` of `s`. */
  lemma KeepLastOfTail<T>(s: seq<T>, k: nat, n: nat)
    requires k <= |s|
    requires Min(|s|, n) <= |s| - k
    ensures KeepLast(s[k..], n) == KeepLast(s, n)
  {
    KeepLastIsSuffix(s, n);
    KeepLastIsSuffix(s[k..], n);
    assert s[k..][|s| - k - Min(|s|, n)..] == s[|s| - Min(|s|, n)..];
  }

  /** One update of the history is the sliding window of the bound over the
      old history followed by the new turn. */
  lemma AppendTurnKeepsLast(h: seq<Turn>, t: Turn)
    ensures AppendTurn(h, t) == KeepLast(h + [t], MaxHistoryLength)
  {
    KeepLastIsSuffix(h + [t], MaxHistoryLength);
  }

  /** The history after a series of answered questions, oldest first. */
  function AppendAll(h: seq<Turn>, ts: seq<Turn>): seq<Turn>
    decreases |ts|
  {
    if ts == [] then h else AppendAll(AppendTurn(h, ts[0]), ts[1..])
  }

  /** The history after one update, followed by later turns `u`, is a tail
      of the old history followed by the new turn and `u`. */
  lemma AppendTurnThen(h: seq<Turn>, t: Turn, u: seq<Turn>)
    ensures var k := |h| + 1 - |AppendTurn(h, t)|;
      0 <= k <= |h| + 1 + |u| && AppendTurn(h, t) + u == (h + ([t] + u))[k..]
  {
    var r := AppendTurn(h, t);
    var k := |h| + 1 - |r|;
    assert h + ([t] + u) == (h + [t]) + u;
    assert r == (h + [t])[k..];
  }

  /** Starting from a history within the bound, any number of answered
      questions leave the last MaxHistoryLength turns of everything seen. */
  lemma {:induction false} AppendAllWindow(h: seq<Turn>, ts: seq<Turn>)
    requires |h| <= MaxHistoryLength
    ensures AppendAll(h, ts) == KeepLast(h + ts, MaxHistoryLength)
    decreases |ts|
  {
    if ts == [] {
      assert h + ts == h;
    } else {
      var h' := AppendTurn(h, ts[0]);
      assert AppendAll(h, ts) == AppendAll(h', ts[1..]);
      AppendAllWindow(h', ts[1..]);
      assert ts == [ts[0]] + ts[1..];
      AppendTurnThen(h, ts[0], ts[1..]);
      KeepLastOfTail(h + ts, |h| + 1 - |h'|, MaxHistoryLength);
    }
  }

  /** After at least MaxHistoryLength answered questions on any history
      within the bound, exactly the last MaxHistoryLength of them remain, in
      order; nothing from before them is left. */
  lemma {:induction false} LastTurnsRemain(h: seq<Turn>, ts: seq<Turn>)
    requires |h| <= MaxHistoryLength
    requires |ts| >= MaxHistoryLength
    ensures AppendAll(h, ts) == ts[|ts| - MaxHistoryLength..]
  {
    AppendAllWindow(h, ts);
    KeepLastIsSuffix(h + ts, MaxHistoryLength);
    TailOfConcat(h, ts, MaxHistoryLength);
  }

  /** The last `n` elements of `a + b` lie wholly in `b` when `b` has `n`. */
  lemma TailOfConcat<T>(a: seq<T>, b: seq<T>, n: nat)
    requires n <= |b|
    ensures (a + b)[|a + b| - Min(|a + b|, n)..] == b[|b| - n..]
  {
    var ab := a + b;
    var k := |ab| - n;
    assert Min(|ab|, n) == n;
    assert ab[|a|..] == b;
    assert ab[k..] == ab[|a|..][k - |a|..];
  }
}
