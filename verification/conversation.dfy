/** The conversation shared by the three chat apps: the history of
    (role, text) turns that each app mutates in place, the stride-2 pairing
    pass that turns it into a context string, and the request text built
    from that context (app.py:50-63, app_add_image_generator.py:34-47,
    test2.py:50-58). */
module Conversation {
  import opened Text

  /** The role the apps write for a user turn; every other role renders as
      the assistant. */
  const UserRole := "사용자"
  /** The role the apps write for an assistant turn. */
  const AiRole := "AI"

  /** One `(role, message)` tuple of the history list. */
  datatype Turn = Turn(role: string, text: string)

  /** The history list (`chat_state`), shared by reference between the UI
      state and the handlers that append to it. */
  class ChatHistory {
    var turns: seq<Turn>

    /** `[]`: a new, empty history. */
    constructor ()
      ensures turns == []
    {
      turns := [];
    }

    /** `chat_history.append(turn)`. */
    method Append(t: Turn)
      modifies this
      ensures turns == old(turns) + [t]
    {
      turns := turns + [t];
    }
  }

  /** The rendering of one pair: `f"사용자: {u}\nAI: {a}"`. */
  function PairLine(u: string, a: string): string {
    "사용자: " + u + "\nAI: " + a
  }

  /** The pair lines of the pairing pass: entries 0 and 1, then 2 and 3, and
      so on, whatever their roles; an unpaired last entry is skipped. */
  function PairLines(turns: seq<Turn>): (r: seq<string>)
    ensures |r| == |turns| / 2
    ensures forall k :: 0 <= k < |r| ==> r[k] == PairLine(turns[2 * k].text, turns[2 * k + 1].text)
    decreases |turns|
  {
    if |turns| < 2 then []
    else [PairLine(turns[0].text, turns[1].text)] + PairLines(turns[2..])
  }

  /** The context string: the pair lines joined by newlines. */
  function ContextOf(turns: seq<Turn>): string {
    Join(PairLines(turns), "\n")
  }

  /** The pairing loop and the join that follows it (app.py:50-57 and its
      two copies). */
  method AssembleContext(history: seq<Turn>) returns (context: string)
    ensures context == ContextOf(history)
  {
    var contextPairs: seq<string> := [];
    if |history| > 0 {
      var i := 0;
      while i < |history| - 1
        invariant i % 2 == 0 && i <= |history|
        invariant |contextPairs| == i / 2
        invariant forall k :: 0 <= k < i / 2 ==>
          contextPairs[k] == PairLine(history[2 * k].text, history[2 * k + 1].text)
      {
        if i + 1 < |history| {
          var userMsg := history[i].text;
          var aiMsg := history[i + 1].text;
          contextPairs := contextPairs + [PairLine(userMsg, aiMsg)];
        }
        i := i + 2;
      }
    }
    assert contextPairs == PairLines(history);
    context := Join(contextPairs, "\n");
  }

  /** The text block of the request: `f"{context}\n사용자: {prompt}"`. */
  function RequestText(history: seq<Turn>, prompt: string): string {
    ContextOf(history) + "\n사용자: " + prompt
  }

  /** Fewer than two turns give the empty context. */
  lemma ContextEmptyBelowTwo(history: seq<Turn>)
    requires |history| < 2
    ensures ContextOf(history) == ""
  {
  }

  /** When the history ends in the freshly appended user turn (odd length),
      that turn is not in the context. */
  lemma {:induction false} PendingTurnExcluded(history: seq<Turn>, pending: Turn)
    requires |history| % 2 == 0
    ensures ContextOf(history + [pending]) == ContextOf(history)
  {
    var h := history + [pending];
    assert PairLines(h) == PairLines(history) by {
      forall k | 0 <= k < |history| / 2
        ensures PairLines(h)[k] == PairLines(history)[k]
      {
        assert h[2 * k] == history[2 * k] && h[2 * k + 1] == history[2 * k + 1];
      }
    }
  }

  /** A completed exchange adds exactly its own pair line, after a newline
      when there was context before. */
  lemma {:induction false} ContextGrowsByPair(history: seq<Turn>, u: Turn, a: Turn)
    requires |history| % 2 == 0
    ensures ContextOf(history + [u, a])
         == (if history == [] then "" else ContextOf(history) + "\n") + PairLine(u.text, a.text)
  {
    var h := history + [u, a];
    assert PairLines(h) == PairLines(history) + [PairLine(u.text, a.text)] by {
      forall k | 0 <= k < |history| / 2
        ensures PairLines(h)[k] == PairLines(history)[k]
      {
        assert h[2 * k] == history[2 * k] && h[2 * k + 1] == history[2 * k + 1];
      }
      assert h[|history|] == u && h[|history| + 1] == a;
    }
    JoinSnoc(PairLines(history), PairLine(u.text, a.text), "\n");
  }

  /** The pairing is by position only: two histories with the same texts
      give the same context, whatever their roles. */
  lemma ContextIgnoresRoles(h1: seq<Turn>, h2: seq<Turn>)
    requires |h1| == |h2|
    requires forall k :: 0 <= k < |h1| ==> h1[k].text == h2[k].text
    ensures ContextOf(h1) == ContextOf(h2)
  {
    assert PairLines(h1) == PairLines(h2);
  }

  /** When the history before the new user turn is well paired, the request
      carries the new message once, after the context of the earlier turns. */
  lemma RequestCarriesPromptOnce(history: seq<Turn>, prompt: string)
    requires |history| % 2 == 0
    ensures RequestText(history + [Turn(UserRole, prompt)], prompt)
         == ContextOf(history) + "\n사용자: " + prompt
  {
    PendingTurnExcluded(history, Turn(UserRole, prompt));
  }

  /** When an odd history (after a failed redesign added a single AI turn)
      receives the new user turn, that turn is paired into the context: the
      request then carries the new message twice. */
  lemma {:induction false} OddHistoryPairsPendingTurn(history: seq<Turn>, prompt: string)
    requires |history| % 2 == 1
    ensures var h := history + [Turn(UserRole, prompt)];
            ContextOf(h) == (if |history| == 1 then "" else ContextOf(history[..|history| - 1]) + "\n")
                            + PairLine(history[|history| - 1].text, prompt)
  {
    var n := |history|;
    var h := history + [Turn(UserRole, prompt)];
    assert h == history[..n - 1] + [history[n - 1], Turn(UserRole, prompt)];
    ContextGrowsByPair(history[..n - 1], history[n - 1], Turn(UserRole, prompt));
  }

  /** What a chat backend returns: the reply text, or the text of the
      exception it raised. */
  datatype BackendResult = Replied(text: string) | Raised(error: string)

  /** The AI turn every app appends when no image was uploaded. */
  const ImageRequired := "❌ 이미지를 반드시 업로드해주세요."
}
