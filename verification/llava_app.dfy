/** The local LLaVA chat app (test2.py): the prompt template around the
    context, the extraction of the reply from the decoded model output, and
    the chat turn that appends to the history. The model itself (loading,
    the processor, `generate` and `decode`) is the parameter `generate`,
    which maps the full prompt to the decoded text or to the exception it
    raised. */
module LlavaApp {
  import opened Text
  import opened Conversation
  import ChatRender

  /** The module-level `system_prompt`. */
  const SystemPrompt := "You're participating in an interview..."
  /** The separator the reply is cut at. */
  const Marker := "AI:"
  const ExceptionPrefix := "❌ 예외 발생: "

  /** The full prompt of `generate_response`: system prompt, the earlier
      conversation, then the image token and the current message, ending
      with the cue `AI:`. */
  function FullPrompt(context: string, prompt: string): (r: string)
    ensures EndsWith(r, Marker)
    ensures StartsWith(r, SystemPrompt + "\n\n이전 대화 내용:\n" + context + "\n\n사용자: <image>\n")
    ensures var n := |SystemPrompt + "\n\n이전 대화 내용:\n" + context + "\n\n사용자: <image>\n"|;
            && |r| == n + |prompt| + 4
            && r[n..n + |prompt|] == prompt
            && r[n + |prompt|..] == "\nAI:"
  {
    var head := SystemPrompt + "\n\n이전 대화 내용:\n" + context + "\n\n사용자: <image>\n";
    var r := head + prompt + "\nAI:";
    assert r == head + (prompt + "\nAI:");
    assert r[..|head|] == head;
    assert r[|r| - 3..] == Marker;
    assert r[|head|..|head| + |prompt|] == prompt;
    assert r[|head| + |prompt|..] == "\nAI:";
    r
  }

  /** Where the last piece of `s.split(sep)` starts, scanning for the
      separator from `i` inside the piece that starts at `start`, as
      `str.split` does: each match ends a piece and the scan resumes after
      it. */
  function LastPieceStart(s: string, sep: string, start: nat, i: nat): (k: nat)
    requires sep != []
    requires start <= i <= |s|
    requires forall j :: start <= j < i ==> !OccursAt(sep, s, j)
    ensures start <= k <= |s|
    ensures forall j :: k <= j ==> !OccursAt(sep, s, j)
    ensures k == start || OccursAt(sep, s, k - |sep|)
    decreases |s| - i
  {
    if i + |sep| > |s| then start
    else if OccursAt(sep, s, i) then LastPieceStart(s, sep, i + |sep|, i + |sep|)
    else LastPieceStart(s, sep, start, i + 1)
  }

  /** `generated_text.split("AI:")[-1].strip()`: the text after the last
      `AI:`, without surrounding whitespace. */
  function ExtractReply(generated: string): (r: string)
    ensures !Contains(r, Marker)
    ensures !Contains(generated, Marker) ==> r == Strip(generated)
  {
    var k := LastPieceStart(generated, Marker, 0, 0);
    TailWithoutMarker(generated, k);
    assert !Contains(generated, Marker) ==> generated[k..] == generated by {
      if !Contains(generated, Marker) {
        assert k == 0;
      }
    }
    Strip(generated[k..])
  }

  /** Stripping the text after the last `AI:` leaves no `AI:`. */
  lemma TailWithoutMarker(s: string, k: nat)
    requires k <= |s|
    requires forall j :: k <= j ==> !OccursAt(Marker, s, j)
    ensures !Contains(Strip(s[k..]), Marker)
  {
    var piece := s[k..];
    var r := Strip(piece);
    var a := SkipSpaces(piece, 0);
    assert r == s[k + a..k + a + |r|];
    if Contains(r, Marker) {
      var j :| 0 <= j <= |r| - |Marker| && OccursAt(Marker, r, j);
      OccursInSlice(Marker, s, k + a, k + a + |r|, j);
    }
  }

  /** When the decoded text is a prompt ending in `AI:` followed by a
      continuation without `AI:`, the extracted reply is exactly the
      stripped continuation. */
  lemma ReplyAfterCue(x: string, g: string)
    requires EndsWith(x, Marker)
    requires !Contains(g, Marker)
    ensures ExtractReply(x + g) == Strip(g)
  {
    CueIsLast(x, g);
    assert (x + g)[|x|..] == g;
  }

  /** The cue ending `x` is the last separator of `x + g` when `g` holds
      none. */
  lemma CueIsLast(x: string, g: string)
    requires EndsWith(x, Marker)
    requires !Contains(g, Marker)
    ensures LastPieceStart(x + g, Marker, 0, 0) == |x|
  {
    var s := x + g;
    var n := |x|;
    assert x == x[..n - 3] + Marker;
    OccursAtEnd(Marker, x[..n - 3]);
    OccursExtend(Marker, x, n - 3, g);
    forall j | n - 3 < j
      ensures !OccursAt(Marker, s, j)
    {
      if j < n {
        if OccursAt(Marker, s, j) {
          MarkersApart(s, n - 3, j);
        }
      } else {
        NoMarkerInTail(x, g, j);
      }
    }
    LastIsMarker(s, n - 3);
  }

  lemma NoMarkerInTail(x: string, g: string, j: int)
    requires !Contains(g, Marker) && |x| <= j
    ensures !OccursAt(Marker, x + g, j)
  {
    if OccursAt(Marker, x + g, j) {
      assert (x + g)[j..j + 3] == g[j - |x|..j - |x| + 3];
      assert OccursAt(Marker, g, j - |x|);
    }
  }

  /** The piece after an `AI:` with no `AI:` after it is the last piece. */
  lemma LastIsMarker(s: string, c: int)
    requires OccursAt(Marker, s, c)
    requires forall j :: c < j ==> !OccursAt(Marker, s, j)
    ensures LastPieceStart(s, Marker, 0, 0) == c + |Marker|
  {
    var k := LastPieceStart(s, Marker, 0, 0);
    assert c < k;
    if k - 3 < c {
      MarkersApart(s, k - 3, c);
    }
  }

  /** Two occurrences of `AI:` never overlap. */
  lemma MarkersApart(s: string, p: int, q: int)
    requires p < q && OccursAt(Marker, s, p) && OccursAt(Marker, s, q)
    ensures p + |Marker| <= q
  {
    assert s[p] == 'A' && s[p + 1] == 'I' && s[p + 2] == ':' by {
      assert s[p..p + 3] == Marker;
    }
    assert s[q] == 'A' by {
      assert s[q..q + 3] == Marker;
    }
  }

  /** Fed back the full prompt followed by the model's continuation, the
      extraction returns that continuation, stripped. */
  lemma ReplyToFullPrompt(context: string, prompt: string, continuation: string)
    requires !Contains(continuation, Marker)
    ensures ExtractReply(FullPrompt(context, prompt) + continuation) == Strip(continuation)
  {
    ReplyAfterCue(FullPrompt(context, prompt), continuation);
  }

  /** `generate_response`: the context of the history (which already ends
      in the current user turn), the full prompt, the model call, and the
      extraction of the reply; an exception of the model propagates. */
  method GenerateResponse(history: seq<Turn>, prompt: string, generate: string -> BackendResult)
    returns (r: BackendResult)
    ensures r == match generate(FullPrompt(ContextOf(history), prompt))
                 case Replied(text) => Replied(ExtractReply(text))
                 case Raised(e) => Raised(e)
  {
    var context := AssembleContext(history);
    var fullPrompt := FullPrompt(context, prompt);
    match generate(fullPrompt)
    case Replied(generatedText) =>
      r := Replied(ExtractReply(generatedText));
    case Raised(e) =>
      r := Raised(e);
  }

  /** The history after one `chat_with_model` call. */
  function NextHistory(turns: seq<Turn>, hasImage: bool, message: string, generate: string -> BackendResult)
    : (r: seq<Turn>)
    ensures IsBlank(message) ==> r == turns
    ensures !IsBlank(message) ==>
              && |r| == |turns| + 2
              && r[..|turns|] == turns
              && r[|turns|] == Turn(UserRole, message)
              && r[|turns| + 1].role == AiRole
    ensures !IsBlank(message) && !hasImage ==> r[|turns| + 1].text == ImageRequired
    ensures !IsBlank(message) && hasImage ==>
              match generate(FullPrompt(ContextOf(turns + [Turn(UserRole, message)]), message))
              case Replied(text) => r[|turns| + 1].text == ExtractReply(text) && !Contains(r[|turns| + 1].text, Marker)
              case Raised(e) => r[|turns| + 1].text == ExceptionPrefix + e
  {
    if IsBlank(message) then turns
    else
      var withUser := turns + [Turn(UserRole, message)];
      var reply :=
        if !hasImage then ImageRequired
        else match generate(FullPrompt(ContextOf(withUser), message))
             case Replied(text) => ExtractReply(text)
             case Raised(e) => ExceptionPrefix + e;
      withUser + [Turn(AiRole, reply)]
  }

  /** `chat_with_model`: appends the user turn and then exactly one AI turn
      (the image-required error, the exception text, or the reply) to the
      shared history; a blank message changes nothing. Returns the cleared
      input box. */
  method ChatWithModel(h: ChatHistory, hasImage: bool, userMessage: string, generate: string -> BackendResult)
    returns (cleared: string)
    modifies h
    ensures cleared == ""
    ensures h.turns == NextHistory(old(h.turns), hasImage, userMessage, generate)
  {
    cleared := "";
    if IsBlank(userMessage) {
      return;
    }
    h.Append(Turn(UserRole, userMessage));
    if !hasImage {
      h.Append(Turn(AiRole, ImageRequired));
      return;
    }
    var botResponse;
    var result := GenerateResponse(h.turns, userMessage, generate);
    match result {
      case Replied(text) =>
        botResponse := text;
      case Raised(e) =>
        botResponse := ExceptionPrefix + e;
    }
    h.Append(Turn(AiRole, botResponse));
  }

  /** `submit_message`: the chat turn, then the chat box of the new history. */
  method SubmitMessage(h: ChatHistory, hasImage: bool, message: string, generate: string -> BackendResult, time: string)
    returns (html: string, cleared: string)
    modifies h
    ensures h.turns == NextHistory(old(h.turns), hasImage, message, generate)
    ensures html == ChatRender.RenderedChat(ChatRender.IndentedTrailing, h.turns, time)
    ensures cleared == ""
  {
    if IsBlank(message) {
      html := ChatRender.RenderChat(ChatRender.IndentedTrailing, h.turns, time);
      cleared := "";
      return;
    }
    var _ := ChatWithModel(h, hasImage, message, generate);
    html := ChatRender.RenderChat(ChatRender.IndentedTrailing, h.turns, time);
    cleared := "";
  }

  /** `reset_chat`: a new empty history and the chat box with the indicator
      only. */
  method ResetChat() returns (h: ChatHistory, html: string)
    ensures fresh(h) && h.turns == []
    ensures html == ChatRender.RenderedChat(ChatRender.IndentedTrailing, [], "")
  {
    h := new ChatHistory();
    html := ChatRender.ResetHtml;
    ChatRender.ResetIsEmptyRender(ChatRender.IndentedTrailing, "");
  }
}
