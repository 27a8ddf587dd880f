/** The OpenAI chat app with redesign images (app_add_image_generator.py):
    the GPT-model filter and default, the redesign prompt built from the
    whole history, three image-generation calls, the modal gallery markup,
    and the chat turn that appends to the shared history. The image service
    is the parameter `generate`, which maps the model, the prompt and the
    number of the call (0, 1, 2) to the URL of the image or to the text of
    the exception it raised. */
module OpenAiApp {
  import opened Text
  import opened Sorting
  import opened Conversation
  import opened HostedChat
  import ChatRender

  const ApiErrorPrefix := "❌ OpenAI API 오류: "
  /** The id prefixes `get_openai_model_list` keeps. */
  const GptPrefixes: seq<string> := ["gpt-4", "gpt-3.5"]
  /** The model `update_models` prefers. */
  const PreferredModel := "gpt-4o"

  // ---------------------------------------------------------------------
  // Model list and default model

  predicate IsGptModel(id: string) {
    exists k | 0 <= k < |GptPrefixes| :: StartsWith(id, GptPrefixes[k])
  }

  /** The GPT ids of a listing, in listing order. */
  function GptIds(ids: seq<string>): (r: seq<string>)
    ensures forall x :: multiset(r)[x] == if IsGptModel(x) then multiset(ids)[x] else 0
    decreases |ids|
  {
    if ids == [] then []
    else
      var last := ids[|ids| - 1];
      assert ids == ids[..|ids| - 1] + [last];
      GptIds(ids[..|ids| - 1]) + if IsGptModel(last) then [last] else []
  }

  /** `get_openai_model_list` after the service call: the GPT ids, sorted,
      or the single error entry of a failed listing. */
  function GptModelList(listing: ModelListing): (r: seq<string>)
    ensures listing.ListFailed? ==> r == [ListFailurePrefix + listing.error]
    ensures listing.Listed? ==>
              && Sorted(r)
              && forall x :: multiset(r)[x] == if IsGptModel(x) then multiset(listing.ids)[x] else 0
  {
    match listing
    case ListFailed(e) => [ListFailurePrefix + e]
    case Listed(ids) => Sort(GptIds(ids))
  }

  /** The default of `update_models` as written: `"gpt-4o"` when listed,
      else `models[0]`, which raises `IndexError` (`None` here) on an empty
      list. */
  function DefaultModelAsWritten(models: seq<string>): (r: Option<string>)
    ensures r == None <==> models == []
    ensures r != None ==> r.value in models
  {
    if PreferredModel in models then Some(PreferredModel)
    else if |models| > 0 then Some(models[0])
    else None
  }

  /** A successful listing without any GPT model leaves `update_models`
      with an empty list, on which the default raises. */
  lemma NoGptModelNoDefault(ids: seq<string>)
    requires forall k :: 0 <= k < |ids| ==> !IsGptModel(ids[k])
    ensures GptModelList(Listed(ids)) == []
    ensures DefaultModelAsWritten(GptModelList(Listed(ids))) == None
  {
  }

  /** The default as intended: `"gpt-4o"` when listed or when nothing is
      listed, else the first listed model. It agrees with the code as
      written wherever that does not raise. */
  function DefaultModel(models: seq<string>): (r: string)
    ensures r in models || r == PreferredModel
    ensures PreferredModel in models ==> r == PreferredModel
    ensures models == [] ==> r == PreferredModel
    ensures models != [] ==> DefaultModelAsWritten(models) == Some(r)
  {
    if PreferredModel in models || models == [] then PreferredModel else models[0]
  }

  // ---------------------------------------------------------------------
  // Chat turn

  /** `chat_with_model`: a blank message changes nothing; otherwise the user
      turn and exactly one AI turn are appended to the shared history.
      Returns the two cleared outputs. */
  method ChatWithModel(h: ChatHistory, hasImage: bool, userMessage: string, apiKey: string,
                       systemPrompt: string, modelName: string, backend: ChatRequest -> BackendResult)
    returns (cleared1: string, cleared2: string)
    modifies h
    ensures cleared1 == "" && cleared2 == ""
    ensures h.turns == NextHistory(old(h.turns), hasImage, userMessage, apiKey, systemPrompt, modelName, ApiErrorPrefix, backend)
  {
    cleared1, cleared2 := "", "";
    if IsBlank(userMessage) {
      return;
    }
    h.Append(Turn(UserRole, userMessage));
    if !hasImage {
      h.Append(Turn(AiRole, ImageRequired));
      return;
    }
    var botResponse, _ := AskHostedModel(h.turns, userMessage, apiKey, systemPrompt, modelName, ApiErrorPrefix, backend);
    h.Append(Turn(AiRole, botResponse));
  }

  /** `submit_message`: the chat turn, then the chat box of the new history. */
  method SubmitMessage(h: ChatHistory, hasImage: bool, message: string, apiKey: string, systemPrompt: string,
                       modelName: string, backend: ChatRequest -> BackendResult, time: string)
    returns (html: string, cleared: string)
    modifies h
    ensures h.turns == NextHistory(old(h.turns), hasImage, message, apiKey, systemPrompt, modelName, ApiErrorPrefix, backend)
    ensures html == ChatRender.RenderedChat(ChatRender.Compact, h.turns, time)
    ensures cleared == ""
  {
    if IsBlank(message) {
      html := ChatRender.RenderChat(ChatRender.Compact, h.turns, time);
      cleared := "";
      return;
    }
    var _, _ := ChatWithModel(h, hasImage, message, apiKey, systemPrompt, modelName, backend);
    html := ChatRender.RenderChat(ChatRender.Compact, h.turns, time);
    cleared := "";
  }

  /** `reset_chat`: a new empty history, the chat box with the indicator
      only, and the cleared input box. */
  method ResetChat() returns (h: ChatHistory, html: string, cleared: string)
    ensures fresh(h) && h.turns == []
    ensures html == ChatRender.RenderedChat(ChatRender.Compact, [], "")
    ensures cleared == ""
  {
    h := new ChatHistory();
    html := ChatRender.ResetHtml;
    cleared := "";
    ChatRender.ResetIsEmptyRender(ChatRender.Compact, "");
  }

  // ---------------------------------------------------------------------
  // Redesign prompt

  const FeedbackHeader := "This is a conversation between a user and a design assistant.\n"
  const FeedbackFooter := "\nPlease redesign the UI based on this discussion."

  /** The line of one turn: role, colon, message. */
  function TranscriptLine(t: Turn): string {
    t.role + ": " + t.text + "\n"
  }

  /** The lines of the turns, in history order. */
  function Transcript(turns: seq<Turn>): string
    decreases |turns|
  {
    if turns == [] then ""
    else Transcript(turns[..|turns| - 1]) + TranscriptLine(turns[|turns| - 1])
  }

  /** The redesign prompt: the header, one line per turn, the request. */
  function FeedbackPrompt(turns: seq<Turn>): (r: string)
    ensures StartsWith(r, FeedbackHeader)
    ensures EndsWith(r, FeedbackFooter)
    ensures |r| == |FeedbackHeader| + |Transcript(turns)| + |FeedbackFooter|
    ensures r[|FeedbackHeader|..|r| - |FeedbackFooter|] == Transcript(turns)
  {
    var r := FeedbackHeader + Transcript(turns) + FeedbackFooter;
    assert r[..|FeedbackHeader|] == FeedbackHeader;
    assert r[|r| - |FeedbackFooter|..] == FeedbackFooter;
    assert r[|FeedbackHeader|..|r| - |FeedbackFooter|] == Transcript(turns);
    r
  }

  /** The transcript of two stretches of history is the transcript of the
      first followed by that of the second. */
  lemma {:induction false} TranscriptAppend(a: seq<Turn>, b: seq<Turn>)
    ensures Transcript(a + b) == Transcript(a) + Transcript(b)
    decreases |b|
  {
    if b == [] {
      assert a + b == a;
    } else {
      var n := |b|;
      assert (a + b)[..|a + b| - 1] == a + b[..n - 1];
      assert (a + b)[|a + b| - 1] == b[n - 1];
      TranscriptAppend(a, b[..n - 1]);
      ChatRender.ConcatAssoc(Transcript(a), Transcript(b[..n - 1]), TranscriptLine(b[n - 1]));
    }
  }

  /** Unlike the chat context, the redesign prompt keeps the roles: two
      histories that differ only in one role give different prompts. */
  lemma TranscriptKeepsRoles(before: seq<Turn>, t: Turn, u: Turn, after: seq<Turn>)
    requires t.text == u.text && t.role != u.role
    ensures FeedbackPrompt(before + [t] + after) != FeedbackPrompt(before + [u] + after)
  {
    TranscriptDiffers(before, t, u, after);
  }

  lemma {:induction false} TranscriptDiffers(before: seq<Turn>, t: Turn, u: Turn, after: seq<Turn>)
    requires t.text == u.text && t.role != u.role
    ensures Transcript(before + [t] + after) != Transcript(before + [u] + after)
  {
    TranscriptAppend(before + [t], after);
    TranscriptAppend(before + [u], after);
    assert (before + [t])[..|before|] == before && (before + [u])[..|before|] == before;
    if Transcript(before + [t] + after) == Transcript(before + [u] + after) {
      SandwichInjective(Transcript(before), TranscriptLine(t), TranscriptLine(u), Transcript(after));
      LineKeepsRole(t, u);
    }
  }

  lemma SandwichInjective(p: string, l1: string, l2: string, q: string)
    requires p + l1 + q == p + l2 + q
    ensures l1 == l2
  {
    var x := p + l1 + q;
    assert x[|p|..|p| + |l1|] == l1;
    assert x[|p|..|p| + |l2|] == l2;
  }

  lemma LineKeepsRole(t: Turn, u: Turn)
    requires t.text == u.text && TranscriptLine(t) == TranscriptLine(u)
    ensures t.role == u.role
  {
    var x := TranscriptLine(t);
    assert x[..|t.role|] == t.role;
    assert TranscriptLine(u)[..|u.role|] == u.role;
  }

  /** The loop that accumulates `feedback_prompt`. */
  method BuildFeedbackPrompt(history: seq<Turn>) returns (prompt: string)
    ensures prompt == FeedbackPrompt(history)
  {
    prompt := FeedbackHeader;
    var i := 0;
    assert Transcript(history[..0]) == "";
    while i < |history|
      invariant 0 <= i <= |history|
      invariant prompt == FeedbackHeader + Transcript(history[..i])
    {
      var line := TranscriptLine(history[i]);
      assert history[..i + 1][..i] == history[..i];
      ChatRender.ConcatAssoc(FeedbackHeader, Transcript(history[..i]), line);
      prompt := prompt + line;
      i := i + 1;
    }
    assert history[..i] == history;
    prompt := prompt + FeedbackFooter;
  }

  // ---------------------------------------------------------------------
  // Modal gallery

  const ModalCss := "\n    <style>\n    .modal-img {\n        max-height: 200px;\n        cursor: pointer;\n        transition: 0.3s;\n        border-radius: 8px;\n        border: 1px solid #ccc;\n        margin-right: 8px;\n    }\n    .modal-overlay {\n        display: none;\n        position: fixed;\n        z-index: 999;\n        left: 0;\n        top: 0;\n        width: 100vw;\n        height: 100vh;\n        background-color: rgba(0,0,0,0.7);\n    }\n    .modal-overlay img {\n        display: block;\n        max-width: 90vw;\n        max-height: 90vh;\n        margin: 5vh auto;\n        border-radius: 10px;\n    }\n    </style>\n    "

  /** The pieces of the block template between its holes. */
  const BlockHead := "\n        <div style=\"display:inline-block;text-align:center;margin:8px;\">\n            <img class=\"modal-img\" src=\""
  const BlockOpenCall := "\" onclick=\"document.getElementById('"
  const BlockOverlay := "').style.display='block'\">\n            <div id=\""
  const BlockLarge := "\" class=\"modal-overlay\" onclick=\"this.style.display='none'\">\n                <img src=\""
  const BlockTail := "\" />\n            </div>\n        </div>\n        "

  /** The element id of the overlay of image `i`. */
  function ModalId(i: nat): string {
    "modal-" + Decimal(i)
  }

  /** The block of image `i`: the thumbnail, whose click shows overlay
      `modal-i`, and that overlay with the full image. */
  function ModalBlock(i: nat, url: string): string {
    BlockHead + url + BlockOpenCall + ModalId(i) + BlockOverlay + ModalId(i) + BlockLarge + url + BlockTail
  }

  /** The blocks of the URLs, block `k` for URL `k`. */
  function ModalBlocks(urls: seq<string>): (r: seq<string>)
    ensures |r| == |urls|
    ensures forall k :: 0 <= k < |urls| ==> r[k] == ModalBlock(k, urls[k])
  {
    seq(|urls|, k requires 0 <= k < |urls| => ModalBlock(k, urls[k]))
  }

  /** What `generate_modal_images_html` returns: the style block, then the
      blocks. */
  function Gallery(urls: seq<string>): string {
    ModalCss + Join(ModalBlocks(urls), "")
  }

  /** `generate_modal_images_html`: the loop that collects one block per
      URL, then the style block followed by the joined blocks. */
  method GenerateModalImagesHtml(imageUrls: seq<string>) returns (html: string)
    ensures html == Gallery(imageUrls)
  {
    var modalBlocks: seq<string> := [];
    var i := 0;
    while i < |imageUrls|
      invariant 0 <= i <= |imageUrls|
      invariant modalBlocks == ModalBlocks(imageUrls[..i])
    {
      ModalBlocksStep(imageUrls, i);
      modalBlocks := modalBlocks + [ModalBlock(i, imageUrls[i])];
      i := i + 1;
    }
    assert imageUrls[..i] == imageUrls;
    html := ModalCss + Join(modalBlocks, "");
  }

  lemma ModalBlocksStep(urls: seq<string>, i: nat)
    requires i < |urls|
    ensures ModalBlocks(urls[..i + 1]) == ModalBlocks(urls[..i]) + [ModalBlock(i, urls[i])]
  {
  }

  /** Joining one more part without a separator, behind a fixed head. */
  lemma HeadedJoinSnoc(head: string, parts: seq<string>, p: string)
    ensures head + Join(parts + [p], "") == head + Join(parts, "") + p
  {
    JoinSnoc(parts, p, "");
    if parts == [] {
      assert head + Join(parts, "") == head;
    } else {
      assert Join(parts, "") + "" == Join(parts, "");
      ChatRender.ConcatAssoc(head, Join(parts, ""), p);
    }
  }

  /** No URL gives the style block alone. */
  lemma GalleryOfNothing()
    ensures Gallery([]) == ModalCss
  {
  }

  /** One more URL adds its block, numbered by its position, at the end. */
  lemma GalleryAppend(urls: seq<string>, url: string)
    ensures Gallery(urls + [url]) == Gallery(urls) + ModalBlock(|urls|, url)
  {
    assert ModalBlocks(urls + [url]) == ModalBlocks(urls) + [ModalBlock(|urls|, url)];
    HeadedJoinSnoc(ModalCss, ModalBlocks(urls), ModalBlock(|urls|, url));
  }

  /** In a template `head url call id overlay id large url tail`, the two
      copies of `url` and of `id` sit at the expected offsets. */
  lemma TemplateHoles(head: string, url: string, call: string, id: string, overlay: string, large: string, tail: string)
    ensures var b := head + url + call + id + overlay + id + large + url + tail;
            var p1 := |head|;
            var q1 := p1 + |url| + |call|;
            var q2 := q1 + |id| + |overlay|;
            var p2 := q2 + |id| + |large|;
            && OccursAt(url, b, p1) && OccursAt(url, b, p2)
            && OccursAt(id, b, q1) && OccursAt(id, b, q2)
  {
    var s1 := head + url;
    var s2 := s1 + call;
    var s3 := s2 + id;
    var s4 := s3 + overlay;
    var s5 := s4 + id;
    var s6 := s5 + large;
    var s7 := s6 + url;
    var b := s7 + tail;
    OccursAtEnd(url, head);
    OccursExtend(url, s1, |head|, call);
    OccursExtend(url, s2, |head|, id);
    OccursExtend(url, s3, |head|, overlay);
    OccursExtend(url, s4, |head|, id);
    OccursExtend(url, s5, |head|, large);
    OccursExtend(url, s6, |head|, url);
    OccursExtend(url, s7, |head|, tail);
    OccursAtEnd(id, s2);
    OccursExtend(id, s3, |s2|, overlay);
    OccursExtend(id, s4, |s2|, id);
    OccursExtend(id, s5, |s2|, large);
    OccursExtend(id, s6, |s2|, url);
    OccursExtend(id, s7, |s2|, tail);
    OccursAtEnd(id, s4);
    OccursExtend(id, s5, |s4|, large);
    OccursExtend(id, s6, |s4|, url);
    OccursExtend(id, s7, |s4|, tail);
    OccursAtEnd(url, s6);
    OccursExtend(url, s7, |s6|, tail);
  }

  /** Block `i` shows its URL twice (thumbnail and full image) and names
      overlay `modal-i` twice (in the click handler and as the overlay's
      id). */
  lemma ModalBlockShape(i: nat, url: string)
    ensures var b := ModalBlock(i, url);
            var id := ModalId(i);
            var p1 := |BlockHead|;
            var q1 := p1 + |url| + |BlockOpenCall|;
            var q2 := q1 + |id| + |BlockOverlay|;
            var p2 := q2 + |id| + |BlockLarge|;
            && OccursAt(url, b, p1) && OccursAt(url, b, p2) && p1 < p2
            && OccursAt(id, b, q1) && OccursAt(id, b, q2) && q1 < q2
  {
    TemplateHoles(BlockHead, url, BlockOpenCall, ModalId(i), BlockOverlay, BlockLarge, BlockTail);
  }

  /** Different images of one gallery get different overlay ids. */
  lemma ModalIdsDistinct(i: nat, j: nat)
    requires i != j
    ensures ModalId(i) != ModalId(j)
  {
    DecimalInjective(i, j);
    assert ModalId(i)[6..] == Decimal(i);
    assert ModalId(j)[6..] == Decimal(j);
  }

  // ---------------------------------------------------------------------
  // Redesign images

  /** What one image-generation call gives. */
  datatype GenResult = Generated(url: string) | GenFailed(error: string)

  /** The outcome of the first `n` calls: their URLs in call order, or the
      error of the first call that failed. */
  datatype Outcome = Urls(urls: seq<string>) | Failed(error: string)

  /** How many images one redesign asks for. */
  const ImageCount := 3

  function Generations(model: string, prompt: string, generate: (string, string, nat) -> GenResult, n: nat)
    : (r: Outcome)
    ensures r.Urls? <==> forall k :: 0 <= k < n ==> generate(model, prompt, k).Generated?
    ensures r.Urls? ==> |r.urls| == n && forall k :: 0 <= k < n ==> generate(model, prompt, k) == Generated(r.urls[k])
    ensures r.Failed? ==> exists k :: 0 <= k < n && generate(model, prompt, k) == GenFailed(r.error)
                                     && forall j :: 0 <= j < k ==> generate(model, prompt, j).Generated?
  {
    if n == 0 then Urls([])
    else match Generations(model, prompt, generate, n - 1)
         case Failed(e) => Failed(e)
         case Urls(us) =>
           match generate(model, prompt, n - 1)
           case Generated(u) => Urls(us + [u])
           case GenFailed(e) => Failed(e)
  }

  /** Once call `i` fails after `i` successes, every longer run of calls
      ends in that failure. */
  lemma {:induction false} FailureStops(model: string, prompt: string, generate: (string, string, nat) -> GenResult,
                                        i: nat, n: nat, e: string)
    requires i < n
    requires Generations(model, prompt, generate, i).Urls?
    requires generate(model, prompt, i) == GenFailed(e)
    ensures Generations(model, prompt, generate, n) == Failed(e)
    decreases n
  {
    if n > i + 1 {
      FailureStops(model, prompt, generate, i, n - 1, e);
    }
  }

  /** The `for` loop inside the `try`: the calls in order, stopping at the
      first one that raises. */
  method GenerateImages(model: string, prompt: string, generate: (string, string, nat) -> GenResult)
    returns (outcome: Outcome)
    ensures outcome == Generations(model, prompt, generate, ImageCount)
  {
    var imageUrls: seq<string> := [];
    var i := 0;
    while i < ImageCount
      invariant 0 <= i <= ImageCount
      invariant Generations(model, prompt, generate, i) == Urls(imageUrls)
    {
      match generate(model, prompt, i) {
        case GenFailed(e) =>
          FailureStops(model, prompt, generate, i, ImageCount, e);
          return Failed(e);
        case Generated(url) =>
          imageUrls := imageUrls + [url];
      }
      i := i + 1;
    }
    outcome := Urls(imageUrls);
  }

  /** The error bubble of the missing key or image. */
  const NeedKeyAndImage := "<div class='bubble ai-bubble'>❌ API 키와 이미지가 필요합니다.</div>"
  /** The AI turn that introduces the gallery. */
  const GalleryIntro := "아래는 개선된 UI 디자인 예시들입니다."
  const GenFailurePrefix := "❌ 이미지 생성 실패: "

  /** What `apply_chat_feedback_to_image` returns besides the history: two
      values on its early exit, three otherwise. */
  datatype FeedbackReturn = Two(html: string) | Three(html: string, urls: seq<string>)

  /** What the `try` block of `apply_chat_feedback_to_image` returns, and the
      history it leaves, for the outcome of the generation calls: with all
      URLs, the gallery, the URLs, and two AI turns (the introduction, then
      the gallery); after a failure, nothing to show and one AI turn that
      reports the error. */
  function Recorded(turns: seq<Turn>, outcome: Outcome): (r: (FeedbackReturn, seq<Turn>))
    ensures r.0.Three?
    ensures |r.1| > |turns| && r.1[..|turns|] == turns
    ensures forall k :: |turns| <= k < |r.1| ==> r.1[k].role == AiRole
    ensures outcome.Urls? ==>
              && r.0 == Three(Gallery(outcome.urls), outcome.urls)
              && |r.1| == |turns| + 2
              && r.1[|turns|].text == GalleryIntro && r.1[|turns| + 1].text == r.0.html
    ensures outcome.Failed? ==>
              && r.0 == Three("", [])
              && |r.1| == |turns| + 1
              && StartsWith(r.1[|turns|].text, GenFailurePrefix)
              && EndsWith(r.1[|turns|].text, outcome.error)
  {
    match outcome
    case Urls(urls) =>
      (Three(Gallery(urls), urls), turns + [Turn(AiRole, GalleryIntro), Turn(AiRole, Gallery(urls))])
    case Failed(e) =>
      var text := GenFailurePrefix + e;
      assert text[..|GenFailurePrefix|] == GenFailurePrefix;
      assert text[|text| - |e|..] == e;
      (Three("", []), turns + [Turn(AiRole, text)])
  }

  /** What `apply_chat_feedback_to_image` returns, and the history it leaves:
      without a key or an image, the error bubble and the same history;
      otherwise the turns the generation calls on the redesign prompt of
      the history lead to. */
  function FeedbackOutcome(turns: seq<Turn>, apiKey: string, hasImage: bool, model: string,
                           generate: (string, string, nat) -> GenResult)
    : (r: (FeedbackReturn, seq<Turn>))
    ensures apiKey == "" || !hasImage ==> r == (Two(NeedKeyAndImage), turns)
    ensures apiKey != "" && hasImage ==> r.0.Three? && |r.1| > |turns| && r.1[..|turns|] == turns
  {
    if apiKey == "" || !hasImage then (Two(NeedKeyAndImage), turns)
    else Recorded(turns, Generations(model, FeedbackPrompt(turns), generate, ImageCount))
  }

  /** When every generation call succeeds, the button shows all the images,
      in call order, and the history gains the introduction and the
      gallery. */
  lemma FeedbackSucceeds(turns: seq<Turn>, apiKey: string, hasImage: bool, model: string,
                         generate: (string, string, nat) -> GenResult)
    requires apiKey != "" && hasImage
    requires forall k :: 0 <= k < ImageCount ==> generate(model, FeedbackPrompt(turns), k).Generated?
    ensures var r := FeedbackOutcome(turns, apiKey, hasImage, model, generate);
            && |r.0.urls| == ImageCount
            && (forall k :: 0 <= k < ImageCount ==> generate(model, FeedbackPrompt(turns), k) == Generated(r.0.urls[k]))
            && r.0.html == Gallery(r.0.urls)
            && r.1 == turns + [Turn(AiRole, GalleryIntro), Turn(AiRole, r.0.html)]
  {
    var g := Generations(model, FeedbackPrompt(turns), generate, ImageCount);
    assert g.Urls?;
  }

  /** When a generation call fails, no image is shown and the history gains
      one AI turn that reports the error of the first failed call. */
  lemma FeedbackFails(turns: seq<Turn>, apiKey: string, hasImage: bool, model: string,
                      generate: (string, string, nat) -> GenResult, k: nat)
    requires apiKey != "" && hasImage && k < ImageCount
    requires !generate(model, FeedbackPrompt(turns), k).Generated?
    ensures var r := FeedbackOutcome(turns, apiKey, hasImage, model, generate);
            && r.0 == Three("", [])
            && |r.1| == |turns| + 1 && r.1[|turns|].role == AiRole
            && StartsWith(r.1[|turns|].text, GenFailurePrefix)
            && exists j :: 0 <= j <= k && generate(model, FeedbackPrompt(turns), j) == GenFailed(r.1[|turns|].text[|GenFailurePrefix|..])
  {
    var g := Generations(model, FeedbackPrompt(turns), generate, ImageCount);
    assert g.Failed?;
    var r := Recorded(turns, g);
    assert r.1[|turns|].text == GenFailurePrefix + g.error;
    assert r.1[|turns|].text[|GenFailurePrefix|..] == g.error;
  }

  /** The `try` block after the calls: the gallery or the error is recorded
      in the shared history. */
  method RecordGenerations(h: ChatHistory, outcome: Outcome) returns (ret: FeedbackReturn)
    modifies h
    ensures (ret, h.turns) == Recorded(old(h.turns), outcome)
  {
    match outcome {
      case Urls(imageUrls) =>
        var modalHtml := GenerateModalImagesHtml(imageUrls);
        var intro, gallery := Turn(AiRole, GalleryIntro), Turn(AiRole, modalHtml);
        h.Append(intro);
        h.Append(gallery);
        assert h.turns == old(h.turns) + [intro, gallery];
        ret := Three(modalHtml, imageUrls);
      case Failed(e) =>
        h.Append(Turn(AiRole, GenFailurePrefix + e));
        ret := Three("", []);
    }
  }

  /** `apply_chat_feedback_to_image`, changing the shared history in place. */
  method ApplyChatFeedbackToImage(h: ChatHistory, apiKey: string, hasImage: bool, dalleModel: string,
                                  generate: (string, string, nat) -> GenResult)
    returns (ret: FeedbackReturn)
    modifies h
    ensures (ret, h.turns) == FeedbackOutcome(old(h.turns), apiKey, hasImage, dalleModel, generate)
  {
    if apiKey == "" || !hasImage {
      return Two(NeedKeyAndImage);
    }
    var feedbackPrompt := BuildFeedbackPrompt(h.turns);
    var outcome := GenerateImages(dalleModel, feedbackPrompt, generate);
    ret := RecordGenerations(h, outcome);
  }

  /** The three-name unpack of `apply_button_action` as written: it raises
      `ValueError` (`None` here) on the two-value early exit. */
  function UnpackThree(ret: FeedbackReturn): (r: Option<(string, seq<string>)>)
    ensures r == None <==> ret.Two?
  {
    match ret
    case Two(_) => None
    case Three(html, urls) => Some((html, urls))
  }

  /** Clicking the redesign button without a key or an image makes the
      handler raise instead of answering. */
  lemma GuardExitBreaksUnpack(turns: seq<Turn>, apiKey: string, hasImage: bool, model: string,
                              generate: (string, string, nat) -> GenResult)
    requires apiKey == "" || !hasImage
    ensures UnpackThree(FeedbackOutcome(turns, apiKey, hasImage, model, generate).0) == None
  {
  }

  /** The unpack as intended: the early exit counts as an empty URL list. */
  function UnpackPadded(ret: FeedbackReturn): (r: (string, seq<string>))
    ensures ret.Two? ==> r == (ret.html, [])
    ensures ret.Three? ==> UnpackThree(ret) == Some(r)
  {
    match ret
    case Two(html) => (html, [])
    case Three(html, urls) => (html, urls)
  }

  /** `apply_button_action` with the intended unpack: the redesign step,
      then the chat box of the new history and the URLs of the new images
      (none on the early exit or after a failure). */
  method ApplyButtonAction(h: ChatHistory, apiKey: string, hasImage: bool, dalleModel: string,
                           generate: (string, string, nat) -> GenResult, time: string)
    returns (html: string, imageUrls: seq<string>)
    modifies h
    ensures h.turns == FeedbackOutcome(old(h.turns), apiKey, hasImage, dalleModel, generate).1
    ensures imageUrls == UnpackPadded(FeedbackOutcome(old(h.turns), apiKey, hasImage, dalleModel, generate).0).1
    ensures html == ChatRender.RenderedChat(ChatRender.Compact, h.turns, time)
  {
    var ret := ApplyChatFeedbackToImage(h, apiKey, hasImage, dalleModel, generate);
    var (_, urls) := UnpackPadded(ret);
    imageUrls := urls;
    html := ChatRender.RenderChat(ChatRender.Compact, h.turns, time);
  }

  /** With the intended unpack the button always answers: no URLs on the
      early exit or after a failure, all of them after a success. */
  lemma ButtonUrls(turns: seq<Turn>, apiKey: string, hasImage: bool, model: string,
                   generate: (string, string, nat) -> GenResult)
    ensures var urls := UnpackPadded(FeedbackOutcome(turns, apiKey, hasImage, model, generate).0).1;
            && (urls == [] || |urls| == ImageCount)
            && (apiKey == "" || !hasImage ==> urls == [])
  {
  }
}
