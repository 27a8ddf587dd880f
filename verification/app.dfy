/** The OpenRouter chat app (app.py): the vision-model filter over the
    model listing, the default-model choice of `update_models`, and the chat
    turn that appends to the shared history. */
module OpenRouterApp {
  import opened Text
  import opened Sorting
  import opened Conversation
  import opened HostedChat
  import ChatRender

  const ApiErrorPrefix := "❌ OpenRouter API 오류: "
  /** The substrings that mark a model id as vision-capable. */
  const VisionKeywords: seq<string> := ["gpt-4", "claude", "gemini", "llava", "vision", "multimodal"]
  /** How many ids are shown when none is vision-capable. */
  const ListLimit := 20
  /** The dropdown entry and model value shown before a key is entered. */
  const Placeholder := "(API 키 먼저 입력하세요)"
  /** The models `update_models` prefers, best first. */
  const PreferredModels: seq<string> := ["openai/gpt-4o", "anthropic/claude-3-5-sonnet", "google/gemini-pro-vision"]
  /** The model used when no listed model can be the default. */
  const FallbackModel := "openai/gpt-4o"

  /** An id one of whose keywords occurs in its lower-cased form. */
  predicate IsVisionModel(id: string) {
    exists k | 0 <= k < |VisionKeywords| :: Contains(Lower(id), VisionKeywords[k])
  }

  /** The vision ids of a listing, in listing order. */
  function VisionIds(ids: seq<string>): (r: seq<string>)
    ensures forall x :: multiset(r)[x] == if IsVisionModel(x) then multiset(ids)[x] else 0
    decreases |ids|
  {
    if ids == [] then []
    else
      var last := ids[|ids| - 1];
      assert ids == ids[..|ids| - 1] + [last];
      VisionIds(ids[..|ids| - 1]) + if IsVisionModel(last) then [last] else []
  }

  function Min(a: int, b: int): int {
    if a <= b then a else b
  }

  /** The list `get_openrouter_model_list` returns for a listing. */
  function ModelList(listing: ModelListing): (r: seq<string>)
    ensures listing.ListFailed? ==> r == [ListFailurePrefix + listing.error]
    ensures listing.Listed? && (exists k :: 0 <= k < |listing.ids| && IsVisionModel(listing.ids[k])) ==>
              && Sorted(r)
              && forall x :: multiset(r)[x] == if IsVisionModel(x) then multiset(listing.ids)[x] else 0
    ensures listing.Listed? && (forall k :: 0 <= k < |listing.ids| ==> !IsVisionModel(listing.ids[k])) ==>
              r == listing.ids[..Min(ListLimit, |listing.ids|)]
  {
    match listing
    case ListFailed(e) => [ListFailurePrefix + e]
    case Listed(ids) =>
      var vision := VisionIds(ids);
      assert vision != [] <==> exists k :: 0 <= k < |ids| && IsVisionModel(ids[k]) by {
        if vision != [] {
          assert multiset(vision)[vision[0]] > 0;
          var k :| 0 <= k < |ids| && ids[k] == vision[0];
        } else {
          forall k | 0 <= k < |ids| ensures !IsVisionModel(ids[k]) {
            assert multiset(ids)[ids[k]] > 0;
          }
        }
      }
      if vision != [] then Sort(vision) else ids[..Min(ListLimit, |ids|)]
  }

  /** `get_openrouter_model_list` after the service call: the loop that
      collects the vision ids, then the sorted list or the first ids. */
  method GetModelList(listing: ModelListing) returns (models: seq<string>)
    ensures models == ModelList(listing)
  {
    match listing {
      case ListFailed(e) =>
        models := [ListFailurePrefix + e];
      case Listed(ids) =>
        var visionModels := [];
        var i := 0;
        while i < |ids|
          invariant 0 <= i <= |ids|
          invariant visionModels == VisionIds(ids[..i])
        {
          var modelId := ids[i];
          VisionIdsStep(ids, i);
          if IsVisionModel(modelId) {
            visionModels := visionModels + [modelId];
          }
          i := i + 1;
        }
        assert ids[..i] == ids;
        if visionModels != [] {
          models := Sort(visionModels);
        } else {
          models := ids[..Min(ListLimit, |ids|)];
        }
        ModelListOfListing(ids);
    }
  }

  lemma VisionIdsStep(ids: seq<string>, i: nat)
    requires i < |ids|
    ensures VisionIds(ids[..i + 1]) == VisionIds(ids[..i]) + if IsVisionModel(ids[i]) then [ids[i]] else []
  {
    assert ids[..i + 1][..i] == ids[..i];
  }

  lemma ModelListOfListing(ids: seq<string>)
    ensures ModelList(Listed(ids)) == if VisionIds(ids) != [] then Sort(VisionIds(ids)) else ids[..Min(ListLimit, |ids|)]
  {
  }

  /** When a vision id is listed, the result depends only on which ids are
      listed, not on the order the service lists them in. */
  lemma ModelListIgnoresOrder(a: seq<string>, b: seq<string>)
    requires multiset(a) == multiset(b)
    requires exists k :: 0 <= k < |a| && IsVisionModel(a[k])
    ensures ModelList(Listed(a)) == ModelList(Listed(b))
  {
    var va, vb := VisionIds(a), VisionIds(b);
    assert multiset(va) == multiset(vb) by {
      forall x ensures multiset(va)[x] == multiset(vb)[x] {
      }
    }
    var k :| 0 <= k < |a| && IsVisionModel(a[k]);
    assert multiset(va)[a[k]] > 0;
    assert multiset(vb)[a[k]] > 0;
    assert ModelList(Listed(a)) == Sort(va);
    assert ModelList(Listed(b)) == Sort(vb);
    SortedUnique(Sort(va), Sort(vb));
  }

  /** The first preferred model, from position `j` of the preference list
      on, that the list holds. */
  function FirstPreferred(models: seq<string>, j: nat): Option<string>
    requires j <= |PreferredModels|
    decreases |PreferredModels| - j
  {
    if j == |PreferredModels| then None
    else if PreferredModels[j] in models then Some(PreferredModels[j])
    else FirstPreferred(models, j + 1)
  }

  lemma {:induction false} FirstPreferredSpec(models: seq<string>, j: nat)
    requires j <= |PreferredModels|
    ensures FirstPreferred(models, j) == None <==>
              forall k :: j <= k < |PreferredModels| ==> PreferredModels[k] !in models
    ensures forall k :: j <= k < |PreferredModels| && PreferredModels[k] in models
                        && (forall i :: j <= i < k ==> PreferredModels[i] !in models)
                        ==> FirstPreferred(models, j) == Some(PreferredModels[k])
    decreases |PreferredModels| - j
  {
    if j < |PreferredModels| {
      FirstPreferredSpec(models, j + 1);
    }
  }

  /** The default of `update_models` for a model list: the first preferred
      model the list holds; else the first listed model unless the list is
      empty or starts with an error entry; else the fallback. */
  function DefaultChoice(models: seq<string>): (r: string)
    ensures forall k :: 0 <= k < |PreferredModels| && PreferredModels[k] in models
                        && (forall i :: 0 <= i < k ==> PreferredModels[i] !in models)
                        ==> r == PreferredModels[k]
    ensures (forall k :: 0 <= k < |PreferredModels| ==> PreferredModels[k] !in models) ==>
              r == if |models| > 0 && !StartsWith(models[0], "❌") then models[0] else FallbackModel
    ensures r in models || r == FallbackModel
  {
    FirstPreferredSpec(models, 0);
    match FirstPreferred(models, 0)
    case Some(p) => p
    case None => if |models| > 0 && !StartsWith(models[0], "❌") then models[0] else FallbackModel
  }

  /** A failed listing leaves the fallback model as the default. */
  lemma FailedListingFallsBack(e: string)
    ensures DefaultChoice(ModelList(ListFailed(e))) == FallbackModel
  {
    var entry := ListFailurePrefix + e;
    assert entry[0] == '❌';
    assert StartsWith(entry, "❌");
    forall k | 0 <= k < |PreferredModels| ensures PreferredModels[k] !in [entry] {
      assert PreferredModels[k][0] != '❌';
    }
  }

  /** `update_models`: the placeholder without a key; otherwise the model
      list as dropdown choices and its default as both the dropdown value
      and the model state. */
  method UpdateModels(apiKey: string, listing: ModelListing)
    returns (choices: seq<string>, value: string, state: string)
    ensures apiKey == "" ==> choices == [Placeholder] && value == Placeholder && state == Placeholder
    ensures apiKey != "" ==> choices == ModelList(listing) && value == DefaultChoice(choices) && state == value
  {
    if apiKey == "" {
      return [Placeholder], Placeholder, Placeholder;
    }
    var models := GetModelList(listing);
    var default: Option<string> := None;
    var i := 0;
    while i < |PreferredModels|
      invariant 0 <= i <= |PreferredModels|
      invariant default == None ==> FirstPreferred(models, i) == FirstPreferred(models, 0)
      invariant default != None ==> default == FirstPreferred(models, 0)
    {
      var preferred := PreferredModels[i];
      if preferred in models {
        default := Some(preferred);
        break;
      }
      i := i + 1;
    }
    var chosen;
    match default {
      case Some(p) =>
        chosen := p;
      case None =>
        chosen := if |models| > 0 && !StartsWith(models[0], "❌") then models[0] else FallbackModel;
    }
    return models, chosen, chosen;
  }

  /** `chat_with_model`: a blank message changes nothing; otherwise the user
      turn and exactly one AI turn are appended to the shared history.
      Returns the cleared input box. */
  method ChatWithModel(h: ChatHistory, hasImage: bool, userMessage: string, apiKey: string,
                       systemPrompt: string, modelName: string, backend: ChatRequest -> BackendResult)
    returns (cleared: string)
    modifies h
    ensures cleared == ""
    ensures h.turns == NextHistory(old(h.turns), hasImage, userMessage, apiKey, systemPrompt, modelName, ApiErrorPrefix, backend)
  {
    cleared := "";
    if IsBlank(userMessage) {
      return;
    }
    h.Append(Turn(UserRole, userMessage));
    if !hasImage {
      h.Append(Turn(AiRole, ImageRequired));
      return;
    }
    var botResponse, _ := AskHostedModel(h.turns, userMessage, apiKey, systemPrompt, modelName, ApiErrorPrefix, backend);
    h.Append(Turn(AiRole, botResponse));
  }

  /** `submit_message`: the chat turn, then the chat box of the new history. */
  method SubmitMessage(h: ChatHistory, hasImage: bool, message: string, apiKey: string, systemPrompt: string,
                       modelName: string, backend: ChatRequest -> BackendResult, time: string)
    returns (html: string, cleared: string)
    modifies h
    ensures h.turns == NextHistory(old(h.turns), hasImage, message, apiKey, systemPrompt, modelName, ApiErrorPrefix, backend)
    ensures html == ChatRender.RenderedChat(ChatRender.Indented, h.turns, time)
    ensures cleared == ""
  {
    if IsBlank(message) {
      html := ChatRender.RenderChat(ChatRender.Indented, h.turns, time);
      cleared := "";
      return;
    }
    var _ := ChatWithModel(h, hasImage, message, apiKey, systemPrompt, modelName, backend);
    html := ChatRender.RenderChat(ChatRender.Indented, h.turns, time);
    cleared := "";
  }

  /** `reset_chat`: a new empty history and the chat box with the indicator
      only. */
  method ResetChat() returns (h: ChatHistory, html: string)
    ensures fresh(h) && h.turns == []
    ensures html == ChatRender.RenderedChat(ChatRender.Indented, [], "")
  {
    h := new ChatHistory();
    html := ChatRender.ResetHtml;
    ChatRender.ResetIsEmptyRender(ChatRender.Indented, "");
  }
}
