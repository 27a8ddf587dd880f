# Design feedback demo — a verified model of its chat and prompt logic

The repository holds three browser chat apps and two scripts. In each chat
app, a user uploads a UI screenshot and chats about its design:

- app.py talks to OpenRouter.
- app_add_image_generator.py talks to OpenAI and can also ask DALL·E for
  redesigned images.
- test2.py runs a local LLaVA model.

The two scripts are test_image_generator.py, which builds a redesign prompt,
and test_dall_e_2.py, which clears a white background. Between the calls to
the models, all three apps run the same small, deterministic logic. This
project models that logic in Dafny and proves what it does.

The logic, and where each part lives:

- **The history** (`chat_state`) is a list of `(role, message)` turns that the
  handlers append to in place. It is the class `Conversation.ChatHistory`,
  whose `turns` sequence is changed by `Append`.
- **The context pass** pairs entry `2k` with entry `2k+1` by position,
  whatever their roles. It renders each pair as `사용자: u\nAI: a` and joins
  the pairs with newlines. See `Conversation.AssembleContext`, proved equal to
  `ContextOf`. The pending user turn is already in the history when the pass
  runs. It is left out of the pairs only when the earlier history has even
  length; after an odd history it is paired into the context.
- **One chat turn** (`chat_with_model`) does one of three things:
  - a blank message changes nothing;
  - otherwise it appends the user turn and then exactly one AI turn;
  - that AI turn is the image-required error, the missing-key text, the
    service error text, the LLaVA exception text, or the reply.
  
  The expected history is given by a `NextHistory` function in each app
  module, which the imperative method is proved against.
- **The chat box** (`render_chat`) is the indicator followed by one bubble
  per turn. A bubble is a user bubble exactly when the role is `사용자`. The
  three apps' templates differ only in whitespace (`ChatRender.BubbleStyle`).
- **Model selection:** app.py keeps the vision-capable model ids, sorted, or
  else the first 20 ids, and picks a preferred default. The image app keeps
  ids starting `gpt-4` or `gpt-3.5`, sorted. It defaults to `gpt-4o` when that
  id is listed and to the first listed id otherwise, which raises on an empty
  list (see Findings).
- **LLaVA prompt and reply:** the full prompt ends in the cue `AI:`. The
  reply is the text after the last `AI:`, stripped.
- **Redesign** (app_add_image_generator.py):
  - the prompt is a transcript of every turn, this time with roles;
  - three generation calls are made;
  - the modal gallery markup is built from the image URLs;
  - the history gains two AI turns on success or one on failure.
- **The redesign prompt** of test_image_generator.py is modelled, and so is
  the white-to-transparent pixel map of test_dall_e_2.py.

Services are function parameters:

- `backend: ChatRequest -> BackendResult` for the chat completion services;
- `generate: string -> BackendResult` for LLaVA (full prompt to decoded text
  or exception);
- `generate: (model, prompt, call number) -> GenResult` for image generation;
- a `ModelListing` value for `client.models.list()`.

The clock is a `time` string parameter. The uploaded image appears only as
`hasImage`.

Python semantics are written out:

- `str.strip` and `str.isspace`, with the Unicode whitespace set;
- `in` on strings and on lists;
- `startswith`;
- `"sep".join`;
- `str(n)`;
- `sorted` on strings, in code-point lexicographic order;
- `split("AI:")[-1]`.

A few facts about the code that the model keeps:

- Pair lines of the context read `사용자:` and `AI:` (app.py:56).
- A blank message is rejected before the image is checked (app.py:86-92).
- A failed redesign appends one AI turn (app_add_image_generator.py:135).
- Some failures are not caught (see Findings).

## Model

| member | source | states |
|---|---|---|
| Text.Strip | test2.py:94 | the stripped text is the slice of the input after its leading whitespace, only whitespace lies before and after that slice, and the result neither starts nor ends with whitespace |
| Text.BlankIffAllSpace | app.py:86 | `not s.strip()` holds exactly when every character of the message is whitespace |
| Text.IsSpace | app.py:86 | the characters for which `str.isspace()` holds: ASCII whitespace, the four ASCII separators and the Unicode space characters |
| Text.Contains | app.py:27 | `pat in s`: `pat` occurs at some index of `s` |
| Text.StartsWith | app.py:374 | `s.startswith(p)`: `p` is a prefix of `s` |
| Text.Join | app.py:57 | `sep.join(parts)`: the parts in order with `sep` between consecutive parts |
| Text.Lower | app.py:27 | `lower()` keeps the length and lower-cases each character in place |
| Text.JoinSnoc | app.py:57 | joining one more part adds the separator only between parts |
| Text.Decimal | app_add_image_generator.py:70-71 | `str(i)` of an index is a non-empty string of decimal digits |
| Text.DecimalRoundTrip | app_add_image_generator.py:70-71 | parsing `str(n)` gives back `n` |
| Text.DecimalInjective | app_add_image_generator.py:70-71 | distinct indices have distinct decimal forms |
| Sorting.LessEqReflexive | app.py:32 | string order is reflexive |
| Sorting.LessEqTotal | app.py:32 | any two strings are ordered one way or the other |
| Sorting.LessEqTransitive | app.py:32 | string order is transitive |
| Sorting.LessEqAntisymmetric | app.py:32 | strings ordered both ways are equal |
| Sorting.Insert | app.py:32 | inserting into a sorted list keeps it sorted and adds exactly that element |
| Sorting.Sort | app.py:32 | `sorted` returns a sorted permutation of its input |
| Sorting.SortedUnique | app.py:32 | two sorted lists with the same elements are equal, so `sorted` is determined by the multiset |
| Conversation.ChatHistory.constructor | app.py:305 | a new history is empty |
| Conversation.ChatHistory.Append | app.py:89 | `append` adds exactly the turn at the end, nothing else changes |
| Conversation.ContextOf | app.py:50-57 | the context of a history: its pair lines joined with newlines |
| Conversation.RequestText | app.py:63 | the request text block: the context, `\n사용자: `, then the prompt |
| Conversation.PairLines | app.py:50-56 | there are exactly `len/2` pair lines; line `k` is `사용자: text[2k]\nAI: text[2k+1]`, roles ignored |
| Conversation.AssembleContext | app.py:50-57 | the stride-2 loop with its `i+1 < len` check and the newline join compute exactly `ContextOf(history)` |
| Conversation.ContextEmptyBelowTwo | app.py:51-57 | fewer than two turns give the empty context |
| Conversation.PendingTurnExcluded | app.py:89-95 | after an even history, the just-appended user turn is not in the context |
| Conversation.ContextGrowsByPair | app.py:52-57 | one more exchange adds exactly its pair line, after a newline when there was context |
| Conversation.ContextIgnoresRoles | app.py:52-56 | histories with the same texts give the same context whatever their roles |
| Conversation.RequestCarriesPromptOnce | app.py:63 | after an even history, the request text is the earlier context, `\n사용자: `, and the message, once |
| Conversation.OddHistoryPairsPendingTurn | app_add_image_generator.py:34-41 | after an odd history (e.g. a failed redesign), the new user turn is paired with the last earlier turn in the context |
| ChatRender.Spaces | app.py:334-340 | the indentation run has the requested width and consists of spaces only |
| ChatRender.Bubble | app.py:332-350 | the bubble of one turn: the user template when the role is `사용자`, else the assistant template, both with the message and the time |
| ChatRender.RenderedChat | app.py:329-351 | the chat box: the opening div, the indicator, the bubbles of the turns in order, the closing div |
| ChatRender.RenderChat | app.py:329-351 | the loop builds the chat box div, the indicator, then one bubble per turn in order (also test2.py:311-337 and app_add_image_generator.py:327-335) |
| ChatRender.BubblesAppend | app.py:332-350 | the bubbles of two stretches of history are the bubbles of the first followed by those of the second |
| ChatRender.OpeningsDiffer | app.py:334-343 | user and assistant bubbles differ at the class name of their opening tag |
| ChatRender.BubbleKindFollowsRole | app.py:333-350 | a bubble opens as a user bubble iff the role is `사용자`, and as an assistant bubble iff it is not |
| ChatRender.ResetIsEmptyRender | app.py:326-327 | the reset chat box equals the rendering of an empty history at any time |
| LlavaApp.FullPrompt | test2.py:62-69 | the prompt is the system prompt, the context header, the context and `사용자: <image>`, then exactly the current message, then `\nAI:`, with its exact length |
| LlavaApp.LastPieceStart | test2.py:94 | the last piece of `split(sep)` starts after the last separator: no separator at or after it, and it is the start or follows one |
| LlavaApp.ExtractReply | test2.py:94 | the reply contains no `AI:`, and text without `AI:` yields the whole text stripped |
| LlavaApp.ReplyAfterCue | test2.py:65-94 | text ending in `AI:` followed by a continuation without `AI:` yields exactly that continuation, stripped |
| LlavaApp.CueIsLast | test2.py:68-94 | the cue ending the prompt is the last separator when the continuation holds none |
| LlavaApp.MarkersApart | test2.py:94 | two occurrences of `AI:` never overlap |
| LlavaApp.ReplyToFullPrompt | test2.py:65-94 | decoding the full prompt plus the model's continuation yields the continuation, stripped |
| LlavaApp.GenerateResponse | test2.py:48-96 | the model gets the full prompt of the history's context; its text becomes the extracted reply, its exception propagates |
| LlavaApp.NextHistory | test2.py:99-118 | blank: unchanged; else exactly two more turns, the user turn then an AI turn: image-required, `❌ 예외 발생: e`, or exactly the reply extracted from the decoded text, which holds no `AI:` |
| LlavaApp.ChatWithModel | test2.py:99-118 | appends to the shared history exactly as `NextHistory` says and clears the input box |
| LlavaApp.SubmitMessage | test2.py:340-345 | the new history as `NextHistory` says, and its chat box; a blank message only re-renders |
| LlavaApp.ResetChat | test2.py:307-308 | a fresh empty history and the indicator-only chat box |
| HostedChat.HostedReply | app.py:37-82 | the reply of one service call: the missing-key text, the service's reply, or the error prefix followed by the exception text (also app_add_image_generator.py:28-61) |
| HostedChat.AskHostedModel | app.py:37-82 | without a key no request is sent and the missing-key text is the reply; otherwise the request carries model, system prompt and `context\n사용자: prompt`, and the reply is the service's reply or the prefixed error (also app_add_image_generator.py:28-61) |
| HostedChat.NextHistory | app.py:85-97 | blank: unchanged; else exactly two more turns, the user turn then an AI turn: image-required, missing-key, or the service answer to the request built from the history with the user turn, for histories of any length; after an even history that request is the earlier context, `\n사용자: ` and the message |
| OpenRouterApp.IsVisionModel | app.py:27-30 | an id is vision-capable when one of the six keywords occurs in its lower-cased form |
| OpenRouterApp.VisionIds | app.py:23-30 | the collected ids are exactly the listed ids that contain a keyword case-insensitively, with their multiplicity |
| OpenRouterApp.ModelList | app.py:23-34 | a failed listing gives the single error entry; with a vision id, the sorted vision ids; without, the first up to 20 ids in listing order |
| OpenRouterApp.GetModelList | app.py:23-34 | the filter loop and the choice after it compute exactly `ModelList` |
| OpenRouterApp.ModelListIgnoresOrder | app.py:32 | with a vision id listed, the result does not depend on the listing order |
| OpenRouterApp.FirstPreferred | app.py:366-371 | the preference loop with its `break`: the first preferred model, from a position on, that the list holds |
| OpenRouterApp.FirstPreferredSpec | app.py:366-371 | the search finds nothing iff no preferred model is listed, else the first listed one in preference order |
| OpenRouterApp.DefaultChoice | app.py:366-374 | the first preferred model listed; else `models[0]` unless empty or starting with `❌`, then `openai/gpt-4o`; always a listed model or the fallback |
| OpenRouterApp.FailedListingFallsBack | app.py:363-374 | a failed listing makes `openai/gpt-4o` the default |
| OpenRouterApp.UpdateModels | app.py:359-376 | no key: the placeholder as choices, value and state; else the model list and its default as both value and state |
| OpenRouterApp.ChatWithModel | app.py:85-97 | appends to the shared history exactly as `HostedChat.NextHistory` says with the OpenRouter error prefix |
| OpenRouterApp.SubmitMessage | app.py:353-357 | the new history and its chat box in the app.py template; a blank message only re-renders |
| OpenRouterApp.ResetChat | app.py:326-327 | a fresh empty history and the indicator-only chat box |
| OpenAiApp.IsGptModel | app_add_image_generator.py:22 | an id is kept when it starts with `gpt-4` or `gpt-3.5` |
| OpenAiApp.GptIds | app_add_image_generator.py:22 | the kept ids are exactly the listed ids starting with `gpt-4` or `gpt-3.5`, with their multiplicity |
| OpenAiApp.GptModelList | app_add_image_generator.py:18-25 | a failed listing gives the single error entry; otherwise the kept ids, sorted |
| OpenAiApp.DefaultModelAsWritten | app_add_image_generator.py:361 | the default raises exactly when the model list is empty, and is a listed model otherwise |
| OpenAiApp.NoGptModelNoDefault | app_add_image_generator.py:360-361 | a listing without GPT ids gives an empty list, on which the default raises |
| OpenAiApp.DefaultModel | app_add_image_generator.py:361 | `gpt-4o` when listed or when nothing is listed, else `models[0]`; agrees with the code wherever that does not raise |
| OpenAiApp.ChatWithModel | app_add_image_generator.py:139-148 | appends to the shared history exactly as `HostedChat.NextHistory` says with the OpenAI error prefix |
| OpenAiApp.SubmitMessage | app_add_image_generator.py:337-341 | the new history and its chat box in the single-line template; a blank message only re-renders |
| OpenAiApp.ResetChat | app_add_image_generator.py:324-325 | a fresh empty history, the indicator-only chat box and a cleared input |
| OpenAiApp.TranscriptLine | app_add_image_generator.py:114 | the line of one turn: role, `: `, message, newline |
| OpenAiApp.Transcript | app_add_image_generator.py:113-114 | the lines of all turns, in history order |
| OpenAiApp.FeedbackPrompt | app_add_image_generator.py:112-115 | the redesign prompt is the fixed header, exactly the transcript of the history, and the redesign request, with its exact length |
| OpenAiApp.TranscriptAppend | app_add_image_generator.py:113-114 | the transcript has one line per turn, in history order |
| OpenAiApp.TranscriptKeepsRoles | app_add_image_generator.py:112-115 | changing only one turn's role changes the redesign prompt |
| OpenAiApp.TranscriptDiffers | app_add_image_generator.py:113-114 | changing only one turn's role changes the transcript |
| OpenAiApp.BuildFeedbackPrompt | app_add_image_generator.py:112-115 | the accumulation loop computes exactly `FeedbackPrompt` |
| OpenAiApp.ModalBlock | app_add_image_generator.py:68-75 | block `i`: the template with the URL in both image tags and `modal-i` in the open call and the overlay id |
| OpenAiApp.ModalBlocks | app_add_image_generator.py:67-75 | one block per URL, block `k` for URL `k` |
| OpenAiApp.Gallery | app_add_image_generator.py:76-105 | the gallery markup: the style block followed by the blocks of the URLs in order |
| OpenAiApp.GenerateModalImagesHtml | app_add_image_generator.py:65-105 | the block loop and the join give the style block followed by the blocks |
| OpenAiApp.GalleryOfNothing | app_add_image_generator.py:76-105 | no URL gives the style block alone |
| OpenAiApp.GalleryAppend | app_add_image_generator.py:67-75 | one more URL adds its block, numbered by its position, at the end |
| OpenAiApp.ModalBlockShape | app_add_image_generator.py:68-75 | block `i` holds its URL twice and the id `modal-i` twice, at the template's offsets |
| OpenAiApp.ModalIdsDistinct | app_add_image_generator.py:70-71 | different images of one gallery get different overlay ids |
| OpenAiApp.Generations | app_add_image_generator.py:119-128 | all calls succeed iff the outcome is the URLs, one per call in call order; otherwise the error of the first failed call |
| OpenAiApp.FailureStops | app_add_image_generator.py:119-135 | once a call fails, no later call changes the outcome |
| OpenAiApp.GenerateImages | app_add_image_generator.py:119-128 | the call loop stops at the first failure and computes exactly `Generations` for the three calls |
| OpenAiApp.Recorded | app_add_image_generator.py:130-136 | the earlier turns are kept and only AI turns are added; all URLs: the gallery, the URLs, and the intro and gallery turns; a failure: `""`, no URLs, and one turn that starts with `❌ 이미지 생성 실패: ` and ends with the error |
| OpenAiApp.RecordGenerations | app_add_image_generator.py:130-136 | records the gallery or the error in the shared history exactly as `Recorded` says |
| OpenAiApp.FeedbackOutcome | app_add_image_generator.py:108-136 | no key or image: the error bubble as a two-value exit and the history unchanged; otherwise three values and the earlier history as a prefix of the new one |
| OpenAiApp.FeedbackSucceeds | app_add_image_generator.py:117-133 | when all calls succeed: the 3 URLs in call order, the gallery of them, and exactly the intro and gallery turns added |
| OpenAiApp.FeedbackFails | app_add_image_generator.py:119-136 | when a call fails: `""` and no URLs, and exactly one AI turn added that carries the error of a failed call at or before it |
| OpenAiApp.ApplyChatFeedbackToImage | app_add_image_generator.py:108-136 | returns and leaves in the shared history exactly what `FeedbackOutcome` says |
| OpenAiApp.UnpackThree | app_add_image_generator.py:356 | the three-name unpack fails exactly on the two-value exit |
| OpenAiApp.GuardExitBreaksUnpack | app_add_image_generator.py:355-357 | the missing key or image exit makes the button handler raise |
| OpenAiApp.UnpackPadded | app_add_image_generator.py:355-357 | the intended unpack reads the two-value exit as no URLs and agrees with the code on three values |
| OpenAiApp.ApplyButtonAction | app_add_image_generator.py:355-357 | the history as `FeedbackOutcome` says, its chat box, and the URLs of the intended unpack |
| OpenAiApp.ButtonUrls | app_add_image_generator.py:355-357 | with the intended unpack the button shows either no URL or all 3, and none without a key or an image |
| RedesignPrompt.ImprovedUiPrompt | test_image_generator.py:66-72 | `create_improved_ui_prompt`: the fixed first line, the description line, the suggestions line, then the style line |
| RedesignPrompt.PromptLayout | test_image_generator.py:66-72 | the prompt is the fixed first line, the description line, the suggestions line and the style line, in that order, with its exact length |
| RedesignPrompt.PromptDeterminesInputs | test_image_generator.py:66-72 | for descriptions of equal length, the prompt determines the description and the suggestions |
| Transparency.Transparentize | test_dall_e_2.py:13-16 | the colour is kept; alpha becomes 0 exactly for pure white, other pixels are unchanged |
| Transparency.TransparentizeAll | test_dall_e_2.py:12-16 | same length, and output pixel `k` is the map of input pixel `k` |
| Transparency.TransparentizeIdempotent | test_dall_e_2.py:13-16 | applying the map twice equals applying it once |
| Transparency.TransparentizeAppend | test_dall_e_2.py:12-16 | the map acts pixel by pixel over concatenations |
| Transparency.MakeWhiteTransparent | test_dall_e_2.py:10-16 | the loop builds exactly the mapped pixel list |
| Transparency.ClearWhiteBackground | test_dall_e_2.py:10-17 | after `putdata` the image's pixels are the mapped original pixels |

## Left out

- Gradio layout, CSS, event registration, the one-line handlers that copy inputs into state, and the image select buttons (`urls[k]`): UI wiring.
- Calls to the OpenAI, OpenRouter and DALL·E services, and to `images.edit`: foreign network calls. They become the `backend`, `generate` and `ModelListing` parameters.
- `apply_selected_image`, `select_image` and `load_image`: they fetch a URL or decode an image.
- `encode_image_to_base64`: it depends on PIL's JPEG encoder. The image block of each request is therefore not modelled, and neither is an exception the encoding raises outside the `try`.
- LLaVA model loading, `processor`, `model.generate` and `decode`: local GPU inference. It is the `generate` parameter of `LlavaApp`.
- `get_current_time`: the clock. It is the `time` parameter of the renderers.
- Temperature, top_p, max_tokens and image size or quality: sampling and generation parameters with no behavioural contract.
- The other functions of test_image_generator.py, including the set-literal system prompt at lines 39-47: API-only code.
- test_image_to_code.py and test_instructpix2pix.py: API calls around literal prompts, and local inference.
- Loading the JPEG, converting it to RGBA, saving the PNG, and the edit request in test_dall_e_2.py: file and network I/O.
- Text.Lower: models `str.lower()` on ASCII letters only; the Unicode case mappings of other letters are left out.
- HostedChat.AskHostedModel: a reply whose `message.content` is `None` is not modelled; the reply is always a string.
- Each app's `hasImage` stands for the truthiness of the uploaded image, and `apiKey == ""` for `not api_key`, since the key state always holds a string.

## Findings

| source | as written | input that shows it | evidently intended | confidence | as-written member | corrected member |
|---|---|---|---|---|---|---|
| app_add_image_generator.py:110 | the missing key or image exit returns two values, but app_add_image_generator.py:356 unpacks three | clicking the redesign button with an empty API key: the unpack raises `ValueError` instead of showing the chat | the exit also yields an empty URL list, so the handler shows the unchanged chat and no URLs | high, not executed | OpenAiApp.GuardExitBreaksUnpack | OpenAiApp.ApplyButtonAction |
| app_add_image_generator.py:361 | `models[0]` is read whenever `gpt-4o` is not listed, also when the list is empty | a successful listing with only `dall-e-3`: the GPT filter leaves `[]` and `models[0]` raises `IndexError` | fall back to `gpt-4o` when nothing is listed | high, not executed | OpenAiApp.NoGptModelNoDefault | OpenAiApp.DefaultModel |
