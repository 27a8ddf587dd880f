/** The image-generation prompt of the redesign script
    (test_image_generator.py): a fixed request, the layout description and
    the suggested improvements on labelled lines, and a fixed style
    instruction. */
module RedesignPrompt {
  import opened Text

  const Intro := "Create a redesigned version of the following UI based on the described layout and these improvements.\n"
  const DescriptionLabel := "Layout Description: "
  const SuggestionsLabel := "Suggested Improvements: "
  const Closing := "Design it in a clean, modern, and professional style."

  function DescriptionLine(description: string): string {
    DescriptionLabel + description + "\n"
  }

  function SuggestionsLine(suggestions: string): string {
    SuggestionsLabel + suggestions + "\n"
  }

  /** `create_improved_ui_prompt`. */
  function ImprovedUiPrompt(description: string, suggestions: string): string {
    Intro + DescriptionLine(description) + SuggestionsLine(suggestions) + Closing
  }

  /** The four parts of the prompt follow each other with nothing between
      them and nothing around them. */
  lemma PromptLayout(description: string, suggestions: string)
    ensures var r := ImprovedUiPrompt(description, suggestions);
            var d := DescriptionLine(description);
            && StartsWith(r, Intro)
            && OccursAt(d, r, |Intro|)
            && OccursAt(SuggestionsLine(suggestions), r, |Intro| + |d|)
            && EndsWith(r, Closing)
            && |r| == |Intro| + |DescriptionLabel| + |SuggestionsLabel| + |Closing| + 2
                      + |description| + |suggestions|
  {
    var d, s := DescriptionLine(description), SuggestionsLine(suggestions);
    var s1 := Intro + d;
    var s2 := s1 + s;
    assert Intro == [] + Intro;
    OccursAtEnd(Intro, []);
    OccursExtend(Intro, Intro, 0, d);
    OccursExtend(Intro, s1, 0, s);
    OccursExtend(Intro, s2, 0, Closing);
    OccursAtEnd(d, Intro);
    OccursExtend(d, s1, |Intro|, s);
    OccursExtend(d, s2, |Intro|, Closing);
    OccursAtEnd(s, s1);
    OccursExtend(s, s2, |s1|, Closing);
    OccursAtEnd(Closing, s2);
  }

  /** Given descriptions of the same length, the prompt determines both the
      description and the suggestions. */
  lemma PromptDeterminesInputs(d1: string, s1: string, d2: string, s2: string)
    requires |d1| == |d2|
    requires ImprovedUiPrompt(d1, s1) == ImprovedUiPrompt(d2, s2)
    ensures d1 == d2 && s1 == s2
  {
    var r := ImprovedUiPrompt(d1, s1);
    PromptLayout(d1, s1);
    PromptLayout(d2, s2);
    var l1, l2 := DescriptionLine(d1), DescriptionLine(d2);
    assert r[|Intro|..|Intro| + |l1|] == l1 == l2;
    assert l1[|DescriptionLabel|..|DescriptionLabel| + |d1|] == d1;
    assert l2[|DescriptionLabel|..|DescriptionLabel| + |d2|] == d2;
    var m1, m2 := SuggestionsLine(s1), SuggestionsLine(s2);
    assert |m1| == |m2|;
    assert r[|Intro| + |l1|..|Intro| + |l1| + |m1|] == m1 == m2;
    assert m1[|SuggestionsLabel|..|SuggestionsLabel| + |s1|] == s1;
    assert m2[|SuggestionsLabel|..|SuggestionsLabel| + |s2|] == s2;
  }
}
