/** The first wizard screen (components/Step1Selection.tsx): style and genre choice,
    the idea suggestions with their own loading flag, and the readiness gate of the
    "generate script" button. */
module Step1 {

  import opened Types
  import opened GeminiService
  import opened Wizard

  /** `s.length` in JavaScript: UTF-16 code units, two for a code point above U+FFFF. */
  function Utf16Length(s: string): (n: nat)
    ensures |s| <= n <= 2 * |s|
  {
    if s == [] then 0 else (if s[0] as int > 0xFFFF then 2 else 1) + Utf16Length(s[1..])
  }

  /** `isReady`: more than five UTF-16 code units, so six characters always suffice and
      two never do. */
  predicate IsReady(prompt: string): (r: bool)
    ensures |prompt| > 5 ==> r
    ensures |prompt| <= 2 ==> !r
  {
    Utf16Length(prompt) > 5
  }

  /** The next-step button is enabled when the prompt is ready and no script is in flight:
      never while generating or with fewer than three characters, always when idle with six. */
  predicate CanGenerateScript(s: ComicState): (r: bool)
    ensures r ==> !s.isGenerating && |s.storyPrompt| > 2
    ensures !s.isGenerating && |s.storyPrompt| > 5 ==> r
  {
    IsReady(s.storyPrompt) && !s.isGenerating
  }

  /** The button stays disabled while a script is in flight and on the initial empty
      prompt, and is enabled by any idle prompt of six characters or more. */
  lemma ScriptButtonRule(s: ComicState)
    ensures s.isGenerating ==> !CanGenerateScript(s)
    ensures !CanGenerateScript(InitialState())
    ensures |s.storyPrompt| > 5 && !s.isGenerating ==> CanGenerateScript(s)
  {
  }

  /** Six characters always suffice, three never do, and three characters outside the
      Basic Multilingual Plane already count as six. */
  lemma ReadinessThresholds(prompt: string)
    ensures |prompt| > 5 ==> IsReady(prompt)
    ensures |prompt| <= 2 ==> !IsReady(prompt)
    ensures IsReady("\U{1F600}\U{1F600}\U{1F600}") && !IsReady("abcde")
  {
    assert Utf16Length("\U{1F600}\U{1F600}\U{1F600}") == 6 by {
      assert "\U{1F600}\U{1F600}\U{1F600}"[1..] == "\U{1F600}\U{1F600}";
      assert "\U{1F600}\U{1F600}"[1..] == "\U{1F600}";
    }
    assert Utf16Length("abcde") == 5 by {
      assert "abcde"[1..] == "bcde";
      assert "bcde"[1..] == "cde";
      assert "cde"[1..] == "de";
      assert "de"[1..] == "e";
    }
  }

  /** A style button press; a genre button press; a keystroke in the prompt box. */
  function StyleClick(s: StyleType): StateUpdate { NoUpdate.(style := Some(s)) }
  function GenreClick(g: GenreType): StateUpdate { NoUpdate.(genre := Some(g)) }
  function PromptTyped(v: string): StateUpdate { NoUpdate.(storyPrompt := Some(v)) }

  /** The idea picker: the empty placeholder value sends no update. */
  function IdeaSelected(v: string): (r: Option<StateUpdate>)
    ensures r.None? <==> v == ""
  {
    if v != "" then Some(NoUpdate.(storyPrompt := Some(v))) else None
  }

  /** Each control changes exactly its own field of the wizard state; choosing an idea
      copies it into the prompt. */
  lemma SelectionUpdates(s: ComicState, st: StyleType, g: GenreType, v: string)
    ensures Merge(s, StyleClick(st)) == s.(style := st)
    ensures Merge(s, GenreClick(g)) == s.(genre := g)
    ensures Merge(s, PromptTyped(v)) == s.(storyPrompt := v)
    ensures v != "" ==> Merge(s, IdeaSelected(v).value) == s.(storyPrompt := v)
  {
  }

  /** The screen's own state: the suggestion list and its loading flag. */
  class Step1Selection {
    var ideas: seq<string>
    var isLoadingIdeas: bool

    constructor ()
      ensures ideas == [] && !isLoadingIdeas
      ensures !ShowsIdeaPicker()
    {
      ideas := [];
      isLoadingIdeas := false;
    }

    /** The picker is rendered only once there are suggestions. */
    predicate ShowsIdeaPicker(): (r: bool)
      reads this
      ensures r <==> ideas != []
    {
      |ideas| > 0
    }

    /** handleGenerateIdeas: a successful call replaces the suggestions, a failed one
        keeps the old ones; the loading flag is cleared either way. The picker appears
        after a success exactly when some idea came back, and a failure leaves it as it was. */
    method HandleGenerateIdeas(data: ComicState,
                               model: (StyleType, GenreType) -> Result<Option<string>, Error>,
                               parse: string -> Option<seq<string>>)
      modifies this
      ensures var r := GenerateStoryIdeas(data.style, data.genre, model, parse);
        ideas == if r.Success? then r.value else old(ideas)
      ensures var r := GenerateStoryIdeas(data.style, data.genre, model, parse);
        ShowsIdeaPicker() <==> if r.Success? then r.value != [] else old(ShowsIdeaPicker())
      ensures !isLoadingIdeas
    {
      isLoadingIdeas := true;
      var suggestions := GenerateStoryIdeas(data.style, data.genre, model, parse);
      if suggestions.Success? {
        ideas := suggestions.value;
      }
      isLoadingIdeas := false;
    }
  }
}
