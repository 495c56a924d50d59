/** The generation client of services/geminiService.ts: response clean-up, the mapping
    of a parsed script into Character and Panel records, the prompt formulas, and the
    scan of an image response for its first inline image. The remote model calls and
    JSON.parse are parameters: total functions standing for whatever the service and
    the parser answer. */
module GeminiService {

  import opened Types
  import opened Strings

  const JsonFence := "```json"
  const Fence := "```"

  /** "```json" occurs at i and nowhere before it. */
  predicate FirstOpening(text: string, i: int)
  {
    OccursAt(text, JsonFence, i) && forall k :: 0 <= k < i ==> !OccursAt(text, JsonFence, k)
  }

  /** "```" occurs at j, after the opening fence at i ends, and nowhere in between. */
  predicate FirstClosing(text: string, i: int, j: int)
  {
    i + |JsonFence| <= j && OccursAt(text, Fence, j)
    && forall k :: i + |JsonFence| <= k < j ==> !OccursAt(text, Fence, k)
  }

  /** Some "```json" is followed, later in the text, by a "```". */
  ghost predicate HasFencedBlock(text: string)
  {
    exists i, j :: OccursAt(text, JsonFence, i) && i + |JsonFence| <= j && OccursAt(text, Fence, j)
  }

  /** cleanJson (the lazy match of /```json([\s\S]*?)```/, then trim of the group).
      The text either comes back as it is, or it holds a fenced block and the answer is
      shorter by at least both fences and neither starts nor ends with white space. */
  function CleanJson(text: string): (r: string)
    ensures r == text || (HasFencedBlock(text) && |r| <= |text| - |JsonFence| - |Fence|
                          && (r != [] ==> !IsJsSpace(r[0]) && !IsJsSpace(r[|r| - 1])))
  {
    match FindFrom(text, JsonFence, 0)
    case None => text
    case Some(i) =>
      match FindFrom(text, Fence, i + |JsonFence|)
      case None => text
      case Some(j) => Trim(text[i + |JsonFence|..j])
  }

  /** With no "```json" followed later by "```" the text comes back unchanged. */
  lemma CleanJsonWithoutBlock(text: string)
    ensures !HasFencedBlock(text) ==> CleanJson(text) == text
  {
    match FindFrom(text, JsonFence, 0)
    case None =>
    case Some(i0) =>
      match FindFrom(text, Fence, i0 + |JsonFence|)
      case None =>
      case Some(j0) =>
        assert OccursAt(text, JsonFence, i0) && i0 + |JsonFence| <= j0 && OccursAt(text, Fence, j0);
  }

  /** The result is the trimmed text between the first "```json" and the first "```"
      after it. */
  lemma CleanJsonFirstBlock(text: string, i: int, j: int)
    requires FirstOpening(text, i) && FirstClosing(text, i, j)
    ensures CleanJson(text) == Trim(text[i + |JsonFence|..j])
  {
    assert FindFrom(text, JsonFence, 0) == Some(i);
    assert FindFrom(text, Fence, i + |JsonFence|) == Some(j);
  }

  /** Every text with a fenced block has a first opening fence and a first closing fence
      after it, so CleanJsonWithoutBlock and CleanJsonFirstBlock cover every text. */
  lemma FencedBlockHasFirstFences(text: string)
    requires HasFencedBlock(text)
    ensures exists i, j :: FirstOpening(text, i) && FirstClosing(text, i, j)
  {
    var i1, j1 :| OccursAt(text, JsonFence, i1) && i1 + |JsonFence| <= j1 && OccursAt(text, Fence, j1);
    var i := FindFrom(text, JsonFence, 0).value;
    var j := FindFrom(text, Fence, i + |JsonFence|).value;
    assert FirstOpening(text, i) && FirstClosing(text, i, j);
  }

  /** A text without the letter 'j' cannot hold an opening fence and is left unchanged. */
  lemma CleanJsonWithoutOpening(text: string)
    requires forall k :: 0 <= k < |text| ==> text[k] != 'j'
    ensures CleanJson(text) == text
  {
    forall i
      ensures !OccursAt(text, JsonFence, i)
    {
      if 0 <= i && i + |JsonFence| <= |text| {
        assert text[i..i + |JsonFence|][3] == text[i + 3];
      }
    }
    assert !HasFencedBlock(text);
    CleanJsonWithoutBlock(text);
  }

  /** A fenced block whose body holds no backtick comes back as its trimmed body. */
  lemma CleanJsonUnwrapsFence(body: string)
    requires forall k :: 0 <= k < |body| ==> body[k] != '`'
    ensures CleanJson(JsonFence + body + Fence) == Trim(body)
  {
    var text := JsonFence + body + Fence;
    var j := |JsonFence| + |body|;
    assert FirstOpening(text, 0) by { assert text[0..7] == JsonFence; }
    forall k | |JsonFence| <= k < j
      ensures !OccursAt(text, Fence, k)
    {
      assert text[k] == body[k - |JsonFence|];
      if k + 3 <= |text| {
        assert text[k..k + 3][0] == text[k];
      }
    }
    assert FirstClosing(text, 0, j) by { assert text[j..j + 3] == Fence; }
    CleanJsonFirstBlock(text, 0, j);
    assert text[|JsonFence|..j] == body;
  }

  /** A bare "```" fence (no "json" tag) is not stripped. */
  lemma CleanJsonKeepsBareFence()
    ensures CleanJson("```\n{}\n```") == "```\n{}\n```"
  {
    CleanJsonWithoutOpening("```\n{}\n```");
  }

  /** `response.text || fallback`: an absent or empty text becomes the fallback, so the
      parser is never handed an empty text when the fallback is not empty. */
  function TextOr(text: Option<string>, fallback: string): (r: string)
    ensures r == fallback || (text == Some(r) && r != "")
    ensures text.Some? && text.value != "" ==> r == text.value
    ensures fallback != "" ==> r != ""
  {
    if text.None? || text.value == "" then fallback else text.value
  }

  /** The idea list the service answers: what the parser makes of the cleaned text,
      "[]" standing in for a missing text. */
  function GenerateStoryIdeas(style: StyleType, genre: GenreType,
                              model: (StyleType, GenreType) -> Result<Option<string>, Error>,
                              parse: string -> Option<seq<string>>): (r: Result<seq<string>, Error>)
    ensures r.Success? <==> (model(style, genre).Success?
      && parse(CleanJson(TextOr(model(style, genre).value, "[]"))).Some?)
    ensures r.Success? ==> r.value == parse(CleanJson(TextOr(model(style, genre).value, "[]"))).value
    ensures model(style, genre).Failure? ==> r == Failure(model(style, genre).error)
  {
    match model(style, genre)
    case Failure(e) => Failure(e)
    case Success(text) =>
      match parse(CleanJson(TextOr(text, "[]")))
      case None => Failure(Unparsable)
      case Some(ideas) => Success(ideas)
  }

  /** An absent or empty response hands the parser exactly "[]" for ideas and "{}" for
      a script. */
  lemma EmptyResponseDefaults(text: Option<string>)
    requires text.None? || text == Some("")
    ensures CleanJson(TextOr(text, "[]")) == "[]"
    ensures CleanJson(TextOr(text, "{}")) == "{}"
  {
    CleanJsonWithoutOpening("[]");
    CleanJsonWithoutOpening("{}");
  }

  /** The shapes the script schema guarantees once parsed. */
  datatype ParsedCharacter = ParsedCharacter(name: string, description: string)
  datatype ParsedPanel = ParsedPanel(panelNumber: int, sceneDescription: string,
                                     dialogue: seq<Dialogue>)
  datatype ParsedScript = ParsedScript(characters: seq<ParsedCharacter>, panels: seq<ParsedPanel>)

  datatype Script = Script(characters: seq<Character>, panels: seq<Panel>)

  /** The id given to the i-th character of a script. */
  function CharacterId(i: nat): string
  {
    "char_" + NatToString(i)
  }

  function ToCharacter(c: ParsedCharacter, i: nat): Character
  {
    Character(CharacterId(i), c.name, c.description, None)
  }

  function ToPanel(p: ParsedPanel): Panel
  {
    Panel(p.panelNumber, p.sceneDescription, p.dialogue, None)
  }

  /** The mapping at the end of generateScript: characters numbered by position,
      panels keyed by their panel number, no image on either. */
  function MapScript(data: ParsedScript): (r: Script)
    ensures |r.characters| == |data.characters| && |r.panels| == |data.panels|
    ensures forall i :: 0 <= i < |r.characters| ==> r.characters[i] == ToCharacter(data.characters[i], i)
    ensures forall i :: 0 <= i < |r.panels| ==> r.panels[i] == ToPanel(data.panels[i])
  {
    Script(seq(|data.characters|, i requires 0 <= i < |data.characters| => ToCharacter(data.characters[i], i)),
           seq(|data.panels|, i requires 0 <= i < |data.panels| => ToPanel(data.panels[i])))
  }

  /** Character ids of a mapped script are pairwise different, and no character starts
      with an image. */
  lemma MappedCharactersDistinct(data: ParsedScript)
    ensures var cs := MapScript(data).characters;
      forall i, j :: 0 <= i < j < |cs| ==> cs[i].id != cs[j].id
    ensures forall c :: c in MapScript(data).characters ==> c.imageUrl.None?
  {
    var cs := MapScript(data).characters;
    forall i, j | 0 <= i < j < |cs|
      ensures cs[i].id != cs[j].id
    {
      if cs[i].id == cs[j].id {
        PrefixedNumberInjective("char_", i, j);
      }
    }
  }

  /** The mapping checks neither the panel count nor the uniqueness of panel numbers:
      a three-panel script with a repeated number maps to three panels sharing an id. */
  lemma MapScriptAcceptsAnyPanels()
    ensures var p := ParsedPanel(1, "", []);
      var r := MapScript(ParsedScript([], [p, p, p]));
      |r.panels| == 3 && r.panels[0].id == r.panels[1].id
  {
  }

  /** The script the service answers: the mapped parse of the cleaned text, "{}" standing
      in for a missing text. A failed call passes its error on; a text the parser
      refuses is Unparsable. */
  function GenerateScript(style: StyleType, genre: GenreType, prompt: string,
                          model: (StyleType, GenreType, string) -> Result<Option<string>, Error>,
                          parse: string -> Option<ParsedScript>): (r: Result<Script, Error>)
    ensures r.Success? <==> (model(style, genre, prompt).Success?
      && parse(CleanJson(TextOr(model(style, genre, prompt).value, "{}"))).Some?)
    ensures r.Success? ==>
      r.value == MapScript(parse(CleanJson(TextOr(model(style, genre, prompt).value, "{}"))).value)
    ensures model(style, genre, prompt).Failure? ==> r == Failure(model(style, genre, prompt).error)
    ensures model(style, genre, prompt).Success? && r.Failure? ==> r.error == Unparsable
  {
    match model(style, genre, prompt)
    case Failure(e) => Failure(e)
    case Success(text) =>
      match parse(CleanJson(TextOr(text, "{}")))
      case None => Failure(Unparsable)
      case Some(data) => Success(MapScript(data))
  }

  /** An empty or missing script response fails as Unparsable for any parser that, like
      `JSON.parse` followed by `data.characters.map`, refuses "{}" for lacking both arrays. */
  lemma EmptyScriptResponseFails(style: StyleType, genre: GenreType, prompt: string,
                                 model: (StyleType, GenreType, string) -> Result<Option<string>, Error>,
                                 parse: string -> Option<ParsedScript>)
    requires parse("{}").None?
    requires model(style, genre, prompt) == Success(None) || model(style, genre, prompt) == Success(Some(""))
    ensures GenerateScript(style, genre, prompt, model, parse) == Failure(Unparsable)
  {
    EmptyResponseDefaults(model(style, genre, prompt).value);
  }

  /** The quality qualifiers appended to every image request. */
  const ImageQualifiers := ". High quality, detailed, anime/webtoon aesthetic."

  /** The compound prompt of generateImage; style and subject can be read back from it. */
  function ImagePrompt(style: string, prompt: string): (r: string)
    ensures |r| == |style| + 8 + |prompt| + |ImageQualifiers|
    ensures r[..|style|] == style && r[|style|..|style| + 8] == " style. "
    ensures r[|style| + 8..|r| - |ImageQualifiers|] == prompt
    ensures r[|r| - |ImageQualifiers|..] == ImageQualifiers
  {
    style + " style. " + prompt + ImageQualifiers
  }

  /** For a fixed style, different subjects give different prompts. */
  lemma ImagePromptInjective(style: string, p1: string, p2: string)
    requires ImagePrompt(style, p1) == ImagePrompt(style, p2)
    ensures p1 == p2
  {
    var r := ImagePrompt(style, p1);
    assert p1 == r[|style| + 8..|r| - |ImageQualifiers|];
  }

  /** The parts of the image response, as `response.candidates?.[0]?.content?.parts || []`
      reaches them. */
  datatype InlineData = InlineData(mimeType: string, data: string)
  datatype Part = Part(text: Option<string>, inlineData: Option<InlineData>)
  datatype Content = Content(parts: Option<seq<Part>>)
  datatype Candidate = Candidate(content: Option<Content>)
  datatype ImageResponse = ImageResponse(candidates: Option<seq<Candidate>>)

  function ResponseParts(resp: ImageResponse): (r: seq<Part>)
    ensures resp.candidates.None? || resp.candidates == Some([]) ==> r == []
    ensures r != [] ==>
      && resp.candidates.Some? && |resp.candidates.value| > 0
      && resp.candidates.value[0].content.Some?
      && resp.candidates.value[0].content.value.parts == Some(r)
  {
    if resp.candidates.Some? && |resp.candidates.value| > 0
       && resp.candidates.value[0].content.Some?
       && resp.candidates.value[0].content.value.parts.Some?
    then resp.candidates.value[0].content.value.parts.value
    else []
  }

  const DataUriPrefix := "data:image/png;base64,"

  /** Index of the first part carrying inline data. */
  function FirstInline(parts: seq<Part>): (r: Option<nat>)
    ensures r.Some? ==> r.value < |parts| && parts[r.value].inlineData.Some?
    ensures r.Some? ==> forall k :: 0 <= k < r.value ==> parts[k].inlineData.None?
    ensures r.None? <==> forall k :: 0 <= k < |parts| ==> parts[k].inlineData.None?
  {
    if parts == [] then None
    else if parts[0].inlineData.Some? then Some(0)
    else match FirstInline(parts[1..])
      case None => None
      case Some(k) => Some(k + 1)
  }

  /** What generateImage resolves to for a subject prompt and a style. */
  function ImageOutcome(prompt: string, style: string,
                        model: string -> Result<ImageResponse, Error>): Result<string, Error>
  {
    match model(ImagePrompt(style, prompt))
    case Failure(e) => Failure(e)
    case Success(resp) =>
      var parts := ResponseParts(resp);
      match FirstInline(parts)
      case None => Failure(NoImageGenerated)
      case Some(k) => Success(DataUriPrefix + parts[k].inlineData.value.data)
  }

  /** generateImage: send the compound prompt, then scan the parts of the first
      candidate and answer the first inline image as a data URI. */
  method GenerateImage(prompt: string, style: string,
                       model: string -> Result<ImageResponse, Error>) returns (r: Result<string, Error>)
    ensures r == ImageOutcome(prompt, style, model)
    ensures model(ImagePrompt(style, prompt)).Success? ==>
      var parts := ResponseParts(model(ImagePrompt(style, prompt)).value);
      (r.Success? <==> exists k :: 0 <= k < |parts| && parts[k].inlineData.Some?)
      && (r.Failure? ==> r.error == NoImageGenerated)
  {
    var response := model(ImagePrompt(style, prompt));
    if response.Failure? {
      return Failure(response.error);
    }
    var parts := ResponseParts(response.value);
    var i := 0;
    while i < |parts|
      invariant 0 <= i <= |parts|
      invariant forall k :: 0 <= k < i ==> parts[k].inlineData.None?
    {
      if parts[i].inlineData.Some? {
        assert FirstInline(parts) == Some(i);
        return Success(DataUriPrefix + parts[i].inlineData.value.data);
      }
      i := i + 1;
    }
    r := Failure(NoImageGenerated);
  }

  const SheetIntro := "Character design sheet for "
  const SheetOutro := ". Full body, white background."

  /** The fixed character reference-sheet prompt; name and description read back from it. */
  function CharacterPrompt(c: Character): (r: string)
    ensures |r| == |SheetIntro| + |c.name| + 2 + |c.description| + |SheetOutro|
    ensures r[..|SheetIntro|] == SheetIntro
    ensures r[|SheetIntro|..|SheetIntro| + |c.name|] == c.name
    ensures r[|SheetIntro| + |c.name| + 2..|r| - |SheetOutro|] == c.description
    ensures r[|r| - |SheetOutro|..] == SheetOutro
  {
    SheetIntro + c.name + ". " + c.description + SheetOutro
  }

  method GenerateCharacterImage(c: Character, style: string,
                                model: string -> Result<ImageResponse, Error>) returns (r: Result<string, Error>)
    ensures r == ImageOutcome(CharacterPrompt(c), style, model)
  {
    r := GenerateImage(CharacterPrompt(c), style, model);
  }

  /** How the panel prompt introduces one character. */
  function Introduction(c: Character): string
  {
    c.name + " is " + c.description
  }

  /** Every character of the roster introduced in roster order, joined by ". ". The
      context is empty exactly for an empty roster, and opens with the first character. */
  function CharacterContext(cs: seq<Character>): (r: string)
    ensures r == "" <==> cs == []
    ensures cs != [] ==> |Introduction(cs[0])| <= |r| && r[..|Introduction(cs[0])|] == Introduction(cs[0])
  {
    var xs := seq(|cs|, i requires 0 <= i < |cs| => Introduction(cs[i]));
    if cs != [] then
      assert xs[0] == Introduction(cs[0]);
      Join(xs, ". ")
    else
      Join(xs, ". ")
  }

  /** Adding a character to the roster appends exactly its introduction to the context. */
  lemma CharacterContextSnoc(cs: seq<Character>, c: Character)
    ensures CharacterContext([c]) == Introduction(c)
    ensures |cs| > 0 ==> CharacterContext(cs + [c]) == CharacterContext(cs) + ". " + Introduction(c)
  {
    var xs := seq(|cs|, i requires 0 <= i < |cs| => Introduction(cs[i]));
    assert seq(1, i requires 0 <= i < 1 => Introduction([c][i])) == [Introduction(c)];
    if |cs| > 0 {
      assert seq(|cs + [c]|, i requires 0 <= i < |cs + [c]| => Introduction((cs + [c])[i])) == xs + [Introduction(c)];
      JoinSnoc(xs, Introduction(c), ". ");
    }
  }

  const PanelOutro := "]. Action shot, dynamic composition."

  /** The panel prompt: the panel id, the scene and the whole roster context inside
      brackets, each readable back at its own position. */
  function PanelPrompt(p: Panel, cs: seq<Character>): (r: string)
    ensures var n, d := |IntToString(p.id)|, |p.description|;
      && |r| == 6 + n + 9 + d + 15 + |CharacterContext(cs)| + |PanelOutro|
      && r[..6] == "Panel " && r[6..6 + n] == IntToString(p.id)
      && r[6 + n + 9..6 + n + 9 + d] == p.description
      && r[6 + n + 9 + d + 15..|r| - |PanelOutro|] == CharacterContext(cs)
      && r[|r| - |PanelOutro|..] == PanelOutro
  {
    "Panel " + IntToString(p.id) + ". Scene: " + p.description + ". Characters: ["
      + CharacterContext(cs) + PanelOutro
  }

  method GeneratePanelImage(p: Panel, cs: seq<Character>, style: string,
                            model: string -> Result<ImageResponse, Error>) returns (r: Result<string, Error>)
    ensures r == ImageOutcome(PanelPrompt(p, cs), style, model)
  {
    r := GenerateImage(PanelPrompt(p, cs), style, model);
  }
}
