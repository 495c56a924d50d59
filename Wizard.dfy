/** The wizard controller of App.tsx: one ComicState held by the App object, a
    partial-merge update, the step guard, the script-review edits, and the handlers
    that fold generated images back into the character and panel lists. Each async
    handler is one sequential step over the state snapshot it started from. */
module Wizard {

  import opened Types
  import opened GeminiService

  /** `Partial<ComicState>`: a field is replaced exactly when it is present. */
  datatype StateUpdate = StateUpdate(
    step: Option<int>,
    style: Option<StyleType>,
    genre: Option<GenreType>,
    storyPrompt: Option<string>,
    characters: Option<seq<Character>>,
    panels: Option<seq<Panel>>,
    isGenerating: Option<bool>)

  const NoUpdate := StateUpdate(None, None, None, None, None, None, None)

  function Get<T>(o: Option<T>, otherwise: T): T
  {
    if o.Some? then o.value else otherwise
  }

  /** `{ ...prev, ...updates }`: every field the update names is taken from it. */
  function Merge(s: ComicState, u: StateUpdate): (r: ComicState)
    ensures u.step.Some? ==> r.step == u.step.value
    ensures u.style.Some? ==> r.style == u.style.value
    ensures u.genre.Some? ==> r.genre == u.genre.value
    ensures u.storyPrompt.Some? ==> r.storyPrompt == u.storyPrompt.value
    ensures u.characters.Some? ==> r.characters == u.characters.value
    ensures u.panels.Some? ==> r.panels == u.panels.value
    ensures u.isGenerating.Some? ==> r.isGenerating == u.isGenerating.value
  {
    ComicState(Get(u.step, s.step), Get(u.style, s.style), Get(u.genre, s.genre),
               Get(u.storyPrompt, s.storyPrompt), Get(u.characters, s.characters),
               Get(u.panels, s.panels), Get(u.isGenerating, s.isGenerating))
  }

  /** `{ ...first, ...second }` on two partial updates. */
  function Then(first: StateUpdate, second: StateUpdate): StateUpdate
  {
    StateUpdate(
      if second.step.Some? then second.step else first.step,
      if second.style.Some? then second.style else first.style,
      if second.genre.Some? then second.genre else first.genre,
      if second.storyPrompt.Some? then second.storyPrompt else first.storyPrompt,
      if second.characters.Some? then second.characters else first.characters,
      if second.panels.Some? then second.panels else first.panels,
      if second.isGenerating.Some? then second.isGenerating else first.isGenerating)
  }

  /** A merge keeps every field the update leaves out, takes every field it names, is
      idempotent, and two merges in a row are one merge of the combined update. */
  lemma MergeLaws(s: ComicState, u: StateUpdate, v: StateUpdate)
    ensures Merge(s, NoUpdate) == s
    ensures u.step.None? ==> Merge(s, u).step == s.step
    ensures u.style.None? ==> Merge(s, u).style == s.style
    ensures u.genre.None? ==> Merge(s, u).genre == s.genre
    ensures u.storyPrompt.None? ==> Merge(s, u).storyPrompt == s.storyPrompt
    ensures u.characters.None? ==> Merge(s, u).characters == s.characters
    ensures u.panels.None? ==> Merge(s, u).panels == s.panels
    ensures u.isGenerating.None? ==> Merge(s, u).isGenerating == s.isGenerating
    ensures Merge(Merge(s, u), u) == Merge(s, u)
    ensures Merge(Merge(s, u), v) == Merge(s, Then(u, v))
  {
  }

  function SetStep(n: int): StateUpdate { NoUpdate.(step := Some(n)) }
  function SetGenerating(b: bool): StateUpdate { NoUpdate.(isGenerating := Some(b)) }

  /** The state the App starts from: step 1 with nothing generated and nothing in
      flight, from which the header reaches steps 1 and 2 only. */
  function InitialState(): (r: ComicState)
    ensures r.step == 1 && r.storyPrompt == "" && r.characters == [] && r.panels == [] && !r.isGenerating
    ensures forall n :: StepButtonEnabled(r.step, n) <==> n <= 2
  {
    ComicState(1, Webtoon, DailyComedy, "", [], [], false)
  }

  /** goToStep's guard: any lower step, or exactly the next one, i.e. any step up to
      the next one except the current. */
  predicate CanGoTo(current: int, n: int): (r: bool)
    ensures r <==> n <= current + 1 && n != current
  {
    n < current || n == current + 1
  }

  /** The header button for step n is disabled exactly when n lies beyond the next step. */
  predicate StepButtonEnabled(current: int, n: int): (r: bool)
    ensures r <==> n <= current + 1
  {
    !(n > current && n != current + 1)
  }

  function AfterGoTo(s: ComicState, n: int): ComicState
  {
    if CanGoTo(s.step, n) then Merge(s, SetStep(n)) else s
  }

  /** Navigation changes only the step, never moves more than one step ahead, and lands
      on step n exactly when the header button for n is enabled (the current step's own
      button is enabled and leaves the state as it is). */
  lemma NavigationLaws(s: ComicState, n: int)
    ensures AfterGoTo(s, n) == s.(step := AfterGoTo(s, n).step)
    ensures AfterGoTo(s, n).step <= s.step + 1
    ensures AfterGoTo(s, n).step == n <==> StepButtonEnabled(s.step, n)
    ensures StepButtonEnabled(s.step, n) <==> CanGoTo(s.step, n) || n == s.step
  {
  }

  /** `Partial<Panel>`; imageUrl may be present and set to undefined. */
  datatype PanelUpdate = PanelUpdate(id: Option<int>, description: Option<string>,
                                     dialogues: Option<seq<Dialogue>>, imageUrl: Option<Option<string>>)

  function MergePanel(p: Panel, u: PanelUpdate): Panel
  {
    Panel(Get(u.id, p.id), Get(u.description, p.description), Get(u.dialogues, p.dialogues),
          Get(u.imageUrl, p.imageUrl))
  }

  /** `panels.map(p => p.id === id ? { ...p, ...u } : p)`. */
  function UpdatePanels(ps: seq<Panel>, id: int, u: PanelUpdate): (r: seq<Panel>)
    ensures |r| == |ps|
    ensures forall i :: 0 <= i < |ps| ==> r[i] == if ps[i].id == id then MergePanel(ps[i], u) else ps[i]
  {
    if ps == [] then []
    else [if ps[0].id == id then MergePanel(ps[0], u) else ps[0]] + UpdatePanels(ps[1..], id, u)
  }

  /** Editing the same panel with the same fields twice is the same as editing it once. */
  lemma UpdatePanelsIdempotent(ps: seq<Panel>, id: int, u: PanelUpdate)
    ensures UpdatePanels(UpdatePanels(ps, id, u), id, u) == UpdatePanels(ps, id, u)
  {
    var once := UpdatePanels(ps, id, u);
    var twice := UpdatePanels(once, id, u);
    forall i | 0 <= i < |ps|
      ensures twice[i] == once[i]
    {
      if ps[i].id == id {
        assert once[i] == MergePanel(ps[i], u);
      }
    }
  }

  /** `copy[k] = { ...copy[k], text }` for an index inside the list. */
  function SetDialogueText(ds: seq<Dialogue>, k: int, t: string): (r: seq<Dialogue>)
    ensures |r| == |ds|
    ensures 0 <= k < |ds| ==> r[k] == Dialogue(ds[k].speaker, t)
    ensures forall j :: 0 <= j < |ds| && j != k ==> r[j] == ds[j]
  {
    if 0 <= k < |ds| then ds[k := ds[k].(text := t)] else ds
  }

  /** The dialogue edit of handleUpdateDialogue over every panel with the given id. */
  function UpdateDialogue(ps: seq<Panel>, pid: int, k: int, t: string): (r: seq<Panel>)
    ensures |r| == |ps|
    ensures forall i :: 0 <= i < |ps| ==>
      r[i] == if ps[i].id == pid then ps[i].(dialogues := SetDialogueText(ps[i].dialogues, k, t)) else ps[i]
  {
    if ps == [] then []
    else [if ps[0].id == pid then ps[0].(dialogues := SetDialogueText(ps[0].dialogues, k, t)) else ps[0]]
         + UpdateDialogue(ps[1..], pid, k, t)
  }

  /** Reading back after a dialogue edit: the edited line has the new text and its old
      speaker, every other line of every panel is as it was, and editing again with the
      same text changes nothing more. */
  lemma DialogueEditReadBack(ps: seq<Panel>, pid: int, k: int, t: string)
    ensures var r := UpdateDialogue(ps, pid, k, t);
      forall i :: 0 <= i < |ps| ==>
        |r[i].dialogues| == |ps[i].dialogues| && r[i].id == ps[i].id
        && r[i].description == ps[i].description && r[i].imageUrl == ps[i].imageUrl
        && forall j :: 0 <= j < |ps[i].dialogues| ==>
             r[i].dialogues[j] == if ps[i].id == pid && j == k then Dialogue(ps[i].dialogues[j].speaker, t)
                                  else ps[i].dialogues[j]
    ensures UpdateDialogue(UpdateDialogue(ps, pid, k, t), pid, k, t) == UpdateDialogue(ps, pid, k, t)
  {
    var once := UpdateDialogue(ps, pid, k, t);
    var twice := UpdateDialogue(once, pid, k, t);
    forall i | 0 <= i < |ps|
      ensures twice[i] == once[i]
    {
      if ps[i].id == pid {
        var ds := ps[i].dialogues;
        assert SetDialogueText(SetDialogueText(ds, k, t), k, t) == SetDialogueText(ds, k, t);
      }
    }
  }

  /** `panels.find(p => p.id === id)`: the first panel with that id. */
  function FindPanel(ps: seq<Panel>, id: int): (r: Option<Panel>)
    ensures r.None? <==> forall i :: 0 <= i < |ps| ==> ps[i].id != id
    ensures r.Some? ==> exists i :: (0 <= i < |ps| && ps[i] == r.value && ps[i].id == id
                                     && forall j :: 0 <= j < i ==> ps[j].id != id)
  {
    if ps == [] then None
    else if ps[0].id == id then Some(ps[0])
    else FindPanel(ps[1..], id)
  }

  /** `characters.map(c => c.id === id ? { ...c, imageUrl: url } : c)`. */
  function SetCharacterImage(cs: seq<Character>, id: string, url: string): (r: seq<Character>)
    ensures |r| == |cs|
    ensures forall i :: 0 <= i < |cs| ==>
      r[i] == if cs[i].id == id then cs[i].(imageUrl := Some(url)) else cs[i]
  {
    if cs == [] then []
    else [if cs[0].id == id then cs[0].(imageUrl := Some(url)) else cs[0]] + SetCharacterImage(cs[1..], id, url)
  }

  /** `panels.map(p => p.id === id ? { ...p, imageUrl: url } : p)`: the panel edit with
      only the image named. */
  function SetPanelImage(ps: seq<Panel>, id: int, url: string): (r: seq<Panel>)
    ensures |r| == |ps|
    ensures forall i :: 0 <= i < |ps| ==>
      r[i] == if ps[i].id == id then ps[i].(imageUrl := Some(url)) else ps[i]
  {
    UpdatePanels(ps, id, PanelUpdate(None, None, None, Some(Some(url))))
  }

  /** Every generated image reference is a non-empty data URI. */
  lemma GeneratedUrlIsImage(prompt: string, style: string, model: string -> Result<ImageResponse, Error>)
    requires ImageOutcome(prompt, style, model).Success?
    ensures var u := ImageOutcome(prompt, style, model).value;
      u[..|DataUriPrefix|] == DataUriPrefix && HasImage(Some(u))
  {
  }

  /** One entry of the character fan-out: kept when it has an image, else regenerated. */
  function CharacterTask(c: Character, style: string, model: string -> Result<ImageResponse, Error>)
    : Result<Character, Error>
  {
    if HasImage(c.imageUrl) then Success(c)
    else match ImageOutcome(CharacterPrompt(c), style, model)
      case Success(u) => Success(c.(imageUrl := Some(u)))
      case Failure(e) => Failure(e)
  }

  /** `Promise.all` over the character tasks: all results in order, or failure when any
      one task fails. */
  function FillCharacterImages(cs: seq<Character>, style: string,
                               model: string -> Result<ImageResponse, Error>): (r: Result<seq<Character>, Error>)
    ensures r.Success? <==> forall i :: 0 <= i < |cs| ==> CharacterTask(cs[i], style, model).Success?
    ensures r.Success? ==> |r.value| == |cs|
    ensures r.Success? ==> forall i :: 0 <= i < |cs| ==> r.value[i] == CharacterTask(cs[i], style, model).value
  {
    if cs == [] then Success([])
    else match (CharacterTask(cs[0], style, model), FillCharacterImages(cs[1..], style, model))
      case (Success(c), Success(rest)) => Success([c] + rest)
      case (Failure(e), _) => Failure(e)
      case (_, Failure(e)) => Failure(e)
  }

  /** After a successful fan-out, characters that had an image are untouched, the
      others carry the URL generated from their own prompt, and every character has an
      image. The fan-out fails exactly when some character without an image fails. */
  lemma FillCharacterImagesSpec(cs: seq<Character>, style: string, model: string -> Result<ImageResponse, Error>)
    ensures var r := FillCharacterImages(cs, style, model);
      r.Failure? <==> exists i :: 0 <= i < |cs| && !HasImage(cs[i].imageUrl)
                                  && ImageOutcome(CharacterPrompt(cs[i]), style, model).Failure?
    ensures var r := FillCharacterImages(cs, style, model);
      r.Success? ==> forall i :: 0 <= i < |cs| ==>
        && (HasImage(cs[i].imageUrl) ==> r.value[i] == cs[i])
        && (!HasImage(cs[i].imageUrl) ==>
              r.value[i] == cs[i].(imageUrl := Some(ImageOutcome(CharacterPrompt(cs[i]), style, model).value)))
        && HasImage(r.value[i].imageUrl)
  {
    var r := FillCharacterImages(cs, style, model);
    if r.Failure? {
      var i :| 0 <= i < |cs| && CharacterTask(cs[i], style, model).Failure?;
      assert !HasImage(cs[i].imageUrl);
    } else {
      forall i | 0 <= i < |cs| && !HasImage(cs[i].imageUrl)
        ensures HasImage(r.value[i].imageUrl)
      {
        assert CharacterTask(cs[i], style, model).Success?;
        GeneratedUrlIsImage(CharacterPrompt(cs[i]), style, model);
      }
    }
  }

  /** One entry of the panel fan-out; the prompt carries the whole character roster. */
  function PanelTask(p: Panel, cs: seq<Character>, style: string,
                     model: string -> Result<ImageResponse, Error>): Result<Panel, Error>
  {
    if HasImage(p.imageUrl) then Success(p)
    else match ImageOutcome(PanelPrompt(p, cs), style, model)
      case Success(u) => Success(p.(imageUrl := Some(u)))
      case Failure(e) => Failure(e)
  }

  function FillPanelImages(ps: seq<Panel>, cs: seq<Character>, style: string,
                           model: string -> Result<ImageResponse, Error>): (r: Result<seq<Panel>, Error>)
    ensures r.Success? <==> forall i :: 0 <= i < |ps| ==> PanelTask(ps[i], cs, style, model).Success?
    ensures r.Success? ==> |r.value| == |ps|
    ensures r.Success? ==> forall i :: 0 <= i < |ps| ==> r.value[i] == PanelTask(ps[i], cs, style, model).value
  {
    if ps == [] then Success([])
    else match (PanelTask(ps[0], cs, style, model), FillPanelImages(ps[1..], cs, style, model))
      case (Success(p), Success(rest)) => Success([p] + rest)
      case (Failure(e), _) => Failure(e)
      case (_, Failure(e)) => Failure(e)
  }

  /** The panel counterpart of FillCharacterImagesSpec. */
  lemma FillPanelImagesSpec(ps: seq<Panel>, cs: seq<Character>, style: string,
                            model: string -> Result<ImageResponse, Error>)
    ensures var r := FillPanelImages(ps, cs, style, model);
      r.Failure? <==> exists i :: 0 <= i < |ps| && !HasImage(ps[i].imageUrl)
                                  && ImageOutcome(PanelPrompt(ps[i], cs), style, model).Failure?
    ensures var r := FillPanelImages(ps, cs, style, model);
      r.Success? ==> forall i :: 0 <= i < |ps| ==>
        && (HasImage(ps[i].imageUrl) ==> r.value[i] == ps[i])
        && (!HasImage(ps[i].imageUrl) ==>
              r.value[i] == ps[i].(imageUrl := Some(ImageOutcome(PanelPrompt(ps[i], cs), style, model).value)))
        && HasImage(r.value[i].imageUrl)
  {
    var r := FillPanelImages(ps, cs, style, model);
    if r.Failure? {
      var i :| 0 <= i < |ps| && PanelTask(ps[i], cs, style, model).Failure?;
      assert !HasImage(ps[i].imageUrl);
    } else {
      forall i | 0 <= i < |ps| && !HasImage(ps[i].imageUrl)
        ensures HasImage(r.value[i].imageUrl)
      {
        assert PanelTask(ps[i], cs, style, model).Success?;
        GeneratedUrlIsImage(PanelPrompt(ps[i], cs), style, model);
      }
    }
  }

  /** Results collected task by task are the fan-out's result. */
  lemma FillCharactersFromTasks(cs: seq<Character>, style: string, model: string -> Result<ImageResponse, Error>,
                                out: seq<Character>)
    requires |out| == |cs|
    requires forall j :: 0 <= j < |cs| ==> CharacterTask(cs[j], style, model) == Success(out[j])
    ensures FillCharacterImages(cs, style, model) == Success(out)
  {
    var r := FillCharacterImages(cs, style, model);
    assert r.value == out;
  }

  lemma FillPanelsFromTasks(ps: seq<Panel>, cs: seq<Character>, style: string,
                            model: string -> Result<ImageResponse, Error>, out: seq<Panel>)
    requires |out| == |ps|
    requires forall j :: 0 <= j < |ps| ==> PanelTask(ps[j], cs, style, model) == Success(out[j])
    ensures FillPanelImages(ps, cs, style, model) == Success(out)
  {
    var r := FillPanelImages(ps, cs, style, model);
    assert r.value == out;
  }

  /** The character fan-out of handleGenerateAllCharacters, one call after the other:
      stops at the first failed call, otherwise the list with every missing image filled. */
  method RenderCharacterImages(cs: seq<Character>, style: string, model: string -> Result<ImageResponse, Error>)
    returns (r: Result<seq<Character>, Error>)
    ensures r.Success? <==> FillCharacterImages(cs, style, model).Success?
    ensures r.Success? ==> r.value == FillCharacterImages(cs, style, model).value
  {
    var newChars: seq<Character> := [];
    var i := 0;
    while i < |cs|
      invariant 0 <= i <= |cs| && |newChars| == i
      invariant forall j :: 0 <= j < i ==> CharacterTask(cs[j], style, model) == Success(newChars[j])
    {
      var c := cs[i];
      if HasImage(c.imageUrl) {
        assert CharacterTask(c, style, model) == Success(c);
        newChars := newChars + [c];
      } else {
        var imgUrl := GenerateCharacterImage(c, style, model);
        if imgUrl.Failure? {
          assert CharacterTask(cs[i], style, model).Failure?;
          return Failure(imgUrl.error);
        }
        assert CharacterTask(c, style, model) == Success(c.(imageUrl := Some(imgUrl.value)));
        newChars := newChars + [c.(imageUrl := Some(imgUrl.value))];
      }
      i := i + 1;
    }
    FillCharactersFromTasks(cs, style, model, newChars);
    return Success(newChars);
  }

  /** The panel fan-out of handleGenerateAllPanels, in the same shape. */
  method RenderPanelImages(ps: seq<Panel>, cs: seq<Character>, style: string,
                           model: string -> Result<ImageResponse, Error>)
    returns (r: Result<seq<Panel>, Error>)
    ensures r.Success? <==> FillPanelImages(ps, cs, style, model).Success?
    ensures r.Success? ==> r.value == FillPanelImages(ps, cs, style, model).value
  {
    var newPanels: seq<Panel> := [];
    var i := 0;
    while i < |ps|
      invariant 0 <= i <= |ps| && |newPanels| == i
      invariant forall j :: 0 <= j < i ==> PanelTask(ps[j], cs, style, model) == Success(newPanels[j])
    {
      var p := ps[i];
      if HasImage(p.imageUrl) {
        assert PanelTask(p, cs, style, model) == Success(p);
        newPanels := newPanels + [p];
      } else {
        var imgUrl := GeneratePanelImage(p, cs, style, model);
        if imgUrl.Failure? {
          assert PanelTask(ps[i], cs, style, model).Failure?;
          return Failure(imgUrl.error);
        }
        assert PanelTask(p, cs, style, model) == Success(p.(imageUrl := Some(imgUrl.value)));
        newPanels := newPanels + [p.(imageUrl := Some(imgUrl.value))];
      }
      i := i + 1;
    }
    FillPanelsFromTasks(ps, cs, style, model, newPanels);
    return Success(newPanels);
  }

  /** The App component's state and its handlers. */
  class App {
    var state: ComicState

    constructor ()
      ensures state.step == 1 && state.style == Webtoon && state.genre == DailyComedy
      ensures state.storyPrompt == "" && state.characters == [] && state.panels == []
      ensures !state.isGenerating
    {
      state := InitialState();
    }

    /** updateState. */
    method UpdateState(u: StateUpdate)
      modifies this
      ensures state == Merge(old(state), u)
    {
      state := Merge(state, u);
    }

    /** goToStep: only a lower step or the next one is taken; anything else is ignored. */
    method GoToStep(n: int)
      modifies this
      ensures CanGoTo(old(state.step), n) ==> state == old(state).(step := n)
      ensures !CanGoTo(old(state.step), n) ==> state == old(state)
      ensures state == AfterGoTo(old(state), n)
    {
      if n < state.step || n == state.step + 1 {
        UpdateState(SetStep(n));
      }
    }

    /** handleGenerateScript: on success the script replaces characters and panels and the
        wizard moves to step 2; on failure only the in-flight flag is cleared. */
    method HandleGenerateScript(model: (StyleType, GenreType, string) -> Result<Option<string>, Error>,
                                parse: string -> Option<ParsedScript>)
      modifies this
      ensures var r := GenerateScript(old(state.style), old(state.genre), old(state.storyPrompt), model, parse);
        r.Success? ==> state == old(state).(characters := r.value.characters, panels := r.value.panels,
                                            step := 2, isGenerating := false)
      ensures var r := GenerateScript(old(state.style), old(state.genre), old(state.storyPrompt), model, parse);
        r.Failure? ==> state == old(state).(isGenerating := false)
    {
      var snapshot := state;
      UpdateState(SetGenerating(true));
      var result := GenerateScript(snapshot.style, snapshot.genre, snapshot.storyPrompt, model, parse);
      if result.Success? {
        UpdateState(NoUpdate.(characters := Some(result.value.characters), panels := Some(result.value.panels),
                              step := Some(2), isGenerating := Some(false)));
      } else {
        UpdateState(SetGenerating(false));
      }
    }

    /** handleUpdatePanel. */
    method HandleUpdatePanel(id: int, u: PanelUpdate)
      modifies this
      ensures state == old(state).(panels := UpdatePanels(old(state.panels), id, u))
    {
      var newPanels := UpdatePanels(state.panels, id, u);
      UpdateState(NoUpdate.(panels := Some(newPanels)));
    }

    /** handleUpdateDialogue. */
    method HandleUpdateDialogue(panelId: int, k: int, text: string)
      modifies this
      ensures state == old(state).(panels := UpdateDialogue(old(state.panels), panelId, k, text))
    {
      var newPanels := UpdateDialogue(state.panels, panelId, k, text);
      UpdateState(NoUpdate.(panels := Some(newPanels)));
    }

    /** handleGenerateCharacter: the new image goes to the characters with that id only. */
    method HandleGenerateCharacter(c: Character, model: string -> Result<ImageResponse, Error>)
      modifies this
      ensures var r := ImageOutcome(CharacterPrompt(c), StyleLabel(old(state.style)), model);
        r.Success? ==> state == old(state).(characters := SetCharacterImage(old(state.characters), c.id, r.value),
                                            isGenerating := false)
      ensures var r := ImageOutcome(CharacterPrompt(c), StyleLabel(old(state.style)), model);
        r.Failure? ==> state == old(state).(isGenerating := false)
    {
      var snapshot := state;
      UpdateState(SetGenerating(true));
      var imgUrl := GenerateCharacterImage(c, StyleLabel(snapshot.style), model);
      if imgUrl.Success? {
        var newChars := SetCharacterImage(snapshot.characters, c.id, imgUrl.value);
        UpdateState(NoUpdate.(characters := Some(newChars), isGenerating := Some(false)));
      } else {
        UpdateState(SetGenerating(false));
      }
    }

    /** handleGenerateAllCharacters: all-or-nothing over the characters still without an
        image. */
    method HandleGenerateAllCharacters(model: string -> Result<ImageResponse, Error>)
      modifies this
      ensures var r := FillCharacterImages(old(state.characters), StyleLabel(old(state.style)), model);
        r.Success? ==> state == old(state).(characters := r.value, isGenerating := false)
      ensures var r := FillCharacterImages(old(state.characters), StyleLabel(old(state.style)), model);
        r.Failure? ==> state == old(state).(isGenerating := false)
    {
      var snapshot := state;
      UpdateState(SetGenerating(true));
      var newChars := RenderCharacterImages(snapshot.characters, StyleLabel(snapshot.style), model);
      if newChars.Success? {
        UpdateState(NoUpdate.(characters := Some(newChars.value), isGenerating := Some(false)));
      } else {
        UpdateState(SetGenerating(false));
      }
    }

    /** handleGeneratePanel. An id no panel has returns early from inside the try block,
        before any reset: the in-flight flag stays set. */
    method HandleGeneratePanel(panelId: int, model: string -> Result<ImageResponse, Error>)
      modifies this
      ensures FindPanel(old(state.panels), panelId).None? ==> state == old(state).(isGenerating := true)
      ensures FindPanel(old(state.panels), panelId).Some? ==>
        var r := ImageOutcome(PanelPrompt(FindPanel(old(state.panels), panelId).value, old(state.characters)),
                              StyleLabel(old(state.style)), model);
        (r.Success? ==> state == old(state).(panels := SetPanelImage(old(state.panels), panelId, r.value),
                                             isGenerating := false))
        && (r.Failure? ==> state == old(state).(isGenerating := false))
    {
      var snapshot := state;
      UpdateState(SetGenerating(true));
      var panel := FindPanel(snapshot.panels, panelId);
      if panel.None? {
        return;
      }
      var imgUrl := GeneratePanelImage(panel.value, snapshot.characters, StyleLabel(snapshot.style), model);
      if imgUrl.Success? {
        var newPanels := SetPanelImage(snapshot.panels, panelId, imgUrl.value);
        UpdateState(NoUpdate.(panels := Some(newPanels), isGenerating := Some(false)));
      } else {
        UpdateState(SetGenerating(false));
      }
    }

    /** handleGenerateAllPanels: all-or-nothing over the panels still without an image,
        each prompt carrying the whole character roster. */
    method HandleGenerateAllPanels(model: string -> Result<ImageResponse, Error>)
      modifies this
      ensures var r := FillPanelImages(old(state.panels), old(state.characters), StyleLabel(old(state.style)), model);
        r.Success? ==> state == old(state).(panels := r.value, isGenerating := false)
      ensures var r := FillPanelImages(old(state.panels), old(state.characters), StyleLabel(old(state.style)), model);
        r.Failure? ==> state == old(state).(isGenerating := false)
    {
      var snapshot := state;
      UpdateState(SetGenerating(true));
      var newPanels := RenderPanelImages(snapshot.panels, snapshot.characters, StyleLabel(snapshot.style), model);
      if newPanels.Success? {
        UpdateState(NoUpdate.(panels := Some(newPanels.value), isGenerating := Some(false)));
      } else {
        UpdateState(SetGenerating(false));
      }
    }
  }

  /** A successful script generation leaves no image on any character or panel and
      gives the characters pairwise distinct ids. */
  lemma FreshScriptHasNoImages(style: StyleType, genre: GenreType, prompt: string,
                               model: (StyleType, GenreType, string) -> Result<Option<string>, Error>,
                               parse: string -> Option<ParsedScript>)
    requires GenerateScript(style, genre, prompt, model, parse).Success?
    ensures var sc := GenerateScript(style, genre, prompt, model, parse).value;
      (forall c :: c in sc.characters ==> !HasImage(c.imageUrl))
      && (forall p :: p in sc.panels ==> !HasImage(p.imageUrl))
      && (forall i, j :: 0 <= i < j < |sc.characters| ==> sc.characters[i].id != sc.characters[j].id)
  {
    var data := parse(CleanJson(TextOr(model(style, genre, prompt).value, "{}"))).value;
    MappedCharactersDistinct(data);
  }
}
