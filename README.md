# AI 4-Koma Creator — a Dafny model of the wizard core

The application is a four-step browser wizard that turns a story idea into a
four-panel ("4-koma") comic. Step 1 picks a drawing style, a genre and a story
prompt. A generative model then writes a script: characters and four panels of
dialogue. Step 2 edits that script. Step 3 draws reference images of the
characters. Step 4 draws the panels and exports them, either as one combined sheet
or as one file per panel.

This project models that core in Dafny:

- `Types` holds the records of `types.ts`: the closed style and genre sets,
  `Character`, `Dialogue`, `Panel` and the single `ComicState` of the wizard.
- `Strings` holds the JavaScript string operations the core depends on:
  - `${n}` number formatting;
  - `Array.join`;
  - `indexOf`-style search;
  - `String.prototype.trim` over every JavaScript WhiteSpace and LineTerminator
    code point.
- `GeminiService` models the generation client:
  - `cleanJson`, the removal of a fenced code block;
  - the defaults for an empty response;
  - the mapping of a parsed script into `Character`/`Panel` records;
  - the three prompt formulas;
  - the scan of an image response for its first inline image.

  Each remote model call is a function parameter that answers success or failure,
  and so is `JSON.parse`.
- `ImageUtils` models `createCombinedImage`:
  - image decoding as a `load` parameter that yields a pixel size, or nothing;
  - the canvas size per layout;
  - the origin of every image;
  - the dialogue lines under each image, with their text and positions;
  - the sequence of draw calls.

  The draw loop is the method `CreateCombinedImage`, proved equal to the function
  `CombinedImage`.
- `Wizard` is `App.tsx`. A class `App` holds the `ComicState`. Its methods are the
  handlers: they set the in-flight flag, call the generator and fold the result
  back into the state. Every handler works from the state it started with, as the
  React closures do. The list rewrites are functions with their own lemmas.
- `Step1` is the selection screen. It covers the readiness gate, which counts
  UTF-16 code units as JavaScript's `length` does, the enable rule, idea selection,
  and the idea fetch with its loading flag.
- `Step4` is the comic screen. It covers which panels are exported, under which
  file names and layouts, and the save-bar and button-label rules.

## Model

| member | source | states |
|---|---|---|
| Types.AllStyles | types.ts:1-10 | exactly eight styles, with pairwise distinct labels |
| Types.StyleListed | types.ts:1-10 | the style set is closed: every style value is among the eight listed |
| Types.AllGenres | types.ts:12-23 | exactly ten genres, with pairwise distinct labels |
| Types.GenreListed | types.ts:12-23 | the genre set is closed: every genre value is among the ten listed |
| Strings.NatToString | services/geminiService.ts:135 | the decimal rendering of `${i}` is never empty and has one digit exactly when the number is below 10 |
| Strings.NatToStringInjective | services/geminiService.ts:135 | different numbers render as different strings |
| Strings.PrefixedNumberInjective | services/geminiService.ts:135 | a fixed prefix followed by a rendered number determines the number |
| Strings.IntToString | services/geminiService.ts:187 | `${panel.id}` renders any integer, negatives included, as a non-empty string |
| Strings.JoinSnoc | services/geminiService.ts:183-185 | `join` of a list extended by one element is the old join, then the separator, then that element |
| Strings.FindFrom | services/geminiService.ts:8 | the answer is the first index at or after the start where the pattern occurs; None means it occurs nowhere from there on |
| Strings.TrimStart | services/geminiService.ts:9 | removes exactly the leading white space: the result is a suffix, everything dropped is white space, and the result does not start with white space |
| Strings.TrimEnd | services/geminiService.ts:9 | removes exactly the trailing white space, symmetrically |
| Strings.Trim | services/geminiService.ts:9 | `trim()` gives an inner slice whose removed prefix and suffix are all white space and which neither starts nor ends with white space |
| GeminiService.CleanJson | services/geminiService.ts:7-10 | the text comes back as it is, or it holds a "```json" … "```" block and the answer is shorter by at least both fences and neither starts nor ends with white space |
| GeminiService.CleanJsonWithoutBlock | services/geminiService.ts:7-10 | when no "```json" is followed later by "```", the text comes back unchanged |
| GeminiService.CleanJsonFirstBlock | services/geminiService.ts:7-10 | for the first "```json" and the first "```" after it, the result is the trimmed text between them (the lazy group) |
| GeminiService.FencedBlockHasFirstFences | services/geminiService.ts:8 | a text with a fenced block has a first opening fence and a first closing fence after it, so the two lemmas above together cover every text |
| GeminiService.CleanJsonWithoutOpening | services/geminiService.ts:7-10 | a text without a 'j' holds no opening fence and is left unchanged |
| GeminiService.CleanJsonUnwrapsFence | services/geminiService.ts:7-10 | "```json" + body + "```" gives the trimmed body when the body holds no backtick |
| GeminiService.CleanJsonKeepsBareFence | services/geminiService.ts:8-9 | a bare "```" fence without the json tag is not stripped |
| GeminiService.TextOr | services/geminiService.ts:38 | the fallback rule of `response.text` gives the response text when it is a non-empty string and the fallback otherwise, never empty when the fallback is not |
| GeminiService.GenerateStoryIdeas | services/geminiService.ts:12-40 | succeeds exactly when the call succeeds and the cleaned text parses; the ideas are the parse; a failed call passes its error on |
| GeminiService.EmptyResponseDefaults | services/geminiService.ts:38 | a missing or empty response text hands the parser exactly "[]" for ideas and "{}" for a script (line 130) |
| GeminiService.MapScript | services/geminiService.ts:133-144 | counts and order are kept; character i gets id "char_i", its name and description and no image; each panel gets its panel number as id, its scene and its dialogue, and no image |
| GeminiService.MappedCharactersDistinct | services/geminiService.ts:134-138 | the mapped character ids are pairwise distinct, and no character has an image |
| GeminiService.MapScriptAcceptsAnyPanels | services/geminiService.ts:139-143 | neither the panel count nor the uniqueness of panel numbers is checked: three panels with a repeated number map to three panels sharing an id |
| GeminiService.GenerateScript | services/geminiService.ts:120-144 | succeeds exactly when the call succeeds and the cleaned text (or "{}") parses; the script is the mapping of that parse; a failed call passes its error on and a refused text is Unparsable |
| GeminiService.EmptyScriptResponseFails | services/geminiService.ts:130-134 | a missing or empty script response fails as Unparsable whenever the parser refuses "{}", as `data.characters.map` on `{}` throws |
| GeminiService.ImagePrompt | services/geminiService.ts:151 | the prompt is the style, then " style. ", then the subject, then the fixed quality qualifiers, at those exact positions |
| GeminiService.ImagePromptInjective | services/geminiService.ts:151 | for a fixed style, different subjects give different prompts |
| GeminiService.ResponseParts | services/geminiService.ts:159 | the optional chain to the first candidate's parts: no candidate list or an empty one gives no parts, and any parts come from the first candidate's content |
| GeminiService.FirstInline | services/geminiService.ts:159-163 | the index of the first part with inline data; None exactly when no part has any |
| GeminiService.GenerateImage | services/geminiService.ts:147-165 | the for loop with its early return answers the data URI of the first inline part of the first candidate; after a successful call it succeeds exactly when some part has inline data and fails with NoImageGenerated otherwise, including when there is no candidate |
| GeminiService.CharacterPrompt | services/geminiService.ts:172 | "Character design sheet for " + name + ". " + description + ". Full body, white background.", with name and description readable back at their positions |
| GeminiService.GenerateCharacterImage | services/geminiService.ts:167-175 | the image request carries the fixed character-sheet prompt built from the name and the description |
| GeminiService.CharacterContext | services/geminiService.ts:183-185 | the roster context is empty exactly for an empty roster and opens with the first character's "name is description" |
| GeminiService.CharacterContextSnoc | services/geminiService.ts:183-185 | the roster context introduces every character as "name is description", in roster order, joined by ". " |
| GeminiService.PanelPrompt | services/geminiService.ts:187 | "Panel " + id + ". Scene: " + scene + ". Characters: [" + context + "]. Action shot, dynamic composition.", each part readable back at its position |
| GeminiService.GeneratePanelImage | services/geminiService.ts:177-189 | the image request carries the panel id, the scene and the whole roster context inside brackets |
| ImageUtils.CanvasWidth | utils/imageUtils.ts:35-48 | the canvas is between one and four image widths wide (2, 4 and 1 for 2x2, horizontal and vertical) |
| ImageUtils.CanvasHeight | utils/imageUtils.ts:35-48 | the canvas is between one and four image-and-band rows tall |
| ImageUtils.CanvasHoldsFourCells | utils/imageUtils.ts:35-48 | in every layout the canvas area is exactly four image-and-250-pixel-band cells |
| ImageUtils.OriginX | utils/imageUtils.ts:58-67 | the i-th image starts at or right of the left edge and at most i image widths in |
| ImageUtils.OriginY | utils/imageUtils.ts:58-67 | the i-th image starts at or below the top edge and at most i image-and-band rows down |
| ImageUtils.DialogueLines | utils/imageUtils.ts:77-87 | line k of a panel is "speaker: text", drawn at y + h + 40 + 35k and centred at x + w/2 (2·cx = 2x + w) |
| ImageUtils.LoadAll | utils/imageUtils.ts:17-27 | all images are decoded or the whole load fails; on success size i is image i's |
| ImageUtils.Composite | utils/imageUtils.ts:31-88 | an empty image list fails; fewer panels than images fails; otherwise the canvas size follows the layout from the first image's size only, and cell i is image i at its layout origin with panel i's dialogue |
| ImageUtils.CombinedImage | utils/imageUtils.ts:8-91 | fails with ImageLoadFailed exactly when some image does not load, with NoImages exactly for an empty list, with MissingPanel exactly when all load but panels are fewer than images; a success is sized from the first image |
| ImageUtils.CreateCombinedImage | utils/imageUtils.ts:8-91 | the draw loop, with mutable x, y and a baseline advanced by 35, computes exactly the combined canvas, drawing image i as cell i |
| ImageUtils.ImageOrderAppend | utils/imageUtils.ts:54-88 | the images drawn by two call sequences in a row are those of the first, then those of the second |
| ImageUtils.CellCallsImageOrder | utils/imageUtils.ts:54-88 | the cells' draw calls draw the cells' images once each, in cell order |
| ImageUtils.ImagesDrawnInOrder | utils/imageUtils.ts:51-70 | a composed canvas starts with a white fill of the whole canvas and then draws images 0, 1, 2, … once each, in input order |
| ImageUtils.CellInsideCanvas | utils/imageUtils.ts:38-67 | for the first four images, in every layout, the image and its whole text band lie on the canvas |
| ImageUtils.FifthCellOffCanvas | utils/imageUtils.ts:38-67 | a fifth image would start at or beyond the canvas edge: the layouts hold four images |
| ImageUtils.DialogueFitsBand | utils/imageUtils.ts:78-87 | a dialogue baseline falls inside the 250-pixel band exactly for the first six lines |
| ImageUtils.SingleVerticalCanvas | utils/imageUtils.ts:44-47 | one image composed vertically still gets the w by 4(h + 250) canvas, with its cell at the origin |
| Wizard.Merge | App.tsx:22-24 | `{ ...prev, ...updates }`: every field the update names is taken from the update |
| Wizard.InitialState | App.tsx:9-17 | step 1, an empty prompt, no characters, no panels, nothing in flight; the header then enables steps up to 2 only |
| Wizard.CanGoTo | App.tsx:28 | the guard admits exactly the steps up to the next one other than the current one |
| Wizard.StepButtonEnabled | App.tsx:146 | the step-n header button is enabled exactly when n is at most the next step |
| Wizard.MergeLaws | App.tsx:22-24 | the partial merge keeps every field the update leaves out and takes the ones it names; it is idempotent; two merges in a row are one merge of the combined update |
| Wizard.NavigationLaws | App.tsx:26-31 | navigation changes only the step, never jumps more than one step ahead, and lands on n exactly when the header button for n is enabled (line 146) |
| Wizard.UpdatePanels | App.tsx:52-55 | length and order are kept; exactly the panels with that id get the update merged in; all others are unchanged |
| Wizard.UpdatePanelsIdempotent | App.tsx:52-55 | applying the same panel update twice is the same as once |
| Wizard.SetDialogueText | App.tsx:60-61 | for an index in range only that entry's text changes and its speaker stays; the count and the other entries are unchanged |
| Wizard.UpdateDialogue | App.tsx:57-65 | only the panels with the given id have their dialogue edited; the others are unchanged; the length is kept |
| Wizard.DialogueEditReadBack | App.tsx:57-65 | after an edit the addressed line has the new text and its old speaker; every other line, id, description and image is as before; a repeated edit changes nothing more |
| Wizard.FindPanel | App.tsx:104 | `find` answers the first panel with the id, or None exactly when no panel has it |
| Wizard.SetCharacterImage | App.tsx:72 | the new image goes to the characters with the matching id only |
| Wizard.SetPanelImage | App.tsx:108 | the new image goes to the panels with the matching id only |
| Wizard.GeneratedUrlIsImage | services/geminiService.ts:161 | a generated reference is a data URI and therefore counts as an image |
| Wizard.FillCharacterImages | App.tsx:85-91 | `Promise.all` over the per-character tasks: success exactly when every task succeeds, with the results in order |
| Wizard.FillCharacterImagesSpec | App.tsx:85-91 | the fan-out fails exactly when some character without an image fails; on success characters with an image are untouched, the others carry the URL of their own prompt, and every character has an image |
| Wizard.FillPanelImages | App.tsx:120-125 | the same fan-out over the panels, each prompt carrying the whole roster |
| Wizard.FillPanelImagesSpec | App.tsx:120-125 | the panel counterpart of FillCharacterImagesSpec |
| Wizard.FillCharactersFromTasks | App.tsx:85-91 | results collected task by task are exactly the fan-out's result |
| Wizard.FillPanelsFromTasks | App.tsx:120-125 | the same for panels |
| Wizard.RenderCharacterImages | App.tsx:85-91 | the loop over the characters computes the fan-out: it fails exactly when the fan-out fails and otherwise answers its list |
| Wizard.RenderPanelImages | App.tsx:120-125 | the same loop over the panels |
| Wizard.App.constructor | App.tsx:9-17 | step 1, Webtoon, daily comedy, an empty prompt, no characters, no panels, not generating |
| Wizard.App.UpdateState | App.tsx:22-24 | the state becomes the merge of the old state and the update |
| Wizard.App.GoToStep | App.tsx:26-31 | step := n when n lies below the step or is the next one; otherwise nothing changes |
| Wizard.App.HandleGenerateScript | App.tsx:34-49 | on success characters and panels are replaced, the step becomes 2 and the flag is cleared; on failure only the flag changes, back to false |
| Wizard.App.HandleUpdatePanel | App.tsx:52-55 | only the panel list changes, to its update by id |
| Wizard.App.HandleUpdateDialogue | App.tsx:57-65 | only the panel list changes, to its dialogue edit |
| Wizard.App.HandleGenerateCharacter | App.tsx:68-79 | on success the image is set on the characters with that id and the flag is cleared; on failure only the flag is cleared |
| Wizard.App.HandleGenerateAllCharacters | App.tsx:81-98 | on success the characters become the fan-out's list; if any call fails nothing but the flag changes |
| Wizard.App.HandleGeneratePanel | App.tsx:101-115 | an unknown id returns with the panels unchanged and the flag still set; otherwise as for a character |
| Wizard.App.HandleGenerateAllPanels | App.tsx:117-132 | on success the panels become the fan-out's list; if any call fails nothing but the flag changes |
| Wizard.FreshScriptHasNoImages | App.tsx:38-43 | after a script is generated no character and no panel has an image, and the character ids are pairwise distinct |
| Step1.Utf16Length | components/Step1Selection.tsx:19 | `length` counts UTF-16 code units: between one and two per character |
| Step1.IsReady | components/Step1Selection.tsx:19 | six characters always make the prompt ready and two or fewer never do |
| Step1.ReadinessThresholds | components/Step1Selection.tsx:19 | six characters always make the prompt ready and two or fewer never do; three astral characters already count as six units, while "abcde" is not ready |
| Step1.CanGenerateScript | components/Step1Selection.tsx:138 | the button is enabled only when idle with at least three characters, and always when idle with six |
| Step1.ScriptButtonRule | components/Step1Selection.tsx:138 | the generate-script button is disabled while a script is in flight and on the initial empty prompt, and enabled by any idle prompt of six or more characters |
| Step1.IdeaSelected | components/Step1Selection.tsx:101-105 | the empty placeholder value sends no update |
| Step1.SelectionUpdates | components/Step1Selection.tsx:45 | a style click, a genre click (line 67) and a keystroke change only their own field; picking an idea sets the prompt to exactly that idea |
| Step1.Step1Selection.constructor | components/Step1Selection.tsx:16-17 | no ideas, not loading, so no idea picker |
| Step1.Step1Selection.ShowsIdeaPicker | components/Step1Selection.tsx:97 | the idea picker is shown exactly when there is at least one idea |
| Step1.Step1Selection.HandleGenerateIdeas | components/Step1Selection.tsx:21-32 | on success the ideas are replaced wholesale and the picker shows exactly when some idea came back; on failure the ideas and the picker stay; the loading flag ends false either way |
| Step4.ValidPanels | components/Step4Comic.tsx:25 | the kept panels all have an image and come from the comic; every panel with an image is kept |
| Step4.ValidPanelsAppend | components/Step4Comic.tsx:25 | filtering keeps the original order: it distributes over concatenation |
| Step4.SaveBarVisible | components/Step4Comic.tsx:117 | the save bar shows exactly when every panel has an image, so always for a comic without panels |
| Step4.SaveBarMeansAllPanels | components/Step4Comic.tsx:117 | the save bar is shown exactly when filtering keeps every panel |
| Step4.RegenerateAllLabel | components/Step4Comic.tsx:64 | the button offers "regenerate all" exactly when the export filter keeps some panel, and "generate all" exactly when it keeps none |
| Step4.GenerateLabelMeansNothingToSave | components/Step4Comic.tsx:25-31 | while the button reads "generate all", no save button produces a file |
| Step4.ImagesOf | components/Step4Comic.tsx:26 | the image list has one URL per selected panel, position by position |
| Step4.SelectedUrls | components/Step4Comic.tsx:25-26 | on the selected panels, image i is panel i's own image reference |
| Step4.ComicFileName | components/Step4Comic.tsx:40 | `comic_{type}.png` with the layout name readable back, and never equal to any per-panel file name |
| Step4.PanelFileName | components/Step4Comic.tsx:36 | `panel_{m}.png` with the number m readable back |
| Step4.PanelFileNameInjective | components/Step4Comic.tsx:36 | different positions give different `panel_{i+1}.png` names |
| Step4.IndividualDownloads | components/Step4Comic.tsx:33-37 | at most one file per selected panel, each named `panel_m.png` for a position m among them |
| Step4.IndividualNamesDistinct | components/Step4Comic.tsx:33-37 | no two individual files share a name |
| Step4.IndividualDownloadsComplete | components/Step4Comic.tsx:33-37 | when every image loads, file i is `panel_{i+1}.png` (position, not panel id) and holds that panel alone on the w by 4(h + 250) vertical canvas |
| Step4.PlannedDownloads | components/Step4Comic.tsx:25-41 | no selected panel means no file; a combined save gives at most one file, named `comic_{type}.png`; an individual save gives at most one file per selected panel, each named `panel_m.png` for a position m among them |
| Step4.CombinedDownloads | components/Step4Comic.tsx:38-41 | at most one file; one exactly when some panel is selected and every selected image loads, then named `comic_{type}.png` with one cell per selected panel |
| Step4.NoImagesNoDownloads | components/Step4Comic.tsx:28-31 | a comic without any image produces no file |
| Step4.NothingToSelect | components/Step4Comic.tsx:25 | with no image anywhere the filter keeps nothing |
| Step4.CombinedDownloadSpec | components/Step4Comic.tsx:38-41 | a combined save makes at most one file, `comic_{type}.png`, exactly when every selected image loads; cell i shows selected image i with that panel's dialogue, so a missing panel cannot occur |
| Step4.RenderIndividual | components/Step4Comic.tsx:34-37 | the per-panel loop produces exactly the individual files |
| Step4.RenderCombined | components/Step4Comic.tsx:39-40 | one combined render produces exactly the combined file list |
| Step4.Step4Comic.constructor | components/Step4Comic.tsx:19 | not saving, nothing downloaded |
| Step4.Step4Comic.HandleDownload | components/Step4Comic.tsx:21-48 | the downloads grow by exactly the planned files, and the saving flag is false afterwards on every path, the empty early return included |

## Left out

- The remote model calls are parameters: `ai.models.generateContent`, the client and the API key. Each is a total function answering success with a value or failure. The Korean instruction texts of the idea and script requests are not modelled: the parameter takes the style, the genre and the prompt instead of the rendered text.
- `JSON.parse` and the response schemas are a parameter from text to an optional structured value. A parse that throws, or a shape without the required arrays, should be `None`, but nothing forces the parameter to behave so. EmptyScriptResponseFails states the consequence for a parser that refuses "{}": an empty script response then fails, as `data.characters.map` on `{}` throws in the code.
- GeminiService.GenerateScript: its contract holds for any parser, so on its own it does not promise that an empty response fails; that promise is EmptyScriptResponseFails, under its condition on the parser.
- Image decoding (`new Image`, `onload`/`onerror`) is a parameter from URL to an optional pixel size. Pixels, fonts, colours other than the white fill, and `toDataURL` are not modelled. The canvas is its size and the calls drawn on it.
- A `getContext('2d')` that returns null is not modelled, because it is browser behaviour.
- `downloadCanvas` is DOM I/O. A download is recorded as a file name and a canvas.
- Alerts and `console.error` are user-facing output and are not modelled. No state depends on them.
- Concurrency is not modelled. Each async handler is one sequential step over the state snapshot it started with. `Promise.all` becomes an in-order all-or-nothing loop. Interleavings of two handlers are not modelled.
- The individual download's `forEach(async …)` is not awaited by the source. The model produces the files in position order within the same step, before the saving flag drops. In the source the flag drops first, the files arrive in any order, and a failed panel is an unhandled rejection rather than the error alert.
- Wizard.SetDialogueText: for an index at or beyond the end of a panel's dialogues, the code writes a speaker-less `{ text }` entry at that index, with holes before it when the index is past the end. The model leaves the list unchanged, because a `Dialogue` always has a speaker. The case is reachable: the review screen passes an index that is valid for the panel being edited, but the edit applies to every panel with that id, and generated scripts may repeat ids (MapScriptAcceptsAnyPanels), so a shorter panel with the same id grows in the code and stays as it is in the model. A negative index leaves the elements unchanged, as in the code.
- The screens of steps 2 and 3 only render the state and forward callbacks to the App handlers, which are modelled. Their next and back buttons call `updateState` with a fixed step (App.tsx:175-176, 185-186, 194), which is `UpdateState` with that step and bypasses the `goToStep` guard. The `Button` component is not part of this model.
- The script result is not validated to hold four panels with distinct ids, because the code does not check this (MapScriptAcceptsAnyPanels). The script request's own instruction asks for exactly four panels (services/geminiService.ts:53), but nothing checks the answer.
- Individual mode composes each panel on the four-cell vertical canvas, as the code does (SingleVerticalCanvas). So one panel's file is w by 4·(h + 250) pixels, with three empty cells below it.
- JavaScript numbers are IEEE doubles. Panel ids, the step and pixel sizes are unbounded integers here, and `${id}` is always plain decimal, where the code switches to exponent form from 1e21. Nothing in the modelled behaviour depends on values that large.
