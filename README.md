# Sales-enablement portal: verified model of its interactive logic

The portal is a single-page React site for a branding and digital-marketing
agency. It has a training portal made of module cards, a training-video
player, and a Sales Pitch Hub that can generate a custom pitch script. Most of
the site is static markup. This project models the parts that compute or keep
state, and proves what they promise:

- **Pitch script** (`src/components/SalesPitchScript.tsx`):
  - the six-section catalogue, whose bodies are templates over the three props;
  - the plain-text export and its download file name;
  - the "Copied!" feedback of the copy buttons.
- **Video player** (`src/components/VideoPlayer.tsx`): the `m:ss` time label,
  and the play, mute, seek, time-update and metadata handlers over a media
  element.
- **Training-module card** (`src/components/TrainingModule.tsx`): the display
  rules, the prop defaults and the `handleStart` loading lifecycle.
- **Application shell** (`src/App.tsx`): the page selector, the navigation
  buttons, the selected module and the pitch-script switch.

Modules, one per concern:

| file | module | contents |
|---|---|---|
| `wrappers.dfy` | `Wrappers` | `Option`, for optional props and `null` |
| `text.dfy` | `Text` | the JavaScript string operations the components use (`toLowerCase`, `\s`, `repeat`, `padStart`, `join` and decimal `toString`), and two readers of the model's own that say what those texts mean: `Split` on one character, with the semantics of JavaScript's `split`, and `ParseNat`, a decimal reader |
| `pitch_templates.dfy` | `PitchTemplates` | the section catalogue |
| `pitch_export.dfy` | `PitchExport` | the export text and the file name |
| `pitch_copy.dfy` | `PitchCopy` | copy feedback, as written and corrected |
| `video_player.dfy` | `Player` | time label, media element, player |
| `training_module.dfy` | `ModuleCard` | card rules and card state |
| `app.dfy` | `AppShell` | page selector and App state |

How the model is built:

- **Pure code is functions and lemmas.** This covers the templates, the
  serialiser, the slug, `formatTime`, and the label and badge rules.
- **State is classes whose methods update fields.** This covers
  `copiedSection`, the player's state and its media element, the card's
  `isLoading`, and the App's three state variables.
- **Clock and timers are explicit.** For the copy feedback, the clock and
  the timer queue are fields: `now` and the due times of the pending clears.
  Methods advance the clock (`Wait`) and run the earliest timer (`TimerFires`).
- **The card's delay is an event.** The card's simulated one-second load is
  the pair `ClickStart` / `FinishStart`.
- **The bodies' prose is a parameter.** Each body is a template over the
  props. The long prose between the insertions is a `SectionCopy` value. The
  component's own text is the constant `PitchTemplates.SourceCopy`, and the
  lemmas hold for every copy.

Three behaviours, read from the code itself:

- **Copy feedback.** Each copy shows "Copied!" and schedules its clear 2000 ms
  later, evidently so that the label stays 2000 ms after a copy. The code never
  cancels an earlier timer, so a second copy within two seconds is cleared
  early. The model has both the code as written and the intended behaviour
  (see Findings).
- **Progress bar.** The bar's width is the progress value itself. Any positive
  value is shown unclamped, including values above 100, and the model does the
  same.
- **Player position.** The position is not advanced by a timer of the
  component's own. It is copied from the element's position on the element's
  `timeupdate` event, and the model does the same.

## Model

| member | source | states |
|---|---|---|
| Text.Lower | src/components/SalesPitchScript.tsx:169 | `toLowerCase` keeps the length, lowers each character in place, and leaves no upper-case letter |
| Text.IsSpace | src/components/SalesPitchScript.tsx:169 | the class `\s` is ECMAScript's whitespace and line terminators; no ASCII letter, digit or '-' is in it, so the hyphen that replaces a run cannot start a new one |
| Text.LowerChar | src/components/SalesPitchScript.tsx:169 | one character of `toLowerCase`: an upper-case ASCII letter becomes the lower-case letter at the same place in the alphabet, every other character is kept, and the result is never upper-case |
| Text.LowerAppend | src/components/SalesPitchScript.tsx:169 | lowering a concatenation lowers each part |
| Text.LowerOfLowered | src/components/SalesPitchScript.tsx:169 | lowering a lowered string changes nothing |
| Text.Repeat | src/components/SalesPitchScript.tsx:162 | `'='.repeat(n)` has exactly n characters, all '=' |
| Text.PadStart | src/components/VideoPlayer.tsx:46 | `padStart` keeps the string at the right end, fills the front with the pad character, and reaches the width |
| Text.Join | src/components/SalesPitchScript.tsx:161-163 | `join` is as long as the items plus one separator between neighbours, and starts with the first item |
| Text.Split | src/components/SalesPitchScript.tsx:162 | the model's line reader (JavaScript `split` on one character), used to read the export back: at least one piece, and no piece contains the separator |
| Text.SplitConcat | src/components/SalesPitchScript.tsx:162 | the model's reader splits text on either side of one separator independently, which is what reading the export's newline-built blocks needs |
| Text.SplitJoin | src/components/SalesPitchScript.tsx:161-163 | the lines of a newline-joined text are the lines of its items, in order |
| Text.SplitJoinRoundTrip | src/components/SalesPitchScript.tsx:162 | items without the separator are recovered exactly from their join |
| Text.SplitNoSeparator | src/components/SalesPitchScript.tsx:162 | the model's reader: a single-line field of a block, such as a title, reads back as one line |
| Text.SplitEachNoSeparator | src/components/SalesPitchScript.tsx:162 | the model's reader: single-line items, such as the bulleted tips, read back one line each, unchanged |
| Text.NatToString | src/components/VideoPlayer.tsx:46 | decimal `toString`: only digits, no leading zero, and one digit exactly below 10 |
| Text.ParseNatToString | src/components/VideoPlayer.tsx:46 | reading back the decimal text of n gives n |
| Text.DigitsValueLeadingZero | src/components/VideoPlayer.tsx:46 | a '0' in front does not change a numeral's value, as with `padStart(2, '0')` |
| PitchTemplates.ResolveInputs | src/components/SalesPitchScript.tsx:17-21 | an absent prop takes its default; a supplied prop, even "", is kept |
| PitchTemplates.Templates | src/components/SalesPitchScript.tsx:24-152 | there are six body templates |
| PitchTemplates.Insert | src/components/SalesPitchScript.tsx:28-76 | a literal piece is itself, the product is inserted verbatim, industry and client type are inserted with every character lowered in place (`LoweredFrom`: the same length, character i is `LowerChar` of the prop's character i) |
| PitchTemplates.PitchSections | src/components/SalesPitchScript.tsx:24-152 | six sections with the six titles in their fixed order, four tips each, and each body its template filled from the props |
| PitchTemplates.TemplateInsertions | src/components/SalesPitchScript.tsx:28-76 | the opening inserts industry, client type, industry; the solution inserts product, industry; the other four bodies insert nothing |
| PitchTemplates.FillUsesInputsOnlyThroughHoles | src/components/SalesPitchScript.tsx:24-152 | a body depends on the props only through the lowered industry, the lowered client type and the verbatim product |
| PitchTemplates.FillWithoutHoles | src/components/SalesPitchScript.tsx:45-152 | a body without insertions is the same for every prop set |
| PitchTemplates.OpeningBody | src/components/SalesPitchScript.tsx:28-34 | the opening is its prose with the lowered industry, then the lowered client type followed by a literal "s", then the lowered industry again |
| PitchTemplates.SolutionBody | src/components/SalesPitchScript.tsx:66-76 | the solution is its prose with the product, verbatim, and then the lowered industry |
| PitchTemplates.SectionTitlesDistinct | src/components/SalesPitchScript.tsx:24-152 | two sections have the same title exactly when they are the same section |
| PitchTemplates.ScriptBodies | src/components/SalesPitchScript.tsx:24-152 | the component's catalogue (`ScriptSections`, the component's prose `Fill`ed from the props): six sections with the fixed heads; the opening is its prose with lowered industry, lowered client type + "s", lowered industry; the solution "This is where our " + product + " comes in." then its prose with the lowered industry; the other four bodies are their prose unchanged |
| PitchTemplates.SectionBodies | src/components/SalesPitchScript.tsx:24-152 | the same section-by-section bodies for every prose copy: `Fill` of each template is the prose with the insertions in place |
| PitchTemplates.SectionsFixedParts | src/components/SalesPitchScript.tsx:24-152 | titles, durations and tips do not depend on the props, and neither do the four bodies without insertions |
| PitchTemplates.SectionsDependOnlyOnInsertions | src/components/SalesPitchScript.tsx:24-152 | two prop sets that agree on the lowered industry, the lowered client type and the product give the same catalogue |
| PitchExport.Bullets | src/components/SalesPitchScript.tsx:162 | each tip, in order, with "• " in front |
| PitchExport.Blocks | src/components/SalesPitchScript.tsx:161-163 | one block per section, in catalogue order |
| PitchExport.TipLines | src/components/SalesPitchScript.tsx:162 | no tips give ""; otherwise the tips part is as long as the bulleted tips plus one newline between neighbours, and starts with "• " and the first tip |
| PitchExport.TipLinesCons | src/components/SalesPitchScript.tsx:162 | the tips part, tip by tip: one tip gives "• " and the tip; more give "• ", the first tip, "\n", and the tips part of the rest, so it is the bulleted tips joined by newlines |
| PitchExport.Block | src/components/SalesPitchScript.tsx:162 | a block starts with the title, is as long as twice the title, the duration, the body, the tips part and 28 fixed characters, and ends with "\n\n" |
| PitchExport.FullScript | src/components/SalesPitchScript.tsx:161-163 | no sections give ""; otherwise the export starts with the first section's block |
| PitchExport.TipLinesSplit | src/components/SalesPitchScript.tsx:162 | the tips part reads back as one bulleted line per tip, each exactly once, in order |
| PitchExport.BlockLines | src/components/SalesPitchScript.tsx:162 | a block with a single-line title, duration and tips, and at least one tip, reads back line by line as title, an underline of exactly as many '=' as the title has characters, "Duration: …", "", the body's lines, "", "Key Tips:", the bulleted tips, "", "" |
| PitchExport.FullScriptLines | src/components/SalesPitchScript.tsx:161-163 | the export's lines are the blocks' lines, block after block, each section once |
| PitchExport.FullScriptLength | src/components/SalesPitchScript.tsx:161-163 | the export, section by section: one section gives its block alone; more give the first block, "\n", and the export of the rest; so the export is the blocks joined by newlines, as long as the blocks plus one "\n" between neighbours |
| PitchExport.CatalogueHeadsAreLines | src/components/SalesPitchScript.tsx:24-152 | every fixed title, duration and tip of the catalogue is a single line, and every section has four tips |
| PitchExport.ExportLines | src/components/SalesPitchScript.tsx:161-163 | an export of sections with single-line heads reads back as each section's lines, in catalogue order |
| PitchExport.ScriptBlockLines | src/components/SalesPitchScript.tsx:161-163 | each block of the component's own export reads back as its section's lines, for any props |
| PitchExport.ScriptLines | src/components/SalesPitchScript.tsx:161-163 | the component's whole export, for any props, reads back as the six sections' lines in catalogue order |
| PitchExport.ScriptHeadsAreLines | src/components/SalesPitchScript.tsx:24-152 | for any props, each of the component's six sections has a single-line title, duration and tips |
| PitchExport.CollapseSpaces | src/components/SalesPitchScript.tsx:169 | `replace(/\s+/g, '-')` leaves no whitespace, and keeps a lowered string lowered |
| PitchExport.Filename | src/components/SalesPitchScript.tsx:169 | the name is "sales-pitch-script-", the slug, ".txt", with no whitespace and no upper-case letter |
| PitchExport.Slug | src/components/SalesPitchScript.tsx:169 | `toLowerCase().replace(/\s+/g, '-')` leaves no whitespace and no upper-case letter |
| PitchExport.SlugNotLonger | src/components/SalesPitchScript.tsx:169 | a slug is never longer than the product name |
| PitchExport.CollapseWithoutSpaces | src/components/SalesPitchScript.tsx:169 | text without whitespace is unchanged |
| PitchExport.CollapseRun | src/components/SalesPitchScript.tsx:169 | every maximal whitespace run becomes exactly one "-" |
| PitchExport.CollapseAppend | src/components/SalesPitchScript.tsx:169 | text ending in a non-space is collapsed independently of what follows it |
| PitchExport.CollapseWords | src/components/SalesPitchScript.tsx:169 | words separated by single spaces come out separated by single hyphens |
| PitchExport.SlugIdempotent | src/components/SalesPitchScript.tsx:169 | slugging a slug changes nothing |
| PitchExport.LowerJoin | src/components/SalesPitchScript.tsx:169 | lowering a joined text lowers each word and the separator |
| PitchExport.SlugWords | src/components/SalesPitchScript.tsx:169 | a space-separated product name slugs to its lowered words joined by "-", other characters such as '&' kept |
| PitchExport.SlugKeepsEdges | src/components/SalesPitchScript.tsx:169 | nothing is trimmed: whitespace at either end becomes a hyphen at that end |
| PitchExport.SlugEdges | src/components/SalesPitchScript.tsx:169 | for every non-empty name, nothing is trimmed: whitespace at the start or the end becomes '-' there, and any other edge character stays, lowered |
| PitchExport.CollapseSpacesInRun | src/components/SalesPitchScript.tsx:169 | whitespace continuing a run that has already become '-' adds nothing |
| PitchExport.CollapseEndsWithHyphen | src/components/SalesPitchScript.tsx:169 | text ending in whitespace ends in '-' once collapsed |
| PitchExport.CollapseKeepsLast | src/components/SalesPitchScript.tsx:169 | text ending in a non-space keeps that character last |
| PitchCopy.CopyLabel | src/components/SalesPitchScript.tsx:243-249 | the button reads "Copied!" exactly when the mark equals its section's title, "Copy" otherwise |
| PitchCopy.OneCopiedLabel | src/components/SalesPitchScript.tsx:237-250 | in the catalogue, at most one button reads "Copied!", the one whose title is the mark |
| PitchCopy.CopyFeedback.constructor | src/components/SalesPitchScript.tsx:22 | no section is marked and no clear is pending |
| PitchCopy.CopyFeedback.CopyToClipboard | src/components/SalesPitchScript.tsx:154-158 | the body, untransformed, goes to the clipboard; the title becomes the mark; a clear is scheduled 2000 ms later and nothing is cancelled |
| PitchCopy.CopyFeedback.Wait | src/components/SalesPitchScript.tsx:157 | time passes with no timer due; nothing else changes |
| PitchCopy.CopyFeedback.TimerFires | src/components/SalesPitchScript.tsx:157 | the earliest clear runs and empties the mark whoever set it; the invariant "marked ⇒ a clear is pending" is kept |
| PitchCopy.EarlyClearAsWritten | src/components/SalesPitchScript.tsx:154-158 | two copies 500 ms apart: the second mark is cleared after 1500 ms while its own timer is still pending |
| PitchCopy.LastCopyWinsFeedback.constructor | src/components/SalesPitchScript.tsx:22 | corrected variant: no mark, no pending clear |
| PitchCopy.LastCopyWinsFeedback.CopyToClipboard | src/components/SalesPitchScript.tsx:154-158 | corrected variant: the copy replaces the pending clear with one due 2000 ms after this copy |
| PitchCopy.LastCopyWinsFeedback.Wait | src/components/SalesPitchScript.tsx:157 | corrected variant: time passes before the one clear is due |
| PitchCopy.LastCopyWinsFeedback.TimerFires | src/components/SalesPitchScript.tsx:157 | corrected variant: the mark is cleared exactly 2000 ms after the last copy |
| PitchCopy.FullWindowLastCopyWins | src/components/SalesPitchScript.tsx:154-158 | corrected variant, same two copies: the second mark is still shown at 2000 ms and lasts the full 2000 ms |
| Player.FormatTime | src/components/VideoPlayer.tsx:43-47 | `formatTime` of a non-negative time is the `m:ss` text of its whole seconds |
| Player.FormatSeconds | src/components/VideoPlayer.tsx:43-47 | the label of whole seconds is digits with one colon three characters from the end, so at least 4 characters |
| Player.FloorParts | src/components/VideoPlayer.tsx:44-45 | `floor(t / 60)` and `floor(t % 60)` are the minutes and seconds of `floor(t)` |
| Player.ParseTime | src/components/VideoPlayer.tsx:46 | the model's label reader (the component only writes labels): a text it accepts has the colon three characters from its end, as `padStart(2, '0')` puts it |
| Player.FormatTimeRoundTrip | src/components/VideoPlayer.tsx:43-47 | reading the label back as minutes × 60 + seconds gives the floored time |
| Player.FormatSecondsRoundTrip | src/components/VideoPlayer.tsx:43-47 | for whole seconds s, the label reads back as s |
| Player.FormatSecondsFields | src/components/VideoPlayer.tsx:43-47 | before the colon stand the minutes unpadded, the decimal text of s / 60 with no leading zero; after it the seconds `padStart(2, '0')`-padded to exactly two digits |
| Player.PaddedSeconds | src/components/VideoPlayer.tsx:45-46 | the seconds field has exactly two digits and their value is the seconds |
| Player.FormatSecondsInjective | src/components/VideoPlayer.tsx:43-47 | different whole seconds give different labels |
| Player.InitialDurationLabel | src/components/VideoPlayer.tsx:17-47 | the initial 930 s is labelled "15:30", the `duration` prop's default |
| Player.Label930 | src/components/VideoPlayer.tsx:43-47 | `formatTime(930)` is "15:30" |
| Player.MediaElement.Play | src/components/VideoPlayer.tsx:30 | `play()` unpauses the element and changes nothing else |
| Player.MediaElement.Pause | src/components/VideoPlayer.tsx:28 | `pause()` pauses the element and changes nothing else |
| Player.VideoPlayer.constructor | src/components/VideoPlayer.tsx:19-23 | not playing, not muted, position 0, total 930 s |
| Player.VideoPlayer.TimeLabel | src/components/VideoPlayer.tsx:127 | the controls show the current and the total time as `m:ss / m:ss` |
| Player.VideoPlayer.TogglePlay | src/components/VideoPlayer.tsx:25-34 | with an element: flips `isPlaying`, pauses if it was playing and plays otherwise, so the element is paused exactly when the state is not playing; without one nothing changes |
| Player.VideoPlayer.ToggleMute | src/components/VideoPlayer.tsx:36-41 | with an element: flips `isMuted` and sets the element's `muted` to the new value; without one nothing changes |
| Player.VideoPlayer.HandleTimeUpdate | src/components/VideoPlayer.tsx:49-53 | the state takes the element's position; no-op without an element |
| Player.VideoPlayer.HandleSeek | src/components/VideoPlayer.tsx:55-61 | a slider value in [0, total] becomes the position of both element and state; no-op without an element |
| Player.VideoPlayer.HandleLoadedMetadata | src/components/VideoPlayer.tsx:71-75 | the state takes the element's duration; no-op without an element |
| Player.ToggleTwice | src/components/VideoPlayer.tsx:25-34 | two toggles restore `isPlaying` and leave the element in step with it |
| ModuleCard.LevelText | src/components/TrainingModule.tsx:52 | the badge prints the level's own name |
| ModuleCard.Badge | src/components/TrainingModule.tsx:47-51 | Beginner is green, Intermediate yellow, every other level red |
| ModuleCard.BadgeClassesDistinct | src/components/TrainingModule.tsx:47-51 | the three levels get three different badge classes |
| ModuleCard.ResolveCard | src/components/TrainingModule.tsx:21-22 | `progress` defaults to 0 and `isCompleted` to false; supplied values are kept |
| ModuleCard.ProgressText | src/components/TrainingModule.tsx:61-73 | the progress block is shown exactly for progress > 0, as the unclamped "<progress>%" |
| ModuleCard.StartCaption | src/components/TrainingModule.tsx:86-96 | "Loading..." exactly while loading; otherwise "Continue" exactly for progress > 0, else "Start Module" |
| ModuleCard.ContinueIffProgressShown | src/components/TrainingModule.tsx:61-96 | outside loading, "Continue" exactly when the progress block shows; disabled exactly while "Loading..." |
| ModuleCard.View | src/components/TrainingModule.tsx:47-96 | the button is disabled exactly while loading; the progress block is there exactly for positive progress; the check mark exactly for a completed module |
| ModuleCard.CompletionOnlyAddsCheck | src/components/TrainingModule.tsx:54-96 | `isCompleted` adds only the check mark; the button is the same either way |
| ModuleCard.TrainingModuleCard.constructor | src/components/TrainingModule.tsx:15-25 | the props with their defaults; not loading |
| ModuleCard.TrainingModuleCard.ClickStart | src/components/TrainingModule.tsx:81-85 | while loading the disabled button ignores the click; otherwise `handleStart` sets `isLoading` and starts one load |
| ModuleCard.TrainingModuleCard.FinishStart | src/components/TrainingModule.tsx:29-37 | `onStart` runs once, a throw is only logged, and `isLoading` ends either way; each accepted start calls `onStart` once |
| ModuleCard.DoubleClickWhileLoading | src/components/TrainingModule.tsx:27-38 | two clicks during one load give one `onStart` call, and the caption is back to "Start Module" afterwards, throw or not |
| AppShell.RenderCurrentPage | src/App.tsx:748-761 | "home", "services", "audience", "pitch" select their page; any other value the home page |
| AppShell.PageId | src/App.tsx:748-761 | every page has a known id, and "home" is the home page's |
| AppShell.NavItems | src/App.tsx:781-784 | four NavButtons, each for a known page id, no page twice |
| AppShell.NavButtonActive | src/App.tsx:12-19 | for a known page id, a button is highlighted exactly when the current page is known and renders the same page |
| AppShell.RenderPageId | src/App.tsx:748-761 | page ids and pages correspond one to one |
| AppShell.OneActiveButton | src/App.tsx:12-19 | for a known page exactly one NavButton is highlighted, the one of the rendered page |
| AppShell.EveryPageHasButton | src/App.tsx:781-784 | every known page has a NavButton that is highlighted when it is current |
| AppShell.PitchButtonCaption | src/App.tsx:520 | "Hide Custom Pitch Script" exactly while the script is shown, otherwise "Generate Custom Pitch Script" |
| AppShell.PitchScriptShown | src/App.tsx:525-534 | the script viewer is on the page exactly while the flag is set, always with the hub's fixed inputs |
| AppShell.AppState.constructor | src/App.tsx:8-10 | page "home", no selected module, script hidden |
| AppShell.AppState.Navigate | src/App.tsx:14 | any page in one step; the selected module and the flag are unchanged |
| AppShell.AppState.HandleModuleStart | src/App.tsx:26-30 | the title becomes the selected module; nothing else changes |
| AppShell.AppState.TogglePitchScript | src/App.tsx:517 | flips the flag; nothing else changes |
| AppShell.AppState.CurrentPage | src/App.tsx:748-761 | the page shown is the one the state names |
| AppShell.ToggleTwice | src/App.tsx:517 | two presses restore the flag and everything else |
| AppShell.CardStartsModule | src/App.tsx:85-92 | a card's finished load selects its module through `handleModuleStart`, logs no error and ends its loading state |

## Left out

- Browser I/O is not modelled as effects: `navigator.clipboard.writeText`,
  `Blob`, `URL.createObjectURL`/`revokeObjectURL`, the anchor
  append/click/remove, `alert` and `console.error`. Each is represented by what
  it is handed: the clipboard text (a field), the export text (`FullScript`),
  the file name (`Filename`) and an error count.
- The event loop's concurrency is not modelled. Timers and promise
  resolutions are explicit event methods, and the model says nothing about
  their interleaving beyond the due times.
- Unicode: `toLowerCase` lowers ASCII letters only. `\s` is the fixed
  ECMAScript whitespace set. A Dafny `char` is a Unicode scalar value, while a
  JavaScript string is UTF-16 code units. So `|title|`, the underline length,
  differs from JavaScript's `length` for text outside the Basic Multilingual
  Plane. The six fixed titles are ASCII, where the two agree.
- JavaScript numbers are not modelled as IEEE doubles. The card's progress is
  an `int`, so a fractional progress such as "33.5%" is not modelled. Video
  times are `real`, so IEEE rounding and the exponent form `toString` uses
  from 1e21 are not modelled.
- Player.FormatTime: requires a non-negative, finite time. A media element
  never reports a negative or NaN time. An infinite duration, which a live
  stream reports after `loadedmetadata` and which `formatTime` renders as
  "Infinity:NaN", is not modelled.
- Component lifetime across App renders is not modelled. The page components
  (`HomePage`, `ServicesPage`, `TargetAudiencePage`, `SalesPitchPage`) are
  defined inside `App` (src/App.tsx:53, 210, 328, 508). So `renderCurrentPage`
  returns a new component type on every App render, and React remounts the
  whole page on every App state change. That remount resets every card's
  `isLoading` and the viewer's `copiedSection`. The model keeps each
  `TrainingModuleCard` and `CopyFeedback` alive across App updates.
  ModuleCard.TrainingModuleCard.Valid (one `onStart` per accepted click, clicks
  while loading ignored) therefore holds per component instance, not for the
  composed page. Example: a card whose load is pending when another card's
  `onStart` updates `selectedModule` is shown idle again. A click then starts
  a second load, so `handleModuleStart` runs twice for it.
- `parseFloat` in `handleSeek` is not modelled: the slider's value arrives as a
  number within [0, total].
- Player.MediaElement.Play: the promise `play()` returns, and its rejection,
  are not modelled.
- ModuleCard: the icon, title, description and duration props are shown
  unchanged and carry no logic.
- Player: the `title`, `description` and `duration` props are shown on the
  thumbnail unchanged and carry no logic (src/components/VideoPlayer.tsx:86-87).
  The thumbnail's `duration` text and the control label are independent.
  Player.InitialDurationLabel agrees with the thumbnail only for the default
  "15:30". All four players on the home page (src/App.tsx:663-684) pass
  "18:45", "22:30", "25:15" and "19:20", while their controls start at 930 s,
  "15:30", until the element's metadata arrives.
- PitchExport.SlugWords: the concrete name of the hub's download,
  "sales-pitch-script-ai-digital-marketing-&-branding-services.txt", follows
  from this lemma. It is not evaluated as a separate fact.
- Styling classes other than the badge's, the icons, and the static marketing
  copy of the four pages are not modelled.

## Findings

| source | as written | input that shows it | evidently intended | confidence | as-written member | corrected member |
|---|---|---|---|---|---|---|
| src/components/SalesPitchScript.tsx:157 | every copy schedules `setCopiedSection(null)` 2000 ms later, never cancels an earlier one, and the clear does not check which copy set the mark | copy one section at t = 0 and another at t = 500: the first timer clears the second mark at t = 2000, after 1500 ms | the mark stays for 2000 ms after the last copy (a second copy restarts the window) | high; not executed | PitchCopy.EarlyClearAsWritten | PitchCopy.FullWindowLastCopyWins |
