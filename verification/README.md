# Quick landing alchemist, modelled in Dafny

The application turns a list of keywords, a city and a state into a local
business landing page. The keywords are typed one at a time into a small
editor that trims them and refuses duplicates. A content service writes the
introduction, the "why choose us" text, the things to do and a list of
questions and answers. The page can be downloaded as a text file or as a
stand-alone HTML page, each under a file name built from the city, the state
and the first keyword. Saved pages live in a provider that keeps them, most
recent first, in the browser's `localStorage` slot `landingPages`.

The model covers four parts of the code, one Dafny module each:

- `PageStore` (`landing_pages_context.dfy`): the saved-pages provider, as a
  `Store` class. Its list of pages and its storage slot are fields. The
  invariant `Valid()` says the persist effect has written the current list.
  The JSON round trip through the slot is proved, including the
  `createdAt` revival. Lookup and removal are proved against list
  specifications.
- `Keywords` (`keyword_input.dfy`): the keyword editor, as a
  `KeywordEditor` class that holds the pending text and the accepted list.
  It keeps the invariant that every keyword is trimmed, non-empty and
  unique.
- `Export` (`export_utils.dfy`): the two exporters. Each is a pure function
  of the content and the form inputs. They are written as templates so that
  where each input lands in the document can be proved.
- `Generator` (`landing_generator.dfy`): the generator form, as a
  `LandingGenerator` class. It covers the checks before a request, the busy
  flag, the error message, the reset and the downloads with their file
  names.

The other modules are supporting ones:

- `Text` (`text.dfy`) models the JavaScript string operations the code
  relies on:
  - `trim` over the ECMAScript whitespace set;
  - ASCII `toLowerCase`;
  - `replace(/\s+/g, '-')`;
  - `join`;
  - decimal integers.
- `Json` (`json.dfy`) holds JSON values.
- `Wrappers` (`wrappers.dfy`) holds the `Option` type of lookups, absent
  fields and messages.
- `Model` (`landing_page.dfy`) holds the `LandingPage` record of
  `src/models/LandingPage.ts`. Its `Date` is either a time value (an integer
  count of milliseconds within ±8.64e15) or the invalid date.

The content service is outside the model. Its answer is a parameter of
`FinishGenerate`: either the generated content or a failure. The start of
`handleGenerate` and the code after its `await` are two methods,
`BeginGenerate` and `FinishGenerate`. In the page, the generate button is
disabled while the form is busy. The handler itself does not check the
busy flag, and neither does the model. The year in the HTML footer is a
parameter.

When the list of keywords is empty, `keywords[0]` is `undefined`, and a
template literal writes it as the text `undefined`. This appears in the title
and in the file name; see `Export.Primary`.

## Model

| member | source | states |
|---|---|---|
| `PageStore.EncodeDate` | src/contexts/LandingPagesContext.tsx:42 | `toJSON` writes the invalid date as `null` and only it; a valid date becomes text that reads back as its own time value |
| `PageStore.EncodePage` | src/contexts/LandingPagesContext.tsx:42 | `JSON.stringify` writes a record as an object with exactly its seven fields, each under its own name, and `createdAt` through `toJSON`; `PageRoundTrip` reads it back |
| `PageStore.EncodePages` | src/contexts/LandingPagesContext.tsx:42 | the list is written as an array with one element per record, in list order |
| `PageStore.Save` | src/contexts/LandingPagesContext.tsx:41-43 | after the persist effect, the slot always holds a JSON array |
| `PageStore.TimeClip` | src/contexts/LandingPagesContext.tsx:31 | a time value is valid exactly when it lies within ±8.64e15 ms, and then it is kept unchanged |
| `PageStore.DecodeDate` | src/contexts/LandingPagesContext.tsx:31 | `new Date(undefined)` is the invalid date; `new Date(null)` is the epoch |
| `PageStore.DecodeStrings` | src/models/LandingPage.ts:6 | a decoded keyword list has one entry per stored element |
| `PageStore.DecodeFaq` | src/models/LandingPage.ts:13-16 | a decoded FAQ list has one entry per stored element |
| `PageStore.DecodePage` | src/contexts/LandingPagesContext.tsx:29-32 | a record read from an element takes its text fields from the stored fields of the same names, and its `createdAt` is `new Date` of the stored `createdAt` |
| `PageStore.DecodePages` | src/contexts/LandingPagesContext.tsx:29-32 | the `map` over the parsed array keeps one record per element |
| `PageStore.Load` | src/contexts/LandingPagesContext.tsx:23-39 | each of these starts with the empty list and throws nothing: a missing slot, an empty slot, text that does not parse, and a parsed value that is not an array; a readable array gives one page per element |
| `PageStore.Revived` | src/contexts/LandingPagesContext.tsx:31 | after a reload a record always has a valid date; a valid date comes back unchanged; an invalid one comes back as the epoch |
| `PageStore.RevivedAll` | src/contexts/LandingPagesContext.tsx:29-32 | revival works record by record, keeping length and order |
| `PageStore.DateRoundTrip` | src/contexts/LandingPagesContext.tsx:31 | a stored date reads back as the same date, except the invalid date (written as `null`), which reads back as the epoch |
| `PageStore.StringsRoundTrip` | src/models/LandingPage.ts:6 | a stored keyword list reads back unchanged |
| `PageStore.FaqRoundTrip` | src/models/LandingPage.ts:13-16 | a stored FAQ list reads back unchanged |
| `PageStore.ContentRoundTrip` | src/models/LandingPage.ts:9-17 | the stored generated content reads back unchanged |
| `PageStore.PageRoundTrip` | src/contexts/LandingPagesContext.tsx:29-32 | one stored record reads back as itself, with its date revived |
| `PageStore.PagesRoundTrip` | src/contexts/LandingPagesContext.tsx:29-32 | a stored list reads back with the same records in the same order |
| `PageStore.LoadSave` | src/contexts/LandingPagesContext.tsx:23-43 | reopening the provider on what it saved gives the saved list, and exactly that list when every date is valid |
| `PageStore.Find` | src/contexts/LandingPagesContext.tsx:53-55 | `find` gives nothing exactly when no record has the id; otherwise it gives the first record with that id |
| `PageStore.WithoutId` | src/contexts/LandingPagesContext.tsx:49-51 | `filter` keeps exactly the records whose id differs and never grows the list; an id that is not present leaves the list unchanged |
| `PageStore.WithoutIdAppend` | src/contexts/LandingPagesContext.tsx:50 | removal works piece by piece over a split of the list, so the surviving records keep their order |
| `PageStore.FindWithoutOther` | src/contexts/LandingPagesContext.tsx:49-55 | removing one id does not change the lookup of any other id |
| `PageStore.WithoutIdIdempotent` | src/contexts/LandingPagesContext.tsx:49-51 | removing the same id twice is the same as removing it once |
| `PageStore.AddedInTurn` | src/contexts/LandingPagesContext.tsx:45-47 | each addition grows the list by one |
| `PageStore.AddedInTurnReverses` | src/contexts/LandingPagesContext.tsx:45-47 | records added one after another come out newest first, ahead of the older ones |
| `PageStore.Store.Open` | src/contexts/LandingPagesContext.tsx:23-43 | mounting reads the initial list from the slot, and the effect writes it back |
| `PageStore.Store.Persist` | src/contexts/LandingPagesContext.tsx:41-43 | the effect overwrites the slot with the whole current list |
| `PageStore.Store.Add` | src/contexts/LandingPagesContext.tsx:45-47 | the record becomes the head of the list, the slot is rewritten, and a lookup of its id finds it |
| `PageStore.Store.Get` | src/contexts/LandingPagesContext.tsx:53-55 | the lookup finds nothing exactly when no record in the current list has the id; otherwise it gives the first record of the list with that id, as `find` does |
| `PageStore.Store.Remove` | src/contexts/LandingPagesContext.tsx:49-51 | every record with the id is removed and the slot rewritten; a lookup of the id then finds nothing; an unknown id changes nothing |
| `Keywords.AppendWellFormed` | src/components/landing-generator/KeywordInput.tsx:35-40 | appending a trimmed, non-empty, new keyword keeps the list free of blanks, padding and duplicates |
| `Keywords.DropWellFormed` | src/components/landing-generator/KeywordInput.tsx:42-44 | dropping one element keeps the list well formed |
| `Keywords.KeywordEditor.constructor` | src/components/LandingGenerator.tsx:31-32 | the editor starts with an empty input and an empty list: the list is the parent's `keywords` state, which starts empty |
| `Keywords.KeywordEditor.Type` | src/components/landing-generator/KeywordInput.tsx:62 | typing replaces the pending text |
| `Keywords.KeywordEditor.Add` | src/components/landing-generator/KeywordInput.tsx:35-40 | the trimmed input is appended and the input cleared, unless it is blank or already present, in which case nothing changes |
| `Keywords.KeywordEditor.RemoveAt` | src/components/landing-generator/KeywordInput.tsx:42-44 | the element at the index goes and the rest keep their order; an index outside the list changes nothing |
| `Keywords.KeywordEditor.KeyDown` | src/components/landing-generator/KeywordInput.tsx:46-51 | Enter behaves exactly like the add button; any other key changes nothing |
| `Keywords.KeywordEditor.Clear` | src/components/LandingGenerator.tsx:94 | the reset empties the list |
| `Text.IsSpace` | src/components/landing-generator/KeywordInput.tsx:36 | the whitespace that `trim` removes and `\s` matches includes space, tab, line feed and carriage return, and never a letter, a digit or `-`; `TrimPadded` and `DashSpacesRun` pin down its use |
| `Text.Trim` | src/components/landing-generator/KeywordInput.tsx:36 | the result starts and ends with a character that is not whitespace, and is no longer than the input |
| `Text.TrimEmptyIffBlank` | src/components/landing-generator/KeywordInput.tsx:36 | the trimmed text is empty exactly when the input is all whitespace, which is when `keyword.trim()` is falsy |
| `Text.TrimDecomposes` | src/components/landing-generator/KeywordInput.tsx:36 | the input is leading whitespace, then the trimmed text, then trailing whitespace |
| `Text.TrimPadded` | src/components/landing-generator/KeywordInput.tsx:36 | padding a trimmed text with whitespace and trimming it again gives the text back |
| `Text.TrimIdempotent` | src/components/landing-generator/KeywordInput.tsx:36 | trimming twice is trimming once |
| `Text.ToLower` | src/components/LandingGenerator.tsx:104 | lower-casing keeps the length and maps each character on its own |
| `Text.ToLowerKeepsSpaces` | src/components/LandingGenerator.tsx:104 | lower-casing leaves whitespace where it was and no capital letter behind |
| `Text.DashSpaces` | src/components/LandingGenerator.tsx:104 | replacing whitespace runs never lengthens the text |
| `Text.DashSpacesNoSpaceLeft` | src/components/LandingGenerator.tsx:104 | after `replace(/\s+/g, '-')` no whitespace is left |
| `Text.DashSpacesChars` | src/components/LandingGenerator.tsx:104 | every character of the result is `-` or a character of the input |
| `Text.DashSpacesNoSpace` | src/components/LandingGenerator.tsx:104 | text without whitespace is left unchanged |
| `Text.DashSpacesAppend` | src/components/LandingGenerator.tsx:104 | text that ends in a non-whitespace character is replaced independently of what follows it |
| `Text.DashSpacesRun` | src/components/LandingGenerator.tsx:104 | one whole run of whitespace becomes exactly one `-`, and the text on each side is treated separately |
| `Text.Join` | src/utils/exportUtils.ts:3 | `join` of no parts is empty, of one part is that part, and with the empty separator it is plain concatenation, which the HTML FAQ list uses |
| `Text.JoinAppend` | src/utils/exportUtils.ts:3 | `join` keeps the parts in order, putting the separator only between them |
| `Text.IntRoundTrip` | src/contexts/LandingPagesContext.tsx:42 | a stored time value reads back as the same number |
| `Export.Primary` | src/utils/exportUtils.ts:5 | `keywords[0]` in a template is the first keyword, or the text `undefined` when the list is empty |
| `Export.Title` | src/utils/exportUtils.ts:29 | the title is the first keyword, ` Services in `, then the city and the state |
| `Export.FaqItemText` | src/utils/exportUtils.ts:20 | a question block opens with the question as a `###` heading and ends with the answer line |
| `Export.FaqTexts` | src/utils/exportUtils.ts:20 | the `map` gives one block per question, each at the position of its question |
| `Export.FaqText` | src/utils/exportUtils.ts:20 | no questions give the empty text and one question gives its block; `FaqTextAppend` and `TextFileLayout` give the order and the place in the file |
| `Export.ClosingLine` | src/utils/exportUtils.ts:22 | the text file closes with the call to action, ending with the city and the state |
| `Export.TextFile` | src/utils/exportUtils.ts:2-24 | the text file opens with the title heading and ends with the call to action |
| `Export.TextFileLayout` | src/utils/exportUtils.ts:6-20 | the text file holds the keyword line, the introduction, the why-us section and the things-to-do section, each under its heading, and the FAQ blocks of the whole list in list order |
| `Export.TextFileHasFaq` | src/utils/exportUtils.ts:20 | every question and its answer appear in the text file |
| `Export.FaqTextAppend` | src/utils/exportUtils.ts:20 | one more question adds an empty line and its block at the end, so the blocks follow the order of the list |
| `Export.FaqItemHtml` | src/utils/exportUtils.ts:129-132 | a question block is a `faq-item` division holding the question as an `h3` and the answer as a paragraph |
| `Export.FaqHtmls` | src/utils/exportUtils.ts:128-133 | the `map` gives one block per question, each at the position of its question |
| `Export.FaqHtml` | src/utils/exportUtils.ts:128-133 | no questions give the empty text and one question gives its block; `FaqHtmlAppend` and `HtmlFaqSection` give the order and the place in the page |
| `Export.Footer` | src/utils/exportUtils.ts:142 | the copyright line opens with the year and ends with the first keyword's services |
| `Export.Description` | src/utils/exportUtils.ts:39 | the description is the first 155 characters of the introduction, or the whole introduction when it is shorter |
| `Export.HtmlFile` | src/utils/exportUtils.ts:26-146 | the page starts with the document type declaration and ends with `</html>` |
| `Export.HtmlTitleTag` | src/utils/exportUtils.ts:29-36 | the title (first keyword, `Services in`, city and state) is the document title |
| `Export.HtmlMetaDescription` | src/utils/exportUtils.ts:39 | the cut introduction is the meta description |
| `Export.HtmlKeywordsMeta` | src/utils/exportUtils.ts:40 | the keywords meta tag lists the keywords, then the city and the state |
| `Export.HtmlOgTitle` | src/utils/exportUtils.ts:43 | the title is the Open Graph title |
| `Export.HtmlOgDescription` | src/utils/exportUtils.ts:44 | the cut introduction is the Open Graph description |
| `Export.HtmlSchemaName` | src/utils/exportUtils.ts:52 | the structured-data business name is the first keyword followed by `Services` |
| `Export.HtmlSchemaDescription` | src/utils/exportUtils.ts:53 | the cut introduction is the structured-data description |
| `Export.HtmlLocality` | src/utils/exportUtils.ts:56 | the city is the locality of the structured-data address |
| `Export.HtmlRegion` | src/utils/exportUtils.ts:57 | the state is the region of the structured-data address |
| `Export.HtmlHeading` | src/utils/exportUtils.ts:107 | the title is the main heading |
| `Export.HtmlKeywordLine` | src/utils/exportUtils.ts:108 | the joined keyword list is shown under the heading |
| `Export.HtmlIntroduction` | src/utils/exportUtils.ts:113 | the whole introduction is a paragraph, with no escaping |
| `Export.HtmlWhyUs` | src/utils/exportUtils.ts:118 | the whole why-us text is a paragraph, with no escaping |
| `Export.HtmlThingsToDoHeading` | src/utils/exportUtils.ts:122 | the things-to-do heading names the city and the state |
| `Export.HtmlThingsToDo` | src/utils/exportUtils.ts:123 | the whole things-to-do text is a paragraph, with no escaping |
| `Export.HtmlCallToAction` | src/utils/exportUtils.ts:138 | the call to action names the keyword list, the city and the state |
| `Export.HtmlFooter` | src/utils/exportUtils.ts:142 | the footer carries the year and the first keyword |
| `Export.HtmlHasFaq` | src/utils/exportUtils.ts:126-134 | every question and its answer appear as a block of the page |
| `Export.HtmlFaqSection` | src/utils/exportUtils.ts:128-133 | the page holds the question blocks of the whole list, in list order |
| `Export.FaqHtmlAppend` | src/utils/exportUtils.ts:128-133 | the question blocks of two lists, one after the other, are the blocks of the joined list |
| `Generator.Validate` | src/components/LandingGenerator.tsx:58-71 | the checks come in a fixed order: no keywords, then an empty city, then an empty state; the request may start exactly when all three are present |
| `Generator.DashedLowerIsClean` | src/components/LandingGenerator.tsx:104 | lower-casing and then dashing the whitespace runs leaves no whitespace and no capital letter |
| `Generator.DownloadName` | src/components/LandingGenerator.tsx:104-112 | a download name, for either extension, has no whitespace and no capital letter |
| `Generator.DownloadNameOfCleanInputs` | src/components/LandingGenerator.tsx:112 | inputs that are already lower case and free of whitespace are joined with `-` and kept unchanged |
| `Generator.ToLowerOfLower` | src/components/LandingGenerator.tsx:104 | lower-casing text with no capital letter changes nothing |
| `Generator.LandingGenerator.constructor` | src/components/LandingGenerator.tsx:31-37 | the form starts empty and idle, with no content and no error |
| `Generator.LandingGenerator.AddKeyword` | src/components/LandingGenerator.tsx:39-44 | the same rule as the keyword editor's add |
| `Generator.LandingGenerator.RemoveKeyword` | src/components/LandingGenerator.tsx:46-48 | the same rule as the keyword editor's removal |
| `Generator.LandingGenerator.KeyDown` | src/components/LandingGenerator.tsx:50-55 | Enter adds the pending keyword; any other key changes nothing |
| `Generator.LandingGenerator.TypeKeyword` | src/components/LandingGenerator.tsx:146 | typing replaces the pending keyword text |
| `Generator.LandingGenerator.SetCity` | src/components/LandingGenerator.tsx:182 | typing replaces the city |
| `Generator.LandingGenerator.SetState` | src/components/LandingGenerator.tsx:195 | typing replaces the state |
| `Generator.LandingGenerator.BeginGenerate` | src/components/LandingGenerator.tsx:57-75 | the request starts exactly when the checks pass, and then the error is cleared and the form is busy; otherwise the first failing check's message is shown and the busy flag is unchanged |
| `Generator.LandingGenerator.FinishGenerate` | src/components/LandingGenerator.tsx:76-89 | the form is never busy afterwards; a generated answer becomes the content, and a failure shows its message and keeps the content |
| `Generator.LandingGenerator.Reset` | src/components/LandingGenerator.tsx:92-98 | the content, keywords, city, state and error are cleared |
| `Generator.LandingGenerator.DownloadText` | src/components/LandingGenerator.tsx:100-106 | without content there is no file; otherwise the text export is returned under the `.txt` download name |
| `Generator.LandingGenerator.DownloadHtml` | src/components/LandingGenerator.tsx:108-114 | without content there is no file; otherwise the HTML export is returned under the `.html` download name |

## Left out

- The JSON text syntax. `JSON.stringify` and `JSON.parse` are modelled on
  JSON values. The slot holds nothing, an empty string, text that does not
  parse, or a parsed value. JSON numbers are integers.
- PageStore.DecodeDate: the ISO-8601 format of `createdAt` is not modelled. `JSON.stringify` writes a `Date` as
  ISO-8601 text, and `new Date(text)` parses that text. The model writes the
  time value as decimal text and reads it back with the same rule. The
  round trip is the same, but the stored text differs.
- PageStore.DecodeDate: `new Date` on an array or an object is simplified. It converts the value to text and
  parses it as a date, which the model does not do: it gives the invalid
  date.
- PageStore.Load: partial records are not kept. `page` objects in the saved array are spread as they
  are. An element that lacks a field, or has a field of another type, is
  kept by the source as a partial record. The typed model cannot hold such a
  record, so it treats the whole slot as unreadable and starts with the
  empty list. Fields the record type does not have are dropped.
- Text.ToLower: Unicode case mapping is left out. `toLowerCase` is modelled for ASCII letters only.
  Other characters are left as they are.
- Export.Description: UTF-16 code units are not counted. `substring(0, 155)` counts UTF-16 code units. The model
  counts characters, which differ only for characters outside the Basic
  Multilingual Plane.
- PageStore.Store.Persist: a write that throws is not modelled. `localStorage.setItem` in the persist
  effect is not guarded, and it throws when the storage quota is exceeded.
  The list has then changed while the slot still holds the old list. The
  model assumes every write succeeds, so `Persist`, `Add` and `Remove`
  always end with the slot holding the current list.
- PageStore.Load: a storage access error is not modelled. `localStorage.getItem` is called
  outside the `try`, so an error from the storage itself escapes the
  loader. The model's slot always answers, and `Load` always returns a list.
- Export.TextFile: generated content of the wrong shape is not modelled. The
  content service's answer is parsed JSON with no check of its fields. An
  answer without `faq` makes both exporters throw, and a missing text field
  is written as `undefined`. The typed `Content` record always has all four
  fields, so the exporters always return a file.
- Export.HtmlFile: generated content of the wrong shape is not modelled,
  as for `Export.TextFile`. The `faq` map of the page throws on an answer
  without `faq`.
- `downloadFile`, `window.print`, `console.error` and all rendering. The
  downloads return the file name and the body that would be handed to the
  browser.
- The content service (`src/services/openai.ts`) is not part of this model.
  Its answer is a parameter.
- The current year. It is a parameter of the HTML export.
- React scheduling. Each handler is one atomic step on the state. The
  persist effect runs after every change of the list. Other tabs writing the
  same slot are not modelled.
- The `useLandingPages` guard against use outside the provider. It is React
  context plumbing.
