# The Living Library: create wizard and catalogue browser

A Dafny model of the two page scripts of The Living Library that hold logic:

- the **create page** (`js/create.js`). This is a four-step wizard: concept, details, structure, review.
  - Its state is a step counter, a form record of eight text fields plus an optional structure heading, and four progress indicators, each of which can be active and/or completed.
  - `nextStep` moves forward only through validation gates. `prevStep` moves back without checks. `resetForm` restores the initial form.
  - Around the state sit the texts the page derives from the form: the 500-character concept cap, the review panel with its `-` fallback, the generation prompt and the result title.
- the **visit page** (`js/visit.js`). This is a catalogue of six volumes.
  - `filterBooks` keeps the volumes whose lower-cased title or description contains the query and whose genre matches, then sorts them with one of four comparators.
  - The page remembers the list shown (`currentBooks`) and the volume open in the reading modal (`currentBook`).
  - Small helpers format genre labels, the results count and the download file name.

Files:

- `text.dfy` (module `Text`): the JavaScript string operations used by both pages.
  - the whitespace class of `\s` and `trim`
  - ASCII `toLowerCase`
  - `includes`
  - `split(' ')` and `join(' ')`
  - `replace(/\s+/g, c)`
  - decimal rendering of a number
- `sorting.dfy` (module `Sorting`): the stable sort that `Array.prototype.sort` performs with a key-difference comparator.
- `visit.dfy` (module `Visit`): the catalogue, the filter and sort, and the helpers. Class `Catalogue` holds the page state.
- `create.dfy` (module `Create`): the form, the gates and the prompt. Class `CreatePage` holds the page state. The progress indicators are an array that each move sweeps in a loop, as the page does.
- `wrappers.dfy` (module `Wrappers`): `Option`, which stands for `undefined`/`null`.

Conventions:

- A date is the number YYYYMMDD (`'2026-02-20'` is `20260220`). Comparing such numbers orders days the same way as subtracting the `Date` objects the page builds.
- An `alert` becomes the `Rejected(message)` outcome of `NextStep`.
- Text written into the page that later steps read back is a field: the review panel, the prompt, the character counter and the results line.

## Model

| member | source | states |
|---|---|---|
| `Text.Trim` | js/create.js:83 | `trim()` is empty exactly when every character is whitespace; otherwise it neither starts nor ends with whitespace |
| `Text.TrimStart` | js/create.js:83 | removes exactly the longest whitespace prefix |
| `Text.TrimEnd` | js/create.js:83 | removes exactly the longest whitespace suffix |
| `Text.Lower` | js/visit.js:178-179 | same length; every ASCII capital lowered, every other character kept |
| `Text.LowerChar` | js/visit.js:178 | no capital letter remains; capitals move by 32, everything else is kept |
| `Text.Contains` | js/visit.js:178-179 | `includes`: a query that is found is never longer than the text, and the empty query is found in every text |
| `Text.ContainsAt` | js/visit.js:178-179 | `includes` holds whenever the query occurs at some offset |
| `Text.ContainsWitness` | js/visit.js:178-179 | conversely, when `includes` holds the query occurs at some offset, so the two lemmas together make `Contains` exactly "occurs somewhere" |
| `Text.Split` | js/create.js:180 | `split(' ')` gives one more piece than there are spaces, and no piece contains a space |
| `Text.JoinSplit` | js/create.js:180-181 | joining the pieces of `split(' ')` with `' '` gives the text back |
| `Text.BeforeSpace` | js/create.js:180-181 | reference cut: a prefix of the text that keeps min(n, all) spaces and stops at the text's end or just before a space |
| `Text.FirstWords` | js/create.js:180-181 | taking at least as many words as the text has gives the whole text back |
| `Text.FirstWordsIsPrefix` | js/create.js:180-181 | `split(' ').slice(0, n+1).join(' ')` equals the reference cut before the (n+1)-th space |
| `Text.ReplaceSpaceRuns` | js/visit.js:232 | the result is no longer than the input |
| `Text.ReplaceSpaceRunsNoWhitespace` | js/visit.js:232 | no whitespace is left in the result |
| `Text.ReplaceSpaceRunsKeepsVisible` | js/visit.js:232 | every character other than whitespace and the replacement character survives, in order |
| `Text.ReplaceSpaceRunsHead` | js/visit.js:232 | a leading character that is not whitespace is copied as it is, the replacement character included |
| `Text.ReplaceSpaceRunsLeadingRun` | js/visit.js:232 | a leading whitespace run becomes exactly one replacement character |
| `Text.ReplaceSpaceRunsRun` | js/visit.js:232 | each whole whitespace run becomes exactly one replacement character, and the texts on either side are replaced independently |
| `Text.ReplaceSpaceRunsNoSpace` | js/visit.js:232 | a title without whitespace is unchanged |
| `Text.Decimal` | js/visit.js:107 | `${n}` is a non-empty string of digits with no leading zero |
| `Text.ParseDecimalOfDecimal` | js/visit.js:107 | reading the decimal text back gives the number |
| `Text.DecimalInjective` | js/visit.js:107 | different counts print differently |
| `Sorting.SortByKey` | js/visit.js:185-198 | the sort result is ordered by the key and is a permutation of the input |
| `Sorting.SortStable` | js/visit.js:185-198 | elements with equal keys keep their input order |
| `Sorting.SortEqualKeys` | js/visit.js:195-196 | if all keys are equal, sorting changes nothing |
| `Sorting.StableSortUnique` | js/visit.js:185-198 | any ordered, stable rearrangement equals `SortByKey`, so it is exactly what a stable engine sort returns |
| `Visit.Matches` | js/visit.js:177-181 | with an empty query only the genre filters; a matching volume's title or description is at least as long as the query |
| `Visit.Matching` | js/visit.js:177-182 | a volume is kept iff it matches the query and the genre, as many times as the catalogue holds it; the kept volumes stay in catalogue order |
| `Visit.Compare` | js/visit.js:185-198 | each of the page's comparators is the difference of one rank, so it is consistent; any other sort key compares everything as equal |
| `Visit.Browse` | js/visit.js:176-198 | sound and complete filter result as a multiset; `newest`/`oldest` give non-increasing/non-decreasing dates; `longest`/`shortest` give non-increasing/non-decreasing chapter counts; any other key keeps catalogue order |
| `Visit.UnknownOrderKeepsOrder` | js/visit.js:195-196 | with an unknown sort key, every comparison is 0 and the list is unchanged |
| `Visit.BrowseStable` | js/visit.js:185-198 | volumes of equal rank keep their catalogue order |
| `Visit.IndexOfId` | js/visit.js:141 | the position of the first volume with the id, or the length when there is none |
| `Visit.FindById` | js/visit.js:141 | `find`: none iff no volume has the id; otherwise the first volume that has it |
| `Visit.FormatGenre` | js/visit.js:212-223 | the seven known keys map to their labels; any other text is returned unchanged |
| `Visit.CountLabel` | js/visit.js:107 | starts with `Showing `; ends in `s` iff the count is not 1 |
| `Visit.CountLabelInjective` | js/visit.js:107 | the results line determines the count |
| `Visit.DownloadName` | js/visit.js:232 | no whitespace; ends in `.html`; before that come the title's characters other than whitespace and `_`, in order |
| `Visit.DownloadNamePlain` | js/visit.js:232 | a title without whitespace only gains `.html` |
| `Visit.DownloadNameHead` | js/visit.js:232 | a title character that is not whitespace, `_` included, is copied to the name as it is |
| `Visit.DownloadNameRun` | js/visit.js:232 | each whole whitespace run of the title becomes exactly one `_` |
| `Visit.SearchAsWritten` | js/visit.js:163-166 | the search box's list is always newest first |
| `Visit.Search` | js/visit.js:168-174 | the list for the three controls: exactly the matching volumes, each as often as the filter keeps it, in the order the sort control names (newest, oldest, longest or shortest first); any other sort value keeps catalogue order |
| `Visit.SearchAsWrittenIgnoresSort` | js/visit.js:163-166 | for two volumes of different dates, the search box lists them newest first while the sort control says `oldest` |
| `Visit.Catalogue.constructor` | js/visit.js:73-80 | page load: the whole catalogue is listed, no volume is open, the count is rendered |
| `Visit.Catalogue.FilterBooks` | js/visit.js:176-202 | the new list is `Browse` of the catalogue; it does not depend on the previous list, so filtering is not cumulative; the count is re-rendered; the open volume is kept |
| `Visit.Catalogue.HandleFilters` | js/visit.js:168-174 | filters with the lower-cased search text, the genre and the sort |
| `Visit.Catalogue.HandleSearch` | js/visit.js:163-166 | filters with the lower-cased search text, the genre and the sort control's value (corrected; see Findings) |
| `Visit.Catalogue.ResetFilters` | js/visit.js:204-210 | the whole catalogue is listed again |
| `Visit.Catalogue.OpenBook` | js/visit.js:140-155 | an id that is not listed changes nothing; otherwise the first listed volume with the id becomes the open one |
| `Visit.Catalogue.CloseModal` | js/visit.js:157-161 | no volume is open afterwards; the list is untouched |
| `Visit.Catalogue.DownloadBook` | js/visit.js:225-235 | no file without an open volume; otherwise the file name is the open volume's `DownloadName` |
| `Create.CapConcept` | js/create.js:26-34 | the stored concept is a prefix of the input, of length min(length, 500) |
| `Create.WithDetail` | js/create.js:46-64 | a select or text box change sets its own field to the value and leaves every other field as it was |
| `Create.OrDash` | js/create.js:139-143 | `value \|\| '-'`: never empty; the value itself when it is not empty, `-` otherwise |
| `Create.LabelOrDash` | js/create.js:144 | a missing or empty structure heading shows as `-`, any other heading as itself |
| `Create.RenderReview` | js/create.js:138-145 | each review line presents its field, or `-` when the field is empty or missing |
| `Create.LabelText` | js/create.js:156 | the prompt prints a missing heading as `undefined`, where the review panel shows `-`; a non-empty heading reads the same in both |
| `Create.ElementsLine` | js/create.js:154 | the key-elements line is empty iff no elements were given; otherwise it is `KEY ELEMENTS: Include <elements>.` |
| `Create.RequirementsLine` | js/create.js:158 | the requirements line is empty iff none were given; otherwise it is `SPECIAL REQUIREMENTS: <requirements>` |
| `Create.GeneratePrompt` | js/create.js:147-167 | the prompt opens with the length/genre/pov request; contains `CONCEPT: <concept>` as its own paragraph; has the elements line between the tone and structure paragraphs, the requirements line between the structure paragraph and the closing request, and ends with the closing request |
| `Create.ResultTitle` | js/create.js:180-181 | the title is the concept cut before its fifth space (at most five words), followed by `...` |
| `Create.Gate` | js/create.js:83-100 | a move passes iff step 2 has a non-blank concept and step 4 has all four details and a structure; each rejection carries its alert |
| `Create.Advanced` | js/create.js:103-115 | after a forward move, only the target step is active, the steps before it are completed, and completed marks on later steps are kept |
| `Create.Rewound` | js/create.js:122-133 | after a backward move, only the target step is active and exactly the steps before it are completed |
| `Create.CreatePage.constructor` | js/create.js:3-19 | page load: step 1, empty form, step 1 indicator active, review panel rendered from the empty form |
| `Create.CreatePage.InputConcept` | js/create.js:26-34 | the stored concept is the input capped at 500 characters; the counter shows its length |
| `Create.CreatePage.ClickChip` | js/create.js:37-43 | the chip's prompt is stored uncut |
| `Create.CreatePage.ChangeDetail` | js/create.js:46-64 | one detail field is replaced; nothing else changes |
| `Create.CreatePage.SelectStructure` | js/create.js:67-74 | the structure key and its heading are stored together, keeping the invariant that a structure always has a heading |
| `Create.CreatePage.NextStep` | js/create.js:81-116 | the outcome is `Gate`; a rejection leaves the step, the form and the indicators as they were; a move sets the step and the indicators to `Advanced`; complete details on a step-4 request re-render the review and the prompt even if the structure gate then rejects; on entering step 4 the prompt names the chosen heading, never `undefined` |
| `Create.CreatePage.MarkProgress` | js/create.js:103-113 | the indicator sweep of a forward move gives `Advanced` |
| `Create.CreatePage.PrevStep` | js/create.js:118-136 | always moves; the indicators become `Rewound` of the target; the form is kept |
| `Create.CreatePage.ResetForm` | js/create.js:185-220 | step 1, all eight fields empty, the structure heading gone, the counter at 0, the indicators `Rewound(1)` |
| `Create.CreatePage.GenerateBook` | js/create.js:169-183 | the result title is the current concept cut before its fifth space, followed by `...` |

## Left out

- DOM rendering is not modelled:
  - the card markup (`js/visit.js:120-137`);
  - the modal's contents;
  - the visible panel (`.prompt-step`);
  - the result and generation panels;
  - the empty state.
  Only state and strings are modelled.
- The page's initial HTML is not part of this model. The model assumes step 1's indicator is active at load and the prompt text is empty.
- Timers are left out:
  - the 300 ms debounce of the search box;
  - the 3-second delay of `generateBook`. The model computes its title immediately from the current concept.
- `loadBooksFromAPI` (network) is left out. So are `shareBook`, the Blob/URL download and `saveBook` (browser APIs and an alert). Only the download file name is modelled.
- `js/main.js` is not part of this model. It is menu and overlay wiring. Its only text transform has the same shape as the file-name transform.
- `nextStep` and `prevStep` require a step from 1 to 4. The source throws when the step element does not exist.
- Dates are YYYYMMDD numbers. `Date` parsing and invalid dates (a `NaN` comparator result) are not modelled.
- Case and length rules:
  - Lower-casing covers ASCII letters only.
  - Characters are Unicode scalar values, not UTF-16 code units. So the 500-character cap and `length` differ from the source for characters outside the Basic Multilingual Plane.
- `Visit.FormatGenre` does not model prototype-inherited keys such as `constructor` or `toString`. For those, the source's object lookup returns a function, not the input.

## Findings

| source | as written | input that shows it | evidently intended | confidence | as-written member | corrected member |
|---|---|---|---|---|---|---|
| js/visit.js:163-166 | the search box handler calls `filterBooks(query, genre)` without the sort control's value, so the sort falls back to `newest` | sort control at `oldest`, empty search text, two matching volumes dated 2026-01-01 and 2026-02-01: the search box lists 2026-02-01 first | pass the sort control's value, as `handleFilters` does (js/visit.js:168-174) | medium, not executed | `Visit.SearchAsWrittenIgnoresSort` | `Visit.Catalogue.HandleSearch` |
