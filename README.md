# Available fonts: a model of the `App` component

The page lists the fonts installed on the user's machine. It asks the browser
for them, lets the user type a preview text that every font then renders,
and lets the user search the list by family name. All of its logic is the
`App` component in `src/js/App.tsx`. This project models that component
without React. It is a state machine over seven fields:

- `fonts`: the list on screen.
- `ogFonts`: the full list, which every search starts from.
- `state`: idle, loading, success or error.
- `error`: the message shown in the error view.
- `previewText`: the preview input as typed.
- `actualText`: the text the previews render.
- `searchingFont`: the search input as typed.

The fields belong to the class `Component.App`. Each event handler is a
method on it:

- `FetchFonts`: the "Fetch fonts" button.
- `FilterFont`: submitting the search form.
- `ChangePreviewText`: submitting the preview form.
- `SetPreviewText` and `SetSearchingFont`: typing into the two inputs.

`Valid()` is the object invariant. It says:

- the displayed list is a subsequence of the full list;
- the success state always has a non-empty full list;
- the error state always has one of the four messages;
- the state never returns to idle.

A ghost field `trace` records every value the handlers give to `state`. That
is how the model says that an unavailable capability goes straight to error
without passing through loading.

The pure expressions are modelled as functions with lemmas:

- the search predicate and the `filter` over the full list (module `Fonts`);
- the quote-stripping CSS `font-family` value of each preview;
- the "Found N font(s)." line;
- the string operations they use: case folding, `includes`, `replaceAll` of
  `"`, and the decimal rendering of a count (module `Text`).

The awaited browser call is not modelled as a call. `FetchFonts` takes its
outcome as a `FetchOutcome` parameter:

- `Unavailable`: the browser has no `queryLocalFonts`.
- `Resolved(list)`: the call returned that list.
- `Threw(status)`: the call rejected. `status` holds the permission state the
  handler then reads, or `None` when the permission query rejects as well.
  In that last case the handler's promise rejects inside its `catch`, so the
  state stays "loading" and no message is set. The model keeps this.

Notes on the code:

- With `queryLocalFonts` missing, the fetch handler sets the error without
  first entering "loading".
- The four error messages are the code's exact strings.
- The handlers do not check the current state. The page offers the
  "Fetch fonts" button only in the idle state, and the preview and search
  forms only in the success view. Each method here may run from any
  state, so the model over-approximates what the page lets a user do.
- The preview's `font-family` wraps the stripped family in double quotes
  before the `, Tofu` fallback.

## Model

| member | source | states |
|---|---|---|
| `Text.Lower` | src/js/App.tsx:46 | `toLowerCase` keeps the length and folds each character on its own (ASCII letters only) |
| `Text.LowerIdempotent` | src/js/App.tsx:46 | folding twice equals folding once, and folded text has no ASCII upper-case letter |
| `Text.IncludesIffOccurs` | src/js/App.tsx:46 | the left-to-right `includes` search answers true exactly when the needle occurs at some position of the text |
| `Text.Includes` | src/js/App.tsx:46 | `includes` answers true for the empty search text and never for a needle longer than the text; `Text.IncludesIffOccurs` gives its exact meaning |
| `Text.IncludesEmpty` | src/js/App.tsx:46-47 | every string includes the empty search text |
| `Text.StripQuotes` | src/js/App.tsx:200 | `replaceAll('"', "")` leaves no double quote and never lengthens the family |
| `Text.StripQuotesKeepsOthers` | src/js/App.tsx:200 | stripping removes every `"`, keeps every other character as often as it occurred, and keeps their order |
| `Text.StripQuotesUnquoted` | src/js/App.tsx:200 | a family without double quotes is left unchanged |
| `Text.NatToDecimal` | src/js/App.tsx:108 | the interpolated count is a non-empty string of decimal digits; zero renders as exactly "0", and no other count starts with a zero |
| `Text.DecimalRoundTrip` | src/js/App.tsx:108 | reading the rendered digits back gives the count |
| `Seqs.SubsequenceReflexive` | src/js/App.tsx:68-69 | a list is a subsequence of itself, as when a fetch sets both lists to the same value |
| `Seqs.SubsequenceMultiset` | src/js/App.tsx:45-48 | a subsequence holds each element at most as often as the full list and is no longer |
| `Fonts.Matches` | src/js/App.tsx:46 | the filter callback accepts every font when the search is empty, and never when the search is longer than the family; `Fonts.FilterMembership` relates it to what is shown |
| `Fonts.Filter` | src/js/App.tsx:45-47 | the search result is no longer than the full list, and each element comes from it and matches the search |
| `Fonts.FilterIsSubsequence` | src/js/App.tsx:45-47 | the search keeps the full list's order |
| `Fonts.FilterMultiplicity` | src/js/App.tsx:45-47 | a matching font is kept as many times as it occurs in the full list; a non-matching one is dropped |
| `Fonts.FilterMembership` | src/js/App.tsx:45-47 | a font is shown if and only if it is in the full list and its lower-cased family includes the lower-cased search |
| `Fonts.FilterKeepsAll` | src/js/App.tsx:45-47 | when every font matches, the search returns the full list unchanged |
| `Fonts.FilterEmptySearch` | src/js/App.tsx:45-47 | the empty search shows the whole list |
| `Fonts.FilterIdempotent` | src/js/App.tsx:45-48 | about the filter expression only: filtering its result again with the same text changes nothing |
| `Fonts.FilterCaseInsensitive` | src/js/App.tsx:46 | the case of the search text does not change the result |
| `Fonts.FilterArialExample` | src/js/App.tsx:45-47 | searching "aria" in Arial and Verdana finds Arial only |
| `Fonts.FilterVerdanaExample` | src/js/App.tsx:45-47 | searching "verdana" in Arial and Verdana finds Verdana only |
| `Fonts.FontFamilyCss` | src/js/App.tsx:200 | the value is an opening quote, the family less its quotes, then the closing quote and the Tofu fallback, with no quote inside the name; `Fonts.FontFamilyCssRoundTrip` gives the text between the two quotes |
| `Fonts.FontFamilyCssQuoteCount` | src/js/App.tsx:200 | the `font-family` value holds exactly two double quotes, the ones around the family |
| `Fonts.FontFamilyCssRoundTrip` | src/js/App.tsx:200 | the `font-family` value opens with `"`, ends with `", Tofu` and has exactly two quotes; the text between the two quotes is the family less its quotes, or the family itself when it had none |
| `Fonts.FontFamilyCssTrailingBackslash` | src/js/App.tsx:200 | the family `Foo\` gives the value `"Foo\", Tofu`: a backslash is kept and can stand right before the closing quote |
| `Fonts.FoundLabel` | src/js/App.tsx:108-109 | the count line starts "Found " and ends with a full stop; `Fonts.FoundLabelReadsBack` reads the count back from it |
| `Fonts.FoundLabelReadsBack` | src/js/App.tsx:108-109 | the line starts "Found ", its number reads back as the count, and the noun ends in "s" exactly when the count is not one |
| `Component.App.constructor` | src/js/App.tsx:20-32 | the initial state is idle, both lists are empty, there is no error, both texts are the greeting, and the search is empty |
| `Component.App.SetPreviewText` | src/js/App.tsx:119 | typing sets only the preview input |
| `Component.App.SetSearchingFont` | src/js/App.tsx:133 | typing sets only the search input |
| `Component.App.ChangePreviewText` | src/js/App.tsx:34-40 | the rendered text becomes the typed preview text; the lists, state and error are unchanged |
| `Component.App.FilterFont` | src/js/App.tsx:42-51 | the shown list becomes the search over the full list; it is exactly the matching fonts, kept in order; an empty search shows the whole list; only `fonts` changes, and the invariant holds |
| `Component.App.FetchFonts` | src/js/App.tsx:53-81 | unavailable: straight to error with the "not available" message, lists untouched. Empty result: loading, then error with the "No fonts were found" message. Non-empty result: loading, then success, with both lists equal to the result. Rejection: loading, then error with the "denied" message exactly when the permission is denied, else the "unknown" message; if the permission query also rejects, it stays loading. The text fields never change |
| `Component.App.ShownWithinFull` | src/js/App.tsx:45-48 | in every reachable state the shown list holds no font more often than the full list, so it is never longer |
| `Component.App.CountLabel` | src/js/App.tsx:108-109 | the success view's count line reads back as the number of fonts shown, plural exactly when that number is not one |
| `Component.SearchAfterFetch` | src/js/App.tsx:45-48 | after fetching Arial and Verdana and searching "aria", Arial alone is shown, the full list keeps both, and the state is success |
| `Component.SearchesDoNotCompound` | src/js/App.tsx:42-51 | after searching "aria", a search for "verdana" shows exactly [Verdana], because it starts again from the full list, and clearing the search shows [Arial, Verdana] again |
| `Component.SubmitSearchTwice` | src/js/App.tsx:42-51 | submitting the same search twice leaves the shown list as the first submit left it: both equal the search over the full list |
| `Component.PreviewAfterFetch` | src/js/App.tsx:34-40 | submitting "Test" makes the previews render "Test" and leaves the shown list as it was |

## Left out

- Rendering, JSX, `memo` and `useCallback`: these are UI concerns. Only the count line and the `font-family` value are kept.
- The `Admax` advertisement component: its source is not part of this model.
- The browser calls `window.queryLocalFonts`, `navigator.permissions.query` and `navigator.clipboard.writeText`. The first two are replaced by the `FetchOutcome` parameter of `FetchFonts`. The clipboard copy changes no state and is not modelled.
- Asynchronous scheduling and React's batching of setter calls. Each handler is one atomic step, and the awaited call is its outcome. The intermediate "loading" state still appears in `trace`.
- `FontData.blob`: never used by the page, so the record has no such field.
- The `fullName`, `postscriptName` and `style` fields are kept in the record, but no handler reads them. The page never uses `fullName`. It uses `postscriptName` as the list key. It shows `style` as text and uses it, lower-cased, as a class name. That rendering is not modelled.
- Text.Lower: folds only the ASCII letters A-Z, not the whole of Unicode's `toLowerCase`. The filter lemmas are stated relative to this folding.
- CSS escapes in the `font-family` value are not modelled. Only `"` is stripped, so a backslash in a family can escape the closing quote or start an escape such as `\41`, and a browser then reads a different name or drops the Tofu fallback. `Fonts.FontFamilyCssTrailingBackslash` shows such a value.
- Strings are sequences of Unicode scalar values, not UTF-16 code units. No search or strip here depends on the difference.
- The build script and the styling configuration: they hold no logic.
