/** The `App` component's state and its event handlers, without the rendering. */
module Component {
  import opened Seqs
  import opened Text
  import opened Fonts

  datatype Option<T> = None | Some(value: T)

  /** The four values of the component's `state` field. */
  datatype BrowseState = Idle | Loading | Success | Error

  /** The answer of the permission query for "local-fonts". */
  datatype PermissionState = Granted | Prompt | Denied

  /** What happened to the one awaited call a fetch makes.
      `Unavailable`: the browser has no `queryLocalFonts`.
      `Resolved`: the call returned this list.
      `Threw`: the call rejected; `status` is the permission state the handler
      then queried, or `None` when that query rejected as well. */
  datatype FetchOutcome =
    | Unavailable
    | Resolved(found: seq<FontData>)
    | Threw(status: Option<PermissionState>)

  const Greeting: string := "Hello! こんにちは！ 你好!"

  const UnavailableMessage: string := "queryLocalFonts is not available in your browser."
  const NoFontsMessage: string := "No fonts were found. or you denied access to local fonts."
  const DeniedMessage: string := "You denied access to local fonts."
  const UnknownMessage: string := "An unknown error occurred."

  class App {
    /** The list on screen: the full list, or the last search's result. */
    var fonts: seq<FontData>
    /** The full list of the last successful fetch, the source of every search. */
    var ogFonts: seq<FontData>
    var state: BrowseState
    var error: Option<string>
    /** The preview input as typed. */
    var previewText: string
    /** The text the previews render, copied from `previewText` on submit. */
    var actualText: string
    /** The search input as typed. */
    var searchingFont: string
    /** Every value ever given to `state`, the first being the initial one. */
    ghost var trace: seq<BrowseState>

    ghost predicate Valid()
      reads this
    {
      |trace| > 0 && trace[0] == Idle && state == trace[|trace| - 1] &&
      // no handler ever sets the state back to idle
      (forall i :: 0 < i < |trace| ==> trace[i] != Idle) &&
      (state == Idle ==> |trace| == 1 && fonts == [] && ogFonts == [] && error == None) &&
      // the displayed list is always drawn from the full list, in order
      IsSubsequence(fonts, ogFonts) &&
      (state == Success ==> ogFonts != []) &&
      (state == Error ==> error.Some?) &&
      (error.Some? ==> error.value in {UnavailableMessage, NoFontsMessage, DeniedMessage, UnknownMessage})
    }

    constructor ()
      ensures Valid()
      ensures fonts == [] && ogFonts == [] && state == Idle && error == None
      ensures previewText == Greeting && actualText == Greeting && searchingFont == ""
      ensures trace == [Idle]
    {
      fonts := [];
      ogFonts := [];
      state := Idle;
      error := None;
      previewText := Greeting;
      actualText := Greeting;
      searchingFont := "";
      trace := [Idle];
    }

    /** The preview input's change handler. */
    method SetPreviewText(text: string)
      requires Valid()
      modifies this
      ensures Valid()
      ensures previewText == text
      ensures fonts == old(fonts) && ogFonts == old(ogFonts) && state == old(state) && error == old(error)
      ensures actualText == old(actualText) && searchingFont == old(searchingFont) && trace == old(trace)
    {
      previewText := text;
    }

    /** The search input's change handler. */
    method SetSearchingFont(text: string)
      requires Valid()
      modifies this
      ensures Valid()
      ensures searchingFont == text
      ensures fonts == old(fonts) && ogFonts == old(ogFonts) && state == old(state) && error == old(error)
      ensures previewText == old(previewText) && actualText == old(actualText) && trace == old(trace)
    {
      searchingFont := text;
    }

    /** Submitting the preview form: the previews now render the typed text. */
    method ChangePreviewText()
      requires Valid()
      modifies this
      ensures Valid()
      ensures actualText == old(previewText)
      ensures fonts == old(fonts) && ogFonts == old(ogFonts) && state == old(state) && error == old(error)
      ensures previewText == old(previewText) && searchingFont == old(searchingFont) && trace == old(trace)
    {
      actualText := previewText;
    }

    /** Submitting the search form: show the fonts of the full list whose
        family contains the search text, ignoring case. */
    method FilterFont()
      requires Valid()
      modifies this
      ensures Valid()
      ensures fonts == Filter(ogFonts, searchingFont)
      ensures forall f :: f in fonts <==> f in ogFonts && Matches(f, searchingFont)
      ensures IsSubsequence(fonts, ogFonts) && |fonts| <= |ogFonts|
      ensures searchingFont == "" ==> fonts == ogFonts
      ensures ogFonts == old(ogFonts) && state == old(state) && error == old(error)
      ensures previewText == old(previewText) && actualText == old(actualText)
      ensures searchingFont == old(searchingFont) && trace == old(trace)
    {
      FilterIsSubsequence(ogFonts, searchingFont);
      forall f
        ensures f in Filter(ogFonts, searchingFont) <==> f in ogFonts && Matches(f, searchingFont)
      {
        FilterMembership(ogFonts, searchingFont, f);
      }
      FilterEmptySearch(ogFonts);
      fonts := Filter(ogFonts, searchingFont);
    }

    /** The fetch button's handler, given what the awaited call did. */
    method FetchFonts(outcome: FetchOutcome)
      requires Valid()
      modifies this
      ensures Valid()
      ensures outcome.Unavailable? ==>
        state == Error && error == Some(UnavailableMessage) &&
        fonts == old(fonts) && ogFonts == old(ogFonts) && trace == old(trace) + [Error]
      ensures outcome.Resolved? && outcome.found == [] ==>
        state == Error && error == Some(NoFontsMessage) &&
        fonts == old(fonts) && ogFonts == old(ogFonts) && trace == old(trace) + [Loading, Error]
      ensures outcome.Resolved? && outcome.found != [] ==>
        state == Success && fonts == outcome.found && ogFonts == outcome.found &&
        error == old(error) && trace == old(trace) + [Loading, Success]
      ensures outcome.Threw? && outcome.status.Some? ==>
        state == Error &&
        error == Some(if outcome.status.value == Denied then DeniedMessage else UnknownMessage) &&
        fonts == old(fonts) && ogFonts == old(ogFonts) && trace == old(trace) + [Loading, Error]
      ensures outcome.Threw? && outcome.status.None? ==>
        state == Loading && error == old(error) &&
        fonts == old(fonts) && ogFonts == old(ogFonts) && trace == old(trace) + [Loading]
      ensures previewText == old(previewText) && actualText == old(actualText)
      ensures searchingFont == old(searchingFont)
    {
      if outcome.Unavailable? {
        error := Some(UnavailableMessage);
        state, trace := Error, trace + [Error];
        return;
      }
      state, trace := Loading, trace + [Loading];
      match outcome {
        case Resolved(found) =>
          if |found| == 0 {
            error := Some(NoFontsMessage);
            state, trace := Error, trace + [Error];
            return;
          }
          SubsequenceReflexive(found);
          fonts := found;
          ogFonts := found;
          state, trace := Success, trace + [Success];
        case Threw(status) =>
          match status {
            case None =>
              // the permission query rejected too: the handler stops while loading
            case Some(permission) =>
              if permission == Denied {
                error := Some(DeniedMessage);
              } else {
                error := Some(UnknownMessage);
              }
              state, trace := Error, trace + [Error];
          }
      }
    }

    /** The shown list never holds a font more often than the full list,
        so the count line never exceeds the number of fonts fetched. */
    lemma ShownWithinFull()
      requires Valid()
      ensures multiset(fonts) <= multiset(ogFonts)
      ensures |fonts| <= |ogFonts|
    {
      SubsequenceMultiset(fonts, ogFonts);
    }

    /** The count line shown above the list in the success view. */
    function CountLabel(): (line: string)
      reads this
      ensures |line| > 6 && line[..6] == "Found "
      ensures DecimalValue(LeadingDigits(line[6..])) == |fonts|
      ensures line[|line| - 2] == 's' <==> |fonts| != 1
    {
      FoundLabelReadsBack(|fonts|);
      FoundLabel(|fonts|)
    }
  }

  /** A session as a user drives it: fetch two fonts, then search "aria".
      Only Arial is shown, while the full list still holds both. */
  method SearchAfterFetch() returns (shown: seq<FontData>, all: seq<FontData>, state: BrowseState)
    ensures shown == [FontData("Arial", "Arial", "ArialMT", "Regular")]
    ensures all == [FontData("Arial", "Arial", "ArialMT", "Regular"),
                    FontData("Verdana", "Verdana", "Verdana", "Regular")]
    ensures state == Success
  {
    var arial := FontData("Arial", "Arial", "ArialMT", "Regular");
    var verdana := FontData("Verdana", "Verdana", "Verdana", "Regular");
    var app := new App();
    app.FetchFonts(Resolved([arial, verdana]));
    app.SetSearchingFont("aria");
    app.FilterFont();
    FilterArialExample();
    shown, all, state := app.fonts, app.ogFonts, app.state;
  }

  /** A second search starts again from the full list: searching "verdana"
      after "aria" finds Verdana, and an empty search shows both again. */
  method SearchesDoNotCompound() returns (second: seq<FontData>, cleared: seq<FontData>)
    ensures second == [FontData("Verdana", "Verdana", "Verdana", "Regular")]
    ensures cleared == [FontData("Arial", "Arial", "ArialMT", "Regular"),
                        FontData("Verdana", "Verdana", "Verdana", "Regular")]
  {
    var arial := FontData("Arial", "Arial", "ArialMT", "Regular");
    var verdana := FontData("Verdana", "Verdana", "Verdana", "Regular");
    var app := new App();
    app.FetchFonts(Resolved([arial, verdana]));
    app.SetSearchingFont("aria");
    app.FilterFont();
    app.SetSearchingFont("verdana");
    app.FilterFont();
    second := app.fonts;
    FilterVerdanaExample();
    app.SetSearchingFont("");
    app.FilterFont();
    cleared := app.fonts;
  }

  /** Submitting the same search twice leaves the shown list as the first
      submit left it, because each submit starts again from the full list. */
  method SubmitSearchTwice(app: App) returns (once: seq<FontData>, twice: seq<FontData>)
    requires app.Valid()
    modifies app
    ensures app.Valid()
    ensures once == twice == Filter(old(app.ogFonts), old(app.searchingFont))
  {
    app.FilterFont();
    once := app.fonts;
    app.FilterFont();
    twice := app.fonts;
  }

  /** Submitting preview text "Test" changes what the previews render and
      leaves the font lists as they were. */
  method PreviewAfterFetch() returns (rendered: string, shown: seq<FontData>)
    ensures rendered == "Test"
    ensures shown == [FontData("Arial", "Arial", "ArialMT", "Regular")]
  {
    var arial := FontData("Arial", "Arial", "ArialMT", "Regular");
    var app := new App();
    app.FetchFonts(Resolved([arial]));
    app.SetPreviewText("Test");
    app.ChangePreviewText();
    rendered, shown := app.actualText, app.fonts;
  }
}
