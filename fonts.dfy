/** Font records and the pure expressions the page evaluates over them:
    the search filter, the CSS `font-family` value of a preview and the
    "Found N fonts." label. */
module Fonts {
  import opened Seqs
  import opened Text

  /** One locally installed font face, as the platform reports it.
      The record's `blob` accessor is never used and is not modelled. */
  datatype FontData = FontData(family: string, fullName: string, postscriptName: string, style: string)

  /** The search predicate: the lower-cased family includes the lower-cased search text. */
  predicate Matches(font: FontData, search: string)
    ensures search == "" ==> Matches(font, search)
    ensures Matches(font, search) ==> |search| <= |font.family|
  {
    Includes(Lower(font.family), Lower(search))
  }

  /** `fonts.filter(font => Matches(font, search))`. */
  function Filter(fonts: seq<FontData>, search: string): (r: seq<FontData>)
    ensures |r| <= |fonts|
    ensures forall f :: f in r ==> f in fonts && Matches(f, search)
  {
    if fonts == [] then []
    else (if Matches(fonts[0], search) then [fonts[0]] else []) + Filter(fonts[1..], search)
  }

  /** The filtered list keeps the original order. */
  lemma {:induction false} FilterIsSubsequence(fonts: seq<FontData>, search: string)
    ensures IsSubsequence(Filter(fonts, search), fonts)
  {
    if fonts != [] {
      FilterIsSubsequence(fonts[1..], search);
      var rest := Filter(fonts[1..], search);
      if Matches(fonts[0], search) {
        assert Filter(fonts, search) == [fonts[0]] + rest;
        assert ([fonts[0]] + rest)[1..] == rest;
      } else {
        assert Filter(fonts, search) == rest;
      }
    }
  }

  /** Every matching font is kept as often as it occurs; no other font is kept. */
  lemma {:induction false} FilterMultiplicity(fonts: seq<FontData>, search: string, f: FontData)
    ensures multiset(Filter(fonts, search))[f] == if Matches(f, search) then multiset(fonts)[f] else 0
  {
    if fonts != [] {
      FilterMultiplicity(fonts[1..], search, f);
      assert fonts == [fonts[0]] + fonts[1..];
    }
  }

  /** A font is shown exactly when it is in the full list and matches. */
  lemma FilterMembership(fonts: seq<FontData>, search: string, f: FontData)
    ensures f in Filter(fonts, search) <==> f in fonts && Matches(f, search)
  {
    FilterMultiplicity(fonts, search, f);
    assert f in fonts <==> multiset(fonts)[f] > 0;
    assert f in Filter(fonts, search) <==> multiset(Filter(fonts, search))[f] > 0;
  }

  /** When every font matches, the filter returns the list unchanged. */
  lemma {:induction false} FilterKeepsAll(fonts: seq<FontData>, search: string)
    requires forall f :: f in fonts ==> Matches(f, search)
    ensures Filter(fonts, search) == fonts
  {
    if fonts != [] {
      assert fonts[0] in fonts;
      FilterKeepsAll(fonts[1..], search);
    }
  }

  /** The empty search shows every font. */
  lemma FilterEmptySearch(fonts: seq<FontData>)
    ensures Filter(fonts, "") == fonts
  {
    forall f | f in fonts
      ensures Matches(f, "")
    {
      IncludesEmpty(Lower(f.family));
    }
    FilterKeepsAll(fonts, "");
  }

  /** Filtering a filtered list with the same text changes nothing. */
  lemma FilterIdempotent(fonts: seq<FontData>, search: string)
    ensures Filter(Filter(fonts, search), search) == Filter(fonts, search)
  {
    FilterKeepsAll(Filter(fonts, search), search);
  }

  /** The search text's case does not matter. */
  lemma {:induction false} FilterCaseInsensitive(fonts: seq<FontData>, search: string)
    ensures Filter(fonts, Lower(search)) == Filter(fonts, search)
  {
    LowerIdempotent(search);
    if fonts != [] {
      FilterCaseInsensitive(fonts[1..], search);
    }
  }

  /** The end of every preview's `font-family` value: the quote closing the family, then the Tofu fallback font. */
  const ClosingQuoteAndFallback: string := "\", Tofu"

  /** The inline `font-family` of a preview: the family with its double
      quotes removed, quoted, followed by the Tofu fallback. */
  function FontFamilyCss(family: string): (css: string)
    ensures |css| == 1 + |StripQuotes(family)| + |ClosingQuoteAndFallback|
    ensures css[0] == '"' && '"' !in css[1..|css| - |ClosingQuoteAndFallback|]
  {
    "\"" + StripQuotes(family) + ClosingQuoteAndFallback
  }

  /** The text between the opening quote and the closing `", Tofu`. */
  function QuotedFamily(css: string): string
    requires |css| >= 1 + |ClosingQuoteAndFallback|
  {
    css[1..|css| - |ClosingQuoteAndFallback|]
  }

  /** The only double quotes in the value are the two around the family. */
  lemma FontFamilyCssQuoteCount(family: string)
    ensures multiset(FontFamilyCss(family))['"'] == 2
  {
    var name := StripQuotes(family);
    assert multiset(name)['"'] == 0;
    assert multiset(ClosingQuoteAndFallback)['"'] == 1;
    assert multiset(FontFamilyCss(family)) == multiset("\"") + multiset(name) + multiset(ClosingQuoteAndFallback);
  }

  /** The value has exactly two double quotes, one opening it and one before
      the fallback; the text between them is the family less its quotes, and
      the family itself when it had none. */
  lemma FontFamilyCssRoundTrip(family: string)
    ensures var css := FontFamilyCss(family);
      |css| >= 1 + |ClosingQuoteAndFallback| &&
      css[0] == '"' && css[|css| - |ClosingQuoteAndFallback|..] == ClosingQuoteAndFallback &&
      multiset(css)['"'] == 2 &&
      QuotedFamily(css) == StripQuotes(family) &&
      ('"' !in family ==> QuotedFamily(css) == family)
  {
    var name := StripQuotes(family);
    var css := FontFamilyCss(family);
    assert css == "\"" + name + ClosingQuoteAndFallback;
    assert css[1..|css| - |ClosingQuoteAndFallback|] == name;
    FontFamilyCssQuoteCount(family);
    if '"' !in family {
      StripQuotesUnquoted(family);
    }
  }

  /** Only `"` is stripped, so a backslash survives: a family ending in `\`
      gives a value in which that backslash stands right before the closing
      quote, where CSS reads it as an escape of that quote. */
  lemma FontFamilyCssTrailingBackslash()
    ensures FontFamilyCss("Foo\\") == "\"Foo\\\", Tofu"
  {
    assert StripQuotes("Foo\\") == "Foo\\" by {
      StripQuotesUnquoted("Foo\\");
    }
  }

  /** The count line of the success view: "Found 1 font." or "Found N fonts.". */
  function FoundLabel(count: nat): (line: string)
    ensures |line| > 6 && line[..6] == "Found " && line[|line| - 1] == '.'
  {
    "Found " + NatToDecimal(count) + " font" + (if count == 1 then "" else "s") + "."
  }

  /** The label's number reads back as the count, and the noun is plural
      exactly when the count is not one. */
  lemma FoundLabelReadsBack(count: nat)
    ensures var line := FoundLabel(count);
      |line| > 6 && line[..6] == "Found " &&
      DecimalValue(LeadingDigits(line[6..])) == count &&
      (line[|line| - 2] == 's' <==> count != 1)
  {
    var digits := NatToDecimal(count);
    var rest := " font" + (if count == 1 then "" else "s") + ".";
    var line := FoundLabel(count);
    assert line == "Found " + digits + rest;
    assert line[6..] == digits + rest;
    LeadingDigitsOf(digits, rest);
    DecimalRoundTrip(count);
  }

  lemma LowerArial()
    ensures Lower("Arial") == "arial"
  {
    var r := Lower("Arial");
    assert r[0] == LowerChar('A');
  }

  lemma LowerVerdana()
    ensures Lower("Verdana") == "verdana"
  {
    var r := Lower("Verdana");
    assert r[0] == LowerChar('V');
  }

  lemma LowerAria()
    ensures Lower("aria") == "aria"
  {
  }

  lemma VerdanaLacksAria()
    ensures !Includes("verdana", "aria")
  {
    assert "verdana"[..4][0] != 'a' && "verdana"[1..] == "erdana";
    assert "erdana"[..4][0] != 'a' && "erdana"[1..] == "rdana";
    assert "rdana"[..4][0] != 'a' && "rdana"[1..] == "dana";
    assert "dana"[..4][0] != 'a' && "dana"[1..] == "ana";
  }

  lemma ArialMatchesAria()
    ensures Matches(FontData("Arial", "Arial", "ArialMT", "Regular"), "aria")
  {
    LowerArial();
    LowerAria();
    assert "arial"[..4] == "aria";
  }

  lemma VerdanaMissesAria()
    ensures !Matches(FontData("Verdana", "Verdana", "Verdana", "Regular"), "aria")
  {
    LowerVerdana();
    LowerAria();
    VerdanaLacksAria();
  }

  /** The filter on a concrete pair: searching "aria" finds Arial and not Verdana. */
  lemma FilterArialExample()
    ensures Filter([FontData("Arial", "Arial", "ArialMT", "Regular"),
                    FontData("Verdana", "Verdana", "Verdana", "Regular")], "aria")
            == [FontData("Arial", "Arial", "ArialMT", "Regular")]
  {
    var arial := FontData("Arial", "Arial", "ArialMT", "Regular");
    var verdana := FontData("Verdana", "Verdana", "Verdana", "Regular");
    ArialMatchesAria();
    VerdanaMissesAria();
    assert Filter([verdana], "aria") == [] by {
      assert [verdana][1..] == [];
    }
    assert [arial, verdana][1..] == [verdana];
  }

  lemma VerdanaMatchesVerdana()
    ensures Matches(FontData("Verdana", "Verdana", "Verdana", "Regular"), "verdana")
  {
    LowerVerdana();
    assert "verdana"[..7] == "verdana";
  }

  lemma ArialMissesVerdana()
    ensures !Matches(FontData("Arial", "Arial", "ArialMT", "Regular"), "verdana")
  {
    LowerArial();
    LowerVerdana();
  }

  /** A second concrete search: "verdana" over the same pair finds Verdana alone. */
  lemma FilterVerdanaExample()
    ensures Filter([FontData("Arial", "Arial", "ArialMT", "Regular"),
                    FontData("Verdana", "Verdana", "Verdana", "Regular")], "verdana")
            == [FontData("Verdana", "Verdana", "Verdana", "Regular")]
  {
    var arial := FontData("Arial", "Arial", "ArialMT", "Regular");
    var verdana := FontData("Verdana", "Verdana", "Verdana", "Regular");
    ArialMissesVerdana();
    VerdanaMatchesVerdana();
    assert Filter([verdana], "verdana") == [verdana] by {
      assert [verdana][1..] == [];
    }
    assert [arial, verdana][1..] == [verdana];
  }
}
