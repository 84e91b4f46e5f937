/**
  Exception banners (lib/classes/log/exception_message.py): an upper-cased
  title line, optional DETAILS and SUGGESTIONS sections, and a fixed
  trailer announcing the traceback that follows.
*/
module ExceptionMessage {
  import opened Text

  const Trailer := "TRACING INFORMATION APPEARS BELOW:"
  const DetailsHeader := "DETAILS:\n"
  const SuggestionsHeader := "SUGGESTIONS:\n"

  /** The DETAILS section, left out entirely when there are no details. */
  function DetailsSection(details: string): string {
    if details == "" then "" else DetailsHeader + details + "\n\n"
  }

  /** The SUGGESTIONS section, left out entirely when there are no suggestions. */
  function SuggestionsSection(suggestions: string): string {
    if suggestions == "" then "" else SuggestionsHeader + suggestions + "\n\n"
  }

  /** The title line: the title upper-cased, then a line feed. */
  function TitleLine(title: string): string {
    Upper(title) + "\n"
  }

  /** What follows the title line: the optional sections, then the trailer. */
  function Body(details: string, suggestions: string): string {
    DetailsSection(details) + (SuggestionsSection(suggestions) + Trailer)
  }

  /** The banner text `get` returns for the given fields. */
  function Banner(title: string, details: string, suggestions: string): string {
    TitleLine(title) + Body(details, suggestions)
  }

  /** Where the part after the title line starts. */
  function BodyStart(title: string): nat {
    |title| + 1
  }

  /** Where the part after the optional DETAILS section starts. */
  function SuggestionsStart(title: string, details: string): nat {
    BodyStart(title) + |DetailsSection(details)|
  }

  /** The banner is the title line, then the optional sections, then the trailer. */
  lemma {:induction false} BannerLayout(title: string, details: string, suggestions: string)
    ensures var b := Banner(title, details, suggestions);
      && b[..BodyStart(title)] == TitleLine(title)
      && b[BodyStart(title)..] == Body(details, suggestions)
      && b[SuggestionsStart(title, details)..] == SuggestionsSection(suggestions) + Trailer
  {
    var line, body := TitleLine(title), Body(details, suggestions);
    var section, rest := DetailsSection(details), SuggestionsSection(suggestions) + Trailer;
    assert |line| == BodyStart(title);
    ConcatParts(line, body);
    ConcatParts(section, rest);
    DropDrop(line + body, |line|, |section|);
  }

  /** The banner starts with the upper-cased title and a line feed. */
  lemma {:induction false} BannerStartsWithTitle(title: string, details: string, suggestions: string)
    ensures Upper(title) + "\n" <= Banner(title, details, suggestions)
  {
  }

  /** The banner ends with the trailer, with nothing after it. */
  lemma {:induction false} BannerEndsWithTrailer(title: string, details: string, suggestions: string)
    ensures var b := Banner(title, details, suggestions);
      |b| >= |Trailer| && b[|b| - |Trailer|..] == Trailer
  {
    var front := TitleLine(title) + (DetailsSection(details) + SuggestionsSection(suggestions));
    ConcatAssoc(DetailsSection(details), SuggestionsSection(suggestions), Trailer);
    ConcatAssoc(TitleLine(title), DetailsSection(details) + SuggestionsSection(suggestions), Trailer);
    SuffixAfter(front, Trailer);
  }

  /** The last `|t|` characters of `x + t` are `t`. */
  lemma SuffixAfter(x: string, t: string)
    ensures (x + t)[|x + t| - |t|..] == t
  {
  }

  /** A section under `header` leads `section + tail` exactly when it is present. */
  lemma {:induction false} SectionLeadsIff(header: string, text: string, section: string, tail: string)
    requires header != [] && tail != [] && tail[0] != header[0]
    requires section == if text == "" then "" else header + text + "\n\n"
    ensures text != "" <==> header <= section + tail
  {
    if text == "" {
      assert section + tail == tail;
    } else {
      assert section + tail == header + (text + "\n\n" + tail);
    }
  }

  /** A DETAILS section follows the title line exactly when there are details. */
  lemma {:induction false} DetailsSectionIff(title: string, details: string, suggestions: string)
    ensures var body := Banner(title, details, suggestions)[BodyStart(title)..];
      details != "" <==> DetailsHeader <= body
  {
    BannerLayout(title, details, suggestions);
    var tail := SuggestionsSection(suggestions) + Trailer;
    assert tail[0] == (if suggestions == "" then 'T' else 'S');
    SectionLeadsIff(DetailsHeader, details, DetailsSection(details), tail);
  }

  /** When there are details, the DETAILS section after the title line holds them verbatim. */
  lemma {:induction false} DetailsSectionContent(title: string, details: string, suggestions: string)
    requires details != ""
    ensures Banner(title, details, suggestions)[BodyStart(title)..SuggestionsStart(title, details)]
      == DetailsHeader + details + "\n\n"
  {
    BannerLayout(title, details, suggestions);
    var body := Body(details, suggestions);
    assert body[..|DetailsSection(details)|] == DetailsSection(details);
  }

  /**
    A SUGGESTIONS section follows the title line and any DETAILS section
    exactly when there are suggestions.
  */
  lemma {:induction false} SuggestionsSectionIff(title: string, details: string, suggestions: string)
    ensures var rest := Banner(title, details, suggestions)[SuggestionsStart(title, details)..];
      suggestions != "" <==> SuggestionsHeader <= rest
  {
    BannerLayout(title, details, suggestions);
    SectionLeadsIff(SuggestionsHeader, suggestions, SuggestionsSection(suggestions), Trailer);
  }

  /** When there are suggestions, the SUGGESTIONS section holds them verbatim. */
  lemma {:induction false} SuggestionsSectionContent(title: string, details: string, suggestions: string)
    requires suggestions != ""
    ensures var k := SuggestionsStart(title, details);
      Banner(title, details, suggestions)[k..k + |SuggestionsHeader| + |suggestions| + 2]
        == SuggestionsHeader + suggestions + "\n\n"
  {
    BannerLayout(title, details, suggestions);
    var rest := SuggestionsSection(suggestions) + Trailer;
    assert rest[..|SuggestionsHeader| + |suggestions| + 2] == SuggestionsHeader + suggestions + "\n\n";
  }

  /** With only a title, the trailer follows the title line directly, with no blank line. */
  lemma {:induction false} TitleOnlyBanner(title: string)
    ensures Banner(title, "", "") == Upper(title) + "\n" + Trailer
  {
  }

  /** `ExceptionMessageFormatted`: three text fields that callers assign, and `get`. */
  class ExceptionMessageFormatted {
    var title: string
    var details: string
    var suggestions: string

    constructor ()
      ensures title == "" && details == "" && suggestions == ""
    {
      title, details, suggestions := "", "", "";
    }

    /** `get`: builds the banner by successive appends; the fields are left as they are. */
    method Get() returns (message: string)
      ensures message == Banner(title, details, suggestions)
    {
      message := Upper(title) + "\n";
      if details != "" {
        message := message + (DetailsHeader + details + "\n\n");
      }
      assert message == TitleLine(title) + DetailsSection(details);
      if suggestions != "" {
        message := message + (SuggestionsHeader + suggestions + "\n\n");
      }
      assert message == TitleLine(title) + DetailsSection(details) + SuggestionsSection(suggestions);
      message := message + Trailer;
      assert message == Banner(title, details, suggestions) by {
        ConcatAssoc(TitleLine(title) + DetailsSection(details), SuggestionsSection(suggestions), Trailer);
        ConcatAssoc(TitleLine(title), DetailsSection(details), SuggestionsSection(suggestions) + Trailer);
      }
    }
  }
}
