/** Keyword detection, highlighting and summarising of an uploaded PDF
    document (mental_health_processor.py).  The two PDF parsers are inputs:
    the text of each page, or the exception the parser raised. */
module Processor {
  import opened Text
  import opened Oracle

  const MentalHealthKeywords: seq<string> := [
    "mental health", "depression", "anxiety", "stress",
    "psikologis", "depresi", "kecemasan", "gangguan mood",
    "terapi", "konseling", "skrining", "diagnosis", "DSM-5"
  ]

  // ----- detection -----

  /** `any(k in text for k in keywords)`: some keyword, exactly as written, occurs in `text`. */
  function AnyKeywordIn(keywords: seq<string>, text: string): (r: bool)
    ensures r <==> exists k :: 0 <= k < |keywords| && Contains(text, keywords[k])
    decreases keywords, text
  {
    if keywords == [] then false
    else Contains(text, keywords[0]) || AnyKeywordIn(keywords[1..], text)
  }

  /** `_is_mental_health_content`: the text is lower-cased, the keywords are not. */
  function IsMentalHealthContent(text: string): (r: bool)
    ensures r <==> exists k :: 0 <= k < |MentalHealthKeywords| && Contains(Lower(text), MentalHealthKeywords[k])
  {
    AnyKeywordIn(MentalHealthKeywords, Lower(text))
  }

  /** A keyword holding an upper-case letter never occurs in lower-cased text. */
  lemma KeywordWithUppercaseNeverMatches(text: string, keyword: string, j: int)
    requires 0 <= j < |keyword| && IsUpperAscii(keyword[j])
    ensures !Contains(Lower(text), keyword)
  {
  }

  /** Detection succeeds exactly through the twelve lower-case keywords: 'DSM-5' never counts. */
  lemma DetectionIgnoresDsm5(text: string)
    ensures !Contains(Lower(text), "DSM-5")
    ensures IsMentalHealthContent(text) <==>
              exists k :: 0 <= k < 12 && Contains(Lower(text), MentalHealthKeywords[k])
  {
    KeywordWithUppercaseNeverMatches(text, "DSM-5", 0);
    assert MentalHealthKeywords[12] == "DSM-5";
  }

  // ----- highlighting -----

  /** A case-insensitive match of `keyword` at the very start of `text`. */
  predicate MatchesAtStart(text: string, keyword: string)
  {
    |keyword| <= |text| && Lower(text[..|keyword|]) == Lower(keyword)
  }

  predicate ContainsIgnoreCase(text: string, keyword: string)
  {
    Contains(Lower(text), Lower(keyword))
  }

  lemma NoMatchAnywhere(text: string, keyword: string)
    requires text != [] && keyword != []
    ensures !ContainsIgnoreCase(text, keyword) ==>
              !MatchesAtStart(text, keyword) && !ContainsIgnoreCase(text[1..], keyword)
  {
    var lk := Lower(keyword);
    if MatchesAtStart(text, keyword) {
      LowerSlice(text, 0, |keyword|);
      assert OccursAt(Lower(text), lk, 0);
    }
    if ContainsIgnoreCase(text[1..], keyword) {
      var i :| 0 <= i <= |Lower(text[1..])| - |lk| && OccursAt(Lower(text[1..]), lk, i);
      LowerSlice(text, 1, |text|);
      assert Lower(text)[i + 1..i + 1 + |lk|] == Lower(text[1..])[i..i + |lk|];
      assert OccursAt(Lower(text), lk, i + 1);
    }
  }

  /** `re.compile(re.escape(keyword), re.IGNORECASE).sub(repl, text)`: scanning left to
      right, every non-overlapping case-insensitive occurrence is replaced by `repl`.  An
      empty pattern matches before every character and at the end, as in Python. */
  function ReplaceIgnoreCase(text: string, keyword: string, repl: string): (r: string)
    ensures !ContainsIgnoreCase(text, keyword) ==> r == text
    decreases |text|
  {
    if keyword == [] then
      assert OccursAt(Lower(text), Lower(keyword), 0);
      if text == [] then repl else repl + [text[0]] + ReplaceIgnoreCase(text[1..], keyword, repl)
    else if MatchesAtStart(text, keyword) then
      NoMatchAnywhere(text, keyword);
      repl + ReplaceIgnoreCase(text[|keyword|..], keyword, repl)
    else if text == [] then []
    else
      NoMatchAnywhere(text, keyword);
      [text[0]] + ReplaceIgnoreCase(text[1..], keyword, repl)
  }

  /** `f"**{keyword.upper()}**"`. */
  function Marker(keyword: string): string
  {
    "**" + Upper(keyword) + "**"
  }

  /** The loop of `_highlight_keywords` as a left fold over the keyword list. */
  function HighlightAll(text: string, keywords: seq<string>): string
    decreases keywords, text
  {
    if keywords == [] then text
    else HighlightAll(ReplaceIgnoreCase(text, keywords[0], Marker(keywords[0])), keywords[1..])
  }

  /** `_highlight_keywords`, over the processor's keyword list `keywords`. */
  method HighlightKeywords(text: string, keywords: seq<string>) returns (highlighted: string)
    ensures highlighted == HighlightAll(text, keywords)
  {
    highlighted := text;
    for i := 0 to |keywords|
      invariant HighlightAll(highlighted, keywords[i..]) == HighlightAll(text, keywords)
    {
      var keyword := keywords[i];
      assert keywords[i..][1..] == keywords[i + 1..];
      highlighted := ReplaceIgnoreCase(highlighted, keyword, Marker(keyword));
    }
  }

  /** Text in which no keyword occurs, in any letter case, comes back unchanged. */
  lemma {:induction false} HighlightWithoutKeywords(text: string, keywords: seq<string>)
    requires forall k :: 0 <= k < |keywords| ==> !ContainsIgnoreCase(text, keywords[k])
    ensures HighlightAll(text, keywords) == text
    decreases |keywords|
  {
    if keywords != [] {
      HighlightWithoutKeywords(text, keywords[1..]);
    }
  }

  // ----- page summaries -----

  predicate IsSentencePunct(c: char) { c == '.' || c == '!' || c == '?' }

  /** Drops leading whitespace (the greedy `\s+`). */
  function SkipSpaces(s: string): (r: string)
    ensures |r| <= |s| && r == s[|s| - |r|..]
    ensures r == [] || !IsSpace(r[0])
    ensures forall i :: 0 <= i < |s| - |r| ==> IsSpace(s[i])
  {
    if s != [] && IsSpace(s[0]) then SkipSpaces(s[1..]) else s
  }

  /** `re.split(r'(?<=[.!?])\s+', s)`: cut at every whitespace run that follows '.', '!'
      or '?', dropping the run.  `afterPunct` says whether the character before `s` is
      such a mark. */
  function SplitSentencesAfter(s: string, afterPunct: bool): (r: seq<string>)
    ensures |r| >= 1
    decreases |s|
  {
    if s == [] then [""]
    else if afterPunct && IsSpace(s[0]) then [""] + SplitSentencesAfter(SkipSpaces(s), false)
    else
      var rest := SplitSentencesAfter(s[1..], IsSentencePunct(s[0]));
      [[s[0]] + rest[0]] + rest[1..]
  }

  function SplitSentences(text: string): seq<string>
  {
    SplitSentencesAfter(text, false)
  }

  /** `any(k.lower() in s.lower() for k in keywords)`: here the keywords are lower-cased too. */
  predicate MentionsKeyword(sentence: string)
  {
    AnyKeywordIn(LowerAll(MentalHealthKeywords), Lower(sentence))
  }

  /** The first three (or fewer) sentences of the page that mention a keyword, in page order. */
  function RelevantSentences(page: string): (r: seq<string>)
    ensures |r| <= 3
    ensures forall s :: s in r ==> s in SplitSentences(page) && MentionsKeyword(s)
    ensures |r| < 3 ==> forall s :: s in SplitSentences(page) && MentionsKeyword(s) ==> s in r
    ensures IsSubsequence(r, SplitSentences(page))
    ensures exists j :: 0 <= j <= |SplitSentences(page)| && r == Filter(SplitSentences(page)[..j], MentionsKeyword)
                        && (|r| < 3 ==> j == |SplitSentences(page)|)
  {
    var relevant := Filter(SplitSentences(page), MentionsKeyword);
    SubsequencePrefix(relevant, SplitSentences(page), Min(3, |relevant|));
    TakeFilterIsPrefixFilter(SplitSentences(page), MentionsKeyword, 3);
    Take(relevant, 3)
  }

  /** `_summarize_page`: empty exactly when no sentence mentions a keyword; otherwise the
      first three (or fewer) such sentences, in page order, joined by spaces, then "...". */
  function SummarizePage(page: string): (r: string)
    ensures r == "" <==> forall s :: s in SplitSentences(page) ==> !MentionsKeyword(s)
    ensures r != "" ==> r == Join(RelevantSentences(page), " ") + "..."
  {
    var relevant := RelevantSentences(page);
    if relevant != [] then
      assert relevant[0] in relevant;
      var r := Join(relevant, " ") + "...";
      assert r[|r| - 1] == '.';
      r
    else ""
  }

  // ----- document summary -----

  const NoContentSummary := "Dokumen ini tidak memiliki " + "konten kesehatan mental " + "yang terdeteksi."
  const SummaryHeader := "DOKUMEN MENGANDUNG " + "INFORMASI TENTANG:"
  const SummaryFooter := "\nGunakan fitur chat untuk " + "bertanya spesifik tentang " + "dokumen ini."
  const ParagraphLimit: nat := 150

  /** A line `_generate_summary` may list: non-blank and accepted by detection. */
  predicate RelevantParagraph(p: string)
  {
    NonBlank(p) && IsMentalHealthContent(p)
  }

  /** The first three (or fewer) non-blank lines that `IsMentalHealthContent` accepts, in order. */
  function SummaryParagraphs(text: string): (ps: seq<string>)
    ensures |ps| <= 3
    ensures forall p :: p in ps ==> p in SplitLines(text) && NonBlank(p) && IsMentalHealthContent(p)
    ensures |ps| < 3 ==> forall p :: p in SplitLines(text) && NonBlank(p) && IsMentalHealthContent(p) ==> p in ps
    ensures IsSubsequence(ps, SplitLines(text))
    ensures exists j :: 0 <= j <= |SplitLines(text)| && ps == Filter(SplitLines(text)[..j], RelevantParagraph)
                        && (|ps| < 3 ==> j == |SplitLines(text)|)
  {
    var paragraphs := Filter(SplitLines(text), NonBlank);
    var relevant := Filter(paragraphs, IsMentalHealthContent);
    FilterFilter(SplitLines(text), NonBlank, IsMentalHealthContent, RelevantParagraph);
    TakeFilterIsPrefixFilter(SplitLines(text), RelevantParagraph, 3);
    SubsequenceTransitive(relevant, paragraphs, SplitLines(text));
    SubsequencePrefix(relevant, SplitLines(text), Min(3, |relevant|));
    Take(relevant, 3)
  }

  /** Each listed paragraph cut to `ParagraphLimit` characters. */
  function ClipParagraphs(ps: seq<string>): (r: seq<string>)
    ensures |r| == |ps|
    ensures forall i :: 0 <= i < |ps| ==> r[i] == Clip(ps[i], ParagraphLimit)
  {
    seq(|ps|, i requires 0 <= i < |ps| => Clip(ps[i], ParagraphLimit))
  }

  function SummaryListing(ps: seq<string>): (r: string)
    ensures r != NoContentSummary
  {
    var r := SummaryHeader + ("\n\n" + ("- " + Join(ClipParagraphs(ps), "\n- ")) + "\n\n" + SummaryFooter);
    assert |r| > |NoContentSummary|;
    r
  }

  /** `_generate_summary`. */
  function GenerateSummary(text: string): (r: string)
    ensures r == NoContentSummary <==>
              forall p :: p in SplitLines(text) ==> IsBlank(p) || !IsMentalHealthContent(p)
    ensures r != NoContentSummary ==> r == SummaryListing(SummaryParagraphs(text))
  {
    var ps := SummaryParagraphs(text);
    if ps == [] then NoContentSummary
    else
      assert ps[0] in ps;
      SummaryListing(ps)
  }

  // ----- extraction -----

  datatype PageAnalysis = PageAnalysis(mentalHealthPages: map<nat, string>, highlightedContent: string)

  /** The dictionary `extract_text_from_pdf` returns. */
  datatype DocInfo =
    | Success(fullText: string, analysis: Option<PageAnalysis>, summary: string)
    | Failure(error: string)
  {
    function Status(): string
    {
      if Success? then "success" else "error"
    }

    /** The keys present in the Python dictionary. */
    function Keys(): (keys: set<string>)
      ensures "status" in keys
      ensures "error" in keys <==> Failure?
      ensures "mental_health_pages" in keys <==> "highlighted_content" in keys
    {
      match this
      case Failure(_) => {"status", "error"}
      case Success(_, None, _) => {"status", "full_text", "summary"}
      case Success(_, Some(_), _) =>
        {"status", "full_text", "mental_health_pages", "highlighted_content", "summary"}
    }
  }

  const PdfErrorPrefix := "Gagal memproses PDF: "

  /** What one page adds to the full text: nothing when it has no text. */
  function PageChunk(page: string): string
  {
    if page == "" then "" else page + "\n"
  }

  /** `full_text`: the chunks of the pages, in page order. */
  function FullText(pages: seq<string>): string
  {
    if pages == [] then "" else PageChunk(pages[0]) + FullText(pages[1..])
  }

  /** `if page_text:` and `_is_mental_health_content(page_text)`. */
  predicate IsRelevantPage(page: string)
  {
    page != "" && IsMentalHealthContent(page)
  }

  /** The dictionary a page loop fills: the 1-based number of every page `relevant`
      accepts, with `summary` of that page. */
  function NumberedPages(pages: seq<string>, relevant: string -> bool, summary: string -> string): map<nat, string>
  {
    if pages == [] then map[]
    else
      var before := NumberedPages(pages[..|pages| - 1], relevant, summary);
      var page := pages[|pages| - 1];
      if relevant(page) then before[|pages| := summary(page)] else before
  }

  /** The `mental_health_pages` dictionary of `extract_text_from_pdf`. */
  function RelevantPages(pages: seq<string>): map<nat, string>
  {
    NumberedPages(pages, IsRelevantPage, SummarizePage)
  }

  /** What `extract_text_from_pdf` returns for the two parsers' outcomes. */
  function DocumentInfo(primary: Outcome<seq<string>>, fallback: Outcome<seq<string>>): DocInfo
  {
    match primary
    case Returned(pages) =>
      var fullText := FullText(pages);
      var relevant := RelevantPages(pages);
      Success(fullText,
              if relevant != map[] then Some(PageAnalysis(relevant, HighlightAll(fullText, MentalHealthKeywords)))
              else None,
              GenerateSummary(fullText))
    case Raised(_) =>
      match fallback
      case Returned(pages) => Success(FullText(pages), None, GenerateSummary(FullText(pages)))
      case Raised(e) => Failure(PdfErrorPrefix + e)
  }

  /** The fallback parser's loop: the text of every non-empty page followed by a newline. */
  method JoinPageTexts(pages: seq<string>) returns (fullText: string)
    ensures fullText == FullText(pages)
  {
    fullText := "";
    for i := 0 to |pages|
      invariant fullText == FullText(pages[..i])
    {
      FullTextStep(pages, i);
      if pages[i] != "" {
        fullText := fullText + pages[i] + "\n";
      }
    }
    assert pages[..|pages|] == pages;
  }

  /** The primary parser's page loop: it grows the full text and fills the relevant-page
      dictionary, keyed by 1-based page number, in one pass. */
  method ScanPages(pages: seq<string>) returns (fullText: string, mentalHealthPages: map<nat, string>)
    ensures fullText == FullText(pages)
    ensures mentalHealthPages == RelevantPages(pages)
  {
    fullText := "";
    mentalHealthPages := map[];
    for i := 0 to |pages|
      invariant fullText == FullText(pages[..i])
      invariant mentalHealthPages == RelevantPages(pages[..i])
    {
      var pageText := pages[i];
      FullTextStep(pages, i);
      RelevantPagesStep(pages, i);
      if pageText != "" {
        fullText := fullText + pageText + "\n";
        if IsMentalHealthContent(pageText) {
          mentalHealthPages := mentalHealthPages[i + 1 := SummarizePage(pageText)];
        }
      }
    }
    assert pages[..|pages|] == pages;
  }

  /** `extract_text_from_pdf`: the primary parser's result; if that parser raises, the
      fallback parser's. */
  method ExtractTextFromPdf(primary: Outcome<seq<string>>, fallback: Outcome<seq<string>>)
    returns (info: DocInfo)
    ensures info == DocumentInfo(primary, fallback)
  {
    match primary {
      case Returned(pages) =>
        var fullText, mentalHealthPages := ScanPages(pages);
        if mentalHealthPages != map[] {
          var highlighted := HighlightKeywords(fullText, MentalHealthKeywords);
          info := Success(fullText, Some(PageAnalysis(mentalHealthPages, highlighted)), GenerateSummary(fullText));
        } else {
          info := Success(fullText, None, GenerateSummary(fullText));
        }
      case Raised(_) =>
        match fallback {
          case Returned(pages) =>
            var fullText := JoinPageTexts(pages);
            info := Success(fullText, None, GenerateSummary(fullText));
          case Raised(e) =>
            info := Failure(PdfErrorPrefix + e);
        }
    }
  }

  // ----- properties of the result -----

  /** The full text is built page by page: it distributes over concatenation of page lists. */
  lemma {:induction false} FullTextAppend(a: seq<string>, b: seq<string>)
    ensures FullText(a + b) == FullText(a) + FullText(b)
  {
    if a == [] {
      assert a + b == b;
    } else {
      assert (a + b)[0] == a[0];
      assert (a + b)[1..] == a[1..] + b;
      FullTextAppend(a[1..], b);
      AppendAssociative(PageChunk(a[0]), FullText(a[1..]), FullText(b));
    }
  }

  /** An empty page contributes nothing; a non-empty page contributes its text and a newline. */
  lemma FullTextOfOnePage(page: string)
    ensures FullText([page]) == if page == "" then "" else page + "\n"
  {
    assert [page][1..] == [];
  }

  /** One more page of the loop adds that page's chunk. */
  lemma FullTextStep(pages: seq<string>, i: nat)
    requires i < |pages|
    ensures FullText(pages[..i + 1]) == FullText(pages[..i]) + PageChunk(pages[i])
  {
    assert pages[..i + 1] == pages[..i] + [pages[i]];
    FullTextAppend(pages[..i], [pages[i]]);
    FullTextOfOnePage(pages[i]);
  }

  /** One more page of the loop adds that page's entry when it is relevant. */
  lemma RelevantPagesStep(pages: seq<string>, i: nat)
    requires i < |pages|
    ensures RelevantPages(pages[..i + 1]) ==
              if IsRelevantPage(pages[i]) then RelevantPages(pages[..i])[i + 1 := SummarizePage(pages[i])]
              else RelevantPages(pages[..i])
  {
    assert pages[..i + 1][..i] == pages[..i];
  }

  /** The keys of a page dictionary are exactly the numbers of the accepted pages, and
      each maps to the summary of its own page. */
  lemma {:induction false} NumberedPagesKeys(pages: seq<string>, relevant: string -> bool, summary: string -> string)
    ensures forall n :: n in NumberedPages(pages, relevant, summary) <==> 1 <= n <= |pages| && relevant(pages[n - 1])
    ensures forall n :: n in NumberedPages(pages, relevant, summary) ==>
              NumberedPages(pages, relevant, summary)[n] == summary(pages[n - 1])
  {
    if pages != [] {
      var init := pages[..|pages| - 1];
      NumberedPagesKeys(init, relevant, summary);
      forall n
        ensures n in NumberedPages(pages, relevant, summary) <==> 1 <= n <= |pages| && relevant(pages[n - 1])
        ensures n in NumberedPages(pages, relevant, summary) ==>
                  NumberedPages(pages, relevant, summary)[n] == summary(pages[n - 1])
      {
        if 1 <= n < |pages| {
          assert init[n - 1] == pages[n - 1];
        }
      }
    }
  }

  /** The keys of `mental_health_pages` are exactly the numbers of the relevant pages, and
      each maps to the summary of its own page. */
  lemma RelevantPagesKeys(pages: seq<string>)
    ensures forall n :: n in RelevantPages(pages) <==> 1 <= n <= |pages| && IsRelevantPage(pages[n - 1])
    ensures forall n :: n in RelevantPages(pages) ==> RelevantPages(pages)[n] == SummarizePage(pages[n - 1])
  {
    NumberedPagesKeys(pages, IsRelevantPage, SummarizePage);
  }

  /** `mental_health_pages` and `highlighted_content` are present exactly when some page
      has text that `IsMentalHealthContent` accepts. */
  lemma AnalysisPresentIffRelevantPage(pages: seq<string>, fallback: Outcome<seq<string>>)
    ensures DocumentInfo(Returned(pages), fallback).analysis.Some? <==>
              exists i :: 0 <= i < |pages| && IsRelevantPage(pages[i])
  {
    RelevantPagesKeys(pages);
    var relevant := RelevantPages(pages);
    if exists i :: 0 <= i < |pages| && IsRelevantPage(pages[i]) {
      var i :| 0 <= i < |pages| && IsRelevantPage(pages[i]);
      assert i + 1 in relevant;
    }
  }

  /** The result is an error, with an 'error' key, only when both parsers raise; every
      success has status 'success', no 'error' key, and a summary of its own full text. */
  lemma ErrorOnlyWhenBothParsersFail(primary: Outcome<seq<string>>, fallback: Outcome<seq<string>>)
    ensures var info := DocumentInfo(primary, fallback);
            (info.Failure? <==> primary.Raised? && fallback.Raised?)
            && (info.Failure? ==> info.Status() == "error" && "error" in info.Keys())
            && (info.Success? ==> info.Status() == "success" && "error" !in info.Keys()
                                  && info.summary == GenerateSummary(info.fullText))
            && (primary.Raised? ==> info.Failure? || info.analysis.None?)
  {
  }
}
