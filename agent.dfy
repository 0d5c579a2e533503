/** The chat application: answering one question from the uploaded document, the vector
    index or a web search, and the session's message list and document fields as the
    page script changes them. */
module Agent {
  import opened Text
  import opened Oracle
  import Processor

  // ----- web search answer -----

  /** `num_results` and `lang` of the web search. */
  const SearchResultCount: nat := 10
  const SearchLanguage := "id"

  const SearchErrorPrefix := "Terjadi kesalahan saat " + "melakukan pencarian Google: "

  const SearchDisclaimer :=
    "**Penting**: Harap evaluasi " + "sendiri kredibilitas dan " + "keakuratan informasi dari " + "situs-situs tersebut."

  const NotFoundPrefix := "Maaf, saya tidak dapat menemukan " + "hasil yang relevan di Google " + "untuk '"

  function SearchNotFound(query: string): string
  {
    NotFoundPrefix + query + "'."
  }

  /** The first line of a web answer: how many results follow, and for which query. */
  function SearchHeader(query: string, count: nat): string
  {
    "Tentu, berikut adalah " + NatToString(count) + " hasil pencarian " + "teratas untuk '" + query + "':"
  }

  /** `f"{i+1}. {url}"` for every result, in order. */
  function NumberedUrls(urls: seq<string>): (lines: seq<string>)
    ensures |lines| == |urls|
    ensures forall i :: 0 <= i < |urls| ==> lines[i] == NatToString(i + 1) + ". " + urls[i]
  {
    seq(|urls|, i requires 0 <= i < |urls| => NatToString(i + 1) + ". " + urls[i])
  }

  /** `get_google_search_results`: the answer built from what the search returned, or the
      error text when it raised. */
  function GoogleSearchResults(query: string, results: Outcome<seq<string>>): (answer: string)
    ensures results.Raised? ==> answer == SearchErrorPrefix + results.message
    ensures results == Returned([]) ==> answer == SearchNotFound(query)
  {
    match results
    case Raised(e) => SearchErrorPrefix + e
    case Returned(urls) =>
      if urls == [] then SearchNotFound(query)
      else SearchHeader(query, |urls|) + "\n" + Join(NumberedUrls(urls), "\n") + "\n\n" + SearchDisclaimer
  }

  /** A search that raises is answered, never re-raised: the answer is the error text
      followed by the exception's message. */
  lemma SearchErrorNamesMessage(query: string, e: string)
    ensures var r := GoogleSearchResults(query, Raised(e));
            r[..|SearchErrorPrefix|] == SearchErrorPrefix && Contains(r, e)
  {
    var r := GoogleSearchResults(query, Raised(e));
    assert r[|SearchErrorPrefix|..|SearchErrorPrefix| + |e|] == e;
    assert OccursAt(r, e, |SearchErrorPrefix|);
  }

  /** With no result, the answer says so and repeats the query. */
  lemma NotFoundNamesQuery(query: string)
    ensures var r := GoogleSearchResults(query, Returned([]));
            r == SearchNotFound(query) && Contains(r, query)
  {
    var prefix := NotFoundPrefix;
    var r := SearchNotFound(query);
    assert r[|prefix|..|prefix| + |query|] == query;
    assert OccursAt(r, query, |prefix|);
  }

  /** The lines of a web answer with results, in order. */
  function SearchAnswerLayout(query: string, urls: seq<string>): seq<string>
  {
    [SearchHeader(query, |urls|)] + NumberedUrls(urls) + ["", SearchDisclaimer]
  }

  /** With results, the answer is a header stating their number, then the line `i. url`
      for each result i = 1..n in order, then a blank line and the disclaimer. */
  lemma SearchAnswerLines(query: string, urls: seq<string>)
    requires |urls| >= 1
    requires '\n' !in query
    requires forall i :: 0 <= i < |urls| ==> '\n' !in urls[i]
    ensures SplitLines(GoogleSearchResults(query, Returned(urls))) == SearchAnswerLayout(query, urls)
  {
    var lines := SearchAnswerLayout(query, urls);
    SearchAnswerIsJoin(query, urls);
    forall k | 0 <= k < |lines| ensures '\n' !in lines[k] {
      LayoutLineHasNoNewline(query, urls, k);
    }
    SplitJoinLines(lines);
  }

  lemma SearchAnswerIsJoin(query: string, urls: seq<string>)
    requires |urls| >= 1
    ensures GoogleSearchResults(query, Returned(urls)) == Join(SearchAnswerLayout(query, urls), "\n")
  {
    var header, numbered := SearchHeader(query, |urls|), NumberedUrls(urls);
    var tail := numbered + ["", SearchDisclaimer];
    JoinAppend([header], tail, "\n");
    JoinAppend(numbered, ["", SearchDisclaimer], "\n");
    assert [header] + tail == SearchAnswerLayout(query, urls);
    assert Join(["", SearchDisclaimer], "\n") == "" + "\n" + SearchDisclaimer;
  }

  lemma LayoutLineHasNoNewline(query: string, urls: seq<string>, k: int)
    requires '\n' !in query
    requires forall i :: 0 <= i < |urls| ==> '\n' !in urls[i]
    requires 0 <= k < |SearchAnswerLayout(query, urls)|
    ensures '\n' !in SearchAnswerLayout(query, urls)[k]
  {
    var lines := SearchAnswerLayout(query, urls);
    if k == 0 {
      DigitsHaveNoNewline(NatToString(|urls|));
    } else if k <= |urls| {
      assert lines[k] == NumberedUrls(urls)[k - 1];
      DigitsHaveNoNewline(NatToString(k));
    } else if k == |urls| + 1 {
      assert lines[k] == "";
    } else {
      assert lines[k] == SearchDisclaimer;
      NoNewlineInDisclaimer();
    }
  }

  lemma DigitsHaveNoNewline(s: string)
    requires forall i :: 0 <= i < |s| ==> IsDigit(s[i])
    ensures '\n' !in s
  {
  }

  lemma NoNewlineInDisclaimer()
    ensures '\n' !in SearchDisclaimer
  {
  }

  // ----- choosing where the answer comes from -----

  /** How many passages the vector index is asked for. */
  const IndexHitCount: nat := 3

  const AgentErrorPrefix := "❌ Terjadi kesalahan: "

  /** The prompts are indented f-strings: every line after the first starts with 12 spaces. */
  const PromptIndent := "            "
  const PromptRole := "Kamu adalah asisten " + "kesehatan mental. "
  const PromptTask := "jawab pertanyaan " + "pengguna:\n\n"

  function DocumentPrompt(document: string, question: string): string
  {
    "\n" + PromptIndent + PromptRole + "Berdasarkan dokumen berikut, " + PromptTask
    + PromptIndent + "--- DOKUMEN ---\n" + PromptIndent + document + "\n"
    + PromptIndent + "--- AKHIR DOKUMEN ---\n\n"
    + PromptIndent + "Pertanyaan: " + question + "\n" + PromptIndent
  }

  function DatabasePrompt(context: string, question: string): string
  {
    "\n" + PromptIndent + PromptRole + "Berdasarkan data berikut, " + PromptTask
    + PromptIndent + "--- DATABASE ---\n" + PromptIndent + context + "\n"
    + PromptIndent + "--- AKHIR DATABASE ---\n\n"
    + PromptIndent + "Pertanyaan: " + question + "\n" + PromptIndent
  }

  /** The answer text for what the chat model did: its content, or the error text. */
  function ModelAnswer(model: Outcome<string>): string
  {
    match model
    case Returned(content) => content
    case Raised(e) => AgentErrorPrefix + e
  }

  /** `run_agent`.  `indexHits` are the page contents the index returned for the question
      (the index yields none when it fails), `model` what the chat model did when invoked,
      and `web` what the web search did. */
  function RunAgent(userInput: string, pdfContent: Option<string>, indexHits: seq<string>,
                    model: Outcome<string>, web: Outcome<seq<string>>): (r: Reply)
    ensures Truthy(pdfContent) ==>
              r.calls == [ModelInvoke(DocumentPrompt(pdfContent.value, userInput))]
              && r.text == ModelAnswer(model)
    ensures !Truthy(pdfContent) ==>
              |r.calls| == 2 && r.calls[0] == IndexSearch(userInput, IndexHitCount)
    ensures !Truthy(pdfContent) && NonBlank(Join(indexHits, "\n")) ==>
              r.calls[1] == ModelInvoke(DatabasePrompt(Join(indexHits, "\n"), userInput))
              && r.text == ModelAnswer(model)
    ensures !Truthy(pdfContent) && IsBlank(Join(indexHits, "\n")) ==>
              r.calls[1] == WebSearch(userInput, SearchResultCount, SearchLanguage)
              && r.text == GoogleSearchResults(userInput, web)
  {
    if Truthy(pdfContent) then
      Reply(ModelAnswer(model), [ModelInvoke(DocumentPrompt(pdfContent.value, userInput))])
    else
      var context := Join(indexHits, "\n");
      var searched := [IndexSearch(userInput, IndexHitCount)];
      if NonBlank(context) then
        Reply(ModelAnswer(model), searched + [ModelInvoke(DatabasePrompt(context, userInput))])
      else
        Reply(GoogleSearchResults(userInput, web),
              searched + [WebSearch(userInput, SearchResultCount, SearchLanguage)])
  }

  /** The web is searched only when no document text is loaded and the retrieved context
      is blank, and then always. */
  lemma WebSearchOnlyAsLastResort(userInput: string, pdfContent: Option<string>, indexHits: seq<string>,
                                  model: Outcome<string>, web: Outcome<seq<string>>)
    ensures var r := RunAgent(userInput, pdfContent, indexHits, model, web);
            (exists k :: 0 <= k < |r.calls| && r.calls[k].WebSearch?) <==>
              !Truthy(pdfContent) && IsBlank(Join(indexHits, "\n"))
  {
    var r := RunAgent(userInput, pdfContent, indexHits, model, web);
    if !Truthy(pdfContent) && IsBlank(Join(indexHits, "\n")) {
      assert r.calls[1].WebSearch?;
    } else if Truthy(pdfContent) {
      assert |r.calls| == 1 && r.calls[0].ModelInvoke?;
    } else {
      assert |r.calls| == 2 && r.calls[0].IndexSearch? && r.calls[1].ModelInvoke?;
    }
  }

  /** An uploaded document whose pages held no text answers nothing by itself: the
      question goes to the index as if no document had been uploaded. */
  lemma EmptyDocumentIsNoDocument(userInput: string, indexHits: seq<string>,
                                  model: Outcome<string>, web: Outcome<seq<string>>)
    ensures RunAgent(userInput, Some(""), indexHits, model, web)
         == RunAgent(userInput, None, indexHits, model, web)
  {
  }

  /** The model's error never escapes: whichever prompt was used, a raised call yields the
      prefixed error text as the answer. */
  lemma ModelErrorBecomesAnswer(userInput: string, pdfContent: Option<string>, indexHits: seq<string>,
                                e: string, web: Outcome<seq<string>>)
    requires Truthy(pdfContent) || NonBlank(Join(indexHits, "\n"))
    ensures RunAgent(userInput, pdfContent, indexHits, Raised(e), web).text == AgentErrorPrefix + e
  {
  }

  // ----- the session -----

  datatype Role = User | Assistant | System

  datatype Message = Message(role: Role, content: string)

  const InitialGreeting :=
    "Halo! Saya adalah Asisten " + "Kesehatan Mental AI Anda.\n\n"
    + "**Apa yang bisa saya bantu?**\n\n"
    + "Anda bisa bertanya tentang data " + "kesehatan mental umum dari " + "database kami, seperti:\n"
    + "* `Apa statistik depresi " + "di Indonesia?`\n"
    + "* `Bagaimana cara mengatasi " + "kecemasan?`\n"
    + "* `Berikan rekomendasi untuk " + "meningkatkan kesehatan mental.`\n\n"
    + "**Anda juga bisa mengunggah " + "dokumen kesehatan mental (PDF) " + "di sidebar.** Setelah diunggah, "
    + "Anda bisa langsung bertanya " + "tentang isinya, misalnya:\n"
    + "* `Apa rekomendasi dari " + "dokumen ini?`\n"
    + "* `Sebutkan semua terapi yang " + "dianjurkan dalam file tersebut.`\n"

  const ResetNotice := "Riwayat chat dan dokumen " + "telah dihapus. Silakan mulai " + "percakapan baru."

  function UploadNotice(fileName: string): string
  {
    "Dokumen '" + fileName + "' telah diunggah. Anda " + "sekarang bisa bertanya " + "mengenai isinya."
  }

  /** The session fields the page script keeps between reruns. */
  class Session {
    var messages: seq<Message>
    var pdfContent: Option<string>
    var processedFileName: Option<string>

    /** A new session: the greeting, and no document. */
    constructor ()
      ensures messages == [Message(Assistant, InitialGreeting)]
      ensures pdfContent == None && processedFileName == None
    {
      messages := [Message(Assistant, InitialGreeting)];
      pdfContent := None;
      processedFileName := None;
    }

    /** The "Hapus Riwayat & Dokumen" button. */
    method Reset()
      modifies this
      ensures messages == [Message(Assistant, ResetNotice)]
      ensures pdfContent == None && processedFileName == None
    {
      messages := [Message(Assistant, ResetNotice)];
      pdfContent := None;
      processedFileName := None;
    }

    /** A PDF named `fileName` is in the uploader; `primary` and `fallback` are what the two
        parsers did with it.  A file already processed under that name is not read again. */
    method Upload(fileName: string, primary: Outcome<seq<string>>, fallback: Outcome<seq<string>>)
      returns (processed: bool)
      modifies this
      ensures processed <==> old(processedFileName) != Some(fileName)
      ensures !processed ==> messages == old(messages) && pdfContent == old(pdfContent)
                             && processedFileName == old(processedFileName)
      ensures processed && Processor.DocumentInfo(primary, fallback).Failure? ==>
                messages == old(messages) && pdfContent == old(pdfContent) && processedFileName == None
      ensures processed && Processor.DocumentInfo(primary, fallback).Success? ==>
                pdfContent == Some(Processor.DocumentInfo(primary, fallback).fullText)
                && processedFileName == Some(fileName)
                && messages == old(messages) + [Message(System, UploadNotice(fileName))]
    {
      processed := processedFileName != Some(fileName);
      if processed {
        var info := Processor.ExtractTextFromPdf(primary, fallback);
        if info.Failure? {
          processedFileName := None;
        } else {
          pdfContent := Some(info.fullText);
          processedFileName := Some(fileName);
          messages := messages + [Message(System, UploadNotice(fileName))];
        }
      }
    }

    /** One question typed into the chat box.  `raised` says that answering it raised past
        `run_agent` (setting up the model client, or showing the answer). */
    method ChatTurn(userInput: string, indexHits: seq<string>, model: Outcome<string>,
                    web: Outcome<seq<string>>, raised: bool)
      modifies this
      ensures pdfContent == old(pdfContent) && processedFileName == old(processedFileName)
      ensures userInput == "" || raised ==> messages == old(messages)
      ensures userInput != "" && !raised ==>
                messages == old(messages)
                  + [Message(User, userInput),
                     Message(Assistant, RunAgent(userInput, old(pdfContent), indexHits, model, web).text)]
    {
      if userInput != "" {
        ghost var before := messages;
        messages := messages + [Message(User, userInput)];
        if raised {
          messages := messages[..|messages| - 1];
          assert messages == before;
        } else {
          var reply := RunAgent(userInput, pdfContent, indexHits, model, web);
          messages := messages + [Message(Assistant, reply.text)];
          assert messages == before + [Message(User, userInput), Message(Assistant, reply.text)];
        }
      }
    }
  }
}
