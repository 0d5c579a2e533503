# Mental-health chatbot core, modelled in Dafny

This project models the deterministic logic of a Streamlit chatbot that answers
mental-health questions in Indonesian. It covers five parts:

- **Document processing** (`Processor`, from `mental_health_processor.py`):
  - detection of mental-health keywords in a text;
  - highlighting of keywords as `**KEYWORD**`;
  - sentence-level page summaries;
  - a paragraph-level document summary;
  - the result dictionary that `extract_text_from_pdf` builds from the pages of a PDF. The primary parser (pdfplumber) is tried first and the fallback (PyPDF2) second.
- **Streaming display** (`Streaming`, from `callback_handler.py`): the `GeminiCallbackHandler` object. It buffers model tokens and redraws one display slot, throttled by a delay that shrinks as tokens accumulate. It also renders a final answer that is never blank.
- **The application script** (`Agent`, from `main.py`):
  - `get_google_search_results`, which renders web results as a numbered list;
  - `run_agent`, which answers from the uploaded document first, then from the vector index, then from a web search, and turns model errors into answer text;
  - the session state the page script keeps: the message list, the document text and the processed file name. It changes on start, reset, upload and chat turns.
- **The professional-help tool** (`PsychologistTools`, from `tools/pscyologist_tools.py`): index passages as bullets, the default list of five services, or a failure notice.
- **The translation service** (`TranslateTools`, from `tools/translate_tools.py`): up to three attempts at the outside translator. The first success answers; otherwise a fixed failure text is returned.

Outside services are inputs of the model, and the `Oracle` module holds their shapes:
- A foreign call is an `Outcome`: the value it returned, or the message of the exception it raised.
- Requests sent to an outside service (index search, model call, web search, translation) are recorded in order in a `Reply`, beside the returned text. Contracts can therefore state which services are asked, with which arguments, and in which order.

The `Text` module models the Python string built-ins the core relies on:
- `lower`/`upper`, `isspace`/`strip`, `in`, `join`, `split('\n')`;
- slicing with `...`, and decimal formatting of integers.

Clock readings are integer milliseconds passed in as parameters.

Long message texts are written as sums of short string literals. The text is the same as
in the source; short literals keep the verifier's work on them small.

## Model

| member | source | states |
|---|---|---|
| Processor.AnyKeywordIn | mental_health_processor.py:80 | `any(k in text for k in keywords)` holds iff some keyword of the list occurs in the text exactly as written |
| Processor.IsMentalHealthContent | mental_health_processor.py:77-80 | detection holds iff some listed keyword, as written, is a substring of the lower-cased text |
| Processor.KeywordWithUppercaseNeverMatches | mental_health_processor.py:79-80 | a keyword containing an upper-case letter never occurs in lower-cased text |
| Processor.DetectionIgnoresDsm5 | mental_health_processor.py:12-16 | 'DSM-5' never occurs in lower-cased text, so detection holds iff one of the twelve other keywords occurs in the lower-cased text |
| Processor.ReplaceIgnoreCase | mental_health_processor.py:86-87 | a case-insensitive substitution leaves text in which the keyword does not occur (in any letter case) unchanged |
| Processor.HighlightKeywords | mental_health_processor.py:82-88 | the highlighting loop yields the left fold over the keyword list, in list order, of "replace every case-insensitive occurrence by `**` + upper(keyword) + `**`" |
| Processor.HighlightWithoutKeywords | mental_health_processor.py:82-88 | text in which no keyword occurs in any letter case comes back unchanged from highlighting |
| Processor.SkipSpaces | mental_health_processor.py:92 | the greedy `\s+` consumes exactly the leading whitespace: the rest is a suffix that does not start with whitespace |
| Processor.SplitSentencesAfter | mental_health_processor.py:92 | the sentence split always yields at least one piece, as `re.split` does |
| Text.TakeFilterIsPrefixFilter | mental_health_processor.py:97 | the first n elements a list comprehension keeps are exactly what it keeps of some prefix of the list, and that prefix is the whole list when fewer than n are kept |
| Processor.RelevantSentences | mental_health_processor.py:93-97 | the kept sentences are exactly the keyword-mentioning sentences of some prefix of the page, repeats included and in page order, and the prefix is the whole page when fewer than three are kept: the first ≤3 relevant sentences |
| Processor.SummarizePage | mental_health_processor.py:90-97 | the page summary is empty iff no sentence mentions a keyword; otherwise it is the first ≤3 relevant sentences joined by spaces, followed by `...` |
| Text.FilterFilter | mental_health_processor.py:101-105 | two list comprehensions in a row keep exactly what both conditions accept |
| Processor.SummaryParagraphs | mental_health_processor.py:101-105 | the kept lines are exactly the non-blank lines accepted by detection within some prefix of the text's lines, repeats included and in order, and the prefix is all the lines when fewer than three are kept: the first ≤3 such lines |
| Processor.ClipParagraphs | mental_health_processor.py:112-114 | each listed paragraph is cut to 150 characters plus `...` when longer, and is kept whole otherwise |
| Text.Clip | mental_health_processor.py:113 | a string of at most `limit` characters is returned unchanged; a longer one becomes its first `limit` characters followed by `...` |
| Processor.SummaryListing | mental_health_processor.py:110-117 | the listing summary never equals the "no content" message |
| Processor.GenerateSummary | mental_health_processor.py:99-117 | the summary is the fixed "tidak memiliki konten" message iff no line is both non-blank and relevant; otherwise it lists the relevant lines |
| Processor.DocInfo.Keys | mental_health_processor.py:38-75 | every result has a 'status' key; it has an 'error' key iff it is an error; 'mental_health_pages' and 'highlighted_content' are present together or not at all |
| Processor.FullTextAppend | mental_health_processor.py:26-29 | the full text of two page lists in sequence is the full text of the first followed by that of the second |
| Processor.FullTextOfOnePage | mental_health_processor.py:28-29 | an empty page contributes nothing; a page with text contributes that text and a newline |
| Processor.FullTextStep | mental_health_processor.py:26-29 | each page of the loop appends exactly its own chunk to the full text |
| Processor.RelevantPagesStep | mental_health_processor.py:32-33 | each page of the loop adds the entry (page number, page summary) exactly when the page has text that detection accepts |
| Processor.NumberedPagesKeys | mental_health_processor.py:26-33 | the dictionary a page loop fills has as keys exactly the 1-based numbers of the accepted pages, each mapped to the summary of its own page |
| Processor.RelevantPagesKeys | mental_health_processor.py:26-33 | the keys of `mental_health_pages` are exactly the 1-based numbers of the non-empty relevant pages, each mapped to `_summarize_page` of that page |
| Processor.JoinPageTexts | mental_health_processor.py:58-63 | the fallback parser's loop produces the full text: every non-empty page, in order, each followed by a newline |
| Processor.ScanPages | mental_health_processor.py:23-33 | the primary parser's loop produces both the full text and the relevant-page dictionary |
| Processor.ExtractTextFromPdf | mental_health_processor.py:18-75 | the extraction method returns the document-info value defined from the two parser outcomes |
| Processor.AnalysisPresentIffRelevantPage | mental_health_processor.py:36-50 | `mental_health_pages` and `highlighted_content` are in the result iff some page has text that detection accepts |
| Processor.ErrorOnlyWhenBothParsersFail | mental_health_processor.py:52-75 | the result is an error, with status 'error' and an 'error' key, iff both parsers raise; every success has status 'success', no 'error' key, and the summary of its own full text; a fallback success carries no page analysis |
| Streaming.DynamicDelay | callback_handler.py:31-34 | the delay is at least the rate and at least 100 ms and at most max(rate, 500 ms); it is at most max(rate, 490 ms) once a token has been counted, and exactly max(rate, 100 ms) from 40 tokens on |
| Streaming.DelayNonIncreasing | callback_handler.py:31-34 | the delay never grows as the token count grows |
| Streaming.DisplayText | callback_handler.py:49 | the shown text is the response itself up to 200 characters, and otherwise its first 200 characters followed by `...`, so never more than 203 characters |
| Streaming.Initial | callback_handler.py:8-14 | a new handler has an empty response, a token count of 0, both clock fields at the creation time, and the given rate |
| Streaming.NewTokenEffect | callback_handler.py:22-39 | a token is appended and counted once whether or not a redraw happens; a redraw happens iff the elapsed time reaches the delay, and only then do both clock fields move to the current time |
| Streaming.EndNeverShowsBlank | callback_handler.py:41-45 | the final response is the fixed "Maaf…" message iff the buffered one was blank, and is otherwise unchanged; it is never blank; exactly one final rendering of it is added |
| Streaming.FallbackIsNonBlank | callback_handler.py:44 | the fallback message is not blank |
| Streaming.FeedAppendsEveryToken | callback_handler.py:24-25 | after a stream of tokens the response is the old one followed by every token in order, and the count has grown by the number of tokens |
| Streaming.FeedOnlyAddsProgress | callback_handler.py:36-37 | streaming tokens keeps every earlier frame and adds only intermediate renderings after them |
| Streaming.FeedRedrawSpacing | callback_handler.py:27-39 | successive intermediate redraws are at least max(rate, 100 ms) apart, so n redraws advance `last_update` by at least n times that |
| Streaming.BurstTriggersNoRedraw | callback_handler.py:27-39 | tokens that arrive within max(rate, 100 ms) of the last redraw cause no redraw and leave both clock fields unchanged |
| Streaming.FeedKeepsClocksTogether | callback_handler.py:38-39 | `last_update` and `last_token_time` are only ever set together, so they stay equal |
| Streaming.GeminiCallbackHandler.constructor | callback_handler.py:8-14 | the new object's fields are the initial state |
| Streaming.GeminiCallbackHandler.OnLlmStart | callback_handler.py:16-20 | only the loading notice is drawn; nothing else changes |
| Streaming.GeminiCallbackHandler.OnLlmNewToken | callback_handler.py:22-39 | the object's new fields are the state after one token at the given clock reading |
| Streaming.GeminiCallbackHandler.OnLlmEnd | callback_handler.py:41-45 | the object's new fields are the state after the end of the response |
| Streaming.GeminiCallbackHandler.UpdateDisplay | callback_handler.py:47-66 | one rendering of the current response, final or intermediate, is drawn, and the response is not changed |
| Agent.NumberedUrls | main.py:42 | one line `i. url` per result, numbered from 1 in result order |
| Text.ParseNatToString | main.py:44 | the decimal count written in the header reads back as the number of results |
| Agent.GoogleSearchResults | main.py:35-50 | the function never raises: a search that raised gives the error text followed by the message, and no results give the not-found message |
| Agent.SearchErrorNamesMessage | main.py:49-50 | the answer to a search that raised starts with "Terjadi kesalahan saat melakukan pencarian Google: " and contains the exception's message |
| Agent.NotFoundNamesQuery | main.py:38-40 | with no result, the answer is the "tidak dapat menemukan" message and contains the query |
| Agent.SearchAnswerIsJoin | main.py:42-47 | with results, the answer is the header, the numbered lines, a blank line and the disclaimer, joined by newlines |
| Agent.SearchAnswerLines | main.py:42-47 | with n ≥ 1 results (and no newline in the query or the URLs), the answer splits into exactly: a header stating n, then `i. url_i` for i = 1..n in order, then a blank line and the disclaimer |
| Agent.RunAgent | main.py:52-94 | with document text, only the model is called, with the document prompt; otherwise the index is searched once with k = 3, then the database prompt is used iff the joined context is non-blank, and a web search (10 results, language 'id') answers otherwise |
| Agent.WebSearchOnlyAsLastResort | main.py:63-91 | the web is searched iff there is no document text and the retrieved context is blank |
| Agent.EmptyDocumentIsNoDocument | main.py:63 | an empty document text is treated exactly like no document |
| Agent.ModelErrorBecomesAnswer | main.py:93-94 | when the model raises, the answer is the `❌ Terjadi kesalahan: ` text; the error is never raised |
| Agent.Session.constructor | main.py:118-125 | a new session holds only the greeting and no document |
| Agent.Session.Reset | main.py:164-168 | reset leaves a single assistant message and clears the document text and the processed file name |
| Agent.Session.Upload | main.py:143-153 | a file whose name was already processed is not read again; a failed extraction clears the processed name and keeps the rest; a success stores the full text and the name and appends one system message |
| Agent.Session.ChatTurn | main.py:177-191 | a turn appends exactly the user message and the assistant's `run_agent` answer, or, when the turn raises or the input is empty, leaves the messages as they were; the document fields never change |
| PsychologistTools.Bullets | tools/pscyologist_tools.py:29 | one line `• ` + entry per entry, in order |
| PsychologistTools.GetProfessionalHelp | tools/pscyologist_tools.py:25-27 | the index is searched, once and with k = 3, iff the query is non-empty and a retriever is present |
| PsychologistTools.DefaultWithoutQueryOrRetriever | tools/pscyologist_tools.py:25-35 | without a query or a retriever, the answer is the default list and nothing is searched |
| PsychologistTools.DefaultWhenNothingFound | tools/pscyologist_tools.py:28-35 | a search with no results also yields the default list |
| PsychologistTools.FailedSearchGivesNotice | tools/pscyologist_tools.py:30-32 | a search that raises yields the fixed "Gagal mencari data" notice, which is not the default list |
| PsychologistTools.OneBulletPerResult | tools/pscyologist_tools.py:27-29 | with results, the answer splits into exactly one `• ` line per result, in order |
| PsychologistTools.TitledListLines | tools/pscyologist_tools.py:35 | a title, `\n\n` and a non-empty bulleted list split back into the title line, one blank line and the bullets |
| PsychologistTools.DefaultHelpLines | tools/pscyologist_tools.py:5-35 | the default answer splits into the title, a blank line, and the five professional resources as bullets in their listed order |
| PsychologistTools.ResourceHasNoNewline | tools/pscyologist_tools.py:5-11 | every professional resource is a single line |
| TranslateTools.AttemptStep | tools/translate_tools.py:22-30 | an attempt that returns answers after its own request; one that raises leaves the answer to the remaining attempts |
| TranslateTools.AttemptsFromSpec | tools/translate_tools.py:22-31 | from any attempt on: the first attempt that returns answers after one request per attempt made; if all remaining attempts raise, the answer is the failure text; never more requests than attempts remain |
| TranslateTools.Translate | tools/translate_tools.py:17-31 | the retry loop returns the defined translation result, with its requests |
| TranslateTools.EmptyTextMakesNoRequest | tools/translate_tools.py:19-20 | empty text returns `""` and the translator is never called |
| TranslateTools.FirstSuccessAnswers | tools/translate_tools.py:6-31 | non-empty text: at most 3 requests, all for the same text and target; the first successful attempt's translation is returned, after exactly as many requests as attempts; if all 3 raise, the result is "Translation failed after multiple attempts." after 3 requests |
| TranslateTools.TranslateToIndonesian | tools/translate_tools.py:9-11 | translation with target 'id' |
| TranslateTools.TranslateToEnglish | tools/translate_tools.py:13-15 | translation with target 'en' |

## Left out

- Letter case is mapped for ASCII letters only. Python's `str.lower`, `str.upper` and `re.IGNORECASE` also map other Unicode letters, and `upper` can lengthen a string (`'ß'`).
- Processor.ReplaceIgnoreCase: the contract states only that text without a match comes back unchanged. The rest of the substitution is its definition: left to right, non-overlapping, and an empty pattern matching at every position.
- Processor.SplitSentencesAfter: the contract states only that there is at least one piece. The splitting rule itself is its definition.
- The PDF libraries are not modelled. Each parser is its outcome: the list of page texts, where a page without text is `""`, or the exception it raised. `extract_mental_health_document` (mental_health_processor.py:120-123) only copies the upload into a byte stream and calls the modelled method. The error message printed before the fallback is not modelled.
- Time is integer milliseconds instead of float seconds, and `max_update_rate` is a whole number of milliseconds. The two `time.time()` readings of the constructor are one reading.
- The redraw's HTML and the cursor-blink choice (callback_handler.py:60) are not modelled. A frame records only whether it is final and the text shown.
- Streamlit rendering and widgets are not modelled:
  - page configuration, CSS, chat bubbles, spinners, `st.info`/`st.error`/`st.success`;
  - the sidebar history preview (main.py:155-162);
  - the message display loop (main.py:171-175).
- The API-key gate (main.py:134-139) and the chat-model settings are not modelled. A session operation is only reached once a key is entered.
- `ConversationBufferMemory` (main.py:120-121, 166) is not modelled. It is created and cleared but never read.
- The vector index is not modelled. What `retriever.search` returned is an input: the page contents of the hits, empty when the index fails, since the retriever swallows its own errors. retriever.py is not part of this model.
- The handler that `run_agent` attaches to the chat model (main.py:53-58) is modelled separately, as `Streaming.GeminiCallbackHandler`. `Agent.RunAgent` does not replay the stream.
- Agent.Session.ChatTurn: an exception raised outside `run_agent` (creating the model client, showing the answer) is the input `raised`, not derived.
- The translator's `sleep` and `random.uniform` pauses and the printed failure messages are not modelled. They change no result.
- create_index.py, rag.py, retriever.py, tools/cooping_tools.py, tools/date_tools.py and tools/save_history.py are not part of this model. They are index building, unused wrappers, Streamlit notices and JSON file I/O.
