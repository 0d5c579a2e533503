/** The professional-help tool: passages from the vector index for a question, or a fixed
    list of Indonesian mental-health services. */
module PsychologistTools {
  import opened Text
  import opened Oracle

  /** The five entries of `PROFESSIONAL_RESOURCES`, in order. */
  const ProfessionalResources: seq<string> := [Himpsi, IntoTheLight, Pulih, JakartaCounseling, EmergencyContact]

  const Himpsi := "Indonesian Psychological " + "Association (HIMPSI): " + "https://himpsi.or.id"
  const IntoTheLight := "Into The Light Indonesia " + "(Suicide Prevention): " + "https://intothelightidn.org"
  const Pulih := "PULIH Foundation: " + "http://pulih.or.id"
  const JakartaCounseling := "Jakarta Counseling Center: " + "https://jakartacounseling" + "center.com"
  const EmergencyContact := "Emergency contact: 119 " + "(Indonesian mental health " + "emergency number)"

  const Bullet := "• "

  /** The default answer opens with this line and a blank line. */
  const HelpTitle := "Berikut beberapa sumber " + "bantuan profesional:"
  const HelpHeader := HelpTitle + "\n\n"

  const SearchFailedNotice := "Gagal mencari data. " + "Menampilkan daftar default..."

  /** How many passages the index is asked for. */
  const HelpHitCount: nat := 3

  /** `f"• {x}"` for every entry, in order. */
  function Bullets(items: seq<string>): (lines: seq<string>)
    ensures |lines| == |items|
    ensures forall i :: 0 <= i < |items| ==> lines[i] == Bullet + items[i]
  {
    seq(|items|, i requires 0 <= i < |items| => Bullet + items[i])
  }

  /** The fallback answer: the header, then one bullet per professional resource. */
  function DefaultHelp(): string
  {
    HelpHeader + Join(Bullets(ProfessionalResources), "\n")
  }

  /** `get_professional_help`: the index is searched only for a non-empty query with a
      retriever present; `search` is what that search did. */
  function GetProfessionalHelp(query: Option<string>, hasRetriever: bool, search: Outcome<seq<string>>): (r: Reply)
    ensures r.calls == if Truthy(query) && hasRetriever then [IndexSearch(query.value, HelpHitCount)] else []
  {
    if Truthy(query) && hasRetriever then
      var searched := [IndexSearch(query.value, HelpHitCount)];
      match search
      case Raised(_) => Reply(SearchFailedNotice, searched)
      case Returned(results) =>
        if results != [] then Reply(Join(Bullets(results), "\n"), searched)
        else Reply(DefaultHelp(), searched)
    else
      Reply(DefaultHelp(), [])
  }

  /** Without a query or a retriever nothing is searched and the default list is returned. */
  lemma DefaultWithoutQueryOrRetriever(query: Option<string>, hasRetriever: bool, search: Outcome<seq<string>>)
    requires !Truthy(query) || !hasRetriever
    ensures GetProfessionalHelp(query, hasRetriever, search) == Reply(DefaultHelp(), [])
  {
  }

  /** An empty result list also falls back to the default list, after the search. */
  lemma DefaultWhenNothingFound(query: string, hasRetriever: bool)
    requires query != "" && hasRetriever
    ensures GetProfessionalHelp(Some(query), hasRetriever, Returned([])).text == DefaultHelp()
  {
  }

  /** A search that raises gives the fixed failure notice, not the list it announces. */
  lemma FailedSearchGivesNotice(query: string, message: string)
    requires query != ""
    ensures GetProfessionalHelp(Some(query), true, Raised(message)) ==
              Reply(SearchFailedNotice, [IndexSearch(query, HelpHitCount)])
    ensures GetProfessionalHelp(Some(query), true, Raised(message)).text != DefaultHelp()
  {
    assert SearchFailedNotice[0] == 'G';
    assert DefaultHelp()[0] == 'B';
  }

  /** With results, the answer has exactly one line per passage, `• ` and the passage, in
      order. */
  lemma OneBulletPerResult(query: string, results: seq<string>)
    requires query != "" && results != []
    requires forall i :: 0 <= i < |results| ==> '\n' !in results[i]
    ensures SplitLines(GetProfessionalHelp(Some(query), true, Returned(results)).text) == Bullets(results)
  {
    var lines := Bullets(results);
    forall k | 0 <= k < |lines| ensures '\n' !in lines[k] {
      assert lines[k] == Bullet + results[k];
    }
    SplitJoinLines(lines);
  }

  /** The default answer reads, line by line: the title, a blank line, and the five
      resources as bullets in their listed order. */
  lemma DefaultHelpLines()
    ensures |ProfessionalResources| == 5
    ensures SplitLines(DefaultHelp()) == [HelpTitle, ""] + Bullets(ProfessionalResources)
  {
    forall i | 0 <= i < |ProfessionalResources| ensures '\n' !in ProfessionalResources[i] {
      ResourceHasNoNewline(i);
    }
    TitledListLines(HelpTitle, ProfessionalResources);
  }

  /** A title line, a blank line and a bulleted list split back into exactly those lines. */
  lemma TitledListLines(title: string, items: seq<string>)
    requires '\n' !in title
    requires items != []
    requires forall i :: 0 <= i < |items| ==> '\n' !in items[i]
    ensures SplitLines(title + "\n\n" + Join(Bullets(items), "\n")) == [title, ""] + Bullets(items)
  {
    var bullets := Bullets(items);
    var lines := [title, ""] + bullets;
    JoinAppend([title, ""], bullets, "\n");
    assert Join([title, ""], "\n") == title + "\n" + "";
    assert title + "\n\n" + Join(bullets, "\n") == Join([title, ""], "\n") + "\n" + Join(bullets, "\n");
    forall k | 0 <= k < |lines| ensures '\n' !in lines[k] {
      if k >= 2 {
        assert lines[k] == Bullet + items[k - 2];
      }
    }
    SplitJoinLines(lines);
  }

  /** Every resource is a single line. */
  lemma ResourceHasNoNewline(i: int)
    requires 0 <= i < |ProfessionalResources|
    ensures '\n' !in ProfessionalResources[i]
  {
    HimpsiIsOneLine();
    IntoTheLightIsOneLine();
    PulihIsOneLine();
    JakartaCounselingIsOneLine();
    EmergencyContactIsOneLine();
  }

  lemma HimpsiIsOneLine() ensures '\n' !in Himpsi { }
  lemma IntoTheLightIsOneLine() ensures '\n' !in IntoTheLight { }
  lemma PulihIsOneLine() ensures '\n' !in Pulih { }
  lemma JakartaCounselingIsOneLine() ensures '\n' !in JakartaCounseling { }
  lemma EmergencyContactIsOneLine() ensures '\n' !in EmergencyContact { }
}
