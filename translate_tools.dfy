/** The translation service: up to three attempts at the outside translator, the first
    successful one answering. */
module TranslateTools {
  import opened Oracle
  import opened Text

  const MaxRetries: nat := 3

  const TranslationFailed := "Translation failed " + "after multiple attempts."

  /** The outside translator: what attempt `attempt` (0-based) of translating `text` into
      `target` did. */
  type Translator = (string, string, nat) -> Outcome<string>

  /** The attempts from `attempt` on: the first that returns answers, and when every
      remaining attempt raises the answer is the failure text. */
  function AttemptsFrom(translator: Translator, text: string, target: string, attempt: nat): Reply
    requires attempt <= MaxRetries
    decreases MaxRetries - attempt
  {
    if attempt == MaxRetries then Reply(TranslationFailed, [])
    else
      match translator(text, target, attempt)
      case Returned(translated) => Reply(translated, [TranslateRequest(text, target)])
      case Raised(_) =>
        var rest := AttemptsFrom(translator, text, target, attempt + 1);
        Reply(rest.text, [TranslateRequest(text, target)] + rest.calls)
  }

  /** What `_translate` returns, with the requests it sent. */
  function Translation(translator: Translator, text: string, target: string): Reply
  {
    if text == "" then Reply("", []) else AttemptsFrom(translator, text, target, 0)
  }

  /** `_translate`: empty text is returned as is; otherwise the translator is tried until
      it returns, at most `MaxRetries` times. */
  method Translate(translator: Translator, text: string, target: string) returns (r: Reply)
    ensures r == Translation(translator, text, target)
  {
    if text == "" {
      return Reply("", []);
    }
    var request := TranslateRequest(text, target);
    var requests: seq<Call> := [];
    for attempt := 0 to MaxRetries
      invariant requests == Repeat(request, attempt)
      invariant AttemptsFrom(translator, text, target, 0).text == AttemptsFrom(translator, text, target, attempt).text
      invariant AttemptsFrom(translator, text, target, 0).calls == requests + AttemptsFrom(translator, text, target, attempt).calls
    {
      var outcome := translator(text, target, attempt);
      AttemptStep(translator, text, target, attempt);
      AppendAssociative(requests, [request], AttemptsFrom(translator, text, target, attempt + 1).calls);
      requests := requests + [request];
      if outcome.Returned? {
        return Reply(outcome.value, requests);
      }
    }
    r := Reply(TranslationFailed, requests);
  }

  /** One attempt: a returned translation answers after this one request; a raise leaves
      the answer to the later attempts, after this request. */
  lemma AttemptStep(translator: Translator, text: string, target: string, attempt: nat)
    requires attempt < MaxRetries
    ensures var here := AttemptsFrom(translator, text, target, attempt);
            var rest := AttemptsFrom(translator, text, target, attempt + 1);
            match translator(text, target, attempt)
            case Returned(translated) => here == Reply(translated, [TranslateRequest(text, target)])
            case Raised(_) => here == Reply(rest.text, [TranslateRequest(text, target)] + rest.calls)
  {
  }

  /** `translate_to_indonesian`. */
  method TranslateToIndonesian(translator: Translator, text: string) returns (r: Reply)
    ensures r == Translation(translator, text, "id")
  {
    r := Translate(translator, text, "id");
  }

  /** `translate_to_english`. */
  method TranslateToEnglish(translator: Translator, text: string) returns (r: Reply)
    ensures r == Translation(translator, text, "en")
  {
    r := Translate(translator, text, "en");
  }

  /** `n` copies of `c`. */
  function Repeat(c: Call, n: nat): (cs: seq<Call>)
    ensures |cs| == n
    ensures forall i :: 0 <= i < n ==> cs[i] == c
  {
    if n == 0 then [] else Repeat(c, n - 1) + [c]
  }

  /** Every attempt before `k` raised. */
  predicate FailedBefore(translator: Translator, text: string, target: string, k: nat)
  {
    forall a: nat :: a < k ==> translator(text, target, a).Raised?
  }

  /** From `attempt` on: when attempt `k` is the first to return, its translation is the
      answer after `k - attempt + 1` requests; when none returns, the answer is the failure
      text after one request per remaining attempt. */
  lemma {:induction false} AttemptsFromSpec(translator: Translator, text: string, target: string, attempt: nat)
    requires attempt <= MaxRetries
    ensures var r := AttemptsFrom(translator, text, target, attempt);
            r.calls == Repeat(TranslateRequest(text, target), |r.calls|) && |r.calls| <= MaxRetries - attempt
    ensures forall k: nat :: attempt <= k < MaxRetries && translator(text, target, k).Returned? &&
                             (forall a: nat :: attempt <= a < k ==> translator(text, target, a).Raised?) ==>
              AttemptsFrom(translator, text, target, attempt) ==
                Reply(translator(text, target, k).value, Repeat(TranslateRequest(text, target), k - attempt + 1))
    ensures (forall a: nat :: attempt <= a < MaxRetries ==> translator(text, target, a).Raised?) ==>
              AttemptsFrom(translator, text, target, attempt) ==
                Reply(TranslationFailed, Repeat(TranslateRequest(text, target), MaxRetries - attempt))
    decreases MaxRetries - attempt
  {
    if attempt < MaxRetries {
      AttemptsFromSpec(translator, text, target, attempt + 1);
      var request := TranslateRequest(text, target);
      var rest := AttemptsFrom(translator, text, target, attempt + 1);
      assert [request] + Repeat(request, |rest.calls|) == Repeat(request, |rest.calls| + 1);
    }
  }

  /** Empty text is returned unchanged and the translator is never called. */
  lemma EmptyTextMakesNoRequest(translator: Translator, target: string)
    ensures Translation(translator, "", target) == Reply("", [])
  {
  }

  /** Non-empty text: the first attempt that returns answers, after exactly as many
      requests as attempts were made; at most `MaxRetries` requests are ever sent, all for
      the same text and target; when all of them raise, the answer is the failure text. */
  lemma FirstSuccessAnswers(translator: Translator, text: string, target: string)
    requires text != ""
    ensures var r := Translation(translator, text, target);
            |r.calls| <= MaxRetries && r.calls == Repeat(TranslateRequest(text, target), |r.calls|)
    ensures forall k: nat :: k < MaxRetries && translator(text, target, k).Returned? &&
                             FailedBefore(translator, text, target, k) ==>
              Translation(translator, text, target) ==
                Reply(translator(text, target, k).value, Repeat(TranslateRequest(text, target), k + 1))
    ensures FailedBefore(translator, text, target, MaxRetries) ==>
              Translation(translator, text, target) ==
                Reply(TranslationFailed, Repeat(TranslateRequest(text, target), MaxRetries))
  {
    AttemptsFromSpec(translator, text, target, 0);
  }
}
