/** `TechTriviaService.get_tech_trivia`: one question picked from whatever
    `_make_request` returned, or the fixed fallback question. */
module TechTriviaService {
  import opened Wrappers
  import opened Schemas
  import opened Services

  /** The shapes `get_tech_trivia` distinguishes: a validated
      `TechTriviaResponse`, a plain dict (whose `results` may be missing), a
      bare question (the fallback passed through by `_make_request`), or
      anything else. */
  datatype TriviaResponse =
    | ResponseObject(responseCode: int, results: seq<TriviaQuestion>)
    | ResponseDict(resultsEntry: Option<seq<TriviaQuestion>>)
    | QuestionObject(question: TriviaQuestion)
    | OtherResponse

  /** `_get_fallback_data()`. */
  const FallbackTrivia: TriviaQuestion := TriviaQuestion(
    "Science: Computers",
    "multiple",
    "medium",
    "What programming language was created by Guido van Rossum?",
    "Python",
    ["Java", "C++", "JavaScript"])

  /** The response-shape selection of `get_tech_trivia`. */
  function SelectTrivia(response: TriviaResponse): (q: TriviaQuestion)
    ensures response.ResponseObject? && response.results != [] ==> q == response.results[0]
    ensures response.ResponseDict? && response.resultsEntry.Some? && response.resultsEntry.value != []
            ==> q == response.resultsEntry.value[0]
    ensures q != FallbackTrivia ==>
      (response.ResponseObject? && q in response.results)
      || (response.ResponseDict? && response.resultsEntry.Some? && q in response.resultsEntry.value)
  {
    match response
    case ResponseObject(_, results) => if results != [] then results[0] else FallbackTrivia
    case ResponseDict(Some(results)) => if results != [] then results[0] else FallbackTrivia
    case _ => FallbackTrivia
  }

  /** `get_tech_trivia` end to end: `_make_request(TechTriviaResponse)` with
      the fallback question as its fallback data, then the selection. */
  function GetTechTrivia(fetch: Fetch<TriviaResponse>): (q: TriviaQuestion)
    ensures fetch.FetchFailed? ==> q == FallbackTrivia
    ensures fetch.Fetched? ==> q == SelectTrivia(fetch.data)
  {
    match MakeRequest(fetch, Ok(QuestionObject(FallbackTrivia)))
    case Ok(response) => SelectTrivia(response)
    case _ => FallbackTrivia
  }

  /** The fallback is the Guido van Rossum question with answer "Python" and
      three incorrect answers, none of them the correct one. */
  lemma FallbackShape()
    ensures FallbackTrivia.question == "What programming language was created by Guido van Rossum?"
    ensures FallbackTrivia.correctAnswer == "Python"
    ensures |FallbackTrivia.incorrectAnswers| == 3
    ensures FallbackTrivia.correctAnswer !in FallbackTrivia.incorrectAnswers
  {
  }

  /** Empty results, a missing `results` and any other shape, including the
      fallback question coming back from the request layer, all select the
      fallback. */
  lemma SelectsFallback(response: TriviaResponse)
    ensures SelectTrivia(response) == FallbackTrivia <==>
      match response
      case ResponseObject(_, results) => results == [] || results[0] == FallbackTrivia
      case ResponseDict(entry) => entry.None? || entry.value == [] || entry.value[0] == FallbackTrivia
      case _ => true
  {
  }

  /** Every failure kind, rate limiting included, ends in the fallback
      question; a validated answer is selected from. `get_tech_trivia`
      therefore never raises. */
  lemma {:induction false} TriviaAlwaysAnswers(fetch: Fetch<TriviaResponse>)
    ensures fetch.FetchFailed? ==> GetTechTrivia(fetch) == FallbackTrivia
    ensures fetch.Fetched? ==> GetTechTrivia(fetch) == SelectTrivia(fetch.data)
    ensures MakeRequest(fetch, Ok(QuestionObject(FallbackTrivia))).Ok?
  {
    if fetch.FetchFailed? {
      assert SelectTrivia(QuestionObject(FallbackTrivia)) == FallbackTrivia;
    }
  }
}
