/** The three tools of `src/app/tools/meeting_tools.py`: each calls its
    service and renders the result, and on any exception returns a canned
    text instead. */
module MeetingTools {
  import opened Wrappers
  import opened Schemas
  import opened Services
  import opened RepositoryFormatter
  import GitHubTrendingService
  import TechTriviaService
  import FunFactsService

  /** The canned trivia text: the Guido van Rossum question and its answer. */
  const CannedTrivia: string :=
    "Question: " + "What programming language was created by Guido van Rossum?" + "\nAnswer: " + "Python"

  const CannedFunFact: string :=
    "Did you know? " + "The average person spends 6 months of their life waiting for red lights."

  /** The lines of the canned repository text, which joins them with newlines. */
  const CannedRepoLines: seq<string> := [
    Bullet + "langchain-ai/langchain" + " - " + "Building applications with LLMs through composability",
    Bullet + "openai/openai-python" + " - " + "The official Python library for the OpenAI API",
    Bullet + "microsoft/vscode" + " - "
      + "Visual Studio Code is a code editor redefined and optimized for building and debugging modern web and cloud applications"
  ]

  const CannedRepos: string := Strings.Join(CannedRepoLines, "\n")

  /** How the trivia tool renders a question. */
  function TriviaText(q: TriviaQuestion): string
  {
    "Question: " + q.question + "\nAnswer: " + q.correctAnswer
  }

  /** `get_tech_trivia` over the outcome of the service call. */
  function GetTechTrivia(trivia: Outcome<TriviaQuestion>): (text: string)
    ensures trivia.Ok? ==> text == TriviaText(trivia.value)
    ensures !trivia.Ok? ==> text == CannedTrivia
  {
    match trivia
    case Ok(q) => TriviaText(q)
    case _ => CannedTrivia
  }

  /** `get_fun_fact` over the outcome of the service call. */
  function GetFunFact(fact: Outcome<FunFact>): (text: string)
    ensures fact.Ok? ==> text == fact.value.text
    ensures !fact.Ok? ==> text == CannedFunFact
  {
    match fact
    case Ok(f) => f.text
    case _ => CannedFunFact
  }

  /** `get_trending_repos` over the outcome of the service call. */
  function GetTrendingRepos(repos: Outcome<seq<GitHubTrendingService.TrendingRepo>>): (text: string)
    ensures repos.Ok? ==> text == TrendingReposForLlm(GitHubTrendingService.AsRepoEntries(repos.value))
    ensures !repos.Ok? ==> text == CannedRepos
  {
    match repos
    case Ok(list) => TrendingReposForLlm(GitHubTrendingService.AsRepoEntries(list))
    case _ => CannedRepos
  }

  /** The canned trivia text is the success rendering of the service's own
      fallback question. */
  lemma CannedTriviaIsFallbackRendering()
    ensures CannedTrivia == TriviaText(TechTriviaService.FallbackTrivia)
  {
  }

  /** Over the trivia service, a failed request and a raising service call
      give the same text, so the tool never shows which one happened. */
  lemma TriviaToolOverService(fetch: Fetch<TechTriviaService.TriviaResponse>)
    ensures fetch.FetchFailed? ==> GetTechTrivia(Ok(TechTriviaService.GetTechTrivia(fetch))) == GetTechTrivia(Error)
    ensures fetch.Fetched? ==>
      GetTechTrivia(Ok(TechTriviaService.GetTechTrivia(fetch)))
        == TriviaText(TechTriviaService.SelectTrivia(fetch.data))
  {
    TechTriviaService.TriviaAlwaysAnswers(fetch);
    CannedTriviaIsFallbackRendering();
  }

  /** The canned fun fact is the service's fallback text behind "Did you know? ". */
  lemma CannedFunFactIsFallbackText()
    ensures CannedFunFact == "Did you know? " + FunFactsService.FallbackText
  {
  }

  /** Over the fun-fact service, every failed request reaches the canned
      sentence, because the service's own fallback raises. */
  lemma FunFactToolOverService(fetch: Fetch<FunFactsService.FactResponse>)
    ensures fetch.FetchFailed? ==> GetFunFact(FunFactsService.GetFunFact(fetch)) == CannedFunFact
    ensures fetch.Fetched? && fetch.data.FactObject? ==>
      GetFunFact(FunFactsService.GetFunFact(fetch)) == fetch.data.fact.text
  {
    FunFactsService.FetchFailureRaises(fetch);
  }

  /** A record with a name and a description only, in the notes style. */
  lemma DescriptionOnlyEntry(name: string, description: string)
    requires description != ""
    ensures NotesEntry(Dict(Some(name), description, "", "", "")) == Bullet + name + " - " + description
  {
  }

  /** The three records the canned repository text describes. */
  const CannedRepoEntries: seq<RepoEntry> := [
    Dict(Some("langchain-ai/langchain"), "Building applications with LLMs through composability", "", "", ""),
    Dict(Some("openai/openai-python"), "The official Python library for the OpenAI API", "", "", ""),
    Dict(Some("microsoft/vscode"),
         "Visual Studio Code is a code editor redefined and optimized for building and debugging modern web and cloud applications",
         "", "", "")
  ]

  /** The canned repository text is written in the notes style (bullets,
      newline-separated, names without bold), not in the style the tool's
      success path uses. */
  lemma CannedReposInNotesStyle()
    ensures CannedRepos == TrendingReposForNotes(CannedRepoEntries)
    ensures CannedRepos != TrendingReposForLlm(CannedRepoEntries)
  {
    var e := CannedRepoEntries;
    forall i | 0 <= i < 3
      ensures NotesEntry(e[i]) == CannedRepoLines[i]
    {
      DescriptionOnlyEntry(e[i].name.value, e[i].description);
    }
    assert TopThree(e) == e;
    assert NotesEntries(e) == CannedRepoLines;
    LlmEntryOpensWithBoldName(e[0]);
    Strings.JoinStartsWithFirst(LlmEntries(e), LlmSeparator);
    Strings.JoinStartsWithFirst(CannedRepoLines, "\n");
    assert CannedRepos[0] == Bullet[0] != '*';
  }

  /** Over the trending service: a decoded answer, however malformed, is
      rendered (an answer without `data.rows` as the "no repositories"
      message); only a failed request gives the canned text. */
  lemma ReposToolOverService(response: Outcome<GitHubTrendingService.Json>)
    ensures !response.Ok? ==> GetTrendingRepos(GitHubTrendingService.GetTrendingRepos(response)) == CannedRepos
    ensures response.Ok? ==>
      GetTrendingRepos(GitHubTrendingService.GetTrendingRepos(response))
        == TrendingReposForLlm(GitHubTrendingService.AsRepoEntries(GitHubTrendingService.Extracted(response.value)))
    ensures response.Ok? && GitHubTrendingService.RowsOf(response.value).None? ==>
      GetTrendingRepos(GitHubTrendingService.GetTrendingRepos(response)) == NoRepositoriesMessage
  {
  }
}
