# Meeting agent core in Dafny

This project models the deterministic core of the MCP meeting-preparation
agent. The agent gathers a tech trivia question, a fun fact and a list of
trending GitHub repositories, and turns them into notes for a meeting
host. The model covers:

- **The repository formatters.** There are two renderings of the first
  three repository records. The LLM rendering puts names in bold and joins
  entries with `"\n   - "`. The notes rendering uses `•` bullets and
  newlines.
- **The notes template.** It has sixteen fixed lines with the trivia
  question, the fun fact and the repository section filled in.
- **The trending-repository extraction.** It turns a decoded JSON answer
  into at most five records. Python's duck typing decides which rows are
  kept, skipped, or raise a `TypeError` that empties the result.
- **Result selection in the trivia and fun-fact services.** Each service
  picks its answer by the shape of the response, or falls back to fixed
  data. The source's fun-fact fallback omits required fields, so building
  it fails.
- **The three tools.** Each one renders its service's result, or returns a
  canned text when the call raises.
- **The fallback policy of the two agents.**
  - `MeetingPlannerAgent` is a class with its flag and tool fields. When the
    executor answers, its output is used. Otherwise it falls back to
    gathering. There, placeholder strings replace failed results, and a
    placeholder in the trivia or fun-fact slot makes the formatter raise.
  - In `PlannerAgent`, `format_meeting_info` does not exist, so as written
    its main path always falls back.

HTTP, the LLM and `asyncio` are not modelled. Their results are inputs,
given as `Outcome<T> = Ok(T) | Timeout | Error` or as a `Fetch<T>` that
records the failure kind.

Modules follow the source files:
- `Wrappers`, `Strings` and `Schemas` are shared.
- `RepositoryFormatter` and `MeetingNotesFormatter` model the two formatters.
- `GitHubTrendingService`, `Services`, `TechTriviaService` and
  `FunFactsService` model the services.
- `MeetingTools` models the tools.
- `MeetingPlannerAgent` and `PlannerAgent` model the agents.

The repository formatters and the trending extraction are imperative
methods with loops. Each is proved equal to a specification function, and
the properties are proved about those functions.

Where the code and its tests disagree, the model follows the code:
- The tool tests expect failure texts such as "Unable to fetch tech
  trivia". The tools return the canned question, sentence and repository
  lines.
- The trending-service tests expect fallback repositories on an empty or
  invalid answer. The extraction returns `[]` and the service has no
  fallback.

## Model

| member | source | states |
|---|---|---|
| RepositoryFormatter.TopThree | src/app/formatters/repository_formatter.py:27 | `trending_repos[:3]` is a prefix of the list, of length min(3, n) |
| RepositoryFormatter.AppendFragments | src/app/formatters/repository_formatter.py:35-43 | the chain of `repo_info +=` steps appends exactly the description, language, stars and url fragments, in that order, to the head |
| RepositoryFormatter.TrendingReposForLlm | src/app/formatters/repository_formatter.py:13-50 | an empty list gives the fixed message; otherwise the text opens with the LLM rendering of the first entry |
| RepositoryFormatter.TrendingReposForNotes | src/app/formatters/repository_formatter.py:53-90 | an empty list gives the fixed message; otherwise the text opens with the bullet rendering of the first entry |
| RepositoryFormatter.FormatTrendingReposForLlm | src/app/formatters/repository_formatter.py:13-50 | the loop over the first three entries returns the LLM rendering: the fixed message for an empty list, otherwise the rendered entries joined by `"\n   - "` |
| RepositoryFormatter.FormatTrendingReposForNotes | src/app/formatters/repository_formatter.py:53-90 | the loop returns the notes rendering: the fixed message for an empty list, otherwise the bullet entries joined by newlines |
| RepositoryFormatter.EmptyListMessage | src/app/formatters/repository_formatter.py:23-24 | an empty list gives "No trending repositories available at the moment." in both renderings |
| RepositoryFormatter.OnlyFirstThreeRendered | src/app/formatters/repository_formatter.py:27-50 | two lists that agree on their first three entries render identically in both styles |
| RepositoryFormatter.NotesLinesAreEntries | src/app/formatters/repository_formatter.py:67-90 | when no rendered entry contains a newline, splitting the notes rendering at newlines gives back the min(3, n) entries, in input order |
| RepositoryFormatter.NotesEntryIsBullet | src/app/formatters/repository_formatter.py:75-88 | every notes entry, dict or not, opens with `"• "` |
| RepositoryFormatter.LlmEntryOpensWithBoldName | src/app/formatters/repository_formatter.py:29-35 | a dict entry opens with `"**" + name + "**"`, and with `**Unknown**` when the name is missing |
| RepositoryFormatter.NotesEntryOpensWithName | src/app/formatters/repository_formatter.py:69-75 | a dict notes entry opens with the bullet and the name, or with `Unknown` |
| RepositoryFormatter.RenderingsShareFragments | src/app/formatters/repository_formatter.py:35-43 | both renderings of a dict entry carry the same fragments after their different heads |
| RepositoryFormatter.PlainEntries | src/app/formatters/repository_formatter.py:46-48 | a non-dict entry renders as its text, with a bullet in the notes style |
| RepositoryFormatter.FragmentsEmptyIff | src/app/formatters/repository_formatter.py:36-43 | no fragment is added if and only if description, language and url are empty and the stars are empty or `'0'` |
| RepositoryFormatter.FragmentsOrder | src/app/formatters/repository_formatter.py:36-43 | a description opens the fragments, a url closes them, stars come last when there is no url, and stars `'0'` count as no stars |
| RepositoryFormatter.LlmLinesAreIndentedEntries | src/app/formatters/repository_formatter.py:50 | when no rendered entry contains a newline, the LLM rendering has one line per entry, each after the first indented as `"   - "` |
| MeetingNotesFormatter.LinesAroundRepos | src/app/formatters/meeting_notes_formatter.py:32-49 | the template has 16 lines: head lines, then the repository section, then the closing lines |
| MeetingNotesFormatter.FormatMeetingNotes | src/app/formatters/meeting_notes_formatter.py:30-51 | the notes open with "Meeting Notes for Host" and end with the third instruction line |
| MeetingNotesFormatter.NotesSections | src/app/formatters/meeting_notes_formatter.py:30-51 | the notes are the head, then exactly `format_trending_repos_for_notes(trending_repos)`, then the closing section, separated by newlines |
| MeetingNotesFormatter.TextSections | src/app/formatters/meeting_notes_formatter.py:32-51 | the same split holds for any rendered repository text |
| MeetingNotesFormatter.EmptyReposSection | src/app/formatters/meeting_notes_formatter.py:30 | with no repositories the middle section is the fixed message and the other sections are unchanged |
| MeetingNotesFormatter.NotesFrame | src/app/formatters/meeting_notes_formatter.py:33-48 | the notes open with "Meeting Notes for Host" and a newline, and always end with the three instruction lines |
| MeetingNotesFormatter.TextFrame | src/app/formatters/meeting_notes_formatter.py:33-48 | the same frame holds for any rendered repository text |
| MeetingNotesFormatter.TriviaFollowsHeading | src/app/formatters/meeting_notes_formatter.py:35-37 | `"Q: " + question` and `"A: " + correct_answer` are the two lines right after "Ice Breaker - Tech Trivia:" |
| MeetingNotesFormatter.TextTriviaLines | src/app/formatters/meeting_notes_formatter.py:35-37 | the same trivia placement holds for any rendered repository text |
| MeetingNotesFormatter.FactFollowsHeading | src/app/formatters/meeting_notes_formatter.py:39-40 | the fun fact's text is, verbatim, the line after "Fun Fact to Share:" |
| MeetingNotesFormatter.TextFactLine | src/app/formatters/meeting_notes_formatter.py:39-40 | the same fact placement holds for any rendered repository text |
| MeetingNotesFormatter.ReposArgEntries | src/app/formatters/repository_formatter.py:67 | a string passed as the repository list is iterated character by character, one non-dict entry per character |
| MeetingNotesFormatter.FormatMeetingNotesArgs | src/app/formatters/meeting_notes_formatter.py:30-40 | the formatter succeeds if and only if trivia and fact are objects; a string in either place raises (`.question`, `.text`) |
| MeetingNotesFormatter.PlaceholderReposSection | src/app/formatters/repository_formatter.py:63-90 | a string of three or more characters as the repository list renders as three one-letter bullet lines |
| GitHubTrendingService.Take | src/app/services/github_trending_service.py:99 | `repos[:5]` is a prefix of length min(5, n) |
| GitHubTrendingService.RowsOf | src/app/services/github_trending_service.py:72-73 | rows are found if and only if the answer is an object whose `data` is an object with a `rows` array, and then they are that array |
| GitHubTrendingService.ClassifyRow | src/app/services/github_trending_service.py:74-92 | a kept row is an object with a valid `repo_name`, and its record is built from that row |
| GitHubTrendingService.Extracted | src/app/services/github_trending_service.py:64-106 | at most 5 records, each with a valid name and the url built from it |
| GitHubTrendingService.ExtractTrendingRepos | src/app/services/github_trending_service.py:64-106 | the loop, which leaves at the first row that raises, returns exactly the specified extraction |
| GitHubTrendingService.KeepIff | src/app/services/github_trending_service.py:74-76 | a row is kept if and only if it is an object whose `repo_name` is non-empty and shorter than 100 |
| GitHubTrendingService.KeptRecord | src/app/services/github_trending_service.py:75-91 | a kept row's record has `repo_name` unchanged as its name and `"https://github.com/" + repo_name` as its url; description and language default to `''`, stars to `'0'`, and language comes from `primary_language` only |
| GitHubTrendingService.FilteredAppend | src/app/services/github_trending_service.py:73-92 | the rows are processed independently and in order: extraction distributes over concatenating rows |
| GitHubTrendingService.FilteredMembership | src/app/services/github_trending_service.py:73-92 | a record is collected if and only if some row yields it |
| GitHubTrendingService.FilteredValid | src/app/services/github_trending_service.py:76-91 | every collected record has a valid name and the url built from it |
| GitHubTrendingService.NoRowsNoRepos | src/app/services/github_trending_service.py:72-97 | the result is `[]` unless the top level has `data` and `data['data']` has a `rows` array |
| GitHubTrendingService.AbortEmpties | src/app/services/github_trending_service.py:101-106 | one row that raises `TypeError` empties the whole result |
| GitHubTrendingService.StringRowAborts | src/app/services/github_trending_service.py:74-75 | a string row containing `repo_name` raises `TypeError` |
| GitHubTrendingService.ExtractedPrefix | src/app/services/github_trending_service.py:95-99 | the result has at most 5 entries and is an order-preserving prefix of the kept rows: exactly 5 when 5 or more are kept, all of them otherwise |
| GitHubTrendingService.ExtractedFromRows | src/app/services/github_trending_service.py:73-99 | each returned record comes from a row of the answer and has a valid name and url |
| GitHubTrendingService.GetTrendingRepos | src/app/services/github_trending_service.py:38-62 | a decoded answer is extracted (at most 5 records); a failed request raises |
| GitHubTrendingService.AsRepoEntry | src/app/formatters/repository_formatter.py:28-33 | a record reaches the formatter as a dict whose name is `str(repo_name)` and whose url is the record's url |
| GitHubTrendingService.AsRepoEntries | src/app/formatters/repository_formatter.py:27-28 | the records reach the formatter one for one, in order |
| GitHubTrendingService.EntryFragments | src/app/formatters/repository_formatter.py:36-43 | on a record's JSON values, a fragment appears if and only if its field is truthy, and stars if and only if they are also not `'0'` |
| Services.MakeRequest | src/app/services/__init__.py:22-78 | validated data is returned; every failure kind returns the fallback data |
| Services.FailureKindIrrelevant | src/app/services/__init__.py:51-78 | rate limiting (429), other HTTP errors, client errors, validation errors and unexpected errors all give the same result |
| TechTriviaService.SelectTrivia | src/app/services/tech_trivia_service.py:27-37 | non-empty `results` give `results[0]`, for an object and for a dict; any other result is the fallback question |
| TechTriviaService.GetTechTrivia | src/app/services/tech_trivia_service.py:20-37 | a failed request gives the fallback question; a fetched answer is selected from |
| TechTriviaService.FallbackShape | src/app/services/tech_trivia_service.py:39-49 | the fallback is the Guido van Rossum question, answer "Python", with three incorrect answers, none of them "Python" |
| TechTriviaService.SelectsFallback | src/app/services/tech_trivia_service.py:30-37 | the fallback is selected exactly for empty or missing results, for any other shape, or when the first result is the fallback question |
| TechTriviaService.TriviaAlwaysAnswers | src/app/services/tech_trivia_service.py:27-37 | every fetch failure, 429 included, yields the fallback question; a fetched answer is selected from; the service never raises |
| FunFactsService.BuildFunFact | src/app/schemas/fun_facts.py:10-15 | a `FunFact` is built if and only if all six required fields are present, each read from its own key; otherwise it is a validation error |
| FunFactsService.FallbackFunFact | src/app/services/fun_facts_service.py:37-42 | building the fallback fact raises a validation error |
| FunFactsService.FallbackFails | src/app/services/fun_facts_service.py:37-42 | the fallback supplies only `text`, so building it fails; the five missing fields are named |
| FunFactsService.SelectFunFact | src/app/services/fun_facts_service.py:25-35 | an object with `text` is returned unchanged; a dict with a truthy `text` gives exactly `FunFact(**response)`; any other response gives the fallback, which raises |
| FunFactsService.SelectFunFactIff | src/app/services/fun_facts_service.py:28-35 | a fact comes out if and only if the response is a fact object, or a dict with a truthy `text` and every required field; a dict's fact keeps its text |
| FunFactsService.GetFunFact | src/app/services/fun_facts_service.py:18-35 | a failed request raises; a fetched answer is selected from |
| FunFactsService.FetchFailureRaises | src/app/services/fun_facts_service.py:25-35 | every failed request makes `get_fun_fact` raise, since the fallback is built inside the request's error handlers; a fetched fact object comes through unchanged |
| MeetingTools.GetTechTrivia | src/app/tools/meeting_tools.py:14-24 | success gives `"Question: " + q + "\nAnswer: " + a`; any exception gives the canned Guido van Rossum text |
| MeetingTools.GetFunFact | src/app/tools/meeting_tools.py:27-37 | success gives the fact's text unchanged; any exception gives the canned "Did you know?" sentence |
| MeetingTools.GetTrendingRepos | src/app/tools/meeting_tools.py:40-52 | success gives the LLM rendering of the records; any exception gives the canned three lines |
| MeetingTools.CannedTriviaIsFallbackRendering | src/app/tools/meeting_tools.py:20-24 | the canned trivia text is the success rendering of the service's fallback question |
| MeetingTools.TriviaToolOverService | src/app/tools/meeting_tools.py:17-24 | a failed trivia request and a raising service give the same text |
| MeetingTools.CannedFunFactIsFallbackText | src/app/tools/meeting_tools.py:37 | the canned sentence is the service's fallback text with "Did you know? " in front |
| MeetingTools.FunFactToolOverService | src/app/tools/meeting_tools.py:29-37 | every failed fun-fact request ends in the canned sentence; a fetched fact shows its text |
| MeetingTools.DescriptionOnlyEntry | src/app/formatters/repository_formatter.py:75-77 | a record with only a name and a description renders as `"• " + name + " - " + description` |
| MeetingTools.CannedReposInNotesStyle | src/app/tools/meeting_tools.py:50-52 | the canned repository text is the notes rendering of the three records, and is not their LLM rendering |
| MeetingTools.ReposToolOverService | src/app/tools/meeting_tools.py:42-52 | only a failed request gives the canned lines; any decoded answer is rendered, and an answer without `data.rows` gives the "no repositories" message |
| MeetingPlannerAgent.ToolsFor | src/app/agents/meeting_planner_agent.py:30-38 | the three enhanced agents, in the order trivia, fun facts, trending, when the flag is set; otherwise the three basic tools in the same order |
| MeetingPlannerAgent.InputText | src/app/agents/meeting_planner_agent.py:98-101 | an empty context gives "Prepare meeting notes for: a general tech meeting"; a non-empty one opens with the prefix its flag selects |
| MeetingPlannerAgent.InputTextCarriesContext | src/app/agents/meeting_planner_agent.py:98-101 | an empty context becomes "a general tech meeting" whatever the flag; a non-empty context appears verbatim after the prefix its flag selects, followed by the enhanced suffix when enhanced |
| MeetingPlannerAgent.Placed | src/app/agents/meeting_planner_agent.py:163-165 | a failed gathered result is replaced by its placeholder string, and a successful one is passed on |
| MeetingPlannerAgent.FallbackPlanMeeting | src/app/agents/meeting_planner_agent.py:133-181 | a timed-out gathering gives the timeout message; a completed gathering with a failed trivia or fun fact gives "Unable to prepare meeting information at this time." |
| MeetingPlannerAgent.AgentReply | src/app/agents/meeting_planner_agent.py:104-131 | an executor answer's `output` is returned unchanged; a timeout, an error or a missing `output` gives exactly the fallback |
| MeetingPlannerAgent.NotesDifferFromMessages | src/app/agents/meeting_planner_agent.py:168-181 | filled notes never equal either failure message |
| MeetingPlannerAgent.FallbackResults | src/app/agents/meeting_planner_agent.py:133-181 | the timeout message exactly when the gathering exceeded its budget; "at this time" exactly when trivia or fun fact failed; otherwise the filled template, with the placeholder's letters when the repositories failed |
| MeetingPlannerAgent.PlaceholderRepos | src/app/agents/meeting_planner_agent.py:165-170 | the repository placeholder renders as three bullet lines holding its first three characters, "U", "n" and "a" |
| MeetingPlannerAgent.FunFactFailureIsUnable | src/app/agents/meeting_planner_agent.py:152-181 | a failed fun-fact request alone makes a completed fallback answer "Unable to prepare meeting information at this time." |
| MeetingPlannerAgent.MeetingPlannerAgent.constructor | src/app/agents/meeting_planner_agent.py:25-53 | keeps the flag, `True` by default, and builds the tool list and the executor over it once |
| MeetingPlannerAgent.MeetingPlannerAgent.PlanMeeting | src/app/agents/meeting_planner_agent.py:75-131 | with the defaults `""` and no override: a given override replaces the flag and persists, while no override keeps it; tools and executor are unchanged and always one of the two lists `__init__` builds; the result is the executor's reply to the input text, or the fallback |
| PlannerAgent.StepsMade | src/app/agents/planner_agent.py:22-39 | the main path calls trivia, fun fact, repositories and the formatter in that order and stops at the first failure: the fun fact is fetched if and only if trivia succeeded, the repositories if and only if trivia and fun fact did, the formatter if and only if all three did |
| PlannerAgent.PlanMeetingAsync | src/app/agents/planner_agent.py:16-51 | a failed fetch or a failed formatter call on the main path gives the fallback's result |
| PlannerAgent.MainPathResult | src/app/agents/planner_agent.py:16-51 | the summary is returned exactly when every main-path step succeeds; otherwise the fallback's result |
| PlannerAgent.AsWrittenAlwaysFallsBack | src/app/agents/planner_agent.py:37-39 | because `format_meeting_info` does not exist, the result is always the fallback's |
| PlannerAgent.FallbackPlanMeeting | src/app/agents/planner_agent.py:53-73 | "Unable to prepare meeting information at this time." if and only if one of the three fetches fails; otherwise exactly `format_meeting_notes(trivia, fact, repos)` |
| PlannerAgent.FunFactFailureIsUnable | src/app/agents/planner_agent.py:53-73 | a failed fun-fact request in the fallback round makes the planner answer with that fixed message |

## Left out

- HTTP (`aiohttp`), pydantic validation, the LLM gateway and LangChain's
  agent executor are foreign code. Their results are inputs: a `Fetch<T>`
  (validated data or a failure kind), an `Outcome<T>`, or the `executor`
  function of `PlanMeeting`.
- The `asyncio` concurrency of the gathering is not modelled. It is three
  independent outcomes plus an overall timeout. The timeouts (60 s for
  the gathering, 120 s for the executor) decide only whether an outcome
  is a timeout, so they are not modelled as numbers.
- Logging, execution-time measurement and its float rounding in
  `_log_execution_time` are left out. They do not affect any result.
- GitHubTrendingService.PyStr: Python's `str()` of a JSON array or object
  (its `repr`) is rendered as a fixed marker. Such names are still kept
  exactly when the source keeps them, but their url and rendering differ
  from Python's.
- GitHubTrendingService.Json: numbers are integers only. Floats and their
  formatting are left out.
- FunFactsService.FactResponse: dict values are strings. Pydantic's
  handling of non-string values is left out.
- TechTriviaService.TriviaResponse: a dict's `results` is a list of
  questions or missing. Other truthy values under `results` are left out.
- `server.py` (the MCP adapter), `src/app/tools/__init__.py`,
  `src/app/tools/agent_tools.py`, `src/app/core/llm_gateway.py`, the
  prompts and the one-line delegating agents are not part of this model.
  Neither are `config.py` and `logging_config.py`.
- MeetingPlannerAgent.Tool: the three `enhanced_*` tools are names only.
  `agent_tools.py` defines `tech_trivia_agent`, `fun_facts_agent` and
  `github_trending_agent` and no `enhanced_*` name. As written, the import
  at `src/app/agents/meeting_planner_agent.py:9` raises `ImportError` and
  the module cannot load. The model assumes that import succeeds.
