/** `MeetingPlannerAgent`: a tool-calling agent whose output is used when it
    answers, and a direct fallback that gathers the three services and fills
    the notes template. The agent, the LLM and the gathering are given as
    outcomes. */
module MeetingPlannerAgent {
  import opened Wrappers
  import opened Schemas
  import opened RepositoryFormatter
  import opened MeetingNotesFormatter
  import GitHubTrendingService
  import FunFactsService
  import Services

  /** The tools the agent can be built with. */
  datatype Tool =
    | EnhancedTechTriviaAgent
    | EnhancedFunFactsAgent
    | EnhancedGitHubTrendingAgent
    | GetTechTrivia
    | GetFunFact
    | GetTrendingRepos

  const TimeoutMessage: string := "Unable to prepare meeting information due to timeout."
  const UnableMessage: string := "Unable to prepare meeting information at this time."

  const TriviaPlaceholder: string := "Unable to fetch trivia"
  const FunFactPlaceholder: string := "Unable to fetch fun fact"
  const ReposPlaceholder: string := "Unable to fetch trending repos"

  /** The tool list `__init__` chooses. */
  function ToolsFor(useEnhancedTools: bool): (tools: seq<Tool>)
    ensures useEnhancedTools ==> tools == [EnhancedTechTriviaAgent, EnhancedFunFactsAgent, EnhancedGitHubTrendingAgent]
    ensures !useEnhancedTools ==> tools == [GetTechTrivia, GetFunFact, GetTrendingRepos]
  {
    if useEnhancedTools then [EnhancedTechTriviaAgent, EnhancedFunFactsAgent, EnhancedGitHubTrendingAgent]
    else [GetTechTrivia, GetFunFact, GetTrendingRepos]
  }

  const EnhancedPrefix: string := "Prepare enhanced meeting notes for: "
  const EnhancedSuffix: string := ". Use the enhanced tools to make content more relevant and engaging."
  const BasicPrefix: string := "Prepare meeting notes for: "
  const DefaultContext: string := "a general tech meeting"

  /** The input handed to the executor. */
  function InputText(useEnhancedTools: bool, meetingContext: string): (text: string)
    ensures meetingContext == "" ==> text == BasicPrefix + DefaultContext
    ensures useEnhancedTools && meetingContext != "" ==> EnhancedPrefix <= text
    ensures !useEnhancedTools && meetingContext != "" ==> BasicPrefix <= text
  {
    if useEnhancedTools && meetingContext != "" then EnhancedPrefix + meetingContext + EnhancedSuffix
    else BasicPrefix + (if meetingContext != "" then meetingContext else DefaultContext)
  }

  /** A non-empty context appears verbatim right after the prefix its flag
      selects; an empty one becomes "a general tech meeting" with either flag. */
  lemma InputTextCarriesContext(useEnhancedTools: bool, meetingContext: string)
    ensures var text := InputText(useEnhancedTools, meetingContext);
      && (meetingContext == "" ==> text == BasicPrefix + DefaultContext)
      && (meetingContext != "" && useEnhancedTools ==>
            EnhancedPrefix <= text
            && text[|EnhancedPrefix|..|EnhancedPrefix| + |meetingContext|] == meetingContext
            && text[|EnhancedPrefix| + |meetingContext|..] == EnhancedSuffix)
      && (meetingContext != "" && !useEnhancedTools ==>
            BasicPrefix <= text && text[|BasicPrefix|..] == meetingContext)
  {
    var text := InputText(useEnhancedTools, meetingContext);
    if meetingContext != "" && useEnhancedTools {
      assert text == EnhancedPrefix + (meetingContext + EnhancedSuffix);
    }
  }

  /** What `asyncio.wait_for(asyncio.gather(..., return_exceptions=True))`
      gives the fallback: the overall timeout, or one outcome per service. */
  datatype GatherResult =
    | GatherTimedOut
    | Gathered(trivia: Outcome<TriviaQuestion>, fact: Outcome<FunFact>,
               repos: Outcome<seq<GitHubTrendingService.TrendingRepo>>)

  /** A gathered outcome as the formatter receives it: the value, or the
      placeholder string that replaces an exception. */
  function Placed<T>(outcome: Outcome<T>, placeholder: string): (arg: Arg<T>)
    ensures outcome.Ok? <==> arg.Value?
    ensures outcome.Ok? ==> arg.v == outcome.value
    ensures !outcome.Ok? ==> arg == Text(placeholder)
  {
    match outcome
    case Ok(v) => Value(v)
    case _ => Text(placeholder)
  }

  function PlacedRepos(repos: Outcome<seq<GitHubTrendingService.TrendingRepo>>): Arg<seq<RepoEntry>>
  {
    match repos
    case Ok(list) => Value(GitHubTrendingService.AsRepoEntries(list))
    case _ => Text(ReposPlaceholder)
  }

  /** `_fallback_plan_meeting`. */
  function FallbackPlanMeeting(gather: GatherResult): (reply: string)
    ensures gather.GatherTimedOut? ==> reply == TimeoutMessage
    ensures gather.Gathered? && (!gather.trivia.Ok? || !gather.fact.Ok?) ==> reply == UnableMessage
  {
    match gather
    case GatherTimedOut => TimeoutMessage
    case Gathered(trivia, fact, repos) =>
      match FormatMeetingNotesArgs(Placed(trivia, TriviaPlaceholder), Placed(fact, FunFactPlaceholder), PlacedRepos(repos))
      case Ok(notes) => notes
      case _ => UnableMessage
  }

  /** What `plan_meeting` returns once the executor has run: an answer with
      an `output` unchanged; a timeout, an error or an answer without
      `output` (`result["output"]` raises `KeyError`) gives the fallback. */
  function AgentReply(result: Outcome<map<string, string>>, gather: GatherResult): (reply: string)
    ensures result.Ok? && "output" in result.value ==> reply == result.value["output"]
    ensures result.Timeout? || result.Error? || "output" !in result.value ==> reply == FallbackPlanMeeting(gather)
  {
    if result.Ok? && "output" in result.value then result.value["output"] else FallbackPlanMeeting(gather)
  }

  /** Notes never coincide with either failure message: the notes end with
      the last instruction line, the messages with a full stop. */
  lemma NotesDifferFromMessages(trivia: TriviaQuestion, fact: FunFact, repos: seq<RepoEntry>)
    ensures FormatMeetingNotes(trivia, fact, repos) != TimeoutMessage
    ensures FormatMeetingNotes(trivia, fact, repos) != UnableMessage
  {
    var notes := FormatMeetingNotes(trivia, fact, repos);
    NotesFrame(trivia, fact, repos);
    var closing := "\n" + Strings.Join(Instructions, "\n");
    Strings.JoinEndsWithLast(Instructions, "\n");
    var last := Instructions[2];
    assert last[|last| - 1] == 's';
    assert closing[|closing| - 1] == 's';
    assert notes[|notes| - 1] == 's';
    assert TimeoutMessage[|TimeoutMessage| - 1] == '.';
    assert UnableMessage[|UnableMessage| - 1] == '.';
  }

  /** The fallback's three results: the timeout message exactly when the
      gathering timed out; the "at this time" message exactly when it
      completed but trivia or the fun fact failed, since their placeholders
      make the formatter raise; otherwise the filled template, in which a
      failed repository list shows the placeholder's first three letters. */
  lemma FallbackResults(gather: GatherResult)
    ensures FallbackPlanMeeting(gather) == TimeoutMessage <==> gather.GatherTimedOut?
    ensures FallbackPlanMeeting(gather) == UnableMessage <==>
      gather.Gathered? && (!gather.trivia.Ok? || !gather.fact.Ok?)
    ensures gather.Gathered? && gather.trivia.Ok? && gather.fact.Ok? && gather.repos.Ok? ==>
      FallbackPlanMeeting(gather)
        == FormatMeetingNotes(gather.trivia.value, gather.fact.value,
                              GitHubTrendingService.AsRepoEntries(gather.repos.value))
    ensures gather.Gathered? && gather.trivia.Ok? && gather.fact.Ok? && !gather.repos.Ok? ==>
      FallbackPlanMeeting(gather)
        == FormatMeetingNotes(gather.trivia.value, gather.fact.value, ReposArgEntries(Text(ReposPlaceholder)))
  {
    assert |TimeoutMessage| != |UnableMessage|;
    if gather.Gathered? && gather.trivia.Ok? && gather.fact.Ok? {
      var entries := ReposArgEntries(PlacedRepos(gather.repos));
      NotesDifferFromMessages(gather.trivia.value, gather.fact.value, entries);
    }
  }

  /** The repository section of notes built with the placeholder: its first
      three characters, one bullet line each. */
  lemma PlaceholderRepos()
    ensures TrendingReposForNotes(ReposArgEntries(Text(ReposPlaceholder)))
         == Bullet + [ReposPlaceholder[0]] + "\n" + Bullet + [ReposPlaceholder[1]] + "\n" + Bullet + [ReposPlaceholder[2]]
  {
    PlaceholderReposSection(ReposPlaceholder);
  }

  /** Because the fun-fact fallback cannot be built, a failed fun-fact
      request alone sends the completed fallback to the "at this time"
      message. */
  lemma FunFactFailureIsUnable(trivia: Outcome<TriviaQuestion>, failure: Services.FetchFailure,
                               repos: Outcome<seq<GitHubTrendingService.TrendingRepo>>)
    ensures FallbackPlanMeeting(Gathered(trivia, FunFactsService.GetFunFact(Services.FetchFailed(failure)), repos))
         == UnableMessage
  {
    FunFactsService.FetchFailureRaises(Services.FetchFailed(failure));
    FallbackResults(Gathered(trivia, FunFactsService.GetFunFact(Services.FetchFailed(failure)), repos));
  }

  class MeetingPlannerAgent {
    var useEnhancedTools: bool
    /** `self.tools`. */
    var tools: seq<Tool>
    /** The tools the agent and its executor are built over. */
    var executorTools: seq<Tool>

    /** The tools are one of the two lists `__init__` chooses, and the
        executor runs over that same list. `PlanMeeting` keeps this, so the
        executor is always called with one of those two lists. */
    ghost predicate Valid()
      reads this
    {
      (tools == ToolsFor(true) || tools == ToolsFor(false)) && executorTools == tools
    }

    /** `use_enhanced_tools` defaults to `True`. */
    constructor(useEnhancedTools: bool := true)
      ensures this.useEnhancedTools == useEnhancedTools
      ensures tools == ToolsFor(useEnhancedTools) && executorTools == tools
      ensures Valid()
    {
      this.useEnhancedTools := useEnhancedTools;
      tools := ToolsFor(useEnhancedTools);
      executorTools := ToolsFor(useEnhancedTools);
    }

    /** `plan_meeting`: `executor` is what the agent executor answers for a
      tool list and an input (its timeout after `AGENT_EXECUTOR_TIMEOUT`,
      120 seconds, included), `gather` what the fallback would gather. */
    method PlanMeeting(meetingContext: string := "", useEnhanced: Option<bool> := None,
                       executor: (seq<Tool>, string) -> Outcome<map<string, string>>,
                       gather: GatherResult) returns (notes: string)
      requires Valid()
      modifies this`useEnhancedTools
      ensures Valid()
      ensures useEnhancedTools == (if useEnhanced.Some? then useEnhanced.value else old(useEnhancedTools))
      ensures tools == old(tools) && executorTools == old(executorTools)
      ensures executorTools == ToolsFor(true) || executorTools == ToolsFor(false)
      ensures notes == AgentReply(executor(executorTools, InputText(useEnhancedTools, meetingContext)), gather)
    {
      if useEnhanced.Some? {
        useEnhancedTools := useEnhanced.value;
      }
      var input := InputText(useEnhancedTools, meetingContext);
      var result := executor(executorTools, input);
      if result.Ok? && "output" in result.value {
        notes := result.value["output"];
      } else {
        notes := FallbackPlanMeeting(gather);
      }
    }
  }
}
