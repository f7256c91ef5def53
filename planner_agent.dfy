/** `PlannerAgent`: fetch trivia, a fun fact and the trending repositories
    in turn, have the gateway format them, and fall back to the notes
    template when anything raises. */
module PlannerAgent {
  import opened Wrappers
  import opened Schemas
  import opened MeetingNotesFormatter
  import GitHubTrendingService
  import FunFactsService
  import Services
  import MeetingPlannerAgent

  /** The calls of the main path, in the order the source makes them. */
  datatype Step = FetchTrivia | FetchFunFact | FetchRepos | FormatInfo

  const MainPath: seq<Step> := [FetchTrivia, FetchFunFact, FetchRepos, FormatInfo]

  /** The gateway's `format_meeting_info` as written: `LLMGateway` has no
      such attribute, so the call raises `AttributeError`. */
  const FormatMeetingInfoAsWritten: Outcome<MeetingInfo> := Error

  /** The calls the main path makes before the first one that raises. */
  function StepsMade(trivia: Outcome<TriviaQuestion>, fact: Outcome<FunFact>,
                     repos: Outcome<seq<GitHubTrendingService.TrendingRepo>>): (steps: seq<Step>)
    ensures |steps| >= 1 && steps <= MainPath
    ensures FormatInfo in steps <==> trivia.Ok? && fact.Ok? && repos.Ok?
    ensures FetchRepos in steps <==> trivia.Ok? && fact.Ok?
    ensures FetchFunFact in steps <==> trivia.Ok?
  {
    if !trivia.Ok? then [FetchTrivia]
    else if !fact.Ok? then [FetchTrivia, FetchFunFact]
    else if !repos.Ok? then [FetchTrivia, FetchFunFact, FetchRepos]
    else MainPath
  }

  /** `_fallback_plan_meeting` over the outcomes of its own three fetches:
      the filled notes template exactly when all three succeed, the fixed
      message otherwise. */
  function FallbackPlanMeeting(trivia: Outcome<TriviaQuestion>, fact: Outcome<FunFact>,
                               repos: Outcome<seq<GitHubTrendingService.TrendingRepo>>): (reply: string)
    ensures reply == MeetingPlannerAgent.UnableMessage <==> !(trivia.Ok? && fact.Ok? && repos.Ok?)
    ensures trivia.Ok? && fact.Ok? && repos.Ok? ==>
      reply == FormatMeetingNotes(trivia.value, fact.value, GitHubTrendingService.AsRepoEntries(repos.value))
  {
    if trivia.Ok? && fact.Ok? && repos.Ok? then
      MeetingPlannerAgent.NotesDifferFromMessages(trivia.value, fact.value,
                                                  GitHubTrendingService.AsRepoEntries(repos.value));
      FormatMeetingNotes(trivia.value, fact.value, GitHubTrendingService.AsRepoEntries(repos.value))
    else MeetingPlannerAgent.UnableMessage
  }

  /** The outcomes of one round of the three fetches. */
  datatype Fetches = Fetches(trivia: Outcome<TriviaQuestion>, fact: Outcome<FunFact>,
                             repos: Outcome<seq<GitHubTrendingService.TrendingRepo>>)

  /** `plan_meeting_async`: `main` are the main path's fetches, `formatted`
      what the gateway call yields, `again` the fallback's fetches. */
  function PlanMeetingAsync(main: Fetches, formatted: Outcome<MeetingInfo>, again: Fetches): (reply: string)
    ensures !formatted.Ok? ==> reply == FallbackPlanMeeting(again.trivia, again.fact, again.repos)
    ensures !(main.trivia.Ok? && main.fact.Ok? && main.repos.Ok?)
            ==> reply == FallbackPlanMeeting(again.trivia, again.fact, again.repos)
  {
    if main.trivia.Ok? && main.fact.Ok? && main.repos.Ok? && formatted.Ok? then formatted.value.summary
    else FallbackPlanMeeting(again.trivia, again.fact, again.repos)
  }

  /** The summary comes back exactly when every step of the main path
      succeeds; otherwise the result is the fallback's. */
  lemma MainPathResult(main: Fetches, formatted: Outcome<MeetingInfo>, again: Fetches)
    ensures FormatInfo in StepsMade(main.trivia, main.fact, main.repos) && formatted.Ok? ==>
      PlanMeetingAsync(main, formatted, again) == formatted.value.summary
    ensures !(FormatInfo in StepsMade(main.trivia, main.fact, main.repos) && formatted.Ok?) ==>
      PlanMeetingAsync(main, formatted, again) == FallbackPlanMeeting(again.trivia, again.fact, again.repos)
  {
  }

  /** As written the main path always ends in the fallback. */
  lemma AsWrittenAlwaysFallsBack(main: Fetches, again: Fetches)
    ensures PlanMeetingAsync(main, FormatMeetingInfoAsWritten, again)
         == FallbackPlanMeeting(again.trivia, again.fact, again.repos)
  {
  }

  /** A failed fun-fact request in the fallback round, whatever else
      happens, makes the planner answer with the fixed message. */
  lemma FunFactFailureIsUnable(main: Fetches, again: Fetches, failure: Services.FetchFailure)
    requires again.fact == FunFactsService.GetFunFact(Services.FetchFailed(failure))
    ensures PlanMeetingAsync(main, FormatMeetingInfoAsWritten, again) == MeetingPlannerAgent.UnableMessage
  {
    FunFactsService.FetchFailureRaises(Services.FetchFailed(failure));
  }
}
