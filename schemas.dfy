/** The records the services return, after `src/app/schemas`. */
module Schemas {

  /** `TechTriviaQuestion`; `kind` stands for the field `type`. */
  datatype TriviaQuestion = TriviaQuestion(
    category: string,
    kind: string,
    difficulty: string,
    question: string,
    correctAnswer: string,
    incorrectAnswers: seq<string>)

  /** `FunFact`: every field is required. */
  datatype FunFact = FunFact(
    id: string,
    text: string,
    source: string,
    sourceUrl: string,
    language: string,
    permalink: string)

  /** `MeetingInfo`, the structured answer the planner expects from the gateway. */
  datatype MeetingInfo = MeetingInfo(
    triviaQuestion: string,
    triviaAnswer: string,
    funFact: string,
    trendingRepos: seq<string>,
    summary: string)
}
