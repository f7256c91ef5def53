/** `MeetingNotesFormatter.format_meeting_notes`: the fixed notes template
    filled with a trivia question, a fun fact and the repository list. */
module MeetingNotesFormatter {
  import opened Wrappers
  import opened Strings
  import opened Schemas
  import opened RepositoryFormatter

  const Title: string := "Meeting Notes for Host"

  /** The three instruction lines that close every set of notes. */
  const Instructions: seq<string> := [
    "1. Start with the trivia question to engage the team",
    "2. Share the fun fact for a light moment",
    "3. Mention trending repositories as conversation starters"
  ]

  /** The sixteen lines of the template; `reposText` is the rendered list. */
  function NotesLines(trivia: TriviaQuestion, fact: FunFact, reposText: string): seq<string>
  {
    [ Title,
      "",
      "Ice Breaker - Tech Trivia:",
      "Q: " + trivia.question,
      "A: " + trivia.correctAnswer,
      "",
      "Fun Fact to Share:",
      fact.text,
      "",
      "Trending Tech Topics:",
      reposText,
      "",
      "Use these notes to:",
      Instructions[0],
      Instructions[1],
      Instructions[2] ]
  }

  /** The lines before the repository section; they do not depend on the repositories. */
  function HeadLines(trivia: TriviaQuestion, fact: FunFact): seq<string>
  {
    NotesLines(trivia, fact, "")[..10]
  }

  /** The lines after the repository section; they depend on nothing. */
  const ClosingLines: seq<string> := ["", "Use these notes to:"] + Instructions

  /** The template joined by newlines, for an already rendered repository section. */
  function NotesText(trivia: TriviaQuestion, fact: FunFact, reposText: string): string
  {
    Join(NotesLines(trivia, fact, reposText), "\n")
  }

  /** What `format_meeting_notes` returns for well-typed arguments. */
  function FormatMeetingNotes(trivia: TriviaQuestion, fact: FunFact, repos: seq<RepoEntry>): (notes: string)
    ensures Title <= notes
    ensures EndsWith(notes, Instructions[2])
  {
    var lines := NotesLines(trivia, fact, TrendingReposForNotes(repos));
    JoinStartsWithFirst(lines, "\n");
    JoinEndsWithLast(lines, "\n");
    Join(lines, "\n")
  }

  lemma LinesAroundRepos(trivia: TriviaQuestion, fact: FunFact, reposText: string)
    ensures |NotesLines(trivia, fact, reposText)| == 16
    ensures NotesLines(trivia, fact, reposText) == HeadLines(trivia, fact) + [reposText] + ClosingLines
  {
  }

  /** The notes are the head section, the repository section exactly as
      `format_trending_repos_for_notes` renders it, and the closing section,
      one newline apart. Only the middle depends on the repositories. */
  lemma NotesSections(trivia: TriviaQuestion, fact: FunFact, repos: seq<RepoEntry>)
    ensures FormatMeetingNotes(trivia, fact, repos)
         == Join(HeadLines(trivia, fact), "\n") + "\n" + TrendingReposForNotes(repos) + "\n" + Join(ClosingLines, "\n")
  {
    TextSections(trivia, fact, TrendingReposForNotes(repos));
  }

  lemma {:induction false} TextSections(trivia: TriviaQuestion, fact: FunFact, r: string)
    ensures NotesText(trivia, fact, r)
         == Join(HeadLines(trivia, fact), "\n") + "\n" + r + "\n" + Join(ClosingLines, "\n")
  {
    LinesAroundRepos(trivia, fact, r);
    JoinAppend(HeadLines(trivia, fact) + [r], ClosingLines, "\n");
    JoinAppend(HeadLines(trivia, fact), [r], "\n");
  }

  /** An empty list puts the fixed message in the repository section and
      leaves both other sections as they are for any list. */
  lemma EmptyReposSection(trivia: TriviaQuestion, fact: FunFact)
    ensures FormatMeetingNotes(trivia, fact, [])
         == Join(HeadLines(trivia, fact), "\n") + "\n" + NoRepositoriesMessage + "\n" + Join(ClosingLines, "\n")
  {
    NotesSections(trivia, fact, []);
  }

  lemma {:induction false} TextFrame(trivia: TriviaQuestion, fact: FunFact, reposText: string)
    ensures Title + "\n" <= NotesText(trivia, fact, reposText)
    ensures EndsWith(NotesText(trivia, fact, reposText), "\n" + Join(Instructions, "\n"))
  {
    var lines := NotesLines(trivia, fact, reposText);
    assert lines == [Title] + lines[1..];
    JoinCons(Title, lines[1..], "\n");
    assert lines == lines[..13] + Instructions;
    JoinAppend(lines[..13], Instructions, "\n");
  }

  /** The notes open with the title line and close with the three
      instruction lines, whatever the inputs. */
  lemma NotesFrame(trivia: TriviaQuestion, fact: FunFact, repos: seq<RepoEntry>)
    ensures Title + "\n" <= FormatMeetingNotes(trivia, fact, repos)
    ensures EndsWith(FormatMeetingNotes(trivia, fact, repos), "\n" + Join(Instructions, "\n"))
  {
    TextFrame(trivia, fact, TrendingReposForNotes(repos));
  }

  lemma {:induction false} TextTriviaLines(trivia: TriviaQuestion, fact: FunFact, r: string)
    ensures var lines := NotesLines(trivia, fact, r);
      NotesText(trivia, fact, r)
        == Join(lines[..3], "\n") + "\n" + ("Q: " + trivia.question) + "\n" + ("A: " + trivia.correctAnswer)
           + "\n" + Join(lines[5..], "\n")
      && EndsWith(Join(lines[..3], "\n"), "Ice Breaker - Tech Trivia:")
  {
    var lines := NotesLines(trivia, fact, r);
    JoinAround(lines, 3, "\n");
    JoinCons(lines[4], lines[5..], "\n");
    assert lines[4..] == [lines[4]] + lines[5..];
    JoinEndsWithLast(lines[..3], "\n");
  }

  /** The trivia question and its answer are the two lines right after
      "Ice Breaker - Tech Trivia:", prefixed `Q: ` and `A: `. */
  lemma TriviaFollowsHeading(trivia: TriviaQuestion, fact: FunFact, repos: seq<RepoEntry>)
    ensures var lines := NotesLines(trivia, fact, TrendingReposForNotes(repos));
      FormatMeetingNotes(trivia, fact, repos)
        == Join(lines[..3], "\n") + "\n" + ("Q: " + trivia.question) + "\n" + ("A: " + trivia.correctAnswer)
           + "\n" + Join(lines[5..], "\n")
      && EndsWith(Join(lines[..3], "\n"), "Ice Breaker - Tech Trivia:")
  {
    TextTriviaLines(trivia, fact, TrendingReposForNotes(repos));
  }

  lemma {:induction false} TextFactLine(trivia: TriviaQuestion, fact: FunFact, r: string)
    ensures var lines := NotesLines(trivia, fact, r);
      NotesText(trivia, fact, r) == Join(lines[..7], "\n") + "\n" + fact.text + "\n" + Join(lines[8..], "\n")
      && EndsWith(Join(lines[..7], "\n"), "Fun Fact to Share:")
  {
    var lines := NotesLines(trivia, fact, r);
    JoinAround(lines, 7, "\n");
    JoinEndsWithLast(lines[..7], "\n");
  }

  /** The fun fact's text is, verbatim, the line right after "Fun Fact to Share:". */
  lemma FactFollowsHeading(trivia: TriviaQuestion, fact: FunFact, repos: seq<RepoEntry>)
    ensures var lines := NotesLines(trivia, fact, TrendingReposForNotes(repos));
      FormatMeetingNotes(trivia, fact, repos) == Join(lines[..7], "\n") + "\n" + fact.text + "\n" + Join(lines[8..], "\n")
      && EndsWith(Join(lines[..7], "\n"), "Fun Fact to Share:")
  {
    TextFactLine(trivia, fact, TrendingReposForNotes(repos));
  }

  // ---------------------------------------------------------------------
  // The formatter applied to whatever Python value it is handed
  // ---------------------------------------------------------------------

  /** A Python value where the formatter expects a `T`: the expected object,
      or a bare `str` such as a placeholder message. */
  datatype Arg<+T> = Value(v: T) | Text(s: string)

  /** What `for repo in trending_repos[:3]` sees: a string iterates as its
      one-character strings, which the formatter renders as non-dict entries. */
  function ReposArgEntries(repos: Arg<seq<RepoEntry>>): (entries: seq<RepoEntry>)
    ensures repos.Value? ==> entries == repos.v
    ensures repos.Text? ==>
      |entries| == |repos.s| && forall i :: 0 <= i < |entries| ==> entries[i] == Plain([repos.s[i]])
  {
    match repos
    case Value(list) => list
    case Text(s) => seq(|s|, i requires 0 <= i < |s| => Plain([s[i]]))
  }

  /** `format_meeting_notes` on arbitrary arguments: reading `.question` of a
      string or `.text` of a string raises `AttributeError`, which is an
      `Error` here; a string in place of the repository list is iterated
      character by character. */
  function FormatMeetingNotesArgs(trivia: Arg<TriviaQuestion>, fact: Arg<FunFact>, repos: Arg<seq<RepoEntry>>)
    : (r: Outcome<string>)
    ensures r.Ok? <==> trivia.Value? && fact.Value?
    ensures r.Ok? ==> r.value == FormatMeetingNotes(trivia.v, fact.v, ReposArgEntries(repos))
    ensures !r.Ok? ==> r == Error
  {
    match (trivia, fact)
    case (Value(t), Value(f)) => Ok(FormatMeetingNotes(t, f, ReposArgEntries(repos)))
    case _ => Error
  }

  /** A placeholder string in place of the list shows its first three
      characters as bullets. */
  lemma PlaceholderReposSection(s: string)
    requires |s| >= 3
    ensures TrendingReposForNotes(ReposArgEntries(Text(s)))
         == Bullet + [s[0]] + "\n" + Bullet + [s[1]] + "\n" + Bullet + [s[2]]
  {
    var entries := ReposArgEntries(Text(s));
    var lines := NotesEntries(entries);
    assert lines == [Bullet + [s[0]], Bullet + [s[1]], Bullet + [s[2]]];
    JoinCons(lines[0], lines[1..], "\n");
    assert lines[1..] == [lines[1]] + [lines[2]];
    JoinCons(lines[1], [lines[2]], "\n");
  }
}
