/** `RepositoryFormatter`: the two renderings of a trending-repository list,
    a dense one for an LLM prompt and a bulleted one for meeting notes. */
module RepositoryFormatter {
  import opened Wrappers
  import opened Strings

  /** One element of the list handed to the formatters. A repository dict is
      read with `get(key, default)`: a missing `name` is `None` here, and for
      the other keys a missing field reads as `''`, exactly like an empty one.
      Any other element (the older all-strings format) is `Plain`, shown
      through `str()`. */
  datatype RepoEntry =
    | Dict(name: Option<string>, description: string, language: string, stars: string, url: string)
    | Plain(text: string)

  const NoRepositoriesMessage: string := "No trending repositories available at the moment."
  const LlmSeparator: string := "\n   - "
  const NotesSeparator: string := "\n"
  const Bullet: string := "\U{2022} "
  const Star: string := "\U{2B50}"
  /** The formatters render at most this many entries. */
  const Shown: nat := 3

  function DisplayName(name: Option<string>): string
  {
    match name
    case Some(n) => n
    case None => "Unknown"
  }

  /** Stars are shown when the value is truthy and not the string `'0'`. */
  predicate ShowsStars(stars: string)
  {
    stars != "" && stars != "0"
  }

  function DescriptionFragment(description: string): string
  {
    if description != "" then " - " + description else ""
  }

  function LanguageFragment(language: string): string
  {
    if language != "" then " (" + language + ")" else ""
  }

  function StarsFragment(stars: string): string
  {
    if ShowsStars(stars) then " " + Star + " " + stars else ""
  }

  function UrlFragment(url: string): string
  {
    if url != "" then " - " + url else ""
  }

  /** The optional fragments that follow a repository's name. */
  function Fragments(description: string, language: string, stars: string, url: string): string
  {
    DescriptionFragment(description) + LanguageFragment(language) + StarsFragment(stars) + UrlFragment(url)
  }

  /** One entry as `format_trending_repos_for_llm` renders it. */
  function LlmEntry(repo: RepoEntry): string
  {
    match repo
    case Dict(n, d, l, s, u) => "**" + DisplayName(n) + "**" + Fragments(d, l, s, u)
    case Plain(t) => t
  }

  /** One entry as `format_trending_repos_for_notes` renders it. */
  function NotesEntry(repo: RepoEntry): string
  {
    match repo
    case Dict(n, d, l, s, u) => Bullet + DisplayName(n) + Fragments(d, l, s, u)
    case Plain(t) => Bullet + t
  }

  /** `trending_repos[:3]`. */
  function TopThree(repos: seq<RepoEntry>): (top: seq<RepoEntry>)
    ensures |top| == if |repos| < Shown then |repos| else Shown
    ensures top <= repos
  {
    if |repos| <= Shown then repos else repos[..Shown]
  }

  function LlmEntries(repos: seq<RepoEntry>): seq<string>
  {
    var top := TopThree(repos);
    seq(|top|, i requires 0 <= i < |top| => LlmEntry(top[i]))
  }

  function NotesEntries(repos: seq<RepoEntry>): seq<string>
  {
    var top := TopThree(repos);
    seq(|top|, i requires 0 <= i < |top| => NotesEntry(top[i]))
  }

  /** What `format_trending_repos_for_llm` returns. */
  function TrendingReposForLlm(repos: seq<RepoEntry>): (text: string)
    ensures repos == [] ==> text == NoRepositoriesMessage
    ensures repos != [] ==> LlmEntry(repos[0]) <= text
  {
    if |repos| == 0 then NoRepositoriesMessage
    else
      JoinStartsWithFirst(LlmEntries(repos), LlmSeparator);
      Join(LlmEntries(repos), LlmSeparator)
  }

  /** What `format_trending_repos_for_notes` returns. */
  function TrendingReposForNotes(repos: seq<RepoEntry>): (text: string)
    ensures repos == [] ==> text == NoRepositoriesMessage
    ensures repos != [] ==> NotesEntry(repos[0]) <= text
  {
    if |repos| == 0 then NoRepositoriesMessage
    else
      JoinStartsWithFirst(NotesEntries(repos), NotesSeparator);
      Join(NotesEntries(repos), NotesSeparator)
  }

  /** The chain of `repo_info += ...` steps shared by both formatters. */
  method AppendFragments(head: string, description: string, language: string, stars: string, url: string)
    returns (info: string)
    ensures info == head + Fragments(description, language, stars, url)
  {
    info := head;
    if description != "" {
      info := info + (" - " + description);
    }
    assert info == head + DescriptionFragment(description);
    if language != "" {
      info := info + (" (" + language + ")");
    }
    assert info == head + DescriptionFragment(description) + LanguageFragment(language);
    if stars != "" && stars != "0" {
      info := info + (" " + Star + " " + stars);
    }
    assert info == head + DescriptionFragment(description) + LanguageFragment(language) + StarsFragment(stars);
    if url != "" {
      info := info + (" - " + url);
    }
    assert info == head + DescriptionFragment(description) + LanguageFragment(language) + StarsFragment(stars)
      + UrlFragment(url);
    FragmentsAfter(head, description, language, stars, url);
  }

  lemma FragmentsAfter(head: string, description: string, language: string, stars: string, url: string)
    ensures head + DescriptionFragment(description) + LanguageFragment(language) + StarsFragment(stars)
      + UrlFragment(url) == head + Fragments(description, language, stars, url)
  {
    ConcatAssociates(head, DescriptionFragment(description), LanguageFragment(language),
      StarsFragment(stars), UrlFragment(url));
  }

  lemma ConcatAssociates(h: string, a: string, b: string, c: string, d: string)
    ensures h + a + b + c + d == h + (a + b + c + d)
  {
  }

  /** `RepositoryFormatter.format_trending_repos_for_llm`. */
  method FormatTrendingReposForLlm(repos: seq<RepoEntry>) returns (text: string)
    ensures text == TrendingReposForLlm(repos)
  {
    if |repos| == 0 {
      return NoRepositoriesMessage;
    }
    var formatted: seq<string> := [];
    var top := TopThree(repos);
    for i := 0 to |top|
      invariant |formatted| == i
      invariant forall k :: 0 <= k < i ==> formatted[k] == LlmEntry(top[k])
    {
      var repoInfo: string;
      match top[i] {
        case Dict(name, description, language, stars, url) =>
          repoInfo := AppendFragments("**" + DisplayName(name) + "**", description, language, stars, url);
        case Plain(t) =>
          repoInfo := t;
      }
      formatted := formatted + [repoInfo];
    }
    assert formatted == LlmEntries(repos);
    text := Join(formatted, LlmSeparator);
  }

  /** `RepositoryFormatter.format_trending_repos_for_notes`. */
  method FormatTrendingReposForNotes(repos: seq<RepoEntry>) returns (text: string)
    ensures text == TrendingReposForNotes(repos)
  {
    if |repos| == 0 {
      return NoRepositoriesMessage;
    }
    var formatted: seq<string> := [];
    var top := TopThree(repos);
    for i := 0 to |top|
      invariant |formatted| == i
      invariant forall k :: 0 <= k < i ==> formatted[k] == NotesEntry(top[k])
    {
      var repoInfo: string;
      match top[i] {
        case Dict(name, description, language, stars, url) =>
          repoInfo := AppendFragments(Bullet + DisplayName(name), description, language, stars, url);
        case Plain(t) =>
          repoInfo := Bullet + t;
      }
      formatted := formatted + [repoInfo];
    }
    assert formatted == NotesEntries(repos);
    text := Join(formatted, NotesSeparator);
  }

  // ---------------------------------------------------------------------
  // Properties of the two renderings
  // ---------------------------------------------------------------------

  /** An empty list gives the same fixed message in both renderings. */
  lemma EmptyListMessage()
    ensures TrendingReposForLlm([]) == NoRepositoriesMessage
    ensures TrendingReposForNotes([]) == NoRepositoriesMessage
  {
  }

  /** Entries from index 3 on never contribute: two lists that agree on their
      first three entries render identically. */
  lemma OnlyFirstThreeRendered(a: seq<RepoEntry>, b: seq<RepoEntry>)
    requires |a| >= Shown && |b| >= Shown && a[..Shown] == b[..Shown]
    ensures TrendingReposForLlm(a) == TrendingReposForLlm(b)
    ensures TrendingReposForNotes(a) == TrendingReposForNotes(b)
  {
    assert TopThree(a) == TopThree(b);
  }

  /** The entries of the notes rendering are exactly the lines of its output,
      in input order, when no rendered field holds a newline. */
  lemma NotesLinesAreEntries(repos: seq<RepoEntry>)
    requires repos != []
    requires forall i :: 0 <= i < |repos| && i < Shown ==> '\n' !in NotesEntry(repos[i])
    ensures Split(TrendingReposForNotes(repos), '\n') == NotesEntries(repos)
    ensures |NotesEntries(repos)| == if |repos| < Shown then |repos| else Shown
    ensures forall i :: 0 <= i < |NotesEntries(repos)| ==> NotesEntries(repos)[i] == NotesEntry(repos[i])
  {
    var top := TopThree(repos);
    assert forall i :: 0 <= i < |top| ==> top[i] == repos[i];
    SplitJoinRoundTrip(NotesEntries(repos), '\n');
  }

  /** Every notes entry is a bullet line. */
  lemma NotesEntryIsBullet(repo: RepoEntry)
    ensures Bullet <= NotesEntry(repo)
  {
    match repo
    case Dict(n, d, l, s, u) =>
      var head := Bullet + DisplayName(n);
      assert NotesEntry(repo) == head + Fragments(d, l, s, u);
      assert Bullet <= head;
    case Plain(t) =>
  }

  /** A dict entry of the LLM rendering opens with its name in bold; a
      missing name is shown as `Unknown`. */
  lemma LlmEntryOpensWithBoldName(repo: RepoEntry)
    requires repo.Dict?
    ensures "**" + DisplayName(repo.name) + "**" <= LlmEntry(repo)
    ensures repo.name.None? ==> "**Unknown**" <= LlmEntry(repo)
  {
    var head := "**" + DisplayName(repo.name) + "**";
    assert LlmEntry(repo) == head + Fragments(repo.description, repo.language, repo.stars, repo.url);
  }

  /** A dict entry of the notes rendering opens with a bullet and its name;
      a missing name is shown as `Unknown`. */
  lemma NotesEntryOpensWithName(repo: RepoEntry)
    requires repo.Dict?
    ensures Bullet + DisplayName(repo.name) <= NotesEntry(repo)
    ensures repo.name.None? ==> Bullet + "Unknown" <= NotesEntry(repo)
  {
    var head := Bullet + DisplayName(repo.name);
    assert NotesEntry(repo) == head + Fragments(repo.description, repo.language, repo.stars, repo.url);
  }

  /** Both renderings of a dict entry carry the same fragments after the
      name: they differ in the head only. */
  lemma RenderingsShareFragments(repo: RepoEntry)
    requires repo.Dict?
    ensures var n := DisplayName(repo.name);
      NotesEntry(repo)[|Bullet| + |n|..] == LlmEntry(repo)[|n| + 4..]
  {
    var n := DisplayName(repo.name);
    var f := Fragments(repo.description, repo.language, repo.stars, repo.url);
    assert NotesEntry(repo) == (Bullet + n) + f;
    assert LlmEntry(repo) == ("**" + n + "**") + f;
  }

  /** A non-dict entry is its own `str()`, with a bullet in the notes. */
  lemma PlainEntries(t: string)
    ensures LlmEntry(Plain(t)) == t
    ensures NotesEntry(Plain(t)) == Bullet + t
  {
  }

  /** No fragment at all exactly when every optional field is empty, the
      stars being empty or `'0'`. */
  lemma FragmentsEmptyIff(description: string, language: string, stars: string, url: string)
    ensures Fragments(description, language, stars, url) == ""
        <==> description == "" && language == "" && (stars == "" || stars == "0") && url == ""
  {
  }

  /** The fragments come in the fixed order description, language, stars,
      url: a description opens them and a url closes them; stars of `'0'`
      are the same as no stars. */
  lemma FragmentsOrder(description: string, language: string, stars: string, url: string)
    ensures description != "" ==> " - " + description <= Fragments(description, language, stars, url)
    ensures url != "" ==> EndsWith(Fragments(description, language, stars, url), " - " + url)
    ensures ShowsStars(stars) && url == "" ==> EndsWith(Fragments(description, language, stars, url), " " + Star + " " + stars)
    ensures Fragments(description, language, "0", url) == Fragments(description, language, "", url)
  {
    var d := DescriptionFragment(description);
    var l := LanguageFragment(language);
    var s := StarsFragment(stars);
    var u := UrlFragment(url);
    assert Fragments(description, language, stars, url) == d + (l + s + u);
    if url == "" {
      assert Fragments(description, language, stars, url) == (d + l) + s;
    }
  }

  /** Indenting every part but the first by `t` turns the composite
      separator `[c] + t` into the single character `c`. */
  function Indented(parts: seq<string>, t: string): seq<string>
  {
    seq(|parts|, i requires 0 <= i < |parts| => if i == 0 then parts[i] else t + parts[i])
  }

  lemma {:induction false} JoinIndented(parts: seq<string>, c: char, t: string)
    requires parts != []
    ensures Join(parts, [c] + t) == Join(Indented(parts, t), [c])
  {
    if |parts| > 1 {
      JoinIndented(parts[1..], c, t);
      var rest := Indented(parts[1..], t);
      var whole := Indented(parts, t);
      assert whole[1..] == [t + parts[1]] + rest[1..];
      assert Join(whole[1..], [c]) == t + Join(rest, [c]) by {
        if |rest| == 1 {
        } else {
          JoinCons(t + parts[1], rest[1..], [c]);
          JoinCons(parts[1], rest[1..], [c]);
          assert rest == [parts[1]] + rest[1..];
        }
      }
    }
  }

  /** The LLM rendering puts each entry on its own line, every line after
      the first indented as a `   - ` list item, when no entry holds a
      newline. */
  lemma LlmLinesAreIndentedEntries(repos: seq<RepoEntry>)
    requires repos != []
    requires forall i :: 0 <= i < |repos| && i < Shown ==> '\n' !in LlmEntry(repos[i])
    ensures Split(TrendingReposForLlm(repos), '\n') == Indented(LlmEntries(repos), "   - ")
  {
    var top := TopThree(repos);
    assert forall i :: 0 <= i < |top| ==> top[i] == repos[i];
    JoinIndented(LlmEntries(repos), '\n', "   - ");
    assert LlmSeparator == ['\n'] + "   - ";
    var lines := Indented(LlmEntries(repos), "   - ");
    forall i | 0 <= i < |lines| ensures '\n' !in lines[i] {
      if i > 0 {
        assert lines[i] == "   - " + LlmEntries(repos)[i];
      }
    }
    SplitJoinRoundTrip(lines, '\n');
  }
}
