/** `GitHubTrendingService._extract_trending_repos`: the decoded JSON answer
    of the trending API turned into at most five repository records. */
module GitHubTrendingService {
  import opened Wrappers
  import opened Strings
  import opened RepositoryFormatter

  /** A decoded JSON value, as `response.json()` hands it over. */
  datatype Json =
    | JNull
    | JBool(b: bool)
    | JNum(n: int)
    | JStr(s: string)
    | JArr(items: seq<Json>)
    | JObj(fields: map<string, Json>)

  const RepoNameKey: string := "repo_name"
  const GitHubPrefix: string := "https://github.com/"
  /** Names of this length or longer fail the sanity check. */
  const MaxNameLength: nat := 100
  /** At most this many records are returned. */
  const MaxRepos: nat := 5

  /** Python truthiness. */
  predicate Truthy(j: Json)
  {
    match j
    case JNull => false
    case JBool(b) => b
    case JNum(n) => n != 0
    case JStr(s) => s != ""
    case JArr(items) => items != []
    case JObj(fields) => fields != map[]
  }

  /** `len(j)` for the values that have a length. */
  function Len(j: Json): nat
    requires j.JStr? || j.JArr? || j.JObj?
  {
    match j
    case JStr(s) => |s|
    case JArr(items) => |items|
    case JObj(fields) => |fields|
  }

  function Digits(n: nat): (s: string)
    ensures |s| >= 1
  {
    if n < 10 then ["0123456789"[n]] else Digits(n / 10) + ["0123456789"[n % 10]]
  }

  /** `str(j)` as an f-string renders it. Arrays and objects are rendered
      as a fixed marker rather than Python's `repr`. */
  function PyStr(j: Json): string
  {
    match j
    case JNull => "None"
    case JBool(b) => if b then "True" else "False"
    case JNum(n) => if n < 0 then "-" + Digits(-n) else Digits(n)
    case JStr(s) => s
    case JArr(_) => "[...]"
    case JObj(_) => "{...}"
  }

  /** One record of the result; the JSON values are kept as found. */
  datatype TrendingRepo = TrendingRepo(name: Json, description: Json, language: Json, stars: Json, url: string)

  /** What one row does to the extraction: contributes a record, is passed
      over, or raises `TypeError` (which empties the whole result). */
  datatype RowVerdict = Keep(repo: TrendingRepo) | Skip | Abort

  /** `row.get(key, default)`. */
  function Get(fields: map<string, Json>, key: string, default: Json): Json
  {
    if key in fields then fields[key] else default
  }

  /** The record built for a row whose name passed the sanity check. */
  function RepoFromRow(name: Json, fields: map<string, Json>): TrendingRepo
  {
    TrendingRepo(
      name,
      Get(fields, "description", JStr("")),
      Get(fields, "primary_language", JStr("")),
      Get(fields, "stars", JStr("0")),
      GitHubPrefix + PyStr(name))
  }

  /** `if repo_name and len(repo_name) < 100`: a falsy name is passed over,
      a truthy number or `True` has no length and raises `TypeError`. */
  function NameVerdict(name: Json, fields: map<string, Json>): RowVerdict
  {
    if !Truthy(name) then Skip
    else if name.JStr? || name.JArr? || name.JObj? then
      if Len(name) < MaxNameLength then Keep(RepoFromRow(name, fields)) else Skip
    else Abort
  }

  /** `if 'repo_name' in row` followed by `row['repo_name']`: a key test on
      an object, a membership test on an array and a substring test on a
      string; indexing an array or a string by a string, and `in` on
      `None`, a boolean or a number, raise `TypeError`. */
  function ClassifyRow(row: Json): (verdict: RowVerdict)
    ensures verdict.Keep? ==>
      && row.JObj? && RepoNameKey in row.fields
      && verdict.repo == RepoFromRow(row.fields[RepoNameKey], row.fields)
      && ValidName(row.fields[RepoNameKey])
  {
    match row
    case JObj(fields) => if RepoNameKey in fields then NameVerdict(fields[RepoNameKey], fields) else Skip
    case JArr(items) => if JStr(RepoNameKey) in items then Abort else Skip
    case JStr(s) => if Contains(s, RepoNameKey) then Abort else Skip
    case _ => Abort
  }

  function KeptOf(row: Json): seq<TrendingRepo>
  {
    match ClassifyRow(row)
    case Keep(repo) => [repo]
    case _ => []
  }

  /** The records the loop appends, in row order. */
  function Filtered(rows: seq<Json>): seq<TrendingRepo>
  {
    if rows == [] then [] else Filtered(rows[..|rows| - 1]) + KeptOf(rows[|rows| - 1])
  }

  predicate HasAbort(rows: seq<Json>)
  {
    exists i :: 0 <= i < |rows| && ClassifyRow(rows[i]).Abort?
  }

  /** `data['data']['rows']` when both levels are objects and the rows are an
      array. Every other shape yields `[]`: the `in` tests are false, or they
      or the indexing raise `TypeError`, or the loop iterates an object's
      keys or a string's characters, none of which is kept. */
  function RowsOf(data: Json): (rows: Option<seq<Json>>)
    ensures rows.Some? <==>
      data.JObj? && "data" in data.fields && data.fields["data"].JObj?
      && "rows" in data.fields["data"].fields && data.fields["data"].fields["rows"].JArr?
    ensures rows.Some? ==> rows.value == data.fields["data"].fields["rows"].items
  {
    if data.JObj? && "data" in data.fields then
      var inner := data.fields["data"];
      if inner.JObj? && "rows" in inner.fields && inner.fields["rows"].JArr? then
        Some(inner.fields["rows"].items)
      else None
    else None
  }

  function Take(repos: seq<TrendingRepo>, n: nat): (top: seq<TrendingRepo>)
    ensures |top| == if |repos| < n then |repos| else n
    ensures top <= repos
  {
    if |repos| <= n then repos else repos[..n]
  }

  /** What `_extract_trending_repos(data)` returns. */
  function Extracted(data: Json): (repos: seq<TrendingRepo>)
    ensures |repos| <= MaxRepos
    ensures forall r :: r in repos ==> ValidName(r.name) && r.url == GitHubPrefix + PyStr(r.name)
  {
    match RowsOf(data)
    case None => []
    case Some(rows) =>
      if HasAbort(rows) then []
      else
        FilteredValid(rows);
        Take(Filtered(rows), MaxRepos)
  }

  lemma FilteredSnoc(rows: seq<Json>, i: nat)
    requires i < |rows|
    ensures Filtered(rows[..i + 1]) == Filtered(rows[..i]) + KeptOf(rows[i])
  {
    assert rows[..i + 1][..i] == rows[..i];
  }

  lemma NoAbortSnoc(rows: seq<Json>, i: nat)
    requires i < |rows| && !HasAbort(rows[..i]) && !ClassifyRow(rows[i]).Abort?
    ensures !HasAbort(rows[..i + 1])
  {
    assert rows[..i + 1] == rows[..i] + [rows[i]];
  }

  /** The loop of `_extract_trending_repos`, leaving at the first row that raises. */
  method ExtractTrendingRepos(data: Json) returns (repos: seq<TrendingRepo>)
    ensures repos == Extracted(data)
  {
    var found := RowsOf(data);
    if found.None? {
      return [];
    }
    var rows := found.value;
    var kept: seq<TrendingRepo> := [];
    var i := 0;
    while i < |rows|
      invariant 0 <= i <= |rows|
      invariant !HasAbort(rows[..i])
      invariant kept == Filtered(rows[..i])
    {
      var verdict := ClassifyRow(rows[i]);
      if verdict.Abort? {
        assert ClassifyRow(rows[i]).Abort?;
        return [];
      }
      if verdict.Keep? {
        kept := kept + [verdict.repo];
      }
      FilteredSnoc(rows, i);
      NoAbortSnoc(rows, i);
      i := i + 1;
    }
    assert rows[..i] == rows;
    if kept == [] {
      return [];
    }
    if |kept| <= MaxRepos {
      repos := kept;
    } else {
      repos := kept[..MaxRepos];
    }
  }

  // ---------------------------------------------------------------------
  // Properties of the extraction
  // ---------------------------------------------------------------------

  /** A name that passes the sanity check: a non-empty string, array or
      object shorter than 100. */
  predicate ValidName(name: Json)
  {
    (name.JStr? || name.JArr? || name.JObj?) && Truthy(name) && Len(name) < MaxNameLength
  }

  /** A row is kept exactly when it is an object with a valid `repo_name`. */
  lemma KeepIff(row: Json)
    ensures ClassifyRow(row).Keep?
        <==> row.JObj? && RepoNameKey in row.fields && ValidName(row.fields[RepoNameKey])
  {
  }

  /** The record of a kept row: its name is `repo_name` unchanged, its url is
      the GitHub address of that name, `description` and `primary_language`
      default to `''` and `stars` to `'0'`. */
  lemma KeptRecord(fields: map<string, Json>)
    requires RepoNameKey in fields && ValidName(fields[RepoNameKey])
    ensures var r := ClassifyRow(JObj(fields)).repo;
      && ClassifyRow(JObj(fields)).Keep?
      && r.name == fields[RepoNameKey]
      && r.url == GitHubPrefix + PyStr(fields[RepoNameKey])
      && (fields[RepoNameKey].JStr? ==> r.url == GitHubPrefix + fields[RepoNameKey].s)
      && r.description == (if "description" in fields then fields["description"] else JStr(""))
      && r.language == (if "primary_language" in fields then fields["primary_language"] else JStr(""))
      && r.stars == (if "stars" in fields then fields["stars"] else JStr("0"))
  {
  }

  lemma {:induction false} FilteredAppend(a: seq<Json>, b: seq<Json>)
    ensures Filtered(a + b) == Filtered(a) + Filtered(b)
    decreases |b|
  {
    if b == [] {
      assert a + b == a;
    } else {
      var b' := b[..|b| - 1];
      assert (a + b)[..|a + b| - 1] == a + b';
      FilteredAppend(a, b');
      assert b[..|b| - 1] == b';
    }
  }

  /** A collected record was yielded by some row. */
  lemma {:induction false} FilteredFromRow(rows: seq<Json>, r: TrendingRepo)
    requires r in Filtered(rows)
    ensures exists j :: 0 <= j < |rows| && ClassifyRow(rows[j]) == Keep(r)
    decreases |rows|
  {
    var init, last := rows[..|rows| - 1], rows[|rows| - 1];
    assert Filtered(rows) == Filtered(init) + KeptOf(last);
    if r in Filtered(init) {
      FilteredFromRow(init, r);
      var j :| 0 <= j < |init| && ClassifyRow(init[j]) == Keep(r);
      assert rows[j] == init[j];
    } else {
      assert r in KeptOf(last);
      assert ClassifyRow(rows[|rows| - 1]) == Keep(r);
    }
  }

  /** A record yielded by a row is collected. */
  lemma {:induction false} RowInFiltered(rows: seq<Json>, j: nat, r: TrendingRepo)
    requires j < |rows| && ClassifyRow(rows[j]) == Keep(r)
    ensures r in Filtered(rows)
    decreases |rows|
  {
    var init, last := rows[..|rows| - 1], rows[|rows| - 1];
    assert Filtered(rows) == Filtered(init) + KeptOf(last);
    if j < |init| {
      assert init[j] == rows[j];
      RowInFiltered(init, j, r);
    } else {
      assert KeptOf(last) == [r];
    }
  }

  /** A record is in the filtered list exactly when some row yields it. */
  lemma FilteredMembership(rows: seq<Json>, r: TrendingRepo)
    ensures r in Filtered(rows) <==> exists j :: 0 <= j < |rows| && ClassifyRow(rows[j]) == Keep(r)
  {
    if r in Filtered(rows) {
      FilteredFromRow(rows, r);
    }
    if exists j :: 0 <= j < |rows| && ClassifyRow(rows[j]) == Keep(r) {
      var j :| 0 <= j < |rows| && ClassifyRow(rows[j]) == Keep(r);
      RowInFiltered(rows, j, r);
    }
  }

  /** Every record of the filtered list passed the sanity check and carries
      the url of its name. */
  lemma {:induction false} FilteredValid(rows: seq<Json>)
    ensures forall r :: r in Filtered(rows) ==> ValidName(r.name) && r.url == GitHubPrefix + PyStr(r.name)
    decreases |rows|
  {
    if rows != [] {
      FilteredValid(rows[..|rows| - 1]);
    }
  }

  /** The result is `[]` unless the answer has the `data.rows` array. */
  lemma NoRowsNoRepos(data: Json)
    ensures RowsOf(data).None? ==> Extracted(data) == []
  {
  }

  /** One row that raises `TypeError` empties the result, whatever the others hold. */
  lemma AbortEmpties(data: Json, i: nat)
    requires RowsOf(data).Some? && i < |RowsOf(data).value|
    requires ClassifyRow(RowsOf(data).value[i]).Abort?
    ensures Extracted(data) == []
  {
  }

  /** A string row mentioning `repo_name` is such a row. */
  lemma StringRowAborts(s: string)
    requires Contains(s, RepoNameKey)
    ensures ClassifyRow(JStr(s)).Abort?
  {
  }

  /** At most five records, an order-preserving prefix of the kept rows,
      exactly five when five or more rows are kept. */
  lemma ExtractedPrefix(data: Json)
    ensures |Extracted(data)| <= MaxRepos
    ensures RowsOf(data).Some? && !HasAbort(RowsOf(data).value) ==>
      Extracted(data) <= Filtered(RowsOf(data).value)
      && (|Filtered(RowsOf(data).value)| >= MaxRepos ==> |Extracted(data)| == MaxRepos)
      && (|Filtered(RowsOf(data).value)| < MaxRepos ==> Extracted(data) == Filtered(RowsOf(data).value))
  {
  }

  /** Each returned record comes from a row of the answer and is valid. */
  lemma ExtractedFromRows(data: Json, r: TrendingRepo)
    requires r in Extracted(data)
    ensures RowsOf(data).Some?
    ensures exists j :: 0 <= j < |RowsOf(data).value| && ClassifyRow(RowsOf(data).value[j]) == Keep(r)
    ensures ValidName(r.name) && r.url == GitHubPrefix + PyStr(r.name)
  {
    var rows := RowsOf(data).value;
    assert r in Filtered(rows);
    FilteredMembership(rows, r);
    FilteredValid(rows);
  }

  // ---------------------------------------------------------------------
  // The service call and the records as the formatter sees them
  // ---------------------------------------------------------------------

  /** `get_trending_repos` over the outcome of the HTTP request: a decoded
      answer is extracted; a client error, a bad status or a decoding error
      re-raises as `ValueError`, a timeout as itself. */
  function GetTrendingRepos(response: Outcome<Json>): (r: Outcome<seq<TrendingRepo>>)
    ensures r.Ok? <==> response.Ok?
    ensures r.Ok? ==> r.value == Extracted(response.value) && |r.value| <= MaxRepos
  {
    ExtractedPrefix(if response.Ok? then response.value else JNull);
    match response
    case Ok(data) => Ok(Extracted(data))
    case Timeout => Timeout
    case Error => Error
  }

  /** A field as an optional fragment sees it: falsy values are left out,
      others are rendered with `str`. */
  function FieldText(j: Json): string
  {
    if Truthy(j) then PyStr(j) else ""
  }

  /** A record as the repository formatter reads it. The record always has
      its name, so the formatter never shows "Unknown". */
  function AsRepoEntry(repo: TrendingRepo): (entry: RepoEntry)
    ensures entry.Dict? && entry.name == Some(PyStr(repo.name)) && entry.url == repo.url
  {
    Dict(Some(PyStr(repo.name)), FieldText(repo.description), FieldText(repo.language), FieldText(repo.stars), repo.url)
  }

  function AsRepoEntries(repos: seq<TrendingRepo>): (entries: seq<RepoEntry>)
    ensures |entries| == |repos|
    ensures forall i :: 0 <= i < |repos| ==> entries[i] == AsRepoEntry(repos[i])
  {
    seq(|repos|, i requires 0 <= i < |repos| => AsRepoEntry(repos[i]))
  }

  lemma {:induction false} DigitsNoLeadingZero(n: nat)
    requires n > 0
    ensures Digits(n)[0] != '0'
  {
    if n >= 10 {
      DigitsNoLeadingZero(n / 10);
    }
  }

  lemma PyStrTruthy(j: Json)
    requires Truthy(j)
    ensures PyStr(j) != ""
    ensures PyStr(j) == "0" ==> j == JStr("0")
  {
    if j.JNum? && j.n > 0 {
      DigitsNoLeadingZero(j.n);
    }
  }

  /** On a record, the formatter's tests agree with Python's on the JSON
      values: a fragment appears exactly when its field is truthy, and stars
      exactly when they are also not the string `'0'`. */
  lemma EntryFragments(repo: TrendingRepo)
    ensures var e := AsRepoEntry(repo);
      && (e.description != "" <==> Truthy(repo.description))
      && (e.language != "" <==> Truthy(repo.language))
      && (ShowsStars(e.stars) <==> Truthy(repo.stars) && repo.stars != JStr("0"))
  {
    if Truthy(repo.description) { PyStrTruthy(repo.description); }
    if Truthy(repo.language) { PyStrTruthy(repo.language); }
    if Truthy(repo.stars) { PyStrTruthy(repo.stars); }
  }
}
