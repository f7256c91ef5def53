/** `FunFactsService.get_fun_fact`: the answer of `_make_request`, a fact
    built from a dict, or the fallback, which cannot be built. */
module FunFactsService {
  import opened Wrappers
  import opened Schemas
  import opened Services

  /** The shapes `get_fun_fact` distinguishes: an object with a `text`
      attribute (a validated `FunFact`), a dict of string fields, or anything
      else. */
  datatype FactResponse =
    | FactObject(fact: FunFact)
    | FactDict(entries: map<string, string>)
    | OtherFactResponse

  /** The fields `FunFact` requires; `source_url` is also its alias. */
  const RequiredFields: set<string> := {"id", "text", "source", "source_url", "language", "permalink"}

  /** `FunFact(**fields)`: extra keys are ignored, a missing required field
      raises `ValidationError`. */
  function BuildFunFact(entries: map<string, string>): (r: Outcome<FunFact>)
    ensures r.Ok? <==> RequiredFields <= entries.Keys
    ensures !r.Ok? ==> r == Error
    ensures r.Ok? ==>
      && r.value.id == entries["id"] && r.value.text == entries["text"]
      && r.value.source == entries["source"] && r.value.sourceUrl == entries["source_url"]
      && r.value.language == entries["language"] && r.value.permalink == entries["permalink"]
  {
    if RequiredFields <= entries.Keys then
      Ok(FunFact(entries["id"], entries["text"], entries["source"], entries["source_url"],
                 entries["language"], entries["permalink"]))
    else Error
  }

  const FallbackText: string := "The average person spends 6 months of their life waiting for red lights."

  /** The one field `_get_fallback_data` passes to `FunFact`. */
  const FallbackFields: map<string, string> := map["text" := FallbackText]

  /** `_get_fallback_data()`: building the fact from its fields. */
  function FallbackFunFact(): (r: Outcome<FunFact>)
    ensures r == Error
  {
    assert "id" !in FallbackFields.Keys;
    BuildFunFact(FallbackFields)
  }

  /** The fallback supplies `text` only, so its construction fails. */
  lemma FallbackFails()
    ensures FallbackFunFact() == Error
    ensures RequiredFields - FallbackFields.Keys == {"id", "source", "source_url", "language", "permalink"}
  {
    assert "id" !in FallbackFields.Keys;
  }

  /** The response-shape selection of `get_fun_fact`. */
  function SelectFunFact(response: FactResponse): (r: Outcome<FunFact>)
    ensures response.FactObject? ==> r == Ok(response.fact)
    ensures response.FactDict? && "text" in response.entries && response.entries["text"] != ""
            ==> r == BuildFunFact(response.entries)
    ensures !response.FactObject? && !(response.FactDict? && "text" in response.entries && response.entries["text"] != "")
            ==> r == Error
  {
    match response
    case FactObject(fact) => Ok(fact)
    case FactDict(entries) =>
      if "text" in entries && entries["text"] != "" then BuildFunFact(entries) else FallbackFunFact()
    case OtherFactResponse => FallbackFunFact()
  }

  /** A fact comes out exactly for an object, or a dict with a non-empty
      `text` and every required field; a dict's fact carries its text. */
  lemma SelectFunFactIff(response: FactResponse)
    ensures SelectFunFact(response).Ok? <==>
      response.FactObject?
      || (response.FactDict? && "text" in response.entries && response.entries["text"] != ""
          && RequiredFields <= response.entries.Keys)
    ensures response.FactDict? && SelectFunFact(response).Ok? ==>
      SelectFunFact(response).value.text == response.entries["text"] != ""
  {
    FallbackFails();
  }

  /** The fallback data as `_make_request` produces it. */
  function FallbackResponse(): Outcome<FactResponse>
  {
    match FallbackFunFact()
    case Ok(fact) => Ok(FactObject(fact))
    case Timeout => Timeout
    case Error => Error
  }

  /** `get_fun_fact` end to end: `_make_request(FunFact)`, whose except
      handlers call the fallback, then the selection. */
  function GetFunFact(fetch: Fetch<FactResponse>): (r: Outcome<FunFact>)
    ensures fetch.FetchFailed? ==> r == Error
    ensures fetch.Fetched? ==> r == SelectFunFact(fetch.data)
  {
    match MakeRequest(fetch, FallbackResponse())
    case Ok(response) => SelectFunFact(response)
    case Timeout => Timeout
    case Error => Error
  }

  /** Every failed request makes `get_fun_fact` raise, and a validated fact
      comes through unchanged. */
  lemma {:induction false} FetchFailureRaises(fetch: Fetch<FactResponse>)
    ensures fetch.FetchFailed? ==> GetFunFact(fetch) == Error
    ensures fetch.Fetched? ==> GetFunFact(fetch) == SelectFunFact(fetch.data)
    ensures fetch.Fetched? && fetch.data.FactObject? ==> GetFunFact(fetch) == Ok(fetch.data.fact)
  {
    FallbackFails();
  }
}
