/**
 * Fetching the issues or merge requests created in one calendar year and
 * projecting each record to its id, title and creation time.
 *
 * The upstream is a function from the query sent to the listing it answers
 * with; `Fetch` states the flow and `GetGitLabData` runs it with the
 * projection loop, proved to agree with `Fetch`.
 */
module Fetch {
  import opened Wrappers
  import Decimal

  /** A record of the listing as decoded; any field may be absent. */
  datatype Record = Record(id: Option<int>, title: Option<string>, createdAt: Option<string>)

  /** The reduced record the service returns. */
  datatype Summary = Summary(id: int, title: string, createdAt: string)

  /** GET /<endpoint>?created_after=...&created_before=...&scope=... */
  datatype Query = Query(endpoint: string, createdAfter: string, createdBefore: string, scope: string)

  /** The upstream's reply to a query: a status and the decoded records, or no reply at all. */
  datatype Listing = Listing(status: int, records: seq<Record>) | Unreachable

  /** The kind of body the service replies with. */
  datatype Body =
    | Summaries(items: seq<Summary>)
    | InvalidType      // the type is neither "issues" nor "mr"
    | UpstreamError    // the listing answered with a non-200 status
    | MissingId        // some record has no id
    | NetworkError     // the listing got no answer

  datatype Fetched = Fetched(body: Body, status: int)

  /** The record types a caller may ask for. */
  const TYPES: seq<string> := ["issues", "mr"]

  /** The lower bound of the window: the first second of the year. */
  function CreatedAfter(year: int): string {
    Decimal.Show(year) + "-01-01T00:00:00Z"
  }

  /** The upper bound of the window: the last second of the year. */
  function CreatedBefore(year: int): string {
    Decimal.Show(year) + "-12-31T23:59:59Z"
  }

  /** Both bounds name the year they were built from, and it reads back from them. */
  lemma WindowNamesItsYear(year: int)
    ensures Decimal.ReadInt(CreatedAfter(year)) == year
    ensures Decimal.ReadInt(CreatedBefore(year)) == year
  {
    Decimal.ReadShow(year, "-01-01T00:00:00Z");
    Decimal.ReadShow(year, "-12-31T23:59:59Z");
  }

  /** Distinct years give distinct windows. */
  lemma WindowsOfDistinctYearsDiffer(year1: int, year2: int)
    requires year1 != year2
    ensures CreatedAfter(year1) != CreatedAfter(year2)
    ensures CreatedBefore(year1) != CreatedBefore(year2)
  {
    WindowNamesItsYear(year1);
    WindowNamesItsYear(year2);
  }

  /** The query sent for a record type and a year, or None when the type is not valid. */
  function QueryFor(dataType: string, year: int): (q: Option<Query>)
    ensures dataType !in TYPES <==> q.None?
    ensures dataType == "mr" ==> q == Some(Query("merge_requests", CreatedAfter(year), CreatedBefore(year), "all"))
    ensures dataType == "issues" ==> q == Some(Query("issues", CreatedAfter(year), CreatedBefore(year), "all"))
  {
    if dataType !in TYPES then None
    else
      var endpoint := if dataType == "mr" then "merge_requests" else "issues";
      Some(Query(endpoint, CreatedAfter(year), CreatedBefore(year), "all"))
  }

  function OrEmpty(field: Option<string>): (v: string)
    ensures field.Some? ==> v == field.value
    ensures field.None? ==> v == ""
  {
    match field
    case Some(text) => text
    case None => ""
  }

  /** The summary of one record that has an id; an absent title or creation time becomes "". */
  function Summarize(r: Record): (e: Summary)
    requires r.id.Some?
    ensures e.id == r.id.value
    ensures r.title.Some? ==> e.title == r.title.value
    ensures r.title.None? ==> e.title == ""
    ensures r.createdAt.Some? ==> e.createdAt == r.createdAt.value
    ensures r.createdAt.None? ==> e.createdAt == ""
  {
    Summary(r.id.value, OrEmpty(r.title), OrEmpty(r.createdAt))
  }

  /**
   * The projection of a whole listing: one summary per record, in the same order,
   * or None as soon as one record has no id.
   */
  function Project(records: seq<Record>): (r: Option<seq<Summary>>)
    ensures r.Some? <==> forall i :: 0 <= i < |records| ==> records[i].id.Some?
    ensures r.Some? ==> |r.value| == |records|
    ensures r.Some? ==> forall i :: 0 <= i < |records| ==> r.value[i] == Summarize(records[i])
  {
    if records == [] then Some([])
    else if records[0].id.None? then None
    else match Project(records[1..])
      case None => None
      case Some(rest) => Some([Summarize(records[0])] + rest)
  }

  /** The whole fetch flow: type validation, the query, the status check and the projection. */
  function Fetch(dataType: string, year: int, upstream: Query -> Listing): Fetched {
    match QueryFor(dataType, year)
    case None => Fetched(InvalidType, 400)
    case Some(q) =>
      match upstream(q)
      case Unreachable => Fetched(NetworkError, 503)
      case Listing(status, records) =>
        if status != 200 then Fetched(UpstreamError, status)
        else match Project(records)
          case None => Fetched(MissingId, 500)
          case Some(items) => Fetched(Summaries(items), 200)
  }

  /** The projection loop: builds the summaries one record at a time, stopping at the first record without an id. */
  method ProjectRecords(data: seq<Record>) returns (r: Option<seq<Summary>>)
    ensures r == Project(data)
  {
    var result: seq<Summary> := [];
    var i := 0;
    while i < |data|
      invariant 0 <= i <= |data|
      invariant forall j :: 0 <= j < i ==> data[j].id.Some?
      invariant |result| == i
      invariant forall j :: 0 <= j < i ==> result[j] == Summarize(data[j])
    {
      var item := data[i];
      if item.id.None? {
        return None;
      }
      var entry := Summary(item.id.value, OrEmpty(item.title), OrEmpty(item.createdAt));
      result := result + [entry];
      i := i + 1;
    }
    assert result == Project(data).value;
    return Some(result);
  }

  /** The request handler; `sent` is the query it sends upstream, if any. */
  method GetGitLabData(dataType: string, year: int, upstream: Query -> Listing)
    returns (res: Fetched, sent: Option<Query>)
    ensures sent == QueryFor(dataType, year)
    ensures res == Fetch(dataType, year, upstream)
  {
    if dataType != "issues" && dataType != "mr" {
      return Fetched(InvalidType, 400), None;
    }
    var endpoint := if dataType == "mr" then "merge_requests" else "issues";
    var query := Query(endpoint, CreatedAfter(year), CreatedBefore(year), "all");
    sent := Some(query);
    assert sent == QueryFor(dataType, year);

    var response := upstream(query);
    if response.Unreachable? {
      return Fetched(NetworkError, 503), sent;
    }
    if response.status != 200 {
      return Fetched(UpstreamError, response.status), sent;
    }

    var summaries := ProjectRecords(response.records);
    if summaries.None? {
      return Fetched(MissingId, 500), sent;
    }
    return Fetched(Summaries(summaries.value), 200), sent;
  }

  /** A type other than "issues" or "mr" is answered 400 and no query is sent. */
  lemma UnknownTypeRejected(dataType: string, year: int, upstream: Query -> Listing)
    requires dataType != "issues" && dataType != "mr"
    ensures Fetch(dataType, year, upstream) == Fetched(InvalidType, 400)
    ensures QueryFor(dataType, year) == None
  {
  }

  /** A non-200 listing reports its own status. */
  lemma ListingErrorReported(dataType: string, year: int, upstream: Query -> Listing)
    requires QueryFor(dataType, year).Some?
    requires upstream(QueryFor(dataType, year).value).Listing?
    requires upstream(QueryFor(dataType, year).value).status != 200
    ensures Fetch(dataType, year, upstream) == Fetched(UpstreamError, upstream(QueryFor(dataType, year).value).status)
  {
  }

  /**
   * A 200 listing yields, in order, one summary per record with the record's id and
   * its title and creation time or "" where absent; a record without an id makes the
   * whole reply 500.
   */
  lemma SuccessfulListingProjected(dataType: string, year: int, upstream: Query -> Listing, records: seq<Record>)
    requires QueryFor(dataType, year).Some?
    requires upstream(QueryFor(dataType, year).value) == Listing(200, records)
    ensures var res := Fetch(dataType, year, upstream);
      && ((exists i :: 0 <= i < |records| && records[i].id.None?) <==> res == Fetched(MissingId, 500))
      && ((forall i :: 0 <= i < |records| ==> records[i].id.Some?) ==>
            res.status == 200 && res.body.Summaries? && |res.body.items| == |records|
            && forall i :: 0 <= i < |records| ==>
                 && res.body.items[i].id == records[i].id.value
                 && res.body.items[i].title == OrEmpty(records[i].title)
                 && res.body.items[i].createdAt == OrEmpty(records[i].createdAt))
  {
  }
}
