/** Paged scrapers, run against the job boards' observed paging. */
module Scrapers {
  import opened Common
  import opened Jobs
  import opened Sources

  /** What a scraper stamps on its jobs. */
  datatype Origin = Origin(id: SourceKey, name: string, company: Option<string>)

  // ---- Workday ---------------------------------------------------------------------

  /** A posting of the site; `NotADict` stands for a JSON value of another type. */
  datatype Posting =
    | Posting(bulletFields: seq<string>, externalPath: string, title: Option<string>,
              locationsText: Option<string>, postedOn: Option<string>)
    | NotADict

  const PAGE_SIZE: nat := 20

  function FromPosting(p: Posting, from: Origin, siteBase: string): Option<Job> {
    match p
    case NotADict => None
    case Posting(bullets, path, title, location, posted) =>
      if title.None? then None
      else
        var requisition := if |bullets| > 1 then bullets[1] else path;
        Some(Job("workday:" + requisition, title.value, siteBase + path, from.company, location, posted,
                 from.name, Some(from.id), None))
  }

  /** The well-formed postings, as jobs. */
  function FromPostings(postings: seq<Posting>, from: Origin, siteBase: string): seq<Job> {
    Collect(postings, (p: Posting) => FromPosting(p, from, siteBase))
  }

  datatype Response = Response(total: nat, postings: seq<Posting>)

  /** The site: only the first page tells the true total, and an offset at or past the
      total wraps around to the first page. */
  function Answer(board: seq<Posting>, offset: nat): Response {
    if offset == 0 then Response(|board|, Window(board, 0, PAGE_SIZE))
    else if offset >= |board| then Response(0, Window(board, 0, PAGE_SIZE))
    else Response(0, Window(board, offset, PAGE_SIZE))
  }

  method ParsePostings(postings: seq<Posting>, from: Origin, siteBase: string) returns (jobs: seq<Job>)
    ensures jobs == FromPostings(postings, from, siteBase)
  {
    jobs := [];
    ghost var f := (p: Posting) => FromPosting(p, from, siteBase);
    for i := 0 to |postings|
      invariant jobs == Collect(postings[..i], f)
    {
      CollectSnoc(postings[..i], postings[i], f);
      assert postings[..i + 1] == postings[..i] + [postings[i]];
      var job := FromPosting(postings[i], from, siteBase);
      if job.Some? {
        jobs := jobs + [job.value];
      }
    }
    assert postings[..|postings|] == postings;
  }

  /** How many of the board's postings a fetch reaches: the first page is always asked for. */
  function Reach(maxPages: int): (n: nat)
    ensures n == if maxPages > 1 then 20 * maxPages else 20
  {
    PAGE_SIZE * (if maxPages > 1 then maxPages else 1)
  }

  lemma FromPostingsExtends(board: seq<Posting>, offset: nat, from: Origin, siteBase: string)
    ensures FromPostings(UpTo(board, offset), from, siteBase)
            + FromPostings(Window(board, offset, PAGE_SIZE), from, siteBase)
         == FromPostings(UpTo(board, offset + PAGE_SIZE), from, siteBase)
  {
    NextWindow(board, offset, PAGE_SIZE);
    CollectConcat(UpTo(board, offset), Window(board, offset, PAGE_SIZE),
                  (p: Posting) => FromPosting(p, from, siteBase));
  }

  /** Precisely the well-formed postings among the first `PAGE_SIZE * max(1, maxPages)` of
      the board, each once and in order, asking for every page once and for no offset but
      zero at or past the total. */
  method WorkdayFetch(board: seq<Posting>, from: Origin, siteBase: string, maxPages: int)
    returns (jobs: seq<Job>, asked: seq<nat>)
    ensures jobs == FromPostings(UpTo(board, Reach(maxPages)), from, siteBase)
    ensures asked != [] && forall i :: 0 <= i < |asked| ==> asked[i] == PAGE_SIZE * i
    ensures forall i :: 0 < i < |asked| ==> asked[i] < |board|
    ensures |asked| == 1 || PAGE_SIZE * (|asked| - 1) < Reach(maxPages)
  {
    var first := Answer(board, 0);
    asked := [0];
    var total := first.total;
    jobs := ParsePostings(first.postings, from, siteBase);
    var maxOffset := if total < maxPages * PAGE_SIZE then total else maxPages * PAGE_SIZE;
    var offset := PAGE_SIZE;
    while offset < maxOffset
      invariant offset == PAGE_SIZE * |asked| && |asked| >= 1
      invariant offset == PAGE_SIZE || offset < maxOffset + PAGE_SIZE
      invariant jobs == FromPostings(UpTo(board, offset), from, siteBase)
      invariant forall i :: 0 <= i < |asked| ==> asked[i] == PAGE_SIZE * i
      invariant forall i :: 0 < i < |asked| ==> asked[i] < |board|
    {
      var page := Answer(board, offset);
      asked := asked + [offset];
      var more := ParsePostings(page.postings, from, siteBase);
      FromPostingsExtends(board, offset, from, siteBase);
      jobs := jobs + more;
      offset := offset + PAGE_SIZE;
    }
    assert UpTo(board, offset) == UpTo(board, Reach(maxPages));
  }

  // ---- Findly ----------------------------------------------------------------------

  datatype Record =
    | Record(id: Option<string>, title: Option<string>, url: Option<string>, companyName: Option<string>,
             locationType: Option<string>, primaryCity: Option<string>, primaryState: Option<string>,
             openDate: Option<string>)
    | NotARecord

  const FINDLY_PAGE_SIZE: nat := 500

  predicate Truthy(s: Option<string>) {
    s.Some? && s.value != ""
  }

  function Location(r: Record): Option<string>
    requires r.Record?
  {
    if Truthy(r.locationType) then r.locationType
    else if Truthy(r.primaryCity) && Truthy(r.primaryState) then Some(r.primaryCity.value + ", " + r.primaryState.value)
    else if Truthy(r.primaryCity) then r.primaryCity
    else if Truthy(r.primaryState) then r.primaryState
    else None
  }

  function FromRecord(r: Record, from: Origin): Option<Job> {
    if r.NotARecord? || r.id.None? || r.title.None? || r.url.None? then None
    else Some(Job("findly:" + r.id.value, r.title.value, r.url.value,
                  if Truthy(r.companyName) then r.companyName else from.company, Location(r), r.openDate,
                  from.name, Some(from.id), None))
  }

  function FromRecords(records: seq<Record>, from: Origin): seq<Job> {
    Collect(records, (r: Record) => FromRecord(r, from))
  }

  /** The board answers with up to a page of records from a one-based offset. */
  function QueryResult(board: seq<Record>, offset: nat): seq<Record>
    requires offset >= 1
  {
    Window(board, offset - 1, FINDLY_PAGE_SIZE)
  }

  lemma FromRecordsExtends(board: seq<Record>, offset: nat, from: Origin)
    ensures FromRecords(UpTo(board, offset), from) + FromRecords(Window(board, offset, FINDLY_PAGE_SIZE), from)
         == FromRecords(UpTo(board, offset + FINDLY_PAGE_SIZE), from)
  {
    NextWindow(board, offset, FINDLY_PAGE_SIZE);
    CollectConcat(UpTo(board, offset), Window(board, offset, FINDLY_PAGE_SIZE), (r: Record) => FromRecord(r, from));
  }

  method ParseRecords(records: seq<Record>, from: Origin) returns (jobs: seq<Job>)
    ensures jobs == FromRecords(records, from)
  {
    jobs := [];
    ghost var f := (r: Record) => FromRecord(r, from);
    for i := 0 to |records|
      invariant jobs == Collect(records[..i], f)
    {
      CollectSnoc(records[..i], records[i], f);
      assert records[..i + 1] == records[..i] + [records[i]];
      var job := FromRecord(records[i], from);
      if job.Some? {
        jobs := jobs + [job.value];
      }
    }
    assert records[..|records|] == records;
  }

  /** From a stable board: precisely the well-formed records among the first
      `500 * maxPages`, in exactly `min(maxPages, n / 500 + 1)` requests. Malformed records
      do not shorten a page, so they do not end the paging. */
  method FindlyFetch(board: seq<Record>, from: Origin, maxPages: int) returns (jobs: seq<Job>, requests: nat)
    ensures maxPages <= 0 ==> jobs == [] && requests == 0
    ensures maxPages > 0 ==>
              && jobs == FromRecords(UpTo(board, 500 * maxPages), from)
              && requests == (if maxPages <= |board| / 500 then maxPages else |board| / 500 + 1)
  {
    jobs, requests := [], 0;
    var page := 0;
    while page < maxPages
      invariant 0 <= page && (page <= maxPages || page == 0) && requests == page
      invariant page * FINDLY_PAGE_SIZE <= |board|
      invariant jobs == FromRecords(UpTo(board, page * FINDLY_PAGE_SIZE), from)
    {
      var offset := page * FINDLY_PAGE_SIZE + 1;
      var records := QueryResult(board, offset);
      requests := requests + 1;
      var more := ParseRecords(records, from);
      FromRecordsExtends(board, offset - 1, from);
      jobs := jobs + more;
      if |records| < FINDLY_PAGE_SIZE {
        assert UpTo(board, offset - 1 + FINDLY_PAGE_SIZE) == board;
        assert UpTo(board, FINDLY_PAGE_SIZE * maxPages) == board;
        return;
      }
      page := page + 1;
    }
    if maxPages > 0 {
      assert UpTo(board, page * FINDLY_PAGE_SIZE) == UpTo(board, FINDLY_PAGE_SIZE * maxPages);
    }
  }

  // ---- the fields of a scraped job -----------------------------------------------------

  /** A posting with a title becomes a job with the requisition number, or else the path, in
      its key; any other is skipped. */
  lemma PostingFields(p: Posting, from: Origin, siteBase: string)
    ensures FromPosting(p, from, siteBase).Some? <==> p.Posting? && p.title.Some?
    ensures FromPosting(p, from, siteBase).Some? ==>
              var j := FromPosting(p, from, siteBase).value;
              && (|p.bulletFields| >= 2 ==> j.key == "workday:" + p.bulletFields[1])
              && (|p.bulletFields| < 2 ==> j.key == "workday:" + p.externalPath)
              && Some(j.title) == p.title && j.url == siteBase + p.externalPath
              && j.location == p.locationsText && j.postedDate == p.postedOn
              && j.company == from.company && j.sourceName == from.name && j.sourceId == Some(from.id)
              && j.summary.None?
  {
  }

  /** A record with id, title and address becomes a job; its place is the location type if
      there is one, and otherwise what there is of city and state. */
  lemma RecordFields(r: Record, from: Origin)
    ensures FromRecord(r, from).Some? <==> r.Record? && r.id.Some? && r.title.Some? && r.url.Some?
    ensures FromRecord(r, from).Some? ==>
              var j := FromRecord(r, from).value;
              && j.key == "findly:" + r.id.value && Some(j.title) == r.title && Some(j.url) == r.url
              && j.company == (if r.companyName.GetOr("") != "" then r.companyName else from.company)
              && j.postedDate == r.openDate && j.sourceName == from.name && j.sourceId == Some(from.id)
              && j.summary.None?
              && var city, state := r.primaryCity.GetOr(""), r.primaryState.GetOr("");
                 j.location == if r.locationType.GetOr("") != "" then r.locationType
                               else if city + state == "" then None
                               else Some(city + (if city != "" && state != "" then ", " else "") + state)
  {
    if r.Record? {
      var city, state := r.primaryCity.GetOr(""), r.primaryState.GetOr("");
      assert city + "" == city && city + "" + "" == city && "" + "" + state == state;
      assert city + ", " + state == (city + ", ") + state;
    }
  }
}
