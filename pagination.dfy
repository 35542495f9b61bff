/** The page loop of `StravaClient.get_recent_activities`: request page 1,
    2, ... of the activities listing until a page comes back empty or the
    accumulator holds at least the requested number of records, then cut
    the accumulator to that number.  The provider is a sequence of page
    responses (page n is element n - 1, and every page past the end is
    empty); the record type is left generic. */
module Pagination {
  import opened Wrappers

  /** The request headers, built once before the loop. */
  type Headers = map<string, string>

  /** What the provider answers for one page: its records, or an HTTP
      status that `raise_for_status` turns into an exception. */
  datatype PageResponse<R> = Page(records: seq<R>) | HttpError(status: int)

  /** One listing request: the query parameters `page` and `per_page`
      and the headers sent with it. */
  datatype PageRequest = PageRequest(page: int, perPage: int, headers: Headers)

  /** A failed listing request, with the page it was for. */
  datatype FetchError = FetchError(page: int, status: int)

  /** The provider's answer for 1-based page `n`. */
  function PageAt<R>(pages: seq<PageResponse<R>>, n: int): PageResponse<R>
  {
    if 1 <= n <= |pages| then pages[n - 1] else Page([])
  }

  /** The records of page `n`, or none when that page failed. */
  function RecordsAt<R>(pages: seq<PageResponse<R>>, n: int): seq<R>
  {
    match PageAt(pages, n)
    case Page(rs) => rs
    case HttpError(_) => []
  }

  /** The records of pages 1 to `n`, in page order. */
  function Gathered<R>(pages: seq<PageResponse<R>>, n: nat): seq<R>
  {
    if n == 0 then [] else Gathered(pages, n - 1) + RecordsAt(pages, n)
  }

  /** After page `n` the loop goes on to request page `n + 1`: page `n`
      succeeded with records and the accumulator is still short. */
  predicate Continues<R>(pages: seq<PageResponse<R>>, maxActivities: int, n: nat)
  {
    PageAt(pages, n).Page? && |PageAt(pages, n).records| > 0
    && |Gathered(pages, n)| < maxActivities
  }

  /** `k` is the number of pages the loop requests: none when the bound is
      not positive, otherwise pages 1 to `k`, each earlier one letting the
      loop continue and page `k` stopping it. */
  predicate StopsAt<R>(pages: seq<PageResponse<R>>, maxActivities: int, k: nat)
  {
    (k == 0 <==> maxActivities <= 0)
    && (forall j: nat :: 1 <= j < k ==> Continues(pages, maxActivities, j))
    && (k > 0 ==> !Continues(pages, maxActivities, k))
  }

  /** Python's `s[:n]`: the first `n` elements for `n >= 0`, and all but
      the last `-n` for a negative `n`. */
  function Take<R>(s: seq<R>, n: int): (t: seq<R>)
    ensures t <= s
    ensures |t| == if n >= 0 then (if n < |s| then n else |s|) else (if |s| + n > 0 then |s| + n else 0)
  {
    if n >= 0 then (if n < |s| then s[..n] else s)
    else if |s| + n > 0 then s[..|s| + n]
    else []
  }

  /** What the fetch returns once it has requested `k` pages. */
  function Outcome<R>(pages: seq<PageResponse<R>>, maxActivities: int, k: nat): Result<seq<R>, FetchError>
  {
    if k == 0 then Ok([])
    else match PageAt(pages, k)
      case HttpError(status) => Err(FetchError(k, status))
      case Page(_) => Ok(Take(Gathered(pages, k), maxActivities))
  }

  /** The loop of strava_client.py:68-83.  Returns the requests issued,
      in order, and the outcome. */
  method FetchPages<R>(headers: Headers, pages: seq<PageResponse<R>>, maxActivities: int, perPage: int)
    returns (requests: seq<PageRequest>, r: Result<seq<R>, FetchError>)
    ensures StopsAt(pages, maxActivities, |requests|)
    ensures forall j :: 0 <= j < |requests| ==> requests[j] == PageRequest(j + 1, perPage, headers)
    ensures r == Outcome(pages, maxActivities, |requests|)
  {
    var activities: seq<R> := [];
    var page: nat := 1;
    requests := [];
    while |activities| < maxActivities
      invariant page >= 1 && |requests| == page - 1
      invariant forall j :: 0 <= j < |requests| ==> requests[j] == PageRequest(j + 1, perPage, headers)
      invariant activities == Gathered(pages, page - 1)
      invariant page > 1 ==> maxActivities > 0
      invariant forall j: nat :: 1 <= j < page - 1 ==> Continues(pages, maxActivities, j)
      invariant page > 1 ==> PageAt(pages, page - 1).Page? && |PageAt(pages, page - 1).records| > 0
      decreases maxActivities - |activities|
    {
      requests := requests + [PageRequest(page, perPage, headers)];
      match PageAt(pages, page)
      case HttpError(status) =>
        r := Err(FetchError(page, status));
        return;
      case Page(chunk) =>
        if |chunk| == 0 {
          assert Gathered(pages, page) == activities;
          r := Ok(Take(activities, maxActivities));
          return;
        }
        activities := activities + chunk;
        page := page + 1;
    }
    r := Ok(Take(activities, maxActivities));
  }

  /** The records the provider offers: pages 1, 2, ... concatenated, up
      to but not including the first empty or failed page. */
  function StreamFrom<R>(pages: seq<PageResponse<R>>, i: nat): seq<R>
    decreases |pages| - i
  {
    if i >= |pages| then []
    else match pages[i]
      case HttpError(_) => []
      case Page(rs) => if rs == [] then [] else rs + StreamFrom(pages, i + 1)
  }

  function Stream<R>(pages: seq<PageResponse<R>>): seq<R>
  {
    StreamFrom(pages, 0)
  }

  /** While every page up to `n` has records, the stream starts with the
      records of pages 1 to `n`. */
  lemma {:induction false} StreamSplit<R>(pages: seq<PageResponse<R>>, n: nat)
    requires forall j: nat :: 1 <= j <= n ==> PageAt(pages, j).Page? && |PageAt(pages, j).records| > 0
    ensures Stream(pages) == Gathered(pages, n) + StreamFrom(pages, n)
  {
    if n > 0 {
      StreamSplit(pages, n - 1);
      assert PageAt(pages, n).Page? && |PageAt(pages, n).records| > 0;
      assert PageAt(pages, n) == pages[n - 1];
      assert StreamFrom(pages, n - 1) == RecordsAt(pages, n) + StreamFrom(pages, n);
    }
  }

  /** A successful fetch returns the first `maxActivities` records of the
      stream: a prefix of pages 1, 2, ... up to the first empty page, and
      never more than `maxActivities` records. */
  lemma FetchedIsStreamPrefix<R>(pages: seq<PageResponse<R>>, maxActivities: int, k: nat)
    requires StopsAt(pages, maxActivities, k)
    requires Outcome(pages, maxActivities, k).Ok?
    ensures maxActivities <= 0 ==> Outcome(pages, maxActivities, k).value == []
    ensures maxActivities > 0 ==> Outcome(pages, maxActivities, k).value == Take(Stream(pages), maxActivities)
  {
    if k > 0 {
      forall j: nat | 1 <= j < k
        ensures PageAt(pages, j).Page? && |PageAt(pages, j).records| > 0
      {
        assert Continues(pages, maxActivities, j);
      }
      if |RecordsAt(pages, k)| == 0 {
        StreamSplit(pages, k - 1);
        assert StreamFrom(pages, k - 1) == [];
        assert Gathered(pages, k) == Gathered(pages, k - 1);
      } else {
        StreamSplit(pages, k);
        assert |Gathered(pages, k)| >= maxActivities;
        var g, s := Gathered(pages, k), Stream(pages);
        assert Take(s, maxActivities) == s[..maxActivities] == g[..maxActivities];
      }
    }
  }

  /** The stopping page is determined by the provider and the bound. */
  lemma StopsAtUnique<R>(pages: seq<PageResponse<R>>, maxActivities: int, k1: nat, k2: nat)
    requires StopsAt(pages, maxActivities, k1) && StopsAt(pages, maxActivities, k2)
    ensures k1 == k2
  {
  }

  /** A page of `n` placeholder records. */
  function Blank(n: nat): seq<int>
  {
    seq(n, i => i)
  }

  /** Pages of sizes 200, 200, 50 and then an empty page. */
  function ExamplePages(): seq<PageResponse<int>>
  {
    [Page(Blank(200)), Page(Blank(200)), Page(Blank(50)), Page([])]
  }

  /** With a bound of 1000 the loop requests all four pages and returns
      the 450 records the provider has. */
  lemma ExampleBound1000(k: nat)
    requires StopsAt(ExamplePages(), 1000, k)
    ensures k == 4
    ensures Outcome(ExamplePages(), 1000, k).Ok?
    ensures |Outcome(ExamplePages(), 1000, k).value| == 450
  {
    var ps := ExamplePages();
    assert |Gathered(ps, 1)| == 200;
    assert |Gathered(ps, 2)| == 400;
    assert |Gathered(ps, 3)| == 450;
    assert |Gathered(ps, 4)| == 450;
    assert Continues(ps, 1000, 1) && Continues(ps, 1000, 2) && Continues(ps, 1000, 3);
    assert !Continues(ps, 1000, 4);
    assert StopsAt(ps, 1000, 4);
    StopsAtUnique(ps, 1000, k, 4);
  }

  /** With a bound of 300 the loop stops after the second page (400
      records held) and returns the first 300. */
  lemma ExampleBound300(k: nat)
    requires StopsAt(ExamplePages(), 300, k)
    ensures k == 2
    ensures Outcome(ExamplePages(), 300, k).Ok?
    ensures |Outcome(ExamplePages(), 300, k).value| == 300
  {
    var ps := ExamplePages();
    assert |Gathered(ps, 1)| == 200;
    assert |Gathered(ps, 2)| == 400;
    assert Continues(ps, 300, 1);
    assert !Continues(ps, 300, 2);
    assert StopsAt(ps, 300, 2);
    StopsAtUnique(ps, 300, k, 2);
  }
}
