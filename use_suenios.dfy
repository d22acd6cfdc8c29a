/**
 * The public-listing hook: the request key it derives from the selected
 * filters (which is also the cache key of the fetching library) and the
 * fetcher that turns every failure of the HTTP call into one fixed error.
 */
module UseSuenios {
  import opened Wrappers

  const LatestPosts: string := "/public/latest_posts"
  const FilterPrefix: string := "/public/filter_post/"
  const FetchFailed: string := "Failed to fetch data"

  predicate CommaFree(s: string)
  {
    ',' !in s
  }

  predicate AllCommaFree(xs: seq<string>)
  {
    forall i | 0 <= i < |xs| :: CommaFree(xs[i])
  }

  /**
   * `xs.join(",")`: the empty list gives the empty string, one piece gives itself, and a join
   * of comma-free pieces holds exactly one comma fewer than there are pieces.
   */
  function Join(xs: seq<string>): (r: string)
    ensures xs == [] ==> r == ""
    ensures |xs| == 1 ==> r == xs[0]
    ensures xs != [] && AllCommaFree(xs) ==> multiset(r)[','] == |xs| - 1
  {
    if xs == [] then ""
    else if |xs| == 1 then xs[0]
    else
      assert AllCommaFree(xs) ==> AllCommaFree(xs[1..]) by {
        if AllCommaFree(xs) {
          forall i | 0 <= i < |xs| - 1 ensures CommaFree(xs[1..][i]) {
            assert xs[1..][i] == xs[i + 1];
          }
        }
      }
      var r := xs[0] + "," + Join(xs[1..]);
      assert multiset(r) == multiset(xs[0]) + multiset(",") + multiset(Join(xs[1..]));
      assert AllCommaFree(xs) ==> CommaFree(xs[0]);
      r
  }

  /** `s.split(",")`: the pieces between commas; the empty string gives one empty piece. */
  function Split(s: string): (r: seq<string>)
    ensures |r| >= 1
  {
    if s == [] then [""]
    else if s[0] == ',' then [""] + Split(s[1..])
    else
      var rest := Split(s[1..]);
      [[s[0]] + rest[0]] + rest[1..]
  }

  /**
   * The key of the listing request for the selected filters (the `> 1` gate is the code's):
   * the latest-posts key exactly when fewer than two filters are selected, and otherwise the
   * filter endpoint followed by the comma-joined selection in selection order.
   */
  function RequestKey(filters: seq<string>): (r: string)
    ensures r == LatestPosts <==> |filters| <= 1
    ensures |filters| >= 2 ==>
              |r| >= |FilterPrefix| && r[..|FilterPrefix|] == FilterPrefix && r[|FilterPrefix|..] == Join(filters)
  {
    if |filters| > 1 then
      var r := FilterPrefix + Join(filters);
      assert r[8] != LatestPosts[8];
      r
    else LatestPosts
  }

  /** Which endpoint a key addresses, read back from the key. */
  datatype Endpoint = Latest | Filtered(filters: seq<string>) | Unknown

  function EndpointOf(key: string): Endpoint
  {
    if key == LatestPosts then Latest
    else if |key| >= |FilterPrefix| && key[..|FilterPrefix|] == FilterPrefix then Filtered(Split(key[|FilterPrefix|..]))
    else Unknown
  }

  lemma {:induction false} SplitCommaFree(w: string)
    requires CommaFree(w)
    ensures Split(w) == [w]
  {
    if w != [] {
      assert CommaFree(w[1..]);
      SplitCommaFree(w[1..]);
      assert [w[0]] + w[1..] == w;
    }
  }

  lemma {:induction false} SplitAfterPiece(w: string, t: string)
    requires CommaFree(w)
    ensures Split(w + "," + t) == [w] + Split(t)
  {
    if w == [] {
      assert w + "," + t == [','] + t;
      assert (w + "," + t)[1..] == t;
    } else {
      assert (w + "," + t)[1..] == w[1..] + "," + t;
      assert CommaFree(w[1..]);
      SplitAfterPiece(w[1..], t);
      assert [w[0]] + w[1..] == w;
    }
  }

  /** Splitting a join of comma-free pieces gives the pieces back, in order. */
  lemma {:induction false} SplitJoin(xs: seq<string>)
    requires |xs| >= 1 && AllCommaFree(xs)
    ensures Split(Join(xs)) == xs
  {
    if |xs| == 1 {
      SplitCommaFree(xs[0]);
    } else {
      assert AllCommaFree(xs[1..]) by {
        forall i | 0 <= i < |xs| - 1 ensures CommaFree(xs[1..][i]) {
          assert xs[1..][i] == xs[i + 1];
        }
      }
      SplitJoin(xs[1..]);
      SplitAfterPiece(xs[0], Join(xs[1..]));
      assert [xs[0]] + xs[1..] == xs;
    }
  }

  /** No selection of fewer than two filters reaches the filter endpoint; a single filter shares the key of none. */
  lemma ShortSelectionIsLatest(filters: seq<string>)
    requires |filters| <= 1
    ensures RequestKey(filters) == LatestPosts
    ensures EndpointOf(RequestKey(filters)) == Latest
    ensures RequestKey(filters) == RequestKey([])
  {
  }

  /** With comma-free filters the key of two or more of them can be read back to the selection. */
  lemma KeyRoundTrip(filters: seq<string>)
    requires |filters| >= 2 && AllCommaFree(filters)
    ensures EndpointOf(RequestKey(filters)) == Filtered(filters)
  {
    SplitJoin(filters);
  }

  /** Distinct selections of two or more comma-free filters never share a cache entry. */
  lemma KeyInjective(f: seq<string>, g: seq<string>)
    requires |f| >= 2 && AllCommaFree(f)
    requires |g| >= 2 && AllCommaFree(g)
    requires RequestKey(f) == RequestKey(g)
    ensures f == g
  {
    KeyRoundTrip(f);
    KeyRoundTrip(g);
  }

  /** How the HTTP call of the fetcher ended: with a response body, or by throwing `cause`. */
  datatype CallOutcome<D, C> = Responded(data: D) | Threw(cause: C)

  /** The fetcher: the response body on success, one fixed error on every failure. */
  function Fetch<D, C>(outcome: CallOutcome<D, C>): (r: Result<D, string>)
    ensures r.Success? <==> outcome.Responded?
    ensures outcome.Responded? ==> r == Success(outcome.data)
    ensures outcome.Threw? ==> r == Failure(FetchFailed)
  {
    match outcome
    case Responded(data) => Success(data)
    case Threw(_) => Failure(FetchFailed)
  }

  /** The fetcher's error does not tell one cause of failure from another. */
  lemma FetchForgetsCause<D, C>(c1: C, c2: C)
    ensures Fetch<D, C>(Threw(c1)) == Fetch<D, C>(Threw(c2))
  {
  }
}
