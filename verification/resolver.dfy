/** The resolution core of `Client` (internal/reddit/client.go): the goal-link
    cache protocol of `GoalLink`, channel selection and the retry loop of
    `searchForGoal`, and the two-strategy query of `searchForGoalOnce`.
    A channel's `Search` is an abstract `Searcher`; `findBestMatch` is an abstract
    `Matcher`; the goal-link cache is a map. */
module Resolver {
  import opened Wrappers
  import opened GoInt
  import opened Text
  import opened Seqs
  import opened RateLimit
  import opened Fetch
  import OAuth

  /** A goal to resolve, as supplied by the match-data clients. */
  datatype GoalInfo = GoalInfo(matchId: int, minute: int, homeTeam: string, awayTeam: string,
                               isHomeTeam: bool, matchTime: Time)

  /** A resolved replay link. */
  datatype GoalLink = GoalLink(matchId: int, minute: int, url: string, title: string, postUrl: string, fetchedAt: Time)

  /** The identity of a resolution request. */
  datatype GoalKey = GoalKey(matchId: int, minute: int)

  function Key(g: GoalInfo): GoalKey { GoalKey(g.matchId, g.minute) }

  /** The key the cache files a link under (`GoalLinkCache.Set` keys by the link's own fields). */
  function LinkKey(l: GoalLink): GoalKey { GoalKey(l.matchId, l.minute) }

  /** A cache entry: a found link, or the "searched, nothing found" marker. */
  datatype Entry = Found(link: GoalLink) | NotFound

  type Cache = map<GoalKey, Entry>

  /** One search call of a channel: query text, limit and kickoff time. */
  datatype Query = Query(text: string, limit: int, matchTime: Time)

  /** A channel's `Search`, abstracted to its outcome. */
  type Searcher = Query -> Result<seq<SearchResult>>

  /** `findBestMatch`, abstracted. */
  type Matcher = (seq<SearchResult>, GoalInfo) -> Option<SearchResult>

  /** The matcher only ever picks one of the candidates it is given. */
  ghost predicate PicksFromInput(best: Matcher)
  {
    forall rs, g :: best(rs, g).Some? ==> best(rs, g).value in rs
  }

  const SearchLimit := 15

  /** Strategy 1: both team names and the minute marker, e.g. `Arsenal Chelsea 23'`. */
  function PrimaryQuery(g: GoalInfo): Query
  {
    Query(g.homeTeam + " " + g.awayTeam + " " + Itoa(g.minute) + "'", SearchLimit, g.matchTime)
  }

  /** The team that scored. */
  function Scorer(g: GoalInfo): string
  {
    if g.isHomeTeam then g.homeTeam else g.awayTeam
  }

  /** Strategy 2: the scoring team and the minute marker. */
  function SecondaryQuery(g: GoalInfo): Query
  {
    Query(Scorer(g) + " " + Itoa(g.minute) + "'", SearchLimit, g.matchTime)
  }

  /** The posts of a successful search; a failed search contributes nothing. */
  function OkOrEmpty(r: Result<seq<SearchResult>>): seq<SearchResult>
  {
    if r.Ok? then r.value else []
  }

  function UrlOf(r: SearchResult): string { r.url }

  /** Primary then secondary results, de-duplicated by URL with the first occurrence kept. */
  function Merge(primary: Result<seq<SearchResult>>, secondary: Result<seq<SearchResult>>): (m: seq<SearchResult>)
    ensures forall i, j :: 0 <= i < j < |m| ==> m[i].url != m[j].url
    ensures forall x :: x in m ==> x in OkOrEmpty(primary) + OkOrEmpty(secondary)
    ensures KeysOf(m, UrlOf) == KeysOf(OkOrEmpty(primary) + OkOrEmpty(secondary), UrlOf)
  {
    DedupBy(OkOrEmpty(primary) + OkOrEmpty(secondary), UrlOf, {})
  }

  /** Every primary result (first of its URL) precedes every secondary one. */
  lemma MergePrimaryFirst(primary: Result<seq<SearchResult>>, secondary: Result<seq<SearchResult>>)
    ensures Merge(primary, secondary)
         == DedupBy(OkOrEmpty(primary), UrlOf, {})
          + DedupBy(OkOrEmpty(secondary), UrlOf, KeysOf(OkOrEmpty(primary), UrlOf))
  {
    DedupAppend(OkOrEmpty(primary), OkOrEmpty(secondary), UrlOf, {});
    assert {} + KeysOf(OkOrEmpty(primary), UrlOf) == KeysOf(OkOrEmpty(primary), UrlOf);
  }

  /** The link built from a chosen post, stamped with the clock reading `now`. */
  function LinkFor(g: GoalInfo, m: SearchResult, now: Time): (l: GoalLink)
    ensures LinkKey(l) == Key(g)
  {
    GoalLink(g.matchId, g.minute, m.url, m.title, m.postUrl, now)
  }

  /** What one resolution step yields: a link or none, and an error or none. */
  datatype Outcome = Outcome(link: Option<GoalLink>, err: Option<string>)

  /** A single search attempt: its outcome and the queries it sent, in order. */
  datatype Attempt = Attempt(outcome: Outcome, queries: seq<Query>)

  /** `searchForGoalOnce`: the primary query first; a primary match returns at once;
      otherwise the secondary query, then a match over the merged results.
      Search errors are dropped, so the attempt itself never fails. */
  function SearchOnce(g: GoalInfo, fetch: Searcher, best: Matcher, now: Time): (a: Attempt)
    ensures a.outcome.err.None?
    ensures a.outcome.link.Some? ==> LinkKey(a.outcome.link.value) == Key(g) && a.outcome.link.value.fetchedAt == now
    ensures 1 <= |a.queries| <= 2 && a.queries[0] == PrimaryQuery(g)
    ensures |a.queries| == 1 <==>
      fetch(PrimaryQuery(g)).Ok? && best(fetch(PrimaryQuery(g)).value, g).Some?
    ensures |a.queries| == 1 ==>
      a.outcome.link == Some(LinkFor(g, best(fetch(PrimaryQuery(g)).value, g).value, now))
    ensures |a.queries| == 2 ==> a.queries[1] == SecondaryQuery(g)
    ensures |a.queries| == 2 ==>
      var m := best(Merge(fetch(PrimaryQuery(g)), fetch(SecondaryQuery(g))), g);
      a.outcome.link == (if m.Some? then Some(LinkFor(g, m.value, now)) else None)
  {
    var q1 := PrimaryQuery(g);
    var r1 := fetch(q1);
    var m1 := if r1.Ok? then best(r1.value, g) else None;
    if m1.Some? then Attempt(Outcome(Some(LinkFor(g, m1.value, now)), None), [q1])
    else
      var q2 := SecondaryQuery(g);
      var r2 := fetch(q2);
      var m := best(Merge(r1, r2), g);
      var link := if m.Some? then Some(LinkFor(g, m.value, now)) else None;
      Attempt(Outcome(link, None), [q1, q2])
  }

  /** With a matcher that picks among its candidates, a found link is one of the
      posts the searches returned, so the resolver never invents a URL. */
  lemma FoundLinkIsSearchResult(g: GoalInfo, fetch: Searcher, best: Matcher, now: Time)
    requires PicksFromInput(best)
    ensures var a := SearchOnce(g, fetch, best, now);
            a.outcome.link.Some? ==>
              exists r :: r in OkOrEmpty(fetch(PrimaryQuery(g))) + OkOrEmpty(fetch(SecondaryQuery(g)))
                       && a.outcome.link.value == LinkFor(g, r, now)
  {
    var a := SearchOnce(g, fetch, best, now);
    var r1 := fetch(PrimaryQuery(g));
    var r2 := fetch(SecondaryQuery(g));
    if a.outcome.link.Some? {
      if |a.queries| == 1 {
        var r := best(r1.value, g).value;
        assert r in OkOrEmpty(r1) + OkOrEmpty(r2);
      } else {
        var r := best(Merge(r1, r2), g).value;
        assert r in Merge(r1, r2);
      }
    }
  }

  const MaxRetries := 3
  const BaseDelay: Duration := 30 * Second

  /** The error texts the public retry loop treats as transient. */
  predicate Retryable(err: string)
  {
    || Contains(err, "CAPTCHA")
    || Contains(err, "blocking requests")
    || Contains(err, "rate limit")
    || Contains(err, "HTML instead of JSON")
  }

  /** The public channel's blocking and HTML errors are of the retryable kind. */
  lemma ChannelErrorsAreRetryable()
    ensures Retryable(BlockedError)
    ensures Retryable(HtmlError)
  {
    var blocked := "blocking requests";
    assert BlockedError[10..10 + |blocked|] == blocked;
    assert OccursAt(BlockedError, blocked, 10);
    var html := "HTML instead of JSON";
    assert HtmlError[16..16 + |html|] == html;
    assert OccursAt(HtmlError, html, 16);
  }

  /** The retry loop's result: the outcome, the backoff sleeps and the attempts made. */
  datatype Retried = Retried(outcome: Outcome, delays: seq<Duration>, attempts: nat)

  /** The public retry loop from attempt `k` (0-based) on; `attempt(i)` is what
      attempt i yields. A delay of i × 30 s precedes attempt i ≥ 1. The loop stops
      on success, on a non-retryable error, or after the third attempt, returning
      that attempt's error; there is no path that leaves the loop without returning. */
  function RetryFrom(attempt: nat -> Outcome, k: nat): (r: Retried)
    requires k < MaxRetries
    ensures 1 <= r.attempts <= MaxRetries - k
    ensures |r.delays| == r.attempts - 1
    ensures forall i :: 0 <= i < |r.delays| ==> r.delays[i] == (k + 1 + i) * BaseDelay
    ensures forall i :: k <= i < k + r.attempts - 1 ==> attempt(i).err.Some? && Retryable(attempt(i).err.value)
    ensures var last := attempt(k + r.attempts - 1);
            && (last.err.None? ==> r.outcome == last)
            && (last.err.Some? ==> r.outcome == Outcome(None, last.err)
                                   && (!Retryable(last.err.value) || k + r.attempts == MaxRetries))
    decreases MaxRetries - k
  {
    var o := attempt(k);
    if o.err.None? then Retried(o, [], 1)
    else if Retryable(o.err.value) && k < MaxRetries - 1 then
      var rest := RetryFrom(attempt, k + 1);
      Retried(rest.outcome, [(k + 1) * BaseDelay] + rest.delays, 1 + rest.attempts)
    else Retried(Outcome(None, o.err), [], 1)
  }

  /** A channel that always fails with a retryable error is tried exactly three
      times, with 30 s and 60 s pauses, and its last error is returned. */
  lemma PersistentBlockingExhaustsRetries(attempt: nat -> Outcome)
    requires forall i :: attempt(i).err.Some? && Retryable(attempt(i).err.value)
    ensures RetryFrom(attempt, 0).attempts == MaxRetries
    ensures RetryFrom(attempt, 0).delays == [BaseDelay, 2 * BaseDelay]
    ensures RetryFrom(attempt, 0).outcome == Outcome(None, attempt(2).err)
  {
    var r := RetryFrom(attempt, 0);
    assert r.attempts == MaxRetries;
  }

  datatype Channel = OAuthChannel | PublicChannel

  /** What `searchForGoal` did: outcome, channel used, backoff sleeps, attempts and
      every query sent, in order. */
  datatype Resolution = Resolution(outcome: Outcome, channel: Channel, delays: seq<Duration>,
                                   attempts: nat, queries: seq<Query>)

  /** `searchForGoal` at `now`. `oauth` is the OAuth client's token when a client
      exists; `publicFetch(i)` is the public channel as seen by attempt i. */
  function SearchForGoal(g: GoalInfo, oauth: Option<OAuth.Token>, now: Time,
                         oauthFetch: Searcher, publicFetch: nat -> Searcher, best: Matcher): (r: Resolution)
    ensures r.channel == OAuthChannel <==> oauth.Some? && OAuth.IsAvailable(oauth.value, now)
    ensures r.channel == OAuthChannel ==>
      r.attempts == 1 && r.delays == [] && r.outcome == SearchOnce(g, oauthFetch, best, now).outcome
    ensures r.channel == PublicChannel ==>
      var loop := RetryFrom((i: nat) => SearchOnce(g, publicFetch(i), best, now).outcome, 0);
      r.outcome == loop.outcome && r.delays == loop.delays && r.attempts == loop.attempts
  {
    if oauth.Some? && OAuth.IsAvailable(oauth.value, now) then
      var a := SearchOnce(g, oauthFetch, best, now);
      Resolution(a.outcome, OAuthChannel, [], 1, a.queries)
    else
      var loop := RetryFrom((i: nat) => SearchOnce(g, publicFetch(i), best, now).outcome, 0);
      Resolution(loop.outcome, PublicChannel, loop.delays, loop.attempts,
                 PublicQueries(g, publicFetch, best, now, loop.attempts))
  }

  /** The queries of the first `n` public attempts, in order. */
  function PublicQueries(g: GoalInfo, publicFetch: nat -> Searcher, best: Matcher, now: Time, n: nat): seq<Query>
    decreases n
  {
    if n == 0 then [] else PublicQueries(g, publicFetch, best, now, n - 1) + SearchOnce(g, publicFetch(n - 1), best, now).queries
  }

  /** Because a single attempt never reports an error, `searchForGoal` never
      retries, never sleeps, never returns an error, and its found links carry the
      goal's key; on the public channel at most two queries are sent. */
  lemma SearchNeverRetries(g: GoalInfo, oauth: Option<OAuth.Token>, now: Time,
                           oauthFetch: Searcher, publicFetch: nat -> Searcher, best: Matcher)
    ensures var r := SearchForGoal(g, oauth, now, oauthFetch, publicFetch, best);
            && r.attempts == 1
            && r.delays == []
            && r.outcome.err.None?
            && (r.outcome.link.Some? ==> LinkKey(r.outcome.link.value) == Key(g))
            && 1 <= |r.queries| <= 2 && r.queries[0] == PrimaryQuery(g)
  {
    var r := SearchForGoal(g, oauth, now, oauthFetch, publicFetch, best);
    if r.channel == PublicChannel {
      var attempt := (i: nat) => SearchOnce(g, publicFetch(i), best, now).outcome;
      assert attempt(0).err.None?;
      var loop := RetryFrom(attempt, 0);
      assert loop.attempts == 1;
      assert r.queries == PublicQueries(g, publicFetch, best, now, 1);
      assert PublicQueries(g, publicFetch, best, now, 1) == [] + SearchOnce(g, publicFetch(0), best, now).queries;
    }
  }

  /** Result of `GoalLink`: the link, the error, the cache afterwards and whether a
      search was made. */
  datatype Resolved = Resolved(link: Option<GoalLink>, err: Option<string>, cache: Cache, searched: bool)

  /** `Client.GoalLink`: a cache hit answers without searching (a "not found" marker
      answers with no link); otherwise `search(g)` runs, an error is returned and
      nothing is cached, no link caches the marker, and a link is cached. */
  function ResolveOne(cache: Cache, g: GoalInfo, search: GoalInfo -> Outcome): (r: Resolved)
    ensures Key(g) in cache ==> !r.searched && r.cache == cache && r.err.None?
    ensures Key(g) in cache && cache[Key(g)].NotFound? ==> r.link.None?
    ensures Key(g) in cache && cache[Key(g)].Found? ==> r.link == Some(cache[Key(g)].link)
    ensures Key(g) !in cache ==> r.searched && r.link == (if search(g).err.Some? then None else search(g).link)
                                 && r.err == search(g).err
    ensures r.err.Some? ==> r.cache == cache
    ensures Key(g) !in cache && search(g).err.None? && search(g).link.None? ==> r.cache == cache[Key(g) := NotFound]
    ensures Key(g) !in cache && search(g).err.None? && search(g).link.Some? ==>
      r.cache == cache[LinkKey(search(g).link.value) := Found(search(g).link.value)]
  {
    var key := Key(g);
    if key in cache then
      match cache[key]
      case NotFound => Resolved(None, None, cache, false)
      case Found(link) => Resolved(Some(link), None, cache, false)
    else
      var o := search(g);
      if o.err.Some? then Resolved(None, o.err, cache, true)
      else match o.link
        case Some(link) => Resolved(Some(link), None, cache[LinkKey(link) := Found(link)], true)
        case None => Resolved(None, None, cache[key := NotFound], true)
  }

  /** The search used for `g` files any link it finds under `g`'s own key. */
  predicate KeepsKey(search: GoalInfo -> Outcome, g: GoalInfo)
  {
    search(g).link.Some? ==> LinkKey(search(g).link.value) == Key(g)
  }

  /** Once a resolution succeeds (found or not found), asking again is answered from
      the cache with the same link and no search, whatever the channel does then. */
  lemma SecondCallServedFromCache(cache: Cache, g: GoalInfo, search: GoalInfo -> Outcome,
                                  later: GoalInfo -> Outcome)
    requires KeepsKey(search, g)
    ensures var r1 := ResolveOne(cache, g, search);
            var r2 := ResolveOne(r1.cache, g, later);
            r1.err.None? ==> !r2.searched && r2.link == r1.link && r2.cache == r1.cache
  {
  }

  /** A resolution never rewrites or removes an entry that was already cached. */
  lemma CachedEntriesArePermanent(cache: Cache, g: GoalInfo, search: GoalInfo -> Outcome)
    requires KeepsKey(search, g)
    ensures var r := ResolveOne(cache, g, search);
            forall k :: k in cache ==> k in r.cache && r.cache[k] == cache[k]
  {
  }

  /** The search `Client` runs for a goal, with the channels and clock fixed. */
  function ClientSearch(oauth: Option<OAuth.Token>, now: Time, oauthFetch: Searcher,
                        publicFetch: nat -> Searcher, best: Matcher): GoalInfo -> Outcome
  {
    (g: GoalInfo) => SearchForGoal(g, oauth, now, oauthFetch, publicFetch, best).outcome
  }

  /** When every search the public channel makes is blocked, the goal is not retried
      and is cached as "not found": a blocked search is indistinguishable from a
      genuine miss and suppresses every later search for that goal. */
  lemma BlockedSearchCachedAsNotFound(cache: Cache, g: GoalInfo, now: Time, oauthFetch: Searcher,
                                      publicFetch: nat -> Searcher, best: Matcher)
    requires PicksFromInput(best)
    requires Key(g) !in cache
    requires forall i, q :: publicFetch(i)(q) == Err(BlockedError)
    ensures var r := ResolveOne(cache, g, ClientSearch(None, now, oauthFetch, publicFetch, best));
            r.err.None? && r.link.None? && r.cache == cache[Key(g) := NotFound]
  {
    var search := ClientSearch(None, now, oauthFetch, publicFetch, best);
    SearchNeverRetries(g, None, now, oauthFetch, publicFetch, best);
    var a := SearchOnce(g, publicFetch(0), best, now);
    var merged := Merge(publicFetch(0)(PrimaryQuery(g)), publicFetch(0)(SecondaryQuery(g)));
    assert merged == DedupBy([], UrlOf, {}) == [];
    assert best(merged, g).None?;
    assert a.outcome.link.None?;
    assert search(g).link.None?;
  }
}
