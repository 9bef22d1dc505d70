/** The public search channel (`PublicJSONFetcher.Search` in
    internal/reddit/client.go) and the pieces both channels share: the search
    window, the Media filter and the abstract HTTP reply. */
module Fetch {
  import opened Wrappers
  import opened GoInt
  import opened Text
  import opened Seqs
  import opened RateLimit
  import opened BotDetect

  const Hour: Duration := 60 * Minute

  /** One candidate post. `toSearchResult`, which builds it from the JSON child,
      is not part of this model, so the decoded payload is given in this form. */
  datatype SearchResult = SearchResult(url: string, title: string, postUrl: string, flair: string)

  /** What an HTTP exchange produced: no response at all, or a status code with
      the body bytes read and the error that cut the read short, if any. */
  datatype Reply =
    | NoResponse(cause: string)
    | Response(status: int, body: string, readError: Option<string>)

  /** `json.Unmarshal` of a search payload, abstracted: the posts, or the parse error. */
  type Decoder = string -> Result<seq<SearchResult>>

  /** The User-Agent a request sends: one of the rotated browser identities of the
      public channel, or the OAuth application's identity for a Reddit username. */
  datatype UserAgentHeader = Browser(agent: Agent) | OAuthApp(username: string)

  /** The header text: the rotated identity's string, or
      `<username>:v1.0.0 (by /u/<username>)`. */
  function HeaderText(h: UserAgentHeader): string
  {
    match h
    case Browser(a) => AgentHeader(a)
    case OAuthApp(u) => u + ":v1.0.0 (by /u/" + u + ")"
  }

  /** The request a search issues: the query, the limit, the Unix-second bounds of
      the `timestamp:` filter and the User-Agent header. */
  datatype Request = Request(query: string, limit: int, windowStart: int, windowEnd: int, userAgent: UserAgentHeader)

  /** `Time.Unix()`: whole seconds, rounded down (Dafny's `/` floors for a positive divisor). */
  function Unix(t: Time): int
  {
    t / Second
  }

  /** The search window: one day before kickoff to two days after. */
  function WindowStart(matchTime: Time): int { Unix(matchTime - 24 * Hour) }
  function WindowEnd(matchTime: Time): int { Unix(matchTime + 48 * Hour) }

  /** The window spans exactly three days of Unix seconds. */
  lemma WindowSpansThreeDays(matchTime: Time)
    ensures WindowEnd(matchTime) - WindowStart(matchTime) == 72 * 3600
    ensures WindowStart(matchTime) <= Unix(matchTime) <= WindowEnd(matchTime)
  {
  }

  predicate IsMedia(r: SearchResult) { r.flair == "Media" }

  /** The decoded posts kept by both channels: those flaired "Media", in order. */
  function MediaOnly(rs: seq<SearchResult>): (r: seq<SearchResult>)
    ensures forall x :: x in r <==> x in rs && x.flair == "Media"
    ensures |r| <= |rs|
  {
    Filter(rs, IsMedia)
  }

  /** The Media filter keeps the decoded order: filtering a concatenation is the
      concatenation of the filtered parts. */
  lemma MediaOnlyKeepsOrder(a: seq<SearchResult>, b: seq<SearchResult>)
    ensures MediaOnly(a + b) == MediaOnly(a) + MediaOnly(b)
  {
    FilterAppend(a, b, IsMedia);
  }

  /** The two channel errors, written in pieces so that proofs can see their parts. */
  const BlockedError := "reddit is " + "blocking requests" + " (CAPTCHA/bot detection)"
  const HtmlError := "reddit returned " + "HTML instead of JSON" + " (likely CAPTCHA or rate limit)"

  /** A 200 reply, read completely, whose body the captcha classifier flags. */
  predicate IsCaptchaPage(reply: Reply)
  {
    reply.Response? && reply.status == 200 && reply.readError.None? && IsCaptchaResponse(reply.body)
  }

  /** What a search call returns, with the limiter state it leaves behind, the
      request it sent and how long it slept in the limiter first. */
  datatype Searched = Searched(result: Result<seq<SearchResult>>, limiter: Limiter, request: Request, slept: Duration)

  /** The outcome of a request once it has been sent, as the public channel reads it. */
  function PublicOutcome(reply: Reply, decode: Decoder): Result<seq<SearchResult>>
  {
    match reply
    case NoResponse(cause) => Err("fetch from reddit: " + cause)
    case Response(status, body, readError) =>
      if status != 200 then Err("reddit API error: status " + Itoa(status) + ", body: " + body)
      else if readError.Some? then Err("read response: " + readError.value)
      else if IsCaptchaResponse(body) then Err(BlockedError)
      else match decode(body)
        case Err(cause) =>
          if Contains(body, "<html") || Contains(body, "<!DOCTYPE html") then Err(HtmlError)
          else Err("parse response: " + cause)
        case Ok(posts) => Ok(MediaOnly(posts))
  }

  /** `PublicJSONFetcher.Search` called at `now`: waits on the limiter, takes the next
      User-Agent, sends the request and classifies `reply`. Only a captcha page
      records a captcha error, and it does so before any JSON parsing. */
  function PublicSearch(l: Limiter, now: Time, query: string, limit: int, matchTime: Time,
                        reply: Reply, decode: Decoder): (s: Searched)
    requires Valid(l)
    ensures Valid(s.limiter)
    ensures s.slept >= 0 && s.limiter.lastRequest == Some(now + s.slept)
    ensures l.lastRequest.Some? ==> s.limiter.lastRequest.value - l.lastRequest.value >= CurrentInterval(l, now)
    ensures s.request == Request(query, limit, WindowStart(matchTime), WindowEnd(matchTime),
                                 Browser(Rotation[l.userAgentIndex]))
    ensures s.limiter.userAgentIndex == (l.userAgentIndex + 1) % AgentCount
    ensures s.limiter.captchaCount == l.captchaCount + (if IsCaptchaPage(reply) then 1 else 0)
    ensures IsCaptchaPage(reply) ==> s.result == Err(BlockedError) && s.limiter.lastCaptchaTime == now + s.slept
    ensures !IsCaptchaPage(reply) ==> s.limiter.lastCaptchaTime == l.lastCaptchaTime
    ensures s.result.Ok? <==>
      reply.Response? && reply.status == 200 && reply.readError.None? &&
      !IsCaptchaResponse(reply.body) && decode(reply.body).Ok?
    ensures s.result.Ok? ==> s.result.value == MediaOnly(decode(reply.body).value)
  {
    var w := Wait(l, now);
    var at := now + w.slept;
    var rot := NextUserAgent(w.limiter);
    var request := Request(query, limit, WindowStart(matchTime), WindowEnd(matchTime), Browser(rot.agent));
    var limiter := if IsCaptchaPage(reply) then RecordCaptcha(rot.limiter, at) else rot.limiter;
    Searched(PublicOutcome(reply, decode), limiter, request, w.slept)
  }
}
