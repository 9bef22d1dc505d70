/** The adaptive rate limiter shared by both search channels
    (`rateLimiter` in internal/reddit/client.go). The clock is a parameter and
    `time.Sleep` becomes a returned sleep duration. */
module RateLimit {
  import opened Wrappers

  /** Instants and durations in nanoseconds, as Go's `time.Duration`. */
  type Time = int
  type Duration = int

  const Second: Duration := 1_000_000_000
  const Minute: Duration := 60 * Second

  /** How long after the last captcha the doubled interval stays in force. */
  const CaptchaCooldown: Duration := 10 * Minute

  /** Requests per minute of the public and the OAuth channel. */
  const PublicRequestsPerMinute := 5
  const OAuthRequestsPerMinute := 10

  /** Number of rotated request identities. */
  const AgentCount := 5

  /** The request identities rotated by the public channel. */
  datatype Agent = GolazoBot | MacChrome | WindowsChrome | LinuxChrome | MacSafari

  /** The identities in rotation order. */
  const Rotation: seq<Agent> := [GolazoBot, MacChrome, WindowsChrome, LinuxChrome, MacSafari]

  /** The User-Agent header each identity sends. */
  function AgentHeader(a: Agent): string
  {
    match a
    case GolazoBot => "golazo:v1.0.0 (by /u/golazo_app)"
    case MacChrome => "Mozilla/5.0 (Macintosh; Intel Mac OS X 10_15_7) AppleWebKit/537.36 (KHTML, like Gecko) Chrome/119.0.0.0 Safari/537.36"
    case WindowsChrome => "Mozilla/5.0 (Windows NT 10.0; Win64; x64) AppleWebKit/537.36 (KHTML, like Gecko) Chrome/119.0.0.0 Safari/537.36"
    case LinuxChrome => "Mozilla/5.0 (X11; Linux x86_64) AppleWebKit/537.36 (KHTML, like Gecko) Chrome/119.0.0.0 Safari/537.36"
    case MacSafari => "Mozilla/5.0 (Macintosh; Intel Mac OS X 10_15_7) AppleWebKit/605.1.15 (KHTML, like Gecko) Version/17.1 Safari/605.1.15"
  }

  /** Limiter state. `lastRequest` is `None` while it still holds Go's zero
      `time.Time`, for which `time.Since` saturates and never causes a sleep. */
  datatype Limiter = Limiter(
    lastRequest: Option<Time>,
    minInterval: Duration,
    captchaCount: nat,
    lastCaptchaTime: Time,
    userAgentIndex: nat)

  /** The user-agent index stays a valid index of `Rotation`. */
  predicate Valid(l: Limiter)
  {
    l.userAgentIndex < AgentCount && l.minInterval >= 0
  }

  /** `newRateLimiter(rpm)`: the interval is one minute divided by `rpm`
      (the largest whole-nanosecond interval of which `rpm` fit in a minute). */
  function NewLimiter(requestsPerMinute: int): (l: Limiter)
    requires requestsPerMinute > 0
    ensures Valid(l)
    ensures l.lastRequest.None? && l.captchaCount == 0 && l.userAgentIndex == 0
    ensures l.minInterval * requestsPerMinute <= Minute < (l.minInterval + 1) * requestsPerMinute
  {
    Limiter(None, Minute / requestsPerMinute, 0, 0, 0)
  }

  /** The public channel is built at 5 requests a minute: 12 s apart. */
  lemma PublicInterval()
    ensures NewLimiter(PublicRequestsPerMinute).minInterval == 12 * Second
  {
  }

  /** The OAuth channel is built at 10 requests a minute: 6 s apart. */
  lemma OAuthInterval()
    ensures NewLimiter(OAuthRequestsPerMinute).minInterval == 6 * Second
  {
  }

  /** A captcha was recorded and the cooldown since it has not run out. */
  predicate RecentCaptcha(l: Limiter, now: Time)
  {
    l.captchaCount > 0 && now - l.lastCaptchaTime < CaptchaCooldown
  }

  /** The interval `wait` enforces at `now`: doubled while a captcha is recent. */
  function CurrentInterval(l: Limiter, now: Time): Duration
  {
    if RecentCaptcha(l, now) then l.minInterval * 2 else l.minInterval
  }

  /** Result of `wait`: how long it slept and the limiter afterwards. */
  datatype Waited = Waited(slept: Duration, limiter: Limiter)

  /** `wait()` called at `now`: sleeps until the current interval has passed since
      the previous request, then stamps the request at the clock after the sleep. */
  function Wait(l: Limiter, now: Time): (w: Waited)
    ensures w.slept >= 0
    ensures w.limiter == l.(lastRequest := Some(now + w.slept))
    ensures l.lastRequest.Some? ==> now + w.slept - l.lastRequest.value >= CurrentInterval(l, now)
    ensures w.slept > 0 ==> l.lastRequest.Some? && now + w.slept - l.lastRequest.value == CurrentInterval(l, now)
  {
    var interval := CurrentInterval(l, now);
    var slept :=
      match l.lastRequest
      case None => 0
      case Some(last) => if now - last < interval then interval - (now - last) else 0;
    Waited(slept, l.(lastRequest := Some(now + slept)))
  }

  /** Within the cooldown after a captcha, consecutive requests are at least
      twice the base interval apart. */
  lemma WaitAfterCaptcha(l: Limiter, t: Time, now: Time)
    requires l.minInterval >= 0
    requires t <= now < t + CaptchaCooldown
    ensures var l' := RecordCaptcha(l, t);
            var w := Wait(l', now);
            w.limiter.lastRequest.value >= now &&
            (l.lastRequest.Some? ==> w.limiter.lastRequest.value - l.lastRequest.value >= 2 * l.minInterval)
  {
  }

  /** `recordCaptchaError()` at `now`. */
  function RecordCaptcha(l: Limiter, now: Time): (l': Limiter)
    ensures l'.captchaCount == l.captchaCount + 1
    ensures RecentCaptcha(l', now)
    ensures l' == l.(captchaCount := l'.captchaCount, lastCaptchaTime := now)
  {
    l.(captchaCount := l.captchaCount + 1, lastCaptchaTime := now)
  }

  /** Result of `getNextUserAgent`: the agent and the limiter afterwards. */
  datatype Rotated = Rotated(agent: Agent, limiter: Limiter)

  /** `getNextUserAgent()`: the agent at the cursor; the cursor moves on cyclically. */
  function NextUserAgent(l: Limiter): (r: Rotated)
    requires Valid(l)
    ensures Valid(r.limiter)
    ensures r.agent == Rotation[l.userAgentIndex]
    ensures r.limiter.userAgentIndex == (l.userAgentIndex + 1) % AgentCount
    ensures r.limiter.lastRequest == l.lastRequest && r.limiter.minInterval == l.minInterval
    ensures r.limiter.captchaCount == l.captchaCount && r.limiter.lastCaptchaTime == l.lastCaptchaTime
  {
    Rotated(Rotation[l.userAgentIndex],
            l.(userAgentIndex := (l.userAgentIndex + 1) % AgentCount))
  }

  /** The limiter after `k` successive `getNextUserAgent` calls. */
  function AfterCalls(l: Limiter, k: nat): (r: Limiter)
    requires Valid(l)
    ensures Valid(r)
    decreases k
  {
    if k == 0 then l else AfterCalls(NextUserAgent(l).limiter, k - 1)
  }

  /** Call number `k` (from 0) hands out the agent `k` places after the cursor,
      wrapping round: pure round-robin rotation. */
  lemma {:induction false} RoundRobin(l: Limiter, k: nat)
    requires Valid(l)
    ensures AfterCalls(l, k).userAgentIndex == (l.userAgentIndex + k) % AgentCount
    ensures NextUserAgent(AfterCalls(l, k)).agent == Rotation[(l.userAgentIndex + k) % AgentCount]
    decreases k
  {
    if k > 0 {
      var next := NextUserAgent(l).limiter;
      assert AfterCalls(l, k) == AfterCalls(next, k - 1);
      RoundRobin(next, k - 1);
      RotateStep(l.userAgentIndex, k - 1);
      assert next.userAgentIndex + (k - 1) == ((l.userAgentIndex + 1) % AgentCount) + (k - 1);
    }
  }

  /** Moving the cursor one place and then k places is moving it k + 1 places. */
  lemma RotateStep(a: nat, k: nat)
    requires a < AgentCount
    ensures (((a + 1) % AgentCount) + k) % AgentCount == (a + 1 + k) % AgentCount
  {
    if a + 1 == AgentCount {
      assert (a + 1 + k) % 5 == (k + 5) % 5 == k % 5;
    }
  }

  /** Request stamps of successive `wait` calls arriving at the clock readings
      `arrivals`, each arrival seeing the limiter left by the previous one. */
  function Stamps(l: Limiter, arrivals: seq<Time>): (s: seq<Time>)
    ensures |s| == |arrivals|
    decreases |arrivals|
  {
    if |arrivals| == 0 then []
    else
      var w := Wait(l, arrivals[0]);
      [w.limiter.lastRequest.value] + Stamps(w.limiter, arrivals[1..])
  }

  /** N requests through one limiter span at least (N-1) base intervals, whatever
      the arrival times: the limiter is the backpressure the source relies on. */
  lemma {:induction false} SpanLowerBound(l: Limiter, arrivals: seq<Time>)
    requires l.minInterval >= 0
    requires |arrivals| >= 1
    ensures Stamps(l, arrivals)[|arrivals| - 1] - Stamps(l, arrivals)[0]
            >= (|arrivals| - 1) * l.minInterval
    decreases |arrivals|
  {
    if |arrivals| > 1 {
      var w := Wait(l, arrivals[0]);
      var rest := arrivals[1..];
      SpanLowerBound(w.limiter, rest);
      var s := Stamps(w.limiter, rest);
      var w2 := Wait(w.limiter, rest[0]);
      assert s[0] == w2.limiter.lastRequest.value;
      assert s[0] - w.limiter.lastRequest.value >= CurrentInterval(w.limiter, rest[0]) >= l.minInterval;
      assert Stamps(l, arrivals)[|arrivals| - 1] == s[|rest| - 1];
    }
  }
}
