/** Classifier for captcha / bot-detection pages (`isCaptchaResponse` in
    internal/reddit/client.go). */
module BotDetect {
  import opened Text

  /** The fixed phrases, all lower case, checked in this order. */
  const Indicators: seq<string> := [
    "prove your humanity",
    "captcha",
    "robot",
    "automated",
    "blocked",
    "rate limit",
    "too many requests"
  ]

  /** Whether one of `indicators` occurs in `lower`, tried in order as the source's loop does. */
  function AnyIndicator(lower: string, indicators: seq<string>): (b: bool)
    ensures b <==> exists k | 0 <= k < |indicators| :: Contains(lower, indicators[k])
    decreases |indicators|
  {
    if |indicators| == 0 then false
    else if Contains(lower, indicators[0]) then true
    else
      var rest := AnyIndicator(lower, indicators[1..]);
      assert forall k | 1 <= k < |indicators| :: indicators[k] == indicators[1..][k - 1];
      rest
  }

  /** `isCaptchaResponse(body)`: the lower-cased body contains at least one indicator. */
  function IsCaptchaResponse(body: string): (b: bool)
    ensures b <==> exists k | 0 <= k < |Indicators| :: Contains(LowerStr(body), Indicators[k])
  {
    AnyIndicator(LowerStr(body), Indicators)
  }

  /** A well-formed JSON payload that merely mentions a robot is still classified
      as a challenge page: the classifier looks at words, not at the format. */
  lemma JsonMentioningRobotIsRejected()
    ensures IsCaptchaResponse("{\"title\":\"Robot\"}")
  {
    var body := "{\"title\":\"Robot\"}";
    var lower := LowerStr(body);
    assert lower[10..15] == "robot";
    assert OccursAt(lower, Indicators[2], 10);
  }

  /** An empty JSON object is not classified as a challenge page. */
  lemma EmptyObjectAccepted()
    ensures !IsCaptchaResponse("{}")
  {
  }
}
