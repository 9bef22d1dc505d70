/** The live-matches view of internal/ui/panels.go: the rows of the match list,
    the match-details panel with its live-update feed, and the text of a match
    event. Every lipgloss style is opaque; the model keeps which text is chosen
    and in which order it appears. The line truncation through the package's
    `Truncate` helper is not part of this model. */
module Panels {
  import opened Wrappers
  import opened GoInt
  import Layout

  /** `api.MatchStatus` as the renderers distinguish it. */
  datatype MatchStatus = Live | Finished | NotStarted

  /** The status indicator of a match: the live marker with the minute text, or
      a plain word. */
  datatype Badge = LiveBadge(time: string) | PlainBadge(word: string)

  /** The text shown for a live match: `LiveTime`, or "LIVE" when it is missing. */
  function LiveText(liveTime: Option<string>): (t: string)
    ensures liveTime.Some? ==> t == liveTime.value
    ensures liveTime.None? ==> t == "LIVE"
  {
    if liveTime.Some? then liveTime.value else "LIVE"
  }

  /** The compact indicator of a list row (`renderMatchListItem`). */
  function ListBadge(status: MatchStatus, liveTime: Option<string>): (b: Badge)
    ensures b.LiveBadge? <==> status == Live
    ensures b.LiveBadge? ==> b.time == LiveText(liveTime)
    ensures b == PlainBadge("FT") <==> status == Finished
    ensures b == PlainBadge("VS") <==> status == NotStarted
  {
    match status
    case Live => LiveBadge(LiveText(liveTime))
    case Finished => PlainBadge("FT")
    case NotStarted => PlainBadge("VS")
  }

  /** The status line of the details panel (`renderMatchDetailsPanel`). */
  function DetailsBadge(status: MatchStatus, liveTime: Option<string>): (b: Badge)
    ensures b.LiveBadge? <==> status == Live
    ensures b.LiveBadge? ==> b.time == LiveText(liveTime)
    ensures b == PlainBadge("Finished") <==> status == Finished
    ensures b == PlainBadge("Not started") <==> status == NotStarted
  {
    match status
    case Live => LiveBadge(LiveText(liveTime))
    case Finished => PlainBadge("Finished")
    case NotStarted => PlainBadge("Not started")
  }

  /** The list row and the details panel tell the same status apart: the same
      live marker, and "FT"/"VS" exactly where the details say "Finished"/"Not
      started". */
  lemma BadgesAgree(status: MatchStatus, liveTime: Option<string>)
    ensures ListBadge(status, liveTime).LiveBadge? == DetailsBadge(status, liveTime).LiveBadge?
    ensures ListBadge(status, liveTime).LiveBadge? ==> ListBadge(status, liveTime) == DetailsBadge(status, liveTime)
    ensures ListBadge(status, liveTime) == PlainBadge("FT") <==> DetailsBadge(status, liveTime) == PlainBadge("Finished")
    ensures ListBadge(status, liveTime) == PlainBadge("VS") <==> DetailsBadge(status, liveTime) == PlainBadge("Not started")
  {
  }

  /** A score as `fmt.Sprintf("%d<sep>%d")` prints it when both sides are known,
      otherwise "vs". The list row uses the separator "-", the details panel
      "  -  ". */
  function ScoreText(home: Option<int>, away: Option<int>, sep: string): (s: string)
    ensures home.None? || away.None? ==> s == "vs"
    ensures home.Some? && away.Some? ==> |s| >= 2 + |sep|
  {
    if home.Some? && away.Some? then Itoa(home.value) + sep + Itoa(away.value) else "vs"
  }

  const ListScoreSep := "-"
  const DetailsScoreSep := "  -  "

  /** The end of the run of digits that starts at `i`. */
  function DigitRunEnd(s: string, i: nat): (k: nat)
    requires i <= |s|
    ensures i <= k <= |s|
    ensures forall j :: i <= j < k ==> IsDigit(s[j])
    ensures k < |s| ==> !IsDigit(s[k])
    decreases |s| - i
  {
    if i == |s| || !IsDigit(s[i]) then i else DigitRunEnd(s, i + 1)
  }

  /** Reads a score back: digits, the separator, digits. */
  function ReadScore(s: string, sep: string): (r: Option<(nat, nat)>)
  {
    var k := DigitRunEnd(s, 0);
    if 0 < k && k + |sep| < |s| && s[k..k + |sep|] == sep
       && (forall j :: k + |sep| <= j < |s| ==> IsDigit(s[j]))
    then Some((DigitsValue(s[..k]), DigitsValue(s[k + |sep|..])))
    else None
  }

  lemma {:induction false} DigitRunEndAt(s: string, i: nat, k: nat)
    requires i <= k < |s| && !IsDigit(s[k])
    requires forall j :: i <= j < k ==> IsDigit(s[j])
    ensures DigitRunEnd(s, i) == k
    decreases k - i
  {
    if i < k {
      DigitRunEndAt(s, i + 1, k);
    }
  }

  /** The score text reads back as the two scores exactly when both are known and
      non-negative; "vs" and negative scores read as no score. */
  lemma ScoreReadsBack(home: Option<int>, away: Option<int>, sep: string)
    requires |sep| > 0 && !IsDigit(sep[0])
    ensures ReadScore(ScoreText(home, away, sep), sep)
            == if home.Some? && away.Some? && home.value >= 0 && away.value >= 0
               then Some((home.value as nat, away.value as nat)) else None
  {
    var s := ScoreText(home, away, sep);
    if home.Some? && away.Some? {
      var h, a := Itoa(home.value), Itoa(away.value);
      if home.value < 0 {
        DigitRunEndAt(s, 0, 0);
      } else {
        assert s[..|h|] == h;
        DigitRunEndAt(s, 0, |h|);
        assert s[|h|..|h| + |sep|] == sep;
        assert s[|h| + |sep|..] == a;
        if away.value >= 0 {
          NatToStringReadsBack(home.value);
          NatToStringReadsBack(away.value);
        } else {
          assert !IsDigit(s[|h| + |sep|]);
        }
      }
    } else {
      DigitRunEndAt(s, 0, 0);
    }
  }

  /** The fields of a match the list row and the details panel read. */
  datatype Match = Match(status: MatchStatus, liveTime: Option<string>,
                         homeShort: string, awayShort: string,
                         homeScore: Option<int>, awayScore: Option<int>, league: string)

  /** One row of the match list, before styling. */
  datatype Row = Row(badge: Badge, home: string, score: string, away: string, league: string, selected: bool)

  /** `renderMatchListItem`. */
  function MatchRow(m: Match, selected: bool): (r: Row)
    ensures r.badge == ListBadge(m.status, m.liveTime) && r.score == ScoreText(m.homeScore, m.awayScore, ListScoreSep)
    ensures r.home == m.homeShort && r.away == m.awayShort && r.league == m.league && r.selected == selected
  {
    Row(ListBadge(m.status, m.liveTime), m.homeShort, ScoreText(m.homeScore, m.awayScore, ListScoreSep),
        m.awayShort, m.league, selected)
  }

  /** The body of the match-list panel: the empty state, or one row per match. */
  datatype MatchList = NoLiveMatches | Rows(rows: seq<Row>)

  /** `renderMatchesListPanel`: row `i` is selected exactly when `i == selected`. */
  function MatchListPanel(matches: seq<Match>, selected: int): (l: MatchList)
    ensures l.NoLiveMatches? <==> |matches| == 0
    ensures l.Rows? ==> |l.rows| == |matches|
    ensures l.Rows? ==> forall i :: 0 <= i < |matches| ==> l.rows[i] == MatchRow(matches[i], i == selected)
  {
    if |matches| == 0 then NoLiveMatches
    else Rows(seq(|matches|, i requires 0 <= i < |matches| => MatchRow(matches[i], i == selected)))
  }

  /** At most one row is highlighted, and one is exactly when `selected` is a
      valid index. */
  lemma OneRowSelected(matches: seq<Match>, selected: int)
    requires |matches| > 0
    ensures var rows := MatchListPanel(matches, selected).rows;
            forall i, j :: 0 <= i < j < |rows| ==> !(rows[i].selected && rows[j].selected)
    ensures var rows := MatchListPanel(matches, selected).rows;
            (exists i :: 0 <= i < |rows| && rows[i].selected) <==> 0 <= selected < |matches|
  {
    var rows := MatchListPanel(matches, selected).rows;
    if 0 <= selected < |matches| {
      assert rows[selected].selected;
    }
  }

  /** `RenderMultiPanelView` splits the width like the list-based live view but
      without replacing an unset width by the default. */
  function MultiPanelSplit(width: int): (s: Layout.Split)
    ensures s.left + 1 + s.right == width && s.right >= 35
    ensures width > 0 ==> s == Layout.LiveLayout(width, 1).split
  {
    Layout.LiveSplit(width)
  }

  /** With the width still unset, the left panel gets a negative width. */
  lemma UnsetWidthGivesNegativeLeft()
    ensures MultiPanelSplit(0) == Layout.Split(-36, 35)
  {
  }

  const BulletPrefix := "\U{2022} "

  /** The live-update feed of the details panel. */
  datatype Feed = Feed(spinner: bool, noUpdatesMessage: bool, lines: seq<string>)

  /** The updates newest first, each behind a bullet. */
  function NewestFirst(updates: seq<string>): (lines: seq<string>)
    ensures |lines| == |updates|
    ensures forall i :: 0 <= i < |updates| ==> lines[i] == BulletPrefix + updates[|updates| - 1 - i]
  {
    seq(|updates|, i requires 0 <= i < |updates| => BulletPrefix + updates[|updates| - 1 - i])
  }

  /** `renderMatchDetailsPanel`: the spinner line while loading, "No updates yet"
      when there are no updates and nothing is loading, and the updates newest
      first. */
  function UpdatesFeed(updates: seq<string>, loading: bool): (f: Feed)
    ensures f.spinner <==> loading
    ensures f.noUpdatesMessage <==> |updates| == 0 && !loading
    ensures f.lines == NewestFirst(updates)
  {
    Feed(loading, |updates| == 0 && !loading, if |updates| > 0 then NewestFirst(updates) else [])
  }

  /** The newest update leads the feed and the oldest closes it. */
  lemma NewestUpdateOnTop(updates: seq<string>, loading: bool)
    requires |updates| > 0
    ensures UpdatesFeed(updates, loading).lines[0] == BulletPrefix + updates[|updates| - 1]
    ensures UpdatesFeed(updates, loading).lines[|updates| - 1] == BulletPrefix + updates[0]
  {
  }

  /** An update that arrives later is shown above the earlier ones. */
  lemma NewUpdateGoesOnTop(updates: seq<string>, u: string)
    ensures NewestFirst(updates + [u]) == [BulletPrefix + u] + NewestFirst(updates)
  {
    var a, b := NewestFirst(updates + [u]), [BulletPrefix + u] + NewestFirst(updates);
    forall i | 0 <= i < |a|
      ensures a[i] == b[i]
    {
      if i > 0 {
        assert (updates + [u])[|updates| - i] == updates[|updates| - 1 - (i - 1)];
      }
    }
  }

  /** The descending `for` loop that lists the updates. */
  method ListUpdates(updates: seq<string>) returns (lines: seq<string>)
    ensures lines == NewestFirst(updates)
  {
    lines := [];
    var i := |updates| - 1;
    while i >= 0
      invariant -1 <= i < |updates|
      invariant |lines| == |updates| - 1 - i
      invariant forall k :: 0 <= k < |lines| ==> lines[k] == BulletPrefix + updates[|updates| - 1 - k]
    {
      lines := lines + [BulletPrefix + updates[i]];
      i := i - 1;
    }
  }

  /** The details panel: an empty state when no match is selected. */
  datatype DetailsPanel = SelectAMatch
                        | Details(title: string, score: string, badge: Badge, league: string, feed: Feed)

  function DetailsPanelFor(m: Option<Match>, updates: seq<string>, loading: bool): (p: DetailsPanel)
    ensures p.SelectAMatch? <==> m.None?
    ensures p.Details? ==> p.title == m.value.homeShort + " vs " + m.value.awayShort
    ensures p.Details? ==> p.score == ScoreText(m.value.homeScore, m.value.awayScore, DetailsScoreSep)
    ensures p.Details? ==> p.badge == DetailsBadge(m.value.status, m.value.liveTime) && p.league == m.value.league
    ensures p.Details? ==> p.feed == UpdatesFeed(updates, loading)
  {
    if m.None? then SelectAMatch
    else
      var d := m.value;
      Details(d.homeShort + " vs " + d.awayShort, ScoreText(d.homeScore, d.awayScore, DetailsScoreSep),
              DetailsBadge(d.status, d.liveTime), d.league, UpdatesFeed(updates, loading))
  }

  /** A match event; `detail` is `EventType`, the card colour or substitution side. */
  datatype Event = Event(minute: int, kind: string, player: Option<string>, assist: Option<string>,
                         detail: Option<string>, team: string)

  datatype Side = SubIn | SubOut | SubUnknown

  /** The event text of `renderEvent`, with its emoji as a tag. */
  datatype EventText = GoalText(player: string, assistNote: string)
                     | CardText(red: bool, player: string)
                     | SubstitutionText(side: Side, arrowIn: bool, player: string)
                     | OtherText(kind: string)

  /** The player named in an event text: the player, or "Unknown". */
  function PlayerName(player: Option<string>): (p: string)
    ensures player.Some? ==> p == player.value
    ensures player.None? ==> p == "Unknown"
  {
    if player.Some? then player.value else "Unknown"
  }

  function SideOf(detail: Option<string>): (s: Side)
    ensures s == SubIn <==> detail == Some("in")
    ensures s == SubOut <==> detail == Some("out")
  {
    if detail == Some("in") then SubIn else if detail == Some("out") then SubOut else SubUnknown
  }

  function EventTextOf(e: Event): (t: EventText)
    ensures t.GoalText? <==> e.kind == "goal"
    ensures t.GoalText? ==> (t.assistNote == "" <==> e.assist.None?)
    ensures t.GoalText? && e.assist.Some? ==> t.assistNote == " (assist: " + e.assist.value + ")"
    ensures t.CardText? <==> e.kind == "card"
    ensures t.CardText? ==> (t.red <==> e.detail == Some("red"))
    ensures t.SubstitutionText? <==> e.kind == "substitution"
    ensures t.SubstitutionText? ==> (t.arrowIn <==> e.detail == Some("in")) && t.side == SideOf(e.detail)
    ensures t.OtherText? ==> t.kind == e.kind
    ensures !t.OtherText? ==> t.player == PlayerName(e.player)
  {
    if e.kind == "goal" then
      GoalText(PlayerName(e.player), if e.assist.Some? then " (assist: " + e.assist.value + ")" else "")
    else if e.kind == "card" then
      var cardType := if e.detail.Some? then e.detail.value else "yellow";
      CardText(cardType == "red", PlayerName(e.player))
    else if e.kind == "substitution" then
      var side := SideOf(e.detail);
      SubstitutionText(side, side == SubIn, PlayerName(e.player))
    else OtherText(e.kind)
  }

  /** The minute column: `fmt.Sprintf("%d'", minute)`. */
  function MinuteText(minute: int): (s: string)
    ensures |s| >= 2 && s[|s| - 1] == '\''
    ensures minute >= 0 ==> (forall i :: 0 <= i < |s| - 1 ==> IsDigit(s[i])) && DigitsValue(s[..|s| - 1]) == minute
  {
    NatToStringReadsBackAt(minute);
    assert (Itoa(minute) + "'")[..|Itoa(minute)|] == Itoa(minute);
    Itoa(minute) + "'"
  }

  lemma NatToStringReadsBackAt(minute: int)
    ensures minute >= 0 ==> DigitsValue(Itoa(minute)) == minute
  {
    if minute >= 0 {
      NatToStringReadsBack(minute);
    }
  }
}
