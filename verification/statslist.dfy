/** The finished-matches panel of the stats view (`RenderStatsListPanel` in
    internal/ui/list_panels.go): which message replaces the list, the date-range
    selector, and the "Upcoming Matches" section shown under a separator for the
    one-day range. Styles and joining are opaque; the model keeps the choices and
    the text of each upcoming line. */
module StatsList {
  import opened Wrappers
  import opened GoInt
  import Layout

  /** The team fields the panel reads. */
  datatype Team = Team(name: string, shortName: string)

  type Hour = h: int | 0 <= h < 24
  type Minute = m: int | 0 <= m < 60

  /** The wall-clock time of a kick-off in its own location. */
  datatype ClockTime = ClockTime(hour: Hour, minute: Minute)

  /** An upcoming match: `MatchTime` may be missing. */
  datatype Upcoming = Upcoming(home: Team, away: Team, kickoff: Option<ClockTime>, league: string)

  /** The name shown for a team: the short name, or the full name when the short
      name is empty. */
  function TeamLabel(t: Team): (r: string)
    ensures t.shortName != "" ==> r == t.shortName
    ensures t.shortName == "" ==> r == t.name
    ensures r == "" <==> t.shortName == "" && t.name == ""
  {
    if t.shortName == "" then t.name else t.shortName
  }

  /** A number below 100 with a leading zero, as the `15` and `04` of a Go time
      layout print it. */
  function TwoDigits(n: nat): (s: string)
    requires n < 100
    ensures |s| == 2 && IsDigit(s[0]) && IsDigit(s[1])
    ensures 10 * DigitValue(s[0]) + DigitValue(s[1]) == n
  {
    [DigitChar(n / 10), DigitChar(n % 10)]
  }

  /** `t.Format("15:04")`. */
  function FormatClock(t: ClockTime): (s: string)
    ensures |s| == 5 && s[2] == ':'
    ensures IsDigit(s[0]) && IsDigit(s[1]) && IsDigit(s[3]) && IsDigit(s[4])
  {
    TwoDigits(t.hour) + ":" + TwoDigits(t.minute)
  }

  /** Reads an "hh:mm" text back; `None` for anything that is not a valid time. */
  function ParseClock(s: string): (r: Option<ClockTime>)
    ensures r.Some? ==> |s| == 5
  {
    if |s| == 5 && s[2] == ':' && IsDigit(s[0]) && IsDigit(s[1]) && IsDigit(s[3]) && IsDigit(s[4]) then
      var h := 10 * DigitValue(s[0]) + DigitValue(s[1]);
      var m := 10 * DigitValue(s[3]) + DigitValue(s[4]);
      if h < 24 && m < 60 then Some(ClockTime(h, m)) else None
    else None
  }

  /** The formatted time determines the time. */
  lemma ClockRoundTrip(t: ClockTime)
    ensures ParseClock(FormatClock(t)) == Some(t)
  {
    var s := FormatClock(t);
    assert s[..2] == TwoDigits(t.hour) && s[3..] == TwoDigits(t.minute);
  }

  /** Every text that reads as a time is exactly that time's formatting. */
  lemma ParseThenFormat(s: string)
    requires ParseClock(s).Some?
    ensures FormatClock(ParseClock(s).value) == s
  {
    var t := ParseClock(s).value;
    var f := FormatClock(t);
    assert f[..2] == TwoDigits(t.hour) && f[3..] == TwoDigits(t.minute);
    assert f[0] == s[0] && f[1] == s[1] && f[3] == s[3] && f[4] == s[4];
  }

  /** The line for one upcoming match: `"  home vs away"`, then `" (hh:mm)"` when the
      kick-off time is known, then `" - league"` when the league has a name. */
  function UpcomingLine(m: Upcoming): (line: string)
    ensures var head := "  " + TeamLabel(m.home) + " vs " + TeamLabel(m.away);
            |head| <= |line| && line[..|head|] == head
    ensures |line| == 6 + |TeamLabel(m.home)| + |TeamLabel(m.away)|
                      + (if m.kickoff.Some? then 8 else 0) + (if m.league != "" then 3 + |m.league| else 0)
    ensures m.league != "" ==> line[|line| - 3 - |m.league|..] == " - " + m.league
    ensures var head := "  " + TeamLabel(m.home) + " vs " + TeamLabel(m.away);
            m.kickoff.Some? ==> |head| + 8 <= |line| && line[|head|..|head| + 8] == " (" + FormatClock(m.kickoff.value) + ")"
  {
    var head := "  " + TeamLabel(m.home) + " vs " + TeamLabel(m.away);
    var timed := if m.kickoff.Some? then head + " (" + FormatClock(m.kickoff.value) + ")" else head;
    if m.league != "" then timed + " - " + m.league else timed
  }

  /** The line of every upcoming match, in the order given. */
  function UpcomingLines(upcoming: seq<Upcoming>): (lines: seq<string>)
    ensures |lines| == |upcoming|
    ensures forall i :: 0 <= i < |upcoming| ==> lines[i] == UpcomingLine(upcoming[i])
  {
    seq(|upcoming|, i requires 0 <= i < |upcoming| => UpcomingLine(upcoming[i]))
  }

  /** The body of the loop over upcoming matches: the statements that build one line. */
  method FormatUpcomingLine(m: Upcoming) returns (line: string)
    ensures line == UpcomingLine(m)
  {
    var home := m.home.shortName;
    if home == "" {
      home := m.home.name;
    }
    var away := m.away.shortName;
    if away == "" {
      away := m.away.name;
    }
    line := "  " + home + " vs " + away;
    if m.kickoff.Some? {
      line := line + " (" + FormatClock(m.kickoff.value) + ")";
    }
    if m.league != "" {
      line := line + " - " + m.league;
    }
  }

  /** The `for` loop that collects the upcoming lines. */
  method CollectUpcomingLines(upcoming: seq<Upcoming>) returns (lines: seq<string>)
    ensures lines == UpcomingLines(upcoming)
  {
    lines := [];
    for i := 0 to |upcoming|
      invariant |lines| == i
      invariant forall k :: 0 <= k < i ==> lines[k] == UpcomingLine(upcoming[k])
    {
      var line := FormatUpcomingLine(upcoming[i]);
      lines := lines + [line];
    }
  }

  const NoUpcomingMessage := "No upcoming matches"

  /** The section is shown only for the one-day range and only when there are
      upcoming matches. */
  predicate HasUpcoming(dateRange: int, upcoming: seq<Upcoming>)
  {
    dateRange == 1 && |upcoming| > 0
  }

  /** The lines of the upcoming section, `None` when it is not shown. The source
      falls back to a "No upcoming matches" line when the loop produced none. */
  function UpcomingSection(dateRange: int, upcoming: seq<Upcoming>): (r: Option<seq<string>>)
    ensures r.Some? <==> dateRange == 1 && |upcoming| > 0
    ensures r.Some? ==> |r.value| > 0
  {
    if !HasUpcoming(dateRange, upcoming) then None
    else
      var lines := UpcomingLines(upcoming);
      Some(if |lines| == 0 then [NoUpcomingMessage] else lines)
  }

  /** The fallback line is dead code: whenever the section is shown it holds one
      line per upcoming match, and none of them is the fallback message. */
  lemma NoUpcomingFallbackUnreachable(dateRange: int, upcoming: seq<Upcoming>)
    requires UpcomingSection(dateRange, upcoming).Some?
    ensures UpcomingSection(dateRange, upcoming).value == UpcomingLines(upcoming)
    ensures NoUpcomingMessage !in UpcomingSection(dateRange, upcoming).value
  {
    var lines := UpcomingLines(upcoming);
    forall i | 0 <= i < |lines|
      ensures lines[i] != NoUpcomingMessage
    {
      assert lines[i][0] == ' ';
    }
  }

  /** What stands where the finished-matches list goes. */
  datatype ListBody = KeyMissingMessage | NoFinishedMessage | MatchList

  function ListBodyFor(apiKeyMissing: bool, itemCount: nat): (b: ListBody)
    ensures b == KeyMissingMessage <==> apiKeyMissing
    ensures b == NoFinishedMessage <==> !apiKeyMissing && itemCount == 0
    ensures b == MatchList <==> !apiKeyMissing && itemCount > 0
  {
    if apiKeyMissing then KeyMissingMessage
    else if itemCount == 0 then NoFinishedMessage
    else MatchList
  }

  /** One option of the date-range selector. */
  datatype DateOption = DateOption(days: int, caption: string, highlighted: bool)

  /** `renderDateRangeSelector`: the options "1d" and "3d", each highlighted when it
      is the selected range. */
  function DateSelector(selected: int): (opts: seq<DateOption>)
    ensures |opts| == 2
    ensures opts[0].days == 1 && opts[0].caption == "1d" && opts[1].days == 3 && opts[1].caption == "3d"
    ensures forall i :: 0 <= i < |opts| ==> (opts[i].highlighted <==> opts[i].days == selected)
  {
    [DateOption(1, "1d", selected == 1), DateOption(3, "3d", selected == 3)]
  }

  /** At most one option is highlighted, and one is exactly when the selected
      range is one of the offered ranges. */
  lemma SelectorHighlightsSelected(selected: int)
    ensures forall i, j :: 0 <= i < j < 2 ==> !(DateSelector(selected)[i].highlighted && DateSelector(selected)[j].highlighted)
    ensures (exists i :: 0 <= i < 2 && DateSelector(selected)[i].highlighted) <==> selected == 1 || selected == 3
  {
    var opts := DateSelector(selected);
    if selected == 1 {
      assert opts[0].highlighted;
    } else if selected == 3 {
      assert opts[1].highlighted;
    }
  }

  /** The parts of the panel that depend on its inputs. `separator` is the number
      of rule characters between the finished and the upcoming section. */
  datatype StatsPanel = StatsPanel(selector: seq<DateOption>, body: ListBody,
                                   separator: Option<nat>, upcoming: Option<seq<string>>)

  /** `strings.Repeat` of a negative count panics: `None`. */
  function RepeatCount(count: int): (r: Option<nat>)
    ensures r.Some? <==> count >= 0
    ensures r.Some? ==> r.value == count
  {
    if count < 0 then None else Some(count)
  }

  /** The panel as written: the separator is `width - 8` characters long, so a
      panel narrower than 8 columns with an upcoming section panics (`None`). */
  function StatsListPanelAsWritten(width: int, dateRange: int, apiKeyMissing: bool, itemCount: nat,
                                   upcoming: seq<Upcoming>): (r: Option<StatsPanel>)
    ensures r.None? <==> HasUpcoming(dateRange, upcoming) && width < 8
  {
    var section := UpcomingSection(dateRange, upcoming);
    var panel := StatsPanel(DateSelector(dateRange), ListBodyFor(apiKeyMissing, itemCount), None, section);
    if HasUpcoming(dateRange, upcoming) then
      var count := RepeatCount(width - 8);
      if count.None? then None else Some(panel.(separator := count))
    else Some(panel)
  }

  /** The panel with the separator clipped at zero length, which is what a
      narrow panel evidently needs. */
  function StatsListPanel(width: int, dateRange: int, apiKeyMissing: bool, itemCount: nat,
                          upcoming: seq<Upcoming>): (p: StatsPanel)
    ensures p.selector == DateSelector(dateRange)
    ensures p.body == ListBodyFor(apiKeyMissing, itemCount)
    ensures p.upcoming == UpcomingSection(dateRange, upcoming)
    ensures p.separator.Some? <==> p.upcoming.Some?
    ensures p.separator.Some? ==> p.separator.value == Max(width - 8, 0)
  {
    var section := UpcomingSection(dateRange, upcoming);
    var panel := StatsPanel(DateSelector(dateRange), ListBodyFor(apiKeyMissing, itemCount), None, section);
    if HasUpcoming(dateRange, upcoming) then panel.(separator := Some(Max(width - 8, 0))) else panel
  }

  /** Wherever the source does not panic, the corrected panel is the same. */
  lemma CorrectedPanelAgrees(width: int, dateRange: int, apiKeyMissing: bool, itemCount: nat,
                             upcoming: seq<Upcoming>)
    requires StatsListPanelAsWritten(width, dateRange, apiKeyMissing, itemCount, upcoming).Some?
    ensures StatsListPanelAsWritten(width, dateRange, apiKeyMissing, itemCount, upcoming).value
            == StatsListPanel(width, dateRange, apiKeyMissing, itemCount, upcoming)
  {
  }

  /** In the stats view the panel gets the left width of the split, which drops
      below 8 columns exactly on terminals narrower than 39 columns: there the
      one-day range with any upcoming match panics. */
  lemma NarrowStatsViewPanics(width: int, height: int, m: Upcoming)
    ensures var left := Layout.StatsLayout(width, height).split.left;
            StatsListPanelAsWritten(left, 1, false, 0, [m]).None? <==> 0 < width < 39
  {
    var w := Layout.EffectiveSize(width, height).width;
    Layout.StatsLeftMinimumIff(w);
  }
}
