/** Filtering and rendering decisions of the league list delegate
    (internal/ui/list_delegate.go): whether an item matches the filter text, how
    matches inside a title are highlighted, and which checkbox and style an item
    gets. Styles are opaque: a highlighted title is a sequence of plain and marked
    segments, where a marked segment is text passed to the filter-match style. */
module ListDelegate {
  import opened Wrappers
  import opened Text

  /** `itemMatchesFilter`: an empty filter matches everything; otherwise the
      lower-cased filter must occur in the lower-cased filter value. */
  predicate ItemMatchesFilter(itemFilterValue: string, filter: string)
  {
    filter == "" || Contains(LowerStr(itemFilterValue), LowerStr(filter))
  }

  /** Output piece of `HighlightMatches`: raw text, or text rendered with the match style. */
  datatype Segment = Plain(text: string) | Marked(text: string)

  /** The inner loop over `j` from position `j` on: rune `j` of `filter` fold-equals
      rune `i + j` of `text`, and so on to the end of the filter. */
  predicate FoldRun(text: string, filter: string, i: nat, j: nat)
    requires i + |filter| <= |text|
    decreases |filter| - j
  {
    j >= |filter| || (FoldEq(text[i + j], filter[j]) && FoldRun(text, filter, i, j + 1))
  }

  /** The inner loop succeeds: the whole filter fold-equals the text at `i`. */
  predicate MatchAt(text: string, filter: string, i: int)
  {
    0 <= i && i + |filter| <= |text| && FoldRun(text, filter, i, 0)
  }

  /** The search loop over `i`: the earliest match at or after `from`, if any. */
  function NextMatch(text: string, filter: string, from: nat): (m: Option<nat>)
    ensures m.Some? ==> from <= m.value && MatchAt(text, filter, m.value)
    decreases |text| - from
  {
    if from + |filter| > |text| then None
    else if MatchAt(text, filter, from) then Some(from)
    else NextMatch(text, filter, from + 1)
  }

  /** No match starts between `from` and the one `NextMatch` finds, nor anywhere
      after `from` when it finds none. */
  lemma {:induction false} NextMatchIsEarliest(text: string, filter: string, from: nat, k: int)
    requires from <= k
    requires NextMatch(text, filter, from).Some? ==> k < NextMatch(text, filter, from).value
    ensures !MatchAt(text, filter, k)
    decreases |text| - from
  {
    if from + |filter| <= |text| && !MatchAt(text, filter, from) && from < k {
      NextMatchIsEarliest(text, filter, from + 1, k);
    }
  }

  /** The outer loop from `lastIndex == from`: text up to the next match, the match
      itself, then the rest; the remaining text once no match is left. */
  function Highlight(text: string, filter: string, from: nat): (r: seq<Segment>)
    requires |filter| > 0 && from <= |text|
    decreases |text| - from
  {
    match NextMatch(text, filter, from)
    case None => [Plain(text[from..])]
    case Some(i) =>
      [Plain(text[from..i]), Marked(text[i..i + |filter|])] + Highlight(text, filter, i + |filter|)
  }

  /** `HighlightMatches`: the text alone when the filter is empty or has no
      case-insensitive occurrence, otherwise every match marked. */
  function HighlightMatches(text: string, filter: string): (r: seq<Segment>)
    ensures filter == "" || !Contains(LowerStr(text), LowerStr(filter)) ==> r == [Plain(text)]
  {
    if filter == "" || !Contains(LowerStr(text), LowerStr(filter)) then [Plain(text)]
    else Highlight(text, filter, 0)
  }

  /** `Highlight` when a match is found. */
  lemma HighlightUnfold(text: string, filter: string, from: nat)
    requires |filter| > 0 && from <= |text| && NextMatch(text, filter, from).Some?
    ensures var i := NextMatch(text, filter, from).value;
            Highlight(text, filter, from)
            == [Plain(text[from..i]), Marked(text[i..i + |filter|])] + Highlight(text, filter, i + |filter|)
  {
  }

  /** One round of the outer loop keeps `r + Highlight(text, filter, lastIndex)`
      fixed: the text before the next match and the match join the output, and
      the scan resumes after the match. */
  lemma HighlightStep(text: string, filter: string, from: nat, i: nat, r: seq<Segment>, whole: seq<Segment>)
    requires |filter| > 0 && from <= |text| && NextMatch(text, filter, from) == Some(i)
    requires r + Highlight(text, filter, from) == whole
    ensures from < i + |filter| <= |text|
    ensures (r + [Plain(text[from..i]), Marked(text[i..i + |filter|])]) + Highlight(text, filter, i + |filter|) == whole
  {
    HighlightUnfold(text, filter, from);
  }

  /** The last round of the outer loop: the rest of the text completes the output. */
  lemma HighlightLast(text: string, filter: string, from: nat, r: seq<Segment>, whole: seq<Segment>)
    requires |filter| > 0 && from <= |text| && NextMatch(text, filter, from).None?
    requires r + Highlight(text, filter, from) == whole
    ensures r + [Plain(text[from..])] == whole
  {
  }

  /** The run of fold-equal runes is the rune-wise comparison it stands for. */
  lemma {:induction false} FoldRunAll(text: string, filter: string, i: nat, j: nat)
    requires i + |filter| <= |text|
    ensures FoldRun(text, filter, i, j) <==> forall k :: j <= k < |filter| ==> FoldEq(text[i + k], filter[k])
    decreases |filter| - j
  {
    if j < |filter| {
      FoldRunAll(text, filter, i, j + 1);
    }
  }

  /** A match is an occurrence of the lower-cased filter in the lower-cased text:
      the loops of `HighlightMatches` and its `strings.Contains` guard agree. */
  lemma MatchAtIffOccurs(text: string, filter: string, i: int)
    ensures MatchAt(text, filter, i) <==> OccursAt(LowerStr(text), LowerStr(filter), i)
  {
    if 0 <= i && i + |filter| <= |text| {
      FoldRunAll(text, filter, i, 0);
      var lt, lf := LowerStr(text), LowerStr(filter);
      if OccursAt(lt, lf, i) {
        forall k | 0 <= k < |filter| ensures FoldEq(text[i + k], filter[k]) {
          assert lt[i..i + |lf|][k] == lf[k];
        }
      }
      if MatchAt(text, filter, i) {
        assert lt[i..i + |lf|] == lf;
      }
    }
  }

  /** Comparing inside a slice of the text is comparing in the text itself. */
  lemma {:induction false} FoldRunInSlice(text: string, filter: string, lo: nat, hi: nat, p: nat, j: nat)
    requires lo <= hi <= |text| && p + |filter| <= hi - lo
    ensures FoldRun(text[lo..hi], filter, p, j) == FoldRun(text, filter, lo + p, j)
    decreases |filter| - j
  {
    if j < |filter| {
      assert text[lo..hi][p + j] == text[lo + p + j];
      FoldRunInSlice(text, filter, lo, hi, p, j + 1);
    }
  }

  /** A match inside a slice of the text is a match in the text, and back. */
  lemma MatchInSlice(text: string, filter: string, lo: nat, hi: nat, p: nat)
    requires lo <= hi <= |text| && p + |filter| <= hi - lo
    ensures MatchAt(text[lo..hi], filter, p) <==> MatchAt(text, filter, lo + p)
  {
    FoldRunInSlice(text, filter, lo, hi, p, 0);
  }

  /** The text of all segments, i.e. the output with the match style removed. */
  function Strip(segments: seq<Segment>): string
  {
    if |segments| == 0 then "" else segments[0].text + Strip(segments[1..])
  }

  lemma {:induction false} StripAppend(a: seq<Segment>, b: seq<Segment>)
    ensures Strip(a + b) == Strip(a) + Strip(b)
    decreases |a|
  {
    if |a| > 0 {
      assert (a + b)[0] == a[0] && (a + b)[1..] == a[1..] + b;
      StripAppend(a[1..], b);
      assert Strip(a + b) == a[0].text + (Strip(a[1..]) + Strip(b));
    } else {
      assert a + b == b;
    }
  }

  /** Removing the highlighting from `Highlight` gives back the scanned text. */
  lemma {:induction false} HighlightStrips(text: string, filter: string, from: nat)
    requires |filter| > 0 && from <= |text|
    ensures Strip(Highlight(text, filter, from)) == text[from..]
    decreases |text| - from
  {
    var next := NextMatch(text, filter, from);
    if next.Some? {
      var i := next.value;
      var head := [Plain(text[from..i]), Marked(text[i..i + |filter|])];
      HighlightUnfold(text, filter, from);
      HighlightStrips(text, filter, i + |filter|);
      StripAppend(head, Highlight(text, filter, i + |filter|));
      assert Strip(head) == text[from..i] + text[i..i + |filter|];
      assert text[from..] == text[from..i] + text[i..i + |filter|] + text[i + |filter|..];
    }
  }

  /** Stripping the match style from `HighlightMatches` always yields the input. */
  lemma HighlightMatchesStrips(text: string, filter: string)
    ensures Strip(HighlightMatches(text, filter)) == text
  {
    if filter != "" && Contains(LowerStr(text), LowerStr(filter)) {
      HighlightStrips(text, filter, 0);
    }
  }

  /** `t` holds no fold-equal occurrence of `filter`. */
  ghost predicate NoMatch(t: string, filter: string)
  {
    forall p :: !MatchAt(t, filter, p)
  }

  /** The shape of a highlighted text, `Plain (Marked Plain)*`: each marked segment
      fold-equals the filter and no plain segment contains a match, so no match
      was skipped. */
  ghost predicate WellHighlighted(r: seq<Segment>, filter: string)
    decreases |r|
  {
    |r| >= 1 && r[0].Plain? && NoMatch(r[0].text, filter)
    && (|r| == 1
        || (|r| >= 3 && r[1].Marked? && |r[1].text| == |filter| && MatchAt(r[1].text, filter, 0)
            && WellHighlighted(r[2..], filter)))
  }

  /** The text `Highlight` leaves plain before the next match holds no match. */
  lemma PlainHasNoMatch(text: string, filter: string, from: nat, to: nat)
    requires |filter| > 0 && from <= to <= |text|
    requires NextMatch(text, filter, from).Some? ==> to == NextMatch(text, filter, from).value
    ensures NoMatch(text[from..to], filter)
  {
    forall p ensures !MatchAt(text[from..to], filter, p) {
      if MatchAt(text[from..to], filter, p) {
        MatchInSlice(text, filter, from, to, p as nat);
        NextMatchIsEarliest(text, filter, from, from + p);
      }
    }
  }

  /** The span `Highlight` marks fold-equals the filter. */
  lemma MarkedIsMatch(text: string, filter: string, i: nat)
    requires MatchAt(text, filter, i)
    ensures MatchAt(text[i..i + |filter|], filter, 0)
  {
    MatchInSlice(text, filter, i, i + |filter|, 0);
  }

  lemma WellHighlightedCons(p: string, m: string, rest: seq<Segment>, filter: string)
    requires NoMatch(p, filter) && |m| == |filter| && MatchAt(m, filter, 0)
    requires WellHighlighted(rest, filter)
    ensures WellHighlighted([Plain(p), Marked(m)] + rest, filter)
  {
    assert ([Plain(p), Marked(m)] + rest)[2..] == rest;
  }

  lemma {:induction false} HighlightShape(text: string, filter: string, from: nat)
    requires |filter| > 0 && from <= |text|
    ensures WellHighlighted(Highlight(text, filter, from), filter)
    decreases |text| - from
  {
    var next := NextMatch(text, filter, from);
    if next.None? {
      PlainHasNoMatch(text, filter, from, |text|);
      assert text[from..] == text[from..|text|];
    } else {
      var i := next.value;
      HighlightShape(text, filter, i + |filter|);
      PlainHasNoMatch(text, filter, from, i);
      MarkedIsMatch(text, filter, i);
      HighlightUnfold(text, filter, from);
      WellHighlightedCons(text[from..i], text[i..i + |filter|], Highlight(text, filter, i + |filter|), filter);
    }
  }

  /** The shape of `HighlightMatches` output for every text and non-empty filter. */
  lemma HighlightMatchesShape(text: string, filter: string)
    requires filter != ""
    ensures WellHighlighted(HighlightMatches(text, filter), filter)
  {
    if Contains(LowerStr(text), LowerStr(filter)) {
      HighlightShape(text, filter, 0);
    } else {
      forall p ensures !MatchAt(text, filter, p) {
        MatchAtIffOccurs(text, filter, p);
      }
    }
  }

  /** When the guard lets a non-empty filter through, at least one span is marked. */
  lemma HighlightMarksSomething(text: string, filter: string)
    requires filter != "" && Contains(LowerStr(text), LowerStr(filter))
    ensures |HighlightMatches(text, filter)| >= 3 && HighlightMatches(text, filter)[1].Marked?
  {
    var p :| 0 <= p <= |text| - |filter| && OccursAt(LowerStr(text), LowerStr(filter), p);
    MatchAtIffOccurs(text, filter, p);
    if NextMatch(text, filter, 0).None? {
      NextMatchIsEarliest(text, filter, 0, p);
    }
    HighlightUnfold(text, filter, 0);
  }

  /** The loop over `j`: compares the filter with the text at `i`, rune by rune. */
  method MatchesAt(text: string, filter: string, i: nat) returns (found: bool)
    requires i + |filter| <= |text|
    ensures found == MatchAt(text, filter, i)
  {
    var j := 0;
    while j < |filter|
      invariant 0 <= j <= |filter|
      invariant FoldRun(text, filter, i, 0) == FoldRun(text, filter, i, j)
    {
      if !FoldEq(text[i + j], filter[j]) {
        return false;
      }
      j := j + 1;
    }
    return true;
  }

  /** The loop over `i`: `matchIndex`, or -1 when no match starts at or after `lastIndex`. */
  method FindMatch(text: string, filter: string, lastIndex: nat) returns (matchIndex: int)
    ensures matchIndex == -1 <==> NextMatch(text, filter, lastIndex).None?
    ensures matchIndex != -1 ==> matchIndex == NextMatch(text, filter, lastIndex).value
  {
    var i := lastIndex;
    while i <= |text| - |filter|
      invariant lastIndex <= i
      invariant NextMatch(text, filter, lastIndex) == NextMatch(text, filter, i)
      decreases |text| - i
    {
      var found := MatchesAt(text, filter, i);
      if found {
        return i;
      }
      i := i + 1;
    }
    return -1;
  }

  /** The outer loop of `HighlightMatches`, with `lastIndex` advancing past each match. */
  method HighlightLoop(text: string, filter: string) returns (r: seq<Segment>)
    requires |filter| > 0
    ensures r == Highlight(text, filter, 0)
  {
    ghost var whole := Highlight(text, filter, 0);
    r := [];
    var lastIndex := 0;
    while true
      invariant lastIndex <= |text|
      invariant r + Highlight(text, filter, lastIndex) == whole
      decreases |text| - lastIndex
    {
      var matchIndex := FindMatch(text, filter, lastIndex);
      if matchIndex == -1 {
        HighlightLast(text, filter, lastIndex, r, whole);
        r := r + [Plain(text[lastIndex..])];
        return;
      }
      HighlightStep(text, filter, lastIndex, matchIndex, r, whole);
      r := r + [Plain(text[lastIndex..matchIndex]), Marked(text[matchIndex..matchIndex + |filter|])];
      lastIndex := matchIndex + |filter|;
    }
  }

  /** `HighlightMatches` as written: the guard, then the loop. */
  method HighlightMatchesLoop(text: string, filter: string) returns (r: seq<Segment>)
    ensures r == HighlightMatches(text, filter)
  {
    if filter == "" || !Contains(LowerStr(text), LowerStr(filter)) {
      return [Plain(text)];
    }
    r := HighlightLoop(text, filter);
  }

  /** `LeagueListItem` as the delegate sees it; `filterValue` is its `FilterValue()`. */
  datatype LeagueItem = LeagueItem(title: string, description: string, selected: bool, filterValue: string)

  /** An item handed to `Render`: a league item, or any other item, rendered by the
      fallback path with its filter value as title and its description if it has one. */
  datatype ListItem = League(league: LeagueItem) | Other(filterValue: string, description: Option<string>)

  /** The three style families of the delegate. */
  datatype Style = SelectedStyle | DimmedStyle | NormalStyle

  /** The state of the list that `Render` reads. */
  datatype ListState = ListState(cursor: int, filtering: bool, filter: string)

  /** What `Render` writes: an optional checkbox with its style, the title segments
      and description, and the style of title and description. */
  datatype Rendered = Rendered(checkbox: Option<(string, Style)>, title: seq<Segment>, description: string, style: Style)

  /** `"[x]"` for a selected league, `"[ ]"` otherwise. */
  function Checkbox(selected: bool): (c: string)
    ensures |c| == 3 && c[0] == '[' && c[2] == ']'
    ensures c[1] == 'x' <==> selected
  {
    if selected then "[x]" else "[ ]"
  }

  /** `isDimmed`. */
  predicate IsDimmed(state: ListState, item: LeagueItem)
  {
    state.filtering && state.filter != "" && !ItemMatchesFilter(item.filterValue, state.filter)
  }

  /** Precedence of the style branches: the cursor row, then dimming, then normal. */
  function StyleFor(current: bool, dimmed: bool): (s: Style)
    ensures s == SelectedStyle <==> current
    ensures s == DimmedStyle <==> !current && dimmed
    ensures s == NormalStyle <==> !current && !dimmed
  {
    if current then SelectedStyle else if dimmed then DimmedStyle else NormalStyle
  }

  /** `LeagueListDelegate.Render` for the item at `index`. */
  function Render(state: ListState, index: int, item: ListItem): (r: Rendered)
    ensures item.Other? ==> r.checkbox.None? && r.title == [Plain(item.filterValue)]
    ensures item.Other? ==> r.style == (if index == state.cursor then SelectedStyle else NormalStyle)
    ensures item.Other? ==> r.description == (if item.description.Some? then item.description.value else "")
    ensures item.League? ==> r.checkbox.Some? && r.checkbox.value.0 == Checkbox(item.league.selected)
    ensures item.League? ==> r.checkbox.value.1 == r.style && r.description == item.league.description
    ensures item.League? ==> (r.style == DimmedStyle <==>
      index != state.cursor && state.filtering && state.filter != ""
      && !ItemMatchesFilter(item.league.filterValue, state.filter))
    ensures item.League? ==> (r.style == SelectedStyle <==> index == state.cursor)
    ensures item.League? ==> Strip(r.title) == item.league.title
    ensures item.League? && state.filtering && state.filter != "" && ItemMatchesFilter(item.league.filterValue, state.filter) ==>
      r.title == HighlightMatches(item.league.title, state.filter)
    ensures item.League? && !(state.filtering && state.filter != "" && ItemMatchesFilter(item.league.filterValue, state.filter)) ==>
      r.title == [Plain(item.league.title)]
  {
    match item
    case Other(fv, desc) =>
      Rendered(None, [Plain(fv)], if desc.Some? then desc.value else "",
               if index == state.cursor then SelectedStyle else NormalStyle)
    case League(league) =>
      var dimmed := IsDimmed(state, league);
      var style := StyleFor(index == state.cursor, dimmed);
      var title := if state.filtering && !dimmed && state.filter != ""
                   then HighlightMatches(league.title, state.filter)
                   else [Plain(league.title)];
      HighlightMatchesStrips(league.title, state.filter);
      Rendered(Some((Checkbox(league.selected), style)), title, league.description, style)
  }

  /** A league title is highlighted only while filtering with a non-empty filter
      that the item matches; a dimmed item's title is never marked. */
  lemma HighlightOnlyWhenShown(state: ListState, index: int, league: LeagueItem)
    ensures var r := Render(state, index, League(league));
            (exists k :: 0 <= k < |r.title| && r.title[k].Marked?) ==>
              state.filtering && state.filter != "" && ItemMatchesFilter(league.filterValue, state.filter)
  {
  }
}
