/** Integer layout of the two-panel views (internal/ui/list_panels.go and
    internal/ui/panels.go): default terminal size, the rows reserved for the
    spinner, and the split of the width between a left and a right panel with a
    one-column separator. Rendering itself is opaque. */
module Layout {
  import opened Wrappers
  import opened GoInt

  const DefaultWidth := 80
  const DefaultHeight := 24
  /** Rows always reserved above the panels for the loading spinner. */
  const SpinnerHeight := 3
  const MinAvailableHeight := 10

  /** Widths of the left and right panel. */
  datatype Split = Split(left: int, right: int)

  /** The shared split: the left panel gets `percent` of the width (truncated) but
      at least `minLeft`; the right panel gets the rest minus the separator; if that
      is below `minRight`, the right panel takes `minRight` and the left panel
      whatever remains, even below its own minimum. */
  function SplitWidth(width: int, percent: int, minLeft: int, minRight: int): (s: Split)
    ensures s.left + 1 + s.right == width
    ensures s.right >= minRight
    ensures var wanted := Max(Quot(width * percent, 100), minLeft);
            width - wanted - 1 >= minRight ==> s.left == wanted
    ensures var wanted := Max(Quot(width * percent, 100), minLeft);
            width - wanted - 1 < minRight ==> s.right == minRight
    ensures s.left < minLeft ==> s.right == minRight
  {
    var left := Max(Quot(width * percent, 100), minLeft);
    var right := width - left - 1;
    if right < minRight then Split(width - minRight - 1, minRight) else Split(left, right)
  }

  /** `RenderMultiPanelView` and `RenderMultiPanelViewWithList`: 35 percent on the
      left, at least 25 columns, and at least 35 columns on the right. */
  function LiveSplit(width: int): (s: Split)
    ensures s.left + 1 + s.right == width && s.right >= 35
  {
    SplitWidth(width, 35, 25, 35)
  }

  /** `RenderStatsViewWithList`: half the width on each side, at least 30 columns each. */
  function StatsSplit(width: int): (s: Split)
    ensures s.left + 1 + s.right == width && s.right >= 30
  {
    SplitWidth(width, 50, 30, 30)
  }

  /** The left panel of the live view gets its 25-column minimum exactly when the
      terminal has room for both minimums and the separator. */
  lemma LiveLeftMinimumIff(width: int)
    ensures LiveSplit(width).left >= 25 <==> width >= 61
  {
    var q := Quot(width * 35, 100);
    if width >= 72 {
      assert q >= 25;
    } else if width >= 0 {
      assert q <= 24;
    } else {
      assert q <= 0;
    }
  }

  /** The left panel of the stats view gets its 30-column minimum exactly when the
      terminal has room for both minimums and the separator. */
  lemma StatsLeftMinimumIff(width: int)
    ensures StatsSplit(width).left >= 30 <==> width >= 61
  {
    var q := Quot(width * 50, 100);
    if width >= 0 {
      assert 2 * q <= width < 2 * q + 2;
    } else {
      assert q <= 0;
    }
  }

  /** On a 60-column terminal the live view's left panel is one column short of
      its minimum, and below 36 columns it is given a negative width. */
  lemma NarrowTerminalShrinksLeftPanel()
    ensures LiveSplit(60) == Split(24, 35)
    ensures LiveSplit(30).left < 0
  {
    assert Quot(60 * 35, 100) == 21;
    assert Quot(30 * 35, 100) == 10;
  }

  /** The terminal size the views lay out: zero or negative sizes (not yet known)
      become 80 by 24. */
  datatype Size = Size(width: int, height: int)

  function EffectiveSize(width: int, height: int): (s: Size)
    ensures s.width > 0 && s.height > 0
    ensures width > 0 ==> s.width == width
    ensures width <= 0 ==> s.width == DefaultWidth
    ensures height > 0 ==> s.height == height
    ensures height <= 0 ==> s.height == DefaultHeight
  {
    Size(if width <= 0 then DefaultWidth else width, if height <= 0 then DefaultHeight else height)
  }

  /** Rows left for the panels below the spinner area, never fewer than 10. */
  function AvailableHeight(height: int): (h: int)
    ensures h >= MinAvailableHeight
    ensures h >= height - SpinnerHeight
    ensures h == MinAvailableHeight || h == height - SpinnerHeight
  {
    Max(height - SpinnerHeight, MinAvailableHeight)
  }

  /** Layout of a two-panel view. `rightHeight` is the height of each of the two
      stacked right panels of the stats view; the live view has one right panel of
      the full panel height. */
  datatype Layout = Layout(width: int, height: int, split: Split, panelHeight: int, rightHeight: int)

  /** `RenderMultiPanelViewWithList`. */
  function LiveLayout(width: int, height: int): (l: Layout)
    ensures var s := EffectiveSize(width, height);
            l.width == s.width && l.height == s.height && l.split == LiveSplit(s.width)
    ensures l.panelHeight == AvailableHeight(l.height) - 2 && l.panelHeight >= 8
    ensures l.rightHeight == l.panelHeight
  {
    var s := EffectiveSize(width, height);
    var panelHeight := AvailableHeight(s.height) - 2;
    Layout(s.width, s.height, LiveSplit(s.width), panelHeight, panelHeight)
  }

  /** `RenderStatsViewWithList`: the right side is split into two panels of half
      the panel height each (truncated). */
  function StatsLayout(width: int, height: int): (l: Layout)
    ensures var s := EffectiveSize(width, height);
            l.width == s.width && l.height == s.height && l.split == StatsSplit(s.width)
    ensures l.panelHeight == AvailableHeight(l.height) - 2 && l.panelHeight >= 8
    ensures 2 * l.rightHeight <= l.panelHeight <= 2 * l.rightHeight + 1
  {
    var s := EffectiveSize(width, height);
    var panelHeight := AvailableHeight(s.height) - 2;
    Layout(s.width, s.height, StatsSplit(s.width), panelHeight, Quot(panelHeight, 2))
  }

  /** The default 80 by 24 terminal: 28 + 1 + 51 columns and 19-row panels in the
      live view; 40 + 1 + 39 columns and two 9-row right panels in the stats view. */
  lemma DefaultTerminal()
    ensures LiveLayout(0, 0) == Layout(80, 24, Split(28, 51), 19, 19)
    ensures StatsLayout(0, 0) == Layout(80, 24, Split(40, 39), 19, 9)
  {
    assert Quot(80 * 35, 100) == 28;
    assert Quot(80 * 50, 100) == 40;
  }

  /** What occupies the area above the panels: centred text, or a string of that
      many newlines (`strings.Repeat("\n", n)`). */
  datatype SpinnerArea = Centered(text: string) | Reserved(newlines: nat)

  /** The spinner area: while the view is loading and a spinner exists, its frame
      (or "Loading..." when the frame is empty) centred; otherwise three newlines. */
  function SpinnerAreaFor(viewLoading: bool, spinnerFrame: Option<string>): (a: SpinnerArea)
    ensures a.Reserved? <==> !viewLoading || spinnerFrame.None?
    ensures a.Reserved? ==> a.newlines == SpinnerHeight
    ensures a.Centered? ==> a.text != ""
    ensures a.Centered? && spinnerFrame.value != "" ==> a.text == spinnerFrame.value
  {
    if viewLoading && spinnerFrame.Some? then
      Centered(if spinnerFrame.value != "" then spinnerFrame.value else "Loading...")
    else Reserved(SpinnerHeight)
  }
}
