/** Section headers of internal/ui/design/header.go: a title followed or framed
    by a fill of diagonal characters, and the per-rune gradient of the title.
    Colours, their parsing and `lipgloss.Width` are opaque: whether both colours
    parse and the display width of the text are inputs. */
module Header {
  import opened GoInt

  /** One unit of gradient output: a space written as is, or a rune in its own
      style, whose colour is the blend at `position / span` of the way from the
      start colour to the end colour. */
  datatype Piece = Raw(c: char) | Styled(c: char, position: nat, span: nat)

  /** `applyHeaderGradient`'s units for a non-empty text. */
  function GradientPieces(text: string): (p: seq<Piece>)
    requires |text| > 0
    ensures |p| == |text|
    ensures forall i :: 0 <= i < |text| ==> p[i].c == text[i] && (p[i].Raw? <==> text[i] == ' ')
    ensures forall i :: 0 <= i < |text| && p[i].Styled? ==> p[i].position == i && p[i].span == Max(|text| - 1, 1)
  {
    seq(|text|, i requires 0 <= i < |text| =>
      if text[i] == ' ' then Raw(' ') else Styled(text[i], i, Max(|text| - 1, 1)))
  }

  /** The title text with its styling. */
  datatype Title = Plain(text: string) | Gradient(pieces: seq<Piece>) | Dimmed(text: string)

  /** The characters a title shows. */
  function Visible(t: Title): string
  {
    match t
    case Plain(s) => s
    case Dimmed(s) => s
    case Gradient(p) => seq(|p|, i requires 0 <= i < |p| => p[i].c)
  }

  /** `applyHeaderGradient`: the text unchanged when a colour does not parse or the
      text is empty; otherwise one unit per rune. */
  function ApplyGradient(text: string, colorsParse: bool): (t: Title)
    ensures t.Plain? <==> !colorsParse || text == ""
    ensures t.Plain? ==> t.text == text
    ensures t.Gradient? ==> t.pieces == GradientPieces(text)
  {
    if !colorsParse || |text| == 0 then Plain(text) else Gradient(GradientPieces(text))
  }

  /** Styling never changes what the title says, and every blend ratio lies
      between the start and the end colour. */
  lemma GradientKeepsText(text: string, colorsParse: bool)
    ensures Visible(ApplyGradient(text, colorsParse)) == text
    ensures var t := ApplyGradient(text, colorsParse);
            t.Gradient? ==> forall i :: 0 <= i < |t.pieces| && t.pieces[i].Styled? ==>
                              0 < t.pieces[i].span && t.pieces[i].position <= t.pieces[i].span
  {
  }

  /** The loop of `applyHeaderGradient` over the runes. */
  method GradientLoop(text: string) returns (pieces: seq<Piece>)
    requires |text| > 0
    ensures pieces == GradientPieces(text)
  {
    pieces := [];
    var span := Max(|text| - 1, 1);
    for i := 0 to |text|
      invariant |pieces| == i
      invariant forall k :: 0 <= k < i ==> pieces[k] == GradientPieces(text)[k]
    {
      if text[i] == ' ' {
        pieces := pieces + [Raw(' ')];
        continue;
      }
      pieces := pieces + [Styled(text[i], i, span)];
    }
  }

  /** A header: the title and the number of diagonals after it (0 for none, in
      which case no separating space is written either). */
  datatype Header = Header(title: Title, fill: nat)

  /** `renderHeaderWithFocus`: a gradient title when focused, a dimmed one
      otherwise, followed by a space and `width - textWidth - 2` diagonals when
      that count is positive. */
  function HeaderWithFocus(text: string, textWidth: nat, width: int, focused: bool, colorsParse: bool): (h: Header)
    ensures focused ==> h.title == ApplyGradient(text, colorsParse)
    ensures !focused ==> h.title == Dimmed(text)
    ensures h.fill > 0 <==> width - textWidth - 2 > 0
    ensures h.fill > 0 ==> h.fill == width - textWidth - 2
  {
    var title := if focused then ApplyGradient(text, colorsParse) else Dimmed(text);
    var remaining := width - textWidth - 2;
    Header(title, if remaining > 0 then remaining else 0)
  }

  /** With a fill, the header is one column narrower than the width it is given:
      title, space and diagonals take `width - 1` columns. */
  lemma FilledHeaderWidth(text: string, textWidth: nat, width: int, focused: bool, colorsParse: bool)
    requires HeaderWithFocus(text, textWidth, width, focused, colorsParse).fill > 0
    ensures textWidth + 1 + HeaderWithFocus(text, textWidth, width, focused, colorsParse).fill == width - 1
  {
  }

  /** A centred header: the title alone, or framed by diagonals on both sides
      with a space between each fill and the title. */
  datatype Centered = TitleOnly(title: Title) | Framed(left: nat, title: Title, right: nat)

  /** `RenderHeaderCentered`. */
  function HeaderCentered(text: string, textWidth: nat, width: int, colorsParse: bool): (c: Centered)
    ensures c.title == ApplyGradient(text, colorsParse)
    ensures c.TitleOnly? <==> width - textWidth - 2 <= 0
    ensures c.Framed? ==> c.left + c.right == width - textWidth - 2
    ensures c.Framed? ==> c.left <= c.right <= c.left + 1
  {
    var title := ApplyGradient(text, colorsParse);
    var remaining := width - textWidth - 2;
    if remaining <= 0 then TitleOnly(title)
    else
      var left := Quot(remaining, 2);
      Framed(left, title, remaining - left)
  }

  /** A framed header fills exactly the given width, and the left fill is the
      half of the spare columns rounded down. */
  lemma CenteredHeaderWidth(text: string, textWidth: nat, width: int, colorsParse: bool)
    requires HeaderCentered(text, textWidth, width, colorsParse).Framed?
    ensures var c := HeaderCentered(text, textWidth, width, colorsParse);
            c.left + 1 + textWidth + 1 + c.right == width && c.left == (width - textWidth - 2) / 2
  {
  }
}
