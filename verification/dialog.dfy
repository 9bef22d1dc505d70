/** The dialog overlay of internal/ui/dialog.go: a stack of dialogs whose last
    element is the front (topmost) one, routing of messages to the front dialog,
    centring of the rendered front dialog, and dialog sizing. A dialog is any value
    of type `D`; its `ID()` is the function `id`. */
module Dialog {
  import opened Wrappers
  import opened GoInt

  const DefaultDialogMaxWidth := 80
  const DefaultDialogMaxHeight := 30

  /** `DialogOverlay`: the last element of `dialogs` is the front dialog. */
  datatype Overlay<D> = Overlay(dialogs: seq<D>)

  /** `NewDialogOverlay`. */
  function NewOverlay<D>(): (o: Overlay<D>)
    ensures |o.dialogs| == 0
  {
    Overlay([])
  }

  /** `HasDialogs`. */
  predicate HasDialogs<D>(o: Overlay<D>)
  {
    |o.dialogs| > 0
  }

  /** `ContainsDialog`: the loop over the stack, bottom to top. */
  function ContainsDialog<D>(o: Overlay<D>, id: D -> string, x: string): (b: bool)
    ensures b <==> exists i :: 0 <= i < |o.dialogs| && id(o.dialogs[i]) == x
  {
    ContainsFrom(o.dialogs, id, x, 0)
  }

  function ContainsFrom<D>(s: seq<D>, id: D -> string, x: string, i: nat): (b: bool)
    requires i <= |s|
    ensures b <==> exists j :: i <= j < |s| && id(s[j]) == x
    decreases |s| - i
  {
    if i == |s| then false
    else if id(s[i]) == x then true
    else ContainsFrom(s, id, x, i + 1)
  }

  /** `OpenDialog`: the new dialog goes on top. */
  function OpenDialog<D>(o: Overlay<D>, d: D): (r: Overlay<D>)
    ensures |r.dialogs| == |o.dialogs| + 1
    ensures r.dialogs[..|o.dialogs|] == o.dialogs
    ensures r.dialogs[|o.dialogs|] == d
  {
    Overlay(o.dialogs + [d])
  }

  /** Index of the lowest element of `s` with ID `x`; `|s|` when there is none. */
  function FirstIndex<D>(s: seq<D>, id: D -> string, x: string): (i: nat)
    ensures i <= |s|
    ensures forall j :: 0 <= j < i ==> id(s[j]) != x
    ensures i < |s| ==> id(s[i]) == x
    decreases |s|
  {
    if |s| == 0 || id(s[0]) == x then 0
    else
      var k := FirstIndex(s[1..], id, x);
      assert forall j :: 1 <= j <= k ==> s[j] == s[1..][j - 1];
      k + 1
  }

  /** Removal of the lowest element of `s` with ID `x`, the loop of `CloseDialog`. */
  function RemoveFirst<D>(s: seq<D>, id: D -> string, x: string): (r: seq<D>)
    ensures var i := FirstIndex(s, id, x); r == if i < |s| then s[..i] + s[i + 1..] else s
    decreases |s|
  {
    if |s| == 0 then s
    else if id(s[0]) == x then s[1..]
    else
      var rest := RemoveFirst(s[1..], id, x);
      var k := FirstIndex(s[1..], id, x);
      assert FirstIndex(s, id, x) == k + 1;
      assert k < |s| - 1 ==> s[..k + 1] == [s[0]] + s[1..][..k] && s[k + 2..] == s[1..][k + 1..];
      [s[0]] + rest
  }

  /** `CloseDialog`: removes only the lowest dialog with ID `x`. */
  function CloseDialog<D>(o: Overlay<D>, id: D -> string, x: string): (r: Overlay<D>)
    ensures !ContainsDialog(o, id, x) ==> r == o
    ensures ContainsDialog(o, id, x) ==> |r.dialogs| == |o.dialogs| - 1
    ensures var i := FirstIndex(o.dialogs, id, x);
              i < |o.dialogs| ==> r.dialogs == o.dialogs[..i] + o.dialogs[i + 1..]
  {
    var i := FirstIndex(o.dialogs, id, x);
    assert ContainsDialog(o, id, x) <==> i < |o.dialogs|;
    Overlay(RemoveFirst(o.dialogs, id, x))
  }

  /** `CloseFrontDialog`: drops the top dialog; nothing happens on an empty stack. */
  function CloseFrontDialog<D>(o: Overlay<D>): (r: Overlay<D>)
    ensures !HasDialogs(o) ==> r == o
    ensures HasDialogs(o) ==> |r.dialogs| == |o.dialogs| - 1
    ensures forall i :: 0 <= i < |r.dialogs| ==> r.dialogs[i] == o.dialogs[i]
  {
    if |o.dialogs| == 0 then o else Overlay(o.dialogs[..|o.dialogs| - 1])
  }

  /** `FrontDialog`: the top dialog, `None` for Go's `nil` on an empty stack. */
  function FrontDialog<D>(o: Overlay<D>): (r: Option<D>)
    ensures r.None? <==> !HasDialogs(o)
    ensures r.Some? ==> r.value == o.dialogs[|o.dialogs| - 1]
  {
    if |o.dialogs| == 0 then None else Some(o.dialogs[|o.dialogs| - 1])
  }

  /** `Update`: the message is handled by the front dialog only. `handle` is the
      dialog's own `Update` already applied to the message; it returns the updated
      dialog and its action. `None` stands for the `nil` action of an empty stack. */
  function Update<D, A>(o: Overlay<D>, handle: D -> (D, A)): (r: (Overlay<D>, Option<A>))
    ensures !HasDialogs(o) ==> r.0 == o && r.1.None?
    ensures HasDialogs(o) ==> r.1 == Some(handle(o.dialogs[|o.dialogs| - 1]).1)
    ensures |r.0.dialogs| == |o.dialogs|
    ensures HasDialogs(o) ==> r.0.dialogs[|o.dialogs| - 1] == handle(o.dialogs[|o.dialogs| - 1]).0
    ensures forall i :: 0 <= i < |o.dialogs| - 1 ==> r.0.dialogs[i] == o.dialogs[i]
  {
    if |o.dialogs| == 0 then (o, None)
    else
      var idx := |o.dialogs| - 1;
      var (d', action) := handle(o.dialogs[idx]);
      (Overlay(o.dialogs[idx := d']), Some(action))
  }

  /** Left and top padding that place a view inside the screen. */
  datatype Padding = Padding(left: int, top: int)

  /** `centerDialog`: half the free space on each axis, with Go's truncating
      division, and no padding when the view is larger than the screen. */
  function CenterPadding(width: int, height: int, viewWidth: int, viewHeight: int): (p: Padding)
    ensures p.left >= 0 && p.top >= 0
    ensures viewWidth >= width ==> p.left == 0
    ensures viewHeight >= height ==> p.top == 0
    ensures viewWidth <= width ==> 0 <= (width - viewWidth) - 2 * p.left <= 1
    ensures viewHeight <= height ==> 0 <= (height - viewHeight) - 2 * p.top <= 1
  {
    Padding(Max(Quot(width - viewWidth, 2), 0), Max(Quot(height - viewHeight, 2), 0))
  }

  /** `View`: `None` (the empty string) without dialogs; otherwise the padding that
      centres the front dialog, whose rendered size at this screen size is `size`. */
  function View<D>(o: Overlay<D>, width: int, height: int, size: D -> (int, int)): (r: Option<Padding>)
    ensures r.None? <==> !HasDialogs(o)
    ensures r.Some? ==> var (vw, vh) := size(o.dialogs[|o.dialogs| - 1]);
              r.value == CenterPadding(width, height, vw, vh)
  {
    match FrontDialog(o)
    case None => None
    case Some(d) => var (vw, vh) := size(d); Some(CenterPadding(width, height, vw, vh))
  }

  /** Width and height chosen for a dialog. */
  datatype Size = Size(width: int, height: int)

  /** `maxWidth` / `maxHeight`: 80 percent of the screen, truncated. */
  function EightyPercent(n: int): (m: int)
    ensures n >= 0 ==> 0 <= 100 * m <= 80 * n < 100 * (m + 1)
  {
    Quot(n * 80, 100)
  }

  /** `DialogSize`: the content size, limited on each axis by 80 percent of the
      screen and by the absolute maximums 80 columns and 30 rows. */
  function DialogSize(screenWidth: int, screenHeight: int, contentWidth: int, contentHeight: int): (s: Size)
    ensures s.width <= contentWidth && s.width <= EightyPercent(screenWidth) && s.width <= DefaultDialogMaxWidth
    ensures s.width == contentWidth || s.width == EightyPercent(screenWidth) || s.width == DefaultDialogMaxWidth
    ensures s.height <= contentHeight && s.height <= EightyPercent(screenHeight) && s.height <= DefaultDialogMaxHeight
    ensures s.height == contentHeight || s.height == EightyPercent(screenHeight) || s.height == DefaultDialogMaxHeight
  {
    var width := Min(contentWidth, EightyPercent(screenWidth));
    var height := Min(contentHeight, EightyPercent(screenHeight));
    Size(if width > DefaultDialogMaxWidth then DefaultDialogMaxWidth else width,
         if height > DefaultDialogMaxHeight then DefaultDialogMaxHeight else height)
  }

  /** The newest dialog is the front one. */
  lemma FrontAfterOpen<D>(o: Overlay<D>, d: D)
    ensures FrontDialog(OpenDialog(o, d)) == Some(d)
    ensures HasDialogs(OpenDialog(o, d))
  {
  }

  /** Closing the front dialog undoes opening one. */
  lemma CloseFrontUndoesOpen<D>(o: Overlay<D>, d: D)
    ensures CloseFrontDialog(OpenDialog(o, d)) == o
  {
    assert OpenDialog(o, d).dialogs[..|o.dialogs|] == o.dialogs;
  }

  /** After opening `d` the stack contains exactly the IDs it contained before and `d`'s. */
  lemma ContainsAfterOpen<D>(o: Overlay<D>, d: D, id: D -> string, x: string)
    ensures ContainsDialog(OpenDialog(o, d), id, x) <==> ContainsDialog(o, id, x) || id(d) == x
  {
    var s := OpenDialog(o, d).dialogs;
    if ContainsDialog(o, id, x) {
      var i :| 0 <= i < |o.dialogs| && id(o.dialogs[i]) == x;
      assert s[i] == o.dialogs[i];
    }
    if id(d) == x {
      assert s[|s| - 1] == d;
    }
  }

  /** Opening a dialog whose ID is new and then closing that ID by name gives back
      the original stack, even when other dialogs were not touched in between. */
  lemma {:induction false} CloseUndoesOpenOfNewId<D>(o: Overlay<D>, d: D, id: D -> string)
    requires !ContainsDialog(o, id, id(d))
    ensures CloseDialog(OpenDialog(o, d), id, id(d)) == o
  {
    var s := o.dialogs + [d];
    var i := |o.dialogs|;
    assert s[i] == d;
    forall j | 0 <= j < i ensures id(s[j]) != id(d) {
      assert s[j] == o.dialogs[j];
    }
    assert s[..i] + s[i + 1..] == o.dialogs;
  }

  /** When the ID occurs, exactly one dialog carrying it leaves the stack, every
      dialog below it has another ID, and the others stay in order. */
  lemma CloseRemovesOneMatch<D>(o: Overlay<D>, id: D -> string, x: string)
    requires ContainsDialog(o, id, x)
    ensures exists i :: 0 <= i < |o.dialogs| && id(o.dialogs[i]) == x
              && (forall j :: 0 <= j < i ==> id(o.dialogs[j]) != x)
              && CloseDialog(o, id, x).dialogs == o.dialogs[..i] + o.dialogs[i + 1..]
  {
    var i := FirstIndex(o.dialogs, id, x);
    assert i < |o.dialogs|;
  }

  /** Update never opens or closes a dialog: when the front dialog keeps its ID the
      same IDs remain on the stack. */
  lemma UpdateKeepsIds<D, A>(o: Overlay<D>, handle: D -> (D, A), id: D -> string, x: string)
    requires HasDialogs(o) ==> id(handle(o.dialogs[|o.dialogs| - 1]).0) == id(o.dialogs[|o.dialogs| - 1])
    ensures HasDialogs(Update(o, handle).0) == HasDialogs(o)
    ensures ContainsDialog(Update(o, handle).0, id, x) == ContainsDialog(o, id, x)
  {
    var r := Update(o, handle).0;
    assert forall i :: 0 <= i < |o.dialogs| ==> id(r.dialogs[i]) == id(o.dialogs[i]);
  }

  /** A wider screen never gives a narrower dialog, nor a taller screen a shorter one. */
  lemma {:induction false} DialogSizeMonotone(sw: int, sh: int, sw': int, sh': int, cw: int, ch: int)
    requires sw <= sw' && sh <= sh'
    ensures DialogSize(sw, sh, cw, ch).width <= DialogSize(sw', sh', cw, ch).width
    ensures DialogSize(sw, sh, cw, ch).height <= DialogSize(sw', sh', cw, ch).height
  {
    QuotMonotone(sw * 80, sw' * 80, 100);
    QuotMonotone(sh * 80, sh' * 80, 100);
  }

  /** Go's truncating division is monotone in the dividend. */
  lemma QuotMonotone(a: int, a': int, b: int)
    requires a <= a' && b > 0
    ensures Quot(a, b) <= Quot(a', b)
  {
    var q, q' := Quot(a, b), Quot(a', b);
    if a < 0 <= a' {
      assert q <= 0 <= q';
    } else if a >= 0 {
      assert q * b <= a && a' < q' * b + b;
      Distribute(q, q', b);
      BelowOneFactor(q - q', b);
    } else {
      assert a' < 0;
      assert q * b - b < a && a' <= q' * b;
      Distribute(q, q', b);
      BelowOneFactor(q - q', b);
    }
  }

  lemma Distribute(q: int, q': int, b: int)
    ensures (q - q') * b == q * b - q' * b
  {
  }

  lemma BelowOneFactor(k: int, b: int)
    requires b > 0 && k * b < b
    ensures k < 1
  {
  }
}
