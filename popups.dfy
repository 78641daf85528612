/** The floating "+1" / "+2" labels `showComboPopup` puts over a hit hole:
    where a label goes on the 3 x 3 board and how the list of labels grows
    and shrinks. */
module Popups {

  const Columns: int := 3
  const CellPitch: int := 114   // px from one hole to the next
  const CellInset: int := 12    // px from a hole's corner to its label

  datatype Popup = Popup(id: string, x: int, y: int, text: string)

  datatype Point = Point(x: int, y: int)

  /** Where the label of a hole goes: column hole % 3, row hole / 3, each
      cell 114 px wide and the label 12 px in. */
  function PopupPosition(hole: int): (p: Point)
    requires 0 <= hole
    ensures hole < Columns * Columns ==> 12 <= p.x <= 240 && 12 <= p.y <= 240
    ensures hole < Columns ==> p.y == CellInset
    ensures hole % Columns == 0 ==> p.x == CellInset
  {
    Point((hole % Columns) * CellPitch + CellInset, (hole / Columns) * CellPitch + CellInset)
  }

  /** The hole whose label sits at p: the inverse of PopupPosition. */
  function HoleAt(p: Point): int
  {
    ((p.y - CellInset) / CellPitch) * Columns + (p.x - CellInset) / CellPitch
  }

  /** A label's position tells which hole it belongs to. */
  lemma PositionIdentifiesHole(hole: int)
    requires 0 <= hole
    ensures HoleAt(PopupPosition(hole)) == hole
  {
  }

  /** Two different holes never share a label position. */
  lemma PositionsAreDistinct(h1: int, h2: int)
    requires 0 <= h1 && 0 <= h2 && h1 != h2
    ensures PopupPosition(h1) != PopupPosition(h2)
  {
  }

  /** The label text for a hit worth the given points. */
  function ComboText(points: int): (t: string)
    ensures points == 2 ==> t == "+2"
    ensures points != 2 ==> t == "+1"
  {
    if points == 2 then "+2" else "+1"
  }

  /** The label `showComboPopup` adds for a hit on hole worth points. */
  function ComboPopup(id: string, hole: int, points: int): (p: Popup)
    requires 0 <= hole
    ensures p.id == id && p.text == ComboText(points)
    ensures Point(p.x, p.y) == PopupPosition(hole)
  {
    var pos := PopupPosition(hole);
    Popup(id, pos.x, pos.y, ComboText(points))
  }

  /** The filter run when a label expires: every label whose id differs,
      in the same order. */
  function WithoutId(popups: seq<Popup>, id: string): (r: seq<Popup>)
    ensures |r| <= |popups|
    ensures forall p :: p in r <==> p in popups && p.id != id
    decreases |popups|
  {
    if popups == [] then []
    else if popups[0].id != id then [popups[0]] + WithoutId(popups[1..], id)
    else WithoutId(popups[1..], id)
  }

  /** Filtering a concatenation filters each part. */
  lemma {:induction false} WithoutIdAppend(a: seq<Popup>, b: seq<Popup>, id: string)
    ensures WithoutId(a + b, id) == WithoutId(a, id) + WithoutId(b, id)
    decreases |a|
  {
    if a != [] {
      assert (a + b)[1..] == a[1..] + b;
      WithoutIdAppend(a[1..], b, id);
    } else {
      assert a + b == b;
    }
  }

  /** Removing an id no label carries leaves the list as it is. */
  lemma {:induction false} WithoutAbsentId(popups: seq<Popup>, id: string)
    requires forall i :: 0 <= i < |popups| ==> popups[i].id != id
    ensures WithoutId(popups, id) == popups
    decreases |popups|
  {
    if popups != [] {
      WithoutAbsentId(popups[1..], id);
    }
  }

  /** Expiring a freshly shown label with a new id gives back the list from
      before it was shown. */
  lemma ExpireUndoesShow(popups: seq<Popup>, p: Popup)
    requires forall i :: 0 <= i < |popups| ==> popups[i].id != p.id
    ensures WithoutId(popups + [p], p.id) == popups
  {
    WithoutIdAppend(popups, [p], p.id);
    WithoutAbsentId(popups, p.id);
    assert WithoutId([p], p.id) == [];
  }

  /** Expiring one label leaves a label shown later in place, at the end. */
  lemma ExpireKeepsLaterLabel(popups: seq<Popup>, p: Popup, id: string)
    requires p.id != id
    ensures WithoutId(popups + [p], id) == WithoutId(popups, id) + [p]
  {
    WithoutIdAppend(popups, [p], id);
    assert WithoutId([p], id) == [p] + WithoutId([], id);
  }
}
