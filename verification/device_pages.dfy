/**
 * The parameter page window of a device: eight slots showing the block of
 * eight pages that holds the selected page, one slot flagged as selected,
 * and the name of the selected page published on its own.
 */
module DevicePages {
  import opened Decimal
  import opened OscValues
  import opened OscFlush

  /** Slot i is flagged exactly when it shows the clamped selected page; it then shows that page's name. */
  lemma PageSlotFlag(names: seq<string>, selected: int, i: int)
    requires 0 <= i < 8
    ensures var w := PageWindow(|names|, selected);
      var slot := PageGroups(names, selected)[i];
      |slot| == 2 && slot[0].address == "" && slot[1].address == "selected"
      && (slot[1].value == BoolV(true) <==> |names| > 0 && w.1 + i == w.0)
      && (slot[1].value == BoolV(true) ==> slot[0].value == StrV(SelectedPageName(names, selected)))
  {
    var w := PageWindow(|names|, selected);
    var slot := PageGroups(names, selected)[i];
    assert slot == [Message("", StrV(PageSlotName(names, w.1 + i))), Message("selected", BoolV(w.0 == w.1 + i))];
  }

  /** With at least one page, exactly one of the eight slots is flagged. */
  lemma PageWindowFlagsOne(names: seq<string>, selected: int)
    requires |names| > 0
    ensures exists i :: 0 <= i < 8 && PageGroups(names, selected)[i][1].value == BoolV(true)
    ensures forall i, j ::
      (0 <= i < 8 && 0 <= j < 8
       && PageGroups(names, selected)[i][1].value == BoolV(true)
       && PageGroups(names, selected)[j][1].value == BoolV(true)) ==> i == j
  {
    var w := PageWindow(|names|, selected);
    var i := w.0 - w.1;
    PageSlotFlag(names, selected, i);
    forall i, j | 0 <= i < 8 && 0 <= j < 8
      && PageGroups(names, selected)[i][1].value == BoolV(true)
      && PageGroups(names, selected)[j][1].value == BoolV(true)
      ensures i == j
    {
      PageSlotFlag(names, selected, i);
      PageSlotFlag(names, selected, j);
    }
  }

  /** Without pages, no slot is flagged and every slot and the selected name are empty. */
  lemma NoPagesShowsNothing(names: seq<string>, selected: int, i: int)
    requires |names| == 0 && 0 <= i < 8
    ensures PageGroups(names, selected)[i] == [Message("", StrV("")), Message("selected", BoolV(false))]
    ensures SelectedPageName(names, selected) == ""
  {
    assert PageWindow(0, selected) == (-1, 0);
    assert PageGroups(names, selected)[i] == [Message("", StrV(PageSlotName(names, i))), Message("selected", BoolV(-1 == i))];
  }

  /** On the first block of pages the name published as written is the selected page's name. */
  lemma SelectedNameAsWrittenFirstBlock(names: seq<string>, selected: int)
    requires |names| > 0 && PageWindow(|names|, selected).0 < 8
    ensures SelectedPageNameAsWritten(names, selected) == SelectedPageName(names, selected)
  {
  }

  /**
   * Past the first block the name published as written is the wrong page's:
   * with nine pages and the ninth selected, slot 1 is flagged and shows "p9",
   * while "page/selected/name" as written shows "p1".
   */
  lemma SelectedNameAsWrittenWrongPage()
    ensures var names := ["p1", "p2", "p3", "p4", "p5", "p6", "p7", "p8", "p9"];
      PageGroups(names, 8)[0] == [Message("", StrV("p9")), Message("selected", BoolV(true))]
      && SelectedPageName(names, 8) == "p9"
      && SelectedPageNameAsWritten(names, 8) == "p1"
  {
    var names := ["p1", "p2", "p3", "p4", "p5", "p6", "p7", "p8", "p9"];
    assert PageWindow(|names|, 8) == (8, 8);
    assert PageGroups(names, 8)[0] == [Message("", StrV(PageSlotName(names, 8))), Message("selected", BoolV(true))];
  }
}
