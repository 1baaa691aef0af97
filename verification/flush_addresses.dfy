/**
 * The address structure of one flush: every address is offered at most
 * once, so the change tracker sees each entity's value exactly once per
 * flush. Domains are told apart by the three characters after a known
 * position (the "head"): "/track/…" and "/master/…" differ at position 1,
 * "/track/3/…" and "/track/selected/…" at position 7, and so on.
 */
module FlushAddresses {
  import opened Decimal
  import opened Options
  import opened OscValues
  import opened OscAddress
  import opened OscSnapshot
  import opened OscFlush

  type Heads = set<(char, char, char)>

  const TrackLeafHeads: Heads := {
    ('e', 'x', 'i'), ('t', 'y', 'p'), ('a', 'c', 't'), ('s', 'e', 'l'), ('i', 's', 'G'),
    ('n', 'a', 'm'), ('v', 'o', 'l'), ('p', 'a', 'n'), ('m', 'u', 't'), ('s', 'o', 'l'),
    ('r', 'e', 'c'), ('m', 'o', 'n'), ('a', 'u', 't'), ('c', 'a', 'n'), ('p', 'o', 's') }
  const TailHeads: Heads := { ('c', 'o', 'l'), ('c', 'r', 'o'), ('v', 'u', '\0') }
  const ChannelLeafHeads: Heads := {
    ('e', 'x', 'i'), ('a', 'c', 't'), ('s', 'e', 'l'), ('n', 'a', 'm'),
    ('v', 'o', 'l'), ('p', 'a', 'n'), ('m', 'u', 't'), ('s', 'o', 'l') }
  const DeviceLeafHeads: Heads := {
    ('e', 'x', 'i'), ('n', 'a', 'm'), ('b', 'y', 'p'), ('e', 'x', 'p'), ('w', 'i', 'n') }
  const DeviceHeads: Heads := DeviceLeafHeads + { ('s', 'i', 'b'), ('p', 'a', 'r'), ('p', 'a', 'g') }
  const TransportHeads: Heads := {
    ('p', 'l', 'a'), ('r', 'e', 'c'), ('o', 'v', 'e'), ('r', 'e', 'p'), ('p', 'u', 'n'),
    ('c', 'l', 'i'), ('p', 'r', 'e'), ('t', 'e', 'm'), ('c', 'r', 'o'), ('a', 'u', 't'),
    ('t', 'i', 'm'), ('b', 'e', 'a') }
  const FrameHeads: Heads := { ('l', 'a', 'y'), ('a', 'r', 'r'), ('m', 'i', 'x') }
  const GlobalHeads: Heads := TransportHeads + FrameHeads + { ('p', 'r', 'o') }

  /** The fixed addresses of the transport block, in publishing order, in two runs of apart heads. */
  const TransportFront: seq<string> := [
    "/play", "/record", "/overdub", "/overdub/launcher", "/repeat", "/punchIn", "/punchOut",
    "/click", "/click/ticks", "/click/volume", "/click/volumeStr", "/click/preroll" ]
  const TransportBack: seq<string> := [
    "/preroll", "/tempo/raw", "/crossfade", "/autowrite", "/autowrite/launcher", "/automationWriteMode",
    "/time/str", "/time/signature", "/beat/str" ]
  const TransportAddresses: seq<string> := TransportFront + TransportBack

  /** The fixed addresses of the layout, arranger and mixer frames, in publishing order. */
  const FrameFront: seq<string> := [
    "/layout", "/arranger/cueMarkerVisibility", "/arranger/playbackFollow",
    "/arranger/trackRowHeight", "/arranger/clipLauncherSectionVisibility",
    "/arranger/timeLineVisibility", "/arranger/ioSectionVisibility",
    "/arranger/effectTracksVisibility" ]
  const FrameBack: seq<string> := [
    "/mixer/clipLauncherSectionVisibility",
    "/mixer/crossFadeSectionVisibility", "/mixer/deviceSectionVisibility",
    "/mixer/sendsSectionVisibility", "/mixer/ioSectionVisibility", "/mixer/meterSectionVisibility" ]
  const FrameAddresses: seq<string> := FrameFront + FrameBack

  /** Prefixing keeps uniqueness and puts the prefix's head on every address. */
  lemma PrefixedShape(p: string, ms: seq<Message>, k: nat, h: (char, char, char))
    requires Unique(ms) && k + 3 <= |p| && Head(p, k) == h
    ensures Unique(Prefixed(p, ms)) && HeadsIn(Prefixed(p, ms), k, {h})
  {
    UniquePrefixed(p, ms);
    UnderPrefixed(p, ms);
    UnderHeads(p, Prefixed(p, ms), k);
  }

  /** An indexed family of unique groups is unique and carries its base's head. */
  lemma IndexedShape(base: string, groups: seq<seq<Message>>, first: nat, k: nat, h: (char, char, char))
    requires forall i :: 0 <= i < |groups| ==> Unique(groups[i])
    requires k + 3 <= |base| && Head(base, k) == h
    ensures Unique(Indexed(base, groups, first))
    ensures HeadsIn(Indexed(base, groups, first), k, {h})
  {
    IndexedUnique(base, groups, first);
    IndexedUnder(base, groups, first);
    UnderHeads(base, Indexed(base, groups, first), k);
  }

  // ---------------------------------------------------------------------
  // Entity level (relative addresses)

  /** The heads of the relative bases under which entities nest their families. */
  /** The head of a relative base is its first three characters. */
  lemma BaseHead(base: string)
    requires |base| >= 3
    ensures Head(base, 0) == (base[0], base[1], base[2])
  {
  }

  lemma ParameterGroupsUnique(ps: seq<Parameter>, isSend: bool)
    ensures forall i :: 0 <= i < |ps| ==> Unique(ParameterGroups(ps, isSend)[i])
  {
  }

  lemma ClipSlotGroupsUnique(cs: seq<ClipSlot>)
    ensures forall i :: 0 <= i < |cs| ==> Unique(ClipSlotGroups(cs)[i])
  {
  }

  /** The fixed relative addresses of a track's scalar leaves, in publishing order. */
  const TrackLeafAddresses: seq<string> := [
    "exists", "type", "activated", "selected", "isGroup", "name", "volumeStr", "volume",
    "panStr", "pan", "mute", "solo", "recarm", "monitor", "autoMonitor", "canHoldNotes",
    "canHoldAudioData", "position" ]

  lemma TrackLeafAddressesFixed(t: Track)
    ensures Addresses(TrackLeaves(t)) == TrackLeafAddresses
  {
  }

  lemma TrackLeafAddressesApart()
    ensures Distinct(TrackLeafAddresses) && StringHeadsIn(TrackLeafAddresses, 0, TrackLeafHeads)
  {
  }

  lemma TrackLeavesShape(t: Track)
    ensures Unique(TrackLeaves(t)) && HeadsIn(TrackLeaves(t), 0, TrackLeafHeads)
  {
    TrackLeafAddressesFixed(t);
    TrackLeafAddressesApart();
    FixedAddresses(TrackLeaves(t), TrackLeafAddresses, 0, TrackLeafHeads);
  }

  lemma TrackTailShape(t: Track, cfg: Config)
    ensures Unique(TrackTail(t, cfg)) && HeadsIn(TrackTail(t, cfg), 0, TailHeads)
  {
  }

  lemma TrackHeadsApart()
    ensures TrackLeafHeads !! {('s', 'e', 'n')}
    ensures TrackLeafHeads + {('s', 'e', 'n')} !! {('c', 'l', 'i')}
    ensures TrackLeafHeads + {('s', 'e', 'n')} + {('c', 'l', 'i')} !! TailHeads
  {
  }

  /** A track's leaves, sends, clips and tail, from any unique parts with the right heads. */
  lemma TrackFieldsParts(leaves: seq<Message>, sends: seq<seq<Message>>, clips: seq<seq<Message>>, tail: seq<Message>)
    requires Unique(leaves) && HeadsIn(leaves, 0, TrackLeafHeads)
    requires forall i :: 0 <= i < |sends| ==> Unique(sends[i])
    requires forall i :: 0 <= i < |clips| ==> Unique(clips[i])
    requires Unique(tail) && HeadsIn(tail, 0, TailHeads)
    ensures Unique(leaves + Indexed("send/", sends, 1) + Indexed("clip/", clips, 1) + tail)
  {
    var sen, cli := ('s', 'e', 'n'), ('c', 'l', 'i');
    BaseHead("send/");
    BaseHead("clip/");
    TrackHeadsApart();
    IndexedShape("send/", sends, 1, 0, sen);
    IndexedShape("clip/", clips, 1, 0, cli);
    JoinUnique(leaves, Indexed("send/", sends, 1), 0, TrackLeafHeads, {sen});
    JoinUnique(leaves + Indexed("send/", sends, 1), Indexed("clip/", clips, 1), 0, TrackLeafHeads + {sen}, {cli});
    JoinUnique(leaves + Indexed("send/", sends, 1) + Indexed("clip/", clips, 1), tail, 0,
      TrackLeafHeads + {sen} + {cli}, TailHeads);
  }

  lemma TrackFieldsUnique(t: Track, cfg: Config)
    ensures Unique(TrackFields(t, cfg))
  {
    TrackLeavesShape(t);
    TrackTailShape(t, cfg);
    ParameterGroupsUnique(t.sends, true);
    ClipSlotGroupsUnique(t.slots);
    TrackFieldsParts(TrackLeaves(t), ParameterGroups(t.sends, true), ClipSlotGroups(t.slots), TrackTail(t, cfg));
  }

  lemma TrackGroupsUnique(ts: seq<Track>, cfg: Config)
    ensures forall i :: 0 <= i < |ts| ==> Unique(TrackGroups(ts, cfg)[i])
  {
    forall i | 0 <= i < |ts| ensures Unique(TrackGroups(ts, cfg)[i]) {
      TrackFieldsUnique(ts[i], cfg);
    }
  }

  lemma ChannelLeavesShape(c: Channel)
    ensures Unique(ChannelLeaves(c)) && HeadsIn(ChannelLeaves(c), 0, ChannelLeafHeads)
  {
  }

  lemma ChannelTailShape(c: Channel, cfg: Config)
    ensures Unique(ChannelTail(c, cfg)) && HeadsIn(ChannelTail(c, cfg), 0, TailHeads)
  {
  }

  lemma ChannelHeadsApart()
    ensures ChannelLeafHeads !! {('s', 'e', 'n')} && ChannelLeafHeads + {('s', 'e', 'n')} !! TailHeads
  {
  }

  /** A layer's leaves, sends and tail, from any unique parts with the right heads. */
  lemma ChannelFieldsParts(leaves: seq<Message>, sends: seq<seq<Message>>, tail: seq<Message>)
    requires Unique(leaves) && HeadsIn(leaves, 0, ChannelLeafHeads)
    requires forall i :: 0 <= i < |sends| ==> Unique(sends[i])
    requires Unique(tail) && HeadsIn(tail, 0, TailHeads)
    ensures Unique(leaves + Indexed("send/", sends, 1) + tail)
  {
    var sen := ('s', 'e', 'n');
    BaseHead("send/");
    ChannelHeadsApart();
    IndexedShape("send/", sends, 1, 0, sen);
    JoinUnique(leaves, Indexed("send/", sends, 1), 0, ChannelLeafHeads, {sen});
    JoinUnique(leaves + Indexed("send/", sends, 1), tail, 0, ChannelLeafHeads + {sen}, TailHeads);
  }

  lemma ChannelFieldsUnique(c: Channel, cfg: Config)
    ensures Unique(ChannelFields(c, cfg))
  {
    ChannelLeavesShape(c);
    ChannelTailShape(c, cfg);
    ParameterGroupsUnique(c.sends, true);
    ChannelFieldsParts(ChannelLeaves(c), ParameterGroups(c.sends, true), ChannelTail(c, cfg));
  }

  lemma LayerGroupsUnique(ls: seq<Option<Channel>>, cfg: Config)
    ensures forall i :: 0 <= i < |ls| ==> Unique(LayerGroups(ls, cfg)[i])
  {
    forall i | 0 <= i < |ls| ensures Unique(LayerGroups(ls, cfg)[i]) {
      if ls[i].Some? {
        ChannelFieldsUnique(ls[i].value, cfg);
      }
    }
  }

  lemma PageGroupsUnique(names: seq<string>, selected: int)
    ensures forall i :: 0 <= i < 8 ==> Unique(PageGroups(names, selected)[i])
  {
    forall i | 0 <= i < 8 ensures Unique(PageGroups(names, selected)[i]) {
      assert PageGroups(names, selected)[i][0].address != PageGroups(names, selected)[i][1].address;
    }
  }

  lemma SelectedNameShape(v: Value)
    ensures var last := [Message("page/selected/name", v)];
      Unique(last) && HeadsIn(last, 0, {('p', 'a', 'g')}) && HeadsIn(last, 5, {('s', 'e', 'l')})
  {
  }

  /** A family under `base`, then leaves under the same head that carry no digit right after `base`. */
  lemma FamilyThenLeaves(base: string, groups: seq<seq<Message>>, first: nat, last: seq<Message>,
                         h: (char, char, char), hs: set<(char, char, char)>)
    requires forall i :: 0 <= i < |groups| ==> Unique(groups[i])
    requires |base| >= 3 && Head(base, 0) == h
    requires Unique(last) && HeadsIn(last, 0, {h}) && HeadsIn(last, |base|, hs)
    requires forall c :: c in hs ==> !IsDigit(c.0)
    ensures Unique(Indexed(base, groups, first) + last)
    ensures HeadsIn(Indexed(base, groups, first) + last, 0, {h})
  {
    var family := Indexed(base, groups, first);
    IndexedShape(base, groups, first, 0, h);
    IndexedDigit(base, groups, first);
    DigitDisjoint(family, last, |base|, hs);
    UniqueAppend(family, last);
    HeadsAppend(family, last, 0, {h}, {h});
  }

  /** The page window from any unique slot groups, then the selected page's name. */
  lemma PageFieldsParts(groups: seq<seq<Message>>, v: Value)
    requires forall i :: 0 <= i < |groups| ==> Unique(groups[i])
    ensures var all := Indexed("page/", groups, 1) + [Message("page/selected/name", v)];
      Unique(all) && HeadsIn(all, 0, {('p', 'a', 'g')})
  {
    BaseHead("page/");
    SelectedNameShape(v);
    FamilyThenLeaves("page/", groups, 1, [Message("page/selected/name", v)], ('p', 'a', 'g'), {('s', 'e', 'l')});
  }

  lemma PageFieldsShape(names: seq<string>, selected: int)
    ensures Unique(PageFields(names, selected))
    ensures HeadsIn(PageFields(names, selected), 0, {('p', 'a', 'g')})
  {
    PageGroupsUnique(names, selected);
    PageFieldsParts(PageGroups(names, selected), StrV(SelectedPageName(names, selected)));
  }

  lemma SiblingGroupsUnique(d: Device)
    ensures forall i :: 0 <= i < |SiblingGroups(d)| ==> Unique(SiblingGroups(d)[i])
  {
  }

  lemma DeviceLeavesShape(d: Device)
    ensures Unique(DeviceLeaves(d)) && HeadsIn(DeviceLeaves(d), 0, DeviceLeafHeads)
  {
  }

  lemma DeviceHeadsApart()
    ensures DeviceLeafHeads !! {('s', 'i', 'b')}
    ensures DeviceLeafHeads + {('s', 'i', 'b')} !! {('p', 'a', 'r')}
    ensures DeviceLeafHeads + {('s', 'i', 'b')} + {('p', 'a', 'r')} !! {('p', 'a', 'g')}
    ensures DeviceLeafHeads + {('s', 'i', 'b')} + {('p', 'a', 'r')} + {('p', 'a', 'g')} == DeviceHeads
  {
  }

  /** A device's leaves, siblings, parameters and pages, from any unique parts with the right heads. */
  lemma DeviceFieldsParts(leaves: seq<Message>, siblings: seq<seq<Message>>, params: seq<seq<Message>>, pages: seq<Message>)
    requires Unique(leaves) && HeadsIn(leaves, 0, DeviceLeafHeads)
    requires forall i :: 0 <= i < |siblings| ==> Unique(siblings[i])
    requires forall i :: 0 <= i < |params| ==> Unique(params[i])
    requires Unique(pages) && HeadsIn(pages, 0, {('p', 'a', 'g')})
    ensures var all := leaves + Indexed("sibling/", siblings, 1) + Indexed("param/", params, 1) + pages;
      Unique(all) && HeadsIn(all, 0, DeviceHeads)
  {
    var sib, par := ('s', 'i', 'b'), ('p', 'a', 'r');
    var s, p := Indexed("sibling/", siblings, 1), Indexed("param/", params, 1);
    BaseHead("sibling/");
    BaseHead("param/");
    DeviceHeadsApart();
    IndexedShape("sibling/", siblings, 1, 0, sib);
    IndexedShape("param/", params, 1, 0, par);
    JoinUnique(leaves, s, 0, DeviceLeafHeads, {sib});
    JoinUnique(leaves + s, p, 0, DeviceLeafHeads + {sib}, {par});
    JoinUnique(leaves + s + p, pages, 0, DeviceLeafHeads + {sib} + {par}, {('p', 'a', 'g')});
  }

  lemma DeviceFieldsShape(d: Device)
    ensures Unique(DeviceFields(d)) && HeadsIn(DeviceFields(d), 0, DeviceHeads)
  {
    DeviceLeavesShape(d);
    SiblingGroupsUnique(d);
    ParameterGroupsUnique(d.parameters, false);
    PageFieldsShape(d.pageNames, d.selectedPage);
    DeviceFieldsParts(DeviceLeaves(d), SiblingGroups(d), ParameterGroups(d.parameters, false),
      PageFields(d.pageNames, d.selectedPage));
  }

  lemma ColumnLeavesShape(c: BrowserColumn)
    ensures var leaves := ColumnFields(c)[..3];
      Unique(leaves) && HeadsIn(leaves, 0, {('e', 'x', 'i'), ('n', 'a', 'm'), ('w', 'i', 'l')})
  {
  }

  lemma ColumnFieldsUnique(c: BrowserColumn)
    ensures Unique(ColumnFields(c))
  {
    var items := BrowserItemGroups(c.items);
    var leaves := ColumnFields(c)[..3];
    ColumnLeavesShape(c);
    BaseHead("item/");
    IndexedShape("item/", items, 1, 0, ('i', 't', 'e'));
    assert ColumnFields(c) == leaves + Indexed("item/", items, 1);
    JoinUnique(leaves, Indexed("item/", items, 1), 0,
      {('e', 'x', 'i'), ('n', 'a', 'm'), ('w', 'i', 'l')}, {('i', 't', 'e')});
  }

  lemma ColumnGroupsUnique(cs: seq<BrowserColumn>)
    ensures forall i :: 0 <= i < |cs| ==> Unique(ColumnGroups(cs)[i])
  {
    forall i | 0 <= i < |cs| ensures Unique(ColumnGroups(cs)[i]) {
      ColumnFieldsUnique(cs[i]);
    }
  }

  /** The browser's two leaves, then its filter columns and results, from any unique groups. */
  lemma BrowserFieldsParts(top: seq<Message>, columns: seq<seq<Message>>, results: seq<seq<Message>>)
    requires Unique(top) && HeadsIn(top, 0, {('i', 's', 'A'), ('t', 'a', 'b')})
    requires forall i :: 0 <= i < |columns| ==> Unique(columns[i])
    requires forall i :: 0 <= i < |results| ==> Unique(results[i])
    ensures Unique(top + Indexed("filter/", columns, 1) + Indexed("result/", results, 1))
  {
    var f, r := Indexed("filter/", columns, 1), Indexed("result/", results, 1);
    BaseHead("filter/");
    BaseHead("result/");
    IndexedShape("filter/", columns, 1, 0, ('f', 'i', 'l'));
    IndexedShape("result/", results, 1, 0, ('r', 'e', 's'));
    JoinUnique(top, f, 0, {('i', 's', 'A'), ('t', 'a', 'b')}, {('f', 'i', 'l')});
    JoinUnique(top + f, r, 0, {('i', 's', 'A'), ('t', 'a', 'b'), ('f', 'i', 'l')}, {('r', 'e', 's')});
  }

  lemma BrowserTopShape(b: Browser)
    ensures var top := BrowserFields(b)[..2];
      Unique(top) && HeadsIn(top, 0, {('i', 's', 'A'), ('t', 'a', 'b')})
  {
  }

  lemma BrowserFieldsUnique(b: Browser)
    ensures Unique(BrowserFields(b))
  {
    var top := BrowserFields(b)[..2];
    BrowserTopShape(b);
    ColumnGroupsUnique(b.filterColumns);
    assert BrowserFields(b) == top + Indexed("filter/", ColumnGroups(b.filterColumns), 1)
      + Indexed("result/", BrowserItemGroups(b.results), 1);
    BrowserFieldsParts(top, ColumnGroups(b.filterColumns), BrowserItemGroups(b.results));
  }

  // ---------------------------------------------------------------------
  // Section level (absolute addresses, heads at position 1)

  lemma TransportAddressesFixed(t: Transport)
    ensures Addresses(TransportMessages(t)) == TransportAddresses
  {
  }

  lemma TransportFrontApart()
    ensures Distinct(TransportFront)
    ensures StringHeadsIn(TransportFront, 1, {('p', 'l', 'a'), ('r', 'e', 'c'), ('o', 'v', 'e'), ('r', 'e', 'p'), ('p', 'u', 'n'), ('c', 'l', 'i')})
  {
  }

  lemma TransportBackApart()
    ensures Distinct(TransportBack)
    ensures StringHeadsIn(TransportBack, 1, {('p', 'r', 'e'), ('t', 'e', 'm'), ('c', 'r', 'o'), ('a', 'u', 't'), ('t', 'i', 'm'), ('b', 'e', 'a')})
  {
  }

  lemma TransportAddressesDistinct()
    ensures Distinct(TransportAddresses)
  {
    TransportFrontApart();
    TransportBackApart();
    DistinctJoin(TransportFront, TransportBack, 1,
      {('p', 'l', 'a'), ('r', 'e', 'c'), ('o', 'v', 'e'), ('r', 'e', 'p'), ('p', 'u', 'n'), ('c', 'l', 'i')},
      {('p', 'r', 'e'), ('t', 'e', 'm'), ('c', 'r', 'o'), ('a', 'u', 't'), ('t', 'i', 'm'), ('b', 'e', 'a')});
  }

  lemma TransportAddressHeads()
    ensures StringHeadsIn(TransportAddresses, 1, TransportHeads)
  {
    TransportFrontApart();
    TransportBackApart();
    StringHeadsJoin(TransportFront, TransportBack, 1, TransportHeads);
  }

  /** Two distinct lists whose heads are apart join into a distinct list. */
  lemma DistinctJoin(a: seq<string>, b: seq<string>, k: nat, ha: set<(char, char, char)>, hb: set<(char, char, char)>)
    requires Distinct(a) && Distinct(b) && StringHeadsIn(a, k, ha) && StringHeadsIn(b, k, hb) && ha !! hb
    ensures Distinct(a + b)
  {
    forall i, j | 0 <= i < |a| <= j < |a + b| ensures (a + b)[i] != (a + b)[j] {
      assert Head(a[i], k) in ha && Head(b[j - |a|], k) in hb;
    }
  }

  lemma StringHeadsJoin(a: seq<string>, b: seq<string>, k: nat, hs: set<(char, char, char)>)
    requires StringHeadsIn(a, k, hs) && StringHeadsIn(b, k, hs)
    ensures StringHeadsIn(a + b, k, hs)
  {
    forall i | |a| <= i < |a + b| ensures Head((a + b)[i], k) in hs {
      assert (a + b)[i] == b[i - |a|];
    }
  }

  lemma FrameAddressesFixed(layout: string, a: Arranger, m: Mixer)
    ensures Addresses(FrameMessages(layout, a, m)) == FrameAddresses
  {
  }

  lemma FrameFrontApart()
    ensures Distinct(FrameFront) && StringHeadsIn(FrameFront, 1, {('l', 'a', 'y'), ('a', 'r', 'r')})
  {
  }

  lemma FrameBackApart()
    ensures Distinct(FrameBack) && StringHeadsIn(FrameBack, 1, {('m', 'i', 'x')})
  {
  }

  lemma FrameAddressesApart()
    ensures Distinct(FrameAddresses) && StringHeadsIn(FrameAddresses, 1, FrameHeads)
  {
    FrameFrontApart();
    FrameBackApart();
    DistinctJoin(FrameFront, FrameBack, 1, {('l', 'a', 'y'), ('a', 'r', 'r')}, {('m', 'i', 'x')});
    StringHeadsJoin(FrameFront, FrameBack, 1, FrameHeads);
  }

  lemma ProjectShape(name: string, engineActive: bool)
    ensures Unique(ProjectMessages(name, engineActive))
    ensures HeadsIn(ProjectMessages(name, engineActive), 1, {('p', 'r', 'o')})
  {
  }

  lemma GlobalHeadsApart()
    ensures TransportHeads !! FrameHeads && TransportHeads + FrameHeads !! {('p', 'r', 'o')}
  {
  }

  lemma GlobalShape(s: Snapshot)
    ensures Unique(GlobalMessages(s)) && HeadsIn(GlobalMessages(s), 1, GlobalHeads)
  {
    var transport := TransportMessages(s.transport);
    var frames := FrameMessages(s.panelLayout, s.arranger, s.mixer);
    var project := ProjectMessages(s.projectName, s.engineActive);
    assert Unique(transport) && HeadsIn(transport, 1, TransportHeads) by {
      TransportAddressesFixed(s.transport);
      TransportAddressesDistinct();
      TransportAddressHeads();
      FixedAddresses(transport, TransportAddresses, 1, TransportHeads);
    }
    assert Unique(frames) && HeadsIn(frames, 1, FrameHeads) by {
      FrameAddressesFixed(s.panelLayout, s.arranger, s.mixer);
      FrameAddressesApart();
      FixedAddresses(frames, FrameAddresses, 1, FrameHeads);
    }
    ProjectShape(s.projectName, s.engineActive);
    GlobalHeadsApart();
    JoinUnique(transport, frames, 1, TransportHeads, FrameHeads);
    JoinUnique(transport + frames, project, 1, TransportHeads + FrameHeads, {('p', 'r', 'o')});
  }

  /** The four parts of the track section, told apart at positions 1 and 7. */
  lemma TrackSectionJoin(bank: seq<Message>, master: seq<Message>, selected: seq<Message>, toggle: seq<Message>)
    requires Unique(bank) && Unique(master) && Unique(selected) && Unique(toggle)
    requires HeadsIn(bank, 1, {('t', 'r', 'a')}) && HeadsIn(master, 1, {('m', 'a', 's')})
    requires HeadsIn(selected, 1, {('t', 'r', 'a')}) && HeadsIn(toggle, 1, {('t', 'r', 'a')})
    requires DigitAt(bank, 7) && HeadsIn(selected, 7, {('s', 'e', 'l')}) && HeadsIn(toggle, 7, {('t', 'o', 'g')})
    ensures Unique(bank + master + selected + toggle)
    ensures HeadsIn(bank + master + selected + toggle, 1, {('t', 'r', 'a'), ('m', 'a', 's')})
  {
    var tra, mas := ('t', 'r', 'a'), ('m', 'a', 's');
    JoinUnique(bank, master, 1, {tra}, {mas});
    DigitDisjoint(bank, selected, 7, {('s', 'e', 'l')});
    HeadsDisjoint(master, selected, 1, {mas}, {tra});
    DisjointAppendLeft(bank, master, selected);
    UniqueAppend(bank + master, selected);
    HeadsAppend(bank + master, selected, 1, {tra, mas}, {tra});
    DigitDisjoint(bank, toggle, 7, {('t', 'o', 'g')});
    HeadsDisjoint(master, toggle, 1, {mas}, {tra});
    HeadsDisjoint(selected, toggle, 7, {('s', 'e', 'l')}, {('t', 'o', 'g')});
    DisjointAppendLeft(bank, master, toggle);
    DisjointAppendLeft(bank + master, selected, toggle);
    UniqueAppend(bank + master + selected, toggle);
    HeadsAppend(bank + master + selected, toggle, 1, {tra, mas}, {tra});
  }

  lemma ToggleShape(v: Value)
    ensures var toggle := [Message("/track/toggleBank", v)];
      Unique(toggle) && HeadsIn(toggle, 1, {('t', 'r', 'a')}) && HeadsIn(toggle, 7, {('t', 'o', 'g')})
  {
  }

  lemma TrackBaseHeads()
    ensures |"/track/"| == 7 && Head("/track/", 1) == ('t', 'r', 'a')
    ensures |"/master/"| == 8 && Head("/master/", 1) == ('m', 'a', 's')
    ensures |"/track/selected/"| == 16 && Head("/track/selected/", 1) == ('t', 'r', 'a')
    ensures Head("/track/selected/", 7) == ('s', 'e', 'l')
  {
  }

  /** The track section built from any unique groups: the bank, the master and the selected track. */
  lemma TrackSectionParts(groups: seq<seq<Message>>, master: seq<Message>, selected: seq<Message>, v: Value)
    requires forall i :: 0 <= i < |groups| ==> Unique(groups[i])
    requires Unique(master) && Unique(selected)
    ensures var all := Indexed("/track/", groups, 1) + Prefixed("/master/", master)
      + Prefixed("/track/selected/", selected) + [Message("/track/toggleBank", v)];
      Unique(all) && HeadsIn(all, 1, {('t', 'r', 'a'), ('m', 'a', 's')})
  {
    TrackBaseHeads();
    IndexedShape("/track/", groups, 1, 1, ('t', 'r', 'a'));
    IndexedDigit("/track/", groups, 1);
    PrefixedShape("/master/", master, 1, ('m', 'a', 's'));
    PrefixedShape("/track/selected/", selected, 1, ('t', 'r', 'a'));
    PrefixedShape("/track/selected/", selected, 7, ('s', 'e', 'l'));
    ToggleShape(v);
    TrackSectionJoin(Indexed("/track/", groups, 1), Prefixed("/master/", master),
      Prefixed("/track/selected/", selected), [Message("/track/toggleBank", v)]);
  }

  lemma TrackSectionShape(s: Snapshot, cfg: Config)
    ensures Unique(TrackSection(s, cfg))
    ensures HeadsIn(TrackSection(s, cfg), 1, {('t', 'r', 'a'), ('m', 'a', 's')})
  {
    TrackGroupsUnique(s.tracks, cfg);
    TrackFieldsUnique(s.master, cfg);
    TrackFieldsUnique(SelectedOrEmpty(s), cfg);
    TrackSectionParts(TrackGroups(s.tracks, cfg), TrackFields(s.master, cfg),
      TrackFields(SelectedOrEmpty(s), cfg), IntV(if s.effectTrackBankActive then 1 else 0));
  }

  lemma SceneSectionShape(s: Snapshot)
    ensures Unique(SceneSection(s)) && HeadsIn(SceneSection(s), 1, {('s', 'c', 'e')})
  {
    if s.scenes.Some? {
      IndexedShape("/scene/", SceneGroups(s.scenes.value), 1, 1, ('s', 'c', 'e'));
    }
  }

  lemma DeviceBaseHeads()
    ensures |"/device/"| == 8 && Head("/device/", 1) == ('d', 'e', 'v')
    ensures |"/device/drumpad/"| == 16 && Head("/device/drumpad/", 1) == ('d', 'e', 'v')
    ensures Head("/device/drumpad/", 8) == ('d', 'r', 'u')
    ensures |"/device/layer/"| == 14 && Head("/device/layer/", 1) == ('d', 'e', 'v')
    ensures Head("/device/layer/", 8) == ('l', 'a', 'y')
    ensures |"/primary/"| == 9 && Head("/primary/", 1) == ('p', 'r', 'i')
    ensures DeviceHeads !! {('d', 'r', 'u')} && DeviceHeads + {('d', 'r', 'u')} !! {('l', 'a', 'y')}
  {
  }

  /** The four parts of the device section, told apart at positions 1 and 8. */
  lemma DeviceSectionJoin(cursor: seq<Message>, pads: seq<Message>, layers: seq<Message>, primary: seq<Message>)
    requires Unique(cursor) && HeadsIn(cursor, 1, {('d', 'e', 'v')}) && HeadsIn(cursor, 8, DeviceHeads)
    requires Unique(pads) && HeadsIn(pads, 1, {('d', 'e', 'v')}) && HeadsIn(pads, 8, {('d', 'r', 'u')})
    requires Unique(layers) && HeadsIn(layers, 1, {('d', 'e', 'v')}) && HeadsIn(layers, 8, {('l', 'a', 'y')})
    requires Unique(primary) && HeadsIn(primary, 1, {('p', 'r', 'i')})
    requires DeviceHeads !! {('d', 'r', 'u')} && DeviceHeads + {('d', 'r', 'u')} !! {('l', 'a', 'y')}
    ensures Unique(cursor + pads + layers + primary)
    ensures HeadsIn(cursor + pads + layers + primary, 1, {('d', 'e', 'v'), ('p', 'r', 'i')})
  {
    var dev, dru, lay := ('d', 'e', 'v'), ('d', 'r', 'u'), ('l', 'a', 'y');
    JoinUnique(cursor, pads, 8, DeviceHeads, {dru});
    JoinUnique(cursor + pads, layers, 8, DeviceHeads + {dru}, {lay});
    HeadsAppend(cursor, pads, 1, {dev}, {dev});
    HeadsAppend(cursor + pads, layers, 1, {dev}, {dev});
    JoinUnique(cursor + pads + layers, primary, 1, {dev}, {('p', 'r', 'i')});
  }

  /** The drum pads or layers of the cursor device under `base`, from any unique groups. */
  lemma ChannelFamilyShape(base: string, groups: seq<seq<Message>>, h: (char, char, char))
    requires forall i :: 0 <= i < |groups| ==> Unique(groups[i])
    requires |base| >= 11 && Head(base, 1) == ('d', 'e', 'v') && Head(base, 8) == h
    ensures var all := Indexed(base, groups, 1);
      Unique(all) && HeadsIn(all, 1, {('d', 'e', 'v')}) && HeadsIn(all, 8, {h})
  {
    IndexedShape(base, groups, 1, 1, ('d', 'e', 'v'));
    IndexedShape(base, groups, 1, 8, h);
  }

  lemma DeviceSectionShape(s: Snapshot, cfg: Config)
    ensures Unique(DeviceSection(s, cfg))
    ensures HeadsIn(DeviceSection(s, cfg), 1, {('d', 'e', 'v'), ('p', 'r', 'i')})
  {
    var d := s.cursorDevice;
    DeviceBaseHeads();
    DeviceFieldsShape(d);
    PrefixedShape("/device/", DeviceFields(d), 1, ('d', 'e', 'v'));
    HeadsInPrefixed("/device/", DeviceFields(d), DeviceHeads);
    if d.hasDrumPads {
      LayerGroupsUnique(d.drumPads, cfg);
      ChannelFamilyShape("/device/drumpad/", LayerGroups(d.drumPads, cfg), ('d', 'r', 'u'));
    }
    LayerGroupsUnique(d.layers, cfg);
    ChannelFamilyShape("/device/layer/", LayerGroups(d.layers, cfg), ('l', 'a', 'y'));
    DeviceFieldsShape(s.primaryDevice);
    PrefixedShape("/primary/", DeviceFields(s.primaryDevice), 1, ('p', 'r', 'i'));
    DeviceSectionJoin(Prefixed("/device/", DeviceFields(d)), DrumPadSection(d, cfg),
      LayerSection(d, cfg), Prefixed("/primary/", DeviceFields(s.primaryDevice)));
  }

  lemma BrowserSectionShape(b: Browser)
    ensures Unique(Prefixed("/browser/", BrowserFields(b)))
    ensures HeadsIn(Prefixed("/browser/", BrowserFields(b)), 1, {('b', 'r', 'o')})
  {
    BrowserFieldsUnique(b);
    PrefixedShape("/browser/", BrowserFields(b), 1, ('b', 'r', 'o'));
  }

  lemma NoteSectionShape(kb: Keyboard)
    ensures Unique(NoteSection(kb)) && HeadsIn(NoteSection(kb), 1, {('v', 'k', 'b')})
  {
    IndexedShape("/vkb_midi/note/", NoteGroups(kb), 0, 1, ('v', 'k', 'b'));
  }

  /** The six sections of a flush, told apart at position 1. */
  const SectionHeads1: Heads := GlobalHeads + {('t', 'r', 'a'), ('m', 'a', 's')} + {('s', 'c', 'e')}

  lemma FrontHeadsApart()
    ensures GlobalHeads !! {('t', 'r', 'a'), ('m', 'a', 's')}
    ensures GlobalHeads + {('t', 'r', 'a'), ('m', 'a', 's')} !! {('s', 'c', 'e')}
  {
  }

  lemma DeviceHeadsApartFromFront()
    ensures SectionHeads1 !! {('d', 'e', 'v'), ('p', 'r', 'i')}
  {
  }

  lemma BrowserHeadsApartFromFront()
    ensures SectionHeads1 + {('d', 'e', 'v'), ('p', 'r', 'i')} !! {('b', 'r', 'o')}
  {
  }

  lemma NoteHeadsApartFromFront()
    ensures SectionHeads1 + {('d', 'e', 'v'), ('p', 'r', 'i')} + {('b', 'r', 'o')} !! {('v', 'k', 'b')}
  {
  }

  lemma FrontJoin(g: seq<Message>, t: seq<Message>, sc: seq<Message>)
    requires Unique(g) && HeadsIn(g, 1, GlobalHeads)
    requires Unique(t) && HeadsIn(t, 1, {('t', 'r', 'a'), ('m', 'a', 's')})
    requires Unique(sc) && HeadsIn(sc, 1, {('s', 'c', 'e')})
    ensures Unique(g + t + sc)
    ensures HeadsIn(g + t + sc, 1, SectionHeads1)
  {
    FrontHeadsApart();
    var h1 := GlobalHeads + {('t', 'r', 'a'), ('m', 'a', 's')};
    JoinUnique(g, t, 1, GlobalHeads, {('t', 'r', 'a'), ('m', 'a', 's')});
    JoinUnique(g + t, sc, 1, h1, {('s', 'c', 'e')});
  }

  lemma FlushJoin(g: seq<Message>, t: seq<Message>, sc: seq<Message>, d: seq<Message>, b: seq<Message>, n: seq<Message>)
    requires Unique(g) && HeadsIn(g, 1, GlobalHeads)
    requires Unique(t) && HeadsIn(t, 1, {('t', 'r', 'a'), ('m', 'a', 's')})
    requires Unique(sc) && HeadsIn(sc, 1, {('s', 'c', 'e')})
    requires Unique(d) && HeadsIn(d, 1, {('d', 'e', 'v'), ('p', 'r', 'i')})
    requires Unique(b) && HeadsIn(b, 1, {('b', 'r', 'o')})
    requires Unique(n) && HeadsIn(n, 1, {('v', 'k', 'b')})
    ensures Unique(g + t + sc + d + b + n)
  {
    FrontJoin(g, t, sc);
    DeviceHeadsApartFromFront();
    BrowserHeadsApartFromFront();
    NoteHeadsApartFromFront();
    var h2 := SectionHeads1;
    var h3 := h2 + {('d', 'e', 'v'), ('p', 'r', 'i')};
    var h4 := h3 + {('b', 'r', 'o')};
    JoinUnique(g + t + sc, d, 1, h2, {('d', 'e', 'v'), ('p', 'r', 'i')});
    JoinUnique(g + t + sc + d, b, 1, h3, {('b', 'r', 'o')});
    JoinUnique(g + t + sc + d + b, n, 1, h4, {('v', 'k', 'b')});
  }

  /** No address is offered twice in one flush. */
  lemma FlushAddressesUnique(s: Snapshot, cfg: Config)
    ensures Unique(FlushMessages(s, cfg))
  {
    GlobalShape(s);
    TrackSectionShape(s, cfg);
    SceneSectionShape(s);
    DeviceSectionShape(s, cfg);
    BrowserSectionShape(s.browser);
    NoteSectionShape(s.keyboard);
    FlushJoin(GlobalMessages(s), TrackSection(s, cfg), SceneSection(s), DeviceSection(s, cfg),
      Prefixed("/browser/", BrowserFields(s.browser)), NoteSection(s.keyboard));
  }
}
