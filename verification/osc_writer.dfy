/**
 * The OSC writer as a stateful object: the change tracker's cache and the
 * outgoing queue are fields, `SendOsc` is the gate, and each flush method
 * sends its messages one `SendOsc` at a time, in the order of the source.
 * Every method is proved to leave the writer in the state that the pure
 * fold `Run` over the matching message list gives (module OscFlush), so
 * the properties proved about those lists and about `Run` hold for it.
 */
module OscWriter {
  import opened Decimal
  import opened Options
  import opened OscValues
  import opened OscAddress
  import opened OscGate
  import opened OscSnapshot
  import opened OscFlush

  /** Folding one more group of an indexed family is one more run. */
  lemma IndexedStep(g: GateState, base: string, gs: seq<seq<Message>>, first: nat, i: nat, dump: bool)
    requires i < |gs|
    ensures Run(Run(g, Indexed(base, gs[..i], first), dump), Prefixed(Slot(base, first + i), gs[i]), dump)
      == Run(g, Indexed(base, gs[..i + 1], first), dump)
  {
    var upto := gs[..i + 1];
    assert upto[..i] == gs[..i] && upto[i] == gs[i];
    IndexedSnoc(base, upto, first);
    RunAppend(g, Indexed(base, gs[..i], first), Prefixed(Slot(base, first + i), gs[i]), dump);
  }

  lemma RunJoin(g: GateState, a: seq<Message>, b: seq<Message>, c: seq<Message>, d: seq<Message>, dump: bool)
    ensures Run(Run(Run(Run(g, a, dump), b, dump), c, dump), d, dump) == Run(g, a + b + c + d, dump)
  {
    RunAppend(g, a, b, dump);
    RunAppend(g, a + b, c, dump);
    RunAppend(g, a + b + c, d, dump);
  }

  lemma RunJoinThree(g: GateState, a: seq<Message>, b: seq<Message>, c: seq<Message>, dump: bool)
    ensures Run(Run(Run(g, a, dump), b, dump), c, dump) == Run(g, a + b + c, dump)
  {
    RunAppend(g, a, b, dump);
    RunAppend(g, a + b, c, dump);
  }

  lemma RunHalves(g: GateState, a: seq<Message>, b: seq<Message>, c: seq<Message>,
                  d: seq<Message>, e: seq<Message>, h: seq<Message>, dump: bool)
    ensures Run(Run(g, a + b + c, dump), d + e + h, dump) == Run(g, a + b + c + d + e + h, dump)
  {
    var front := Run(g, a + b + c, dump);
    RunAppend(front, d + e, h, dump);
    RunAppend(front, d, e, dump);
    RunAppend(g, a + b + c, d, dump);
    RunAppend(g, a + b + c + d, e, dump);
    RunAppend(g, a + b + c + d + e, h, dump);
  }

  /** One message sent is a run of one. */
  lemma RunSingle(g: GateState, m: Message, dump: bool)
    ensures Run(g, [m], dump) == Step(g, m, dump)
  {
    RunSnoc(g, [], m, dump);
  }

  lemma TrackSectionSplit(s: Snapshot, cfg: Config)
    ensures TrackSection(s, cfg)
      == Indexed("/track/", TrackGroups(s.tracks, cfg), 1)
      + Prefixed("/master/", TrackFields(s.master, cfg))
      + Prefixed("/track/selected/", TrackFields(SelectedOrEmpty(s), cfg))
      + [Message("/track/toggleBank", IntV(if s.effectTrackBankActive then 1 else 0))]
  {
  }

  lemma TrackFieldsPrefixed(p: string, t: Track, cfg: Config)
    ensures Prefixed(p, TrackFields(t, cfg))
      == Prefixed(p, TrackLeaves(t))
      + Indexed(p + "send/", ParameterGroups(t.sends, true), 1)
      + Indexed(p + "clip/", ClipSlotGroups(t.slots), 1)
      + Prefixed(p, TrackTail(t, cfg))
  {
    var l, sd, cl, tl := TrackLeaves(t), Indexed("send/", ParameterGroups(t.sends, true), 1),
      Indexed("clip/", ClipSlotGroups(t.slots), 1), TrackTail(t, cfg);
    PrefixedAppend(p, l + sd + cl, tl);
    PrefixedAppend(p, l + sd, cl);
    PrefixedAppend(p, l, sd);
    IndexedPrefixed(p, "send/", ParameterGroups(t.sends, true), 1);
    IndexedPrefixed(p, "clip/", ClipSlotGroups(t.slots), 1);
  }

  lemma ChannelFieldsPrefixed(p: string, c: Channel, cfg: Config)
    ensures Prefixed(p, ChannelFields(c, cfg))
      == Prefixed(p, ChannelLeaves(c))
      + Indexed(p + "send/", ParameterGroups(c.sends, true), 1)
      + Prefixed(p, ChannelTail(c, cfg))
  {
    var l, sd, tl := ChannelLeaves(c), Indexed("send/", ParameterGroups(c.sends, true), 1), ChannelTail(c, cfg);
    PrefixedAppend(p, l + sd, tl);
    PrefixedAppend(p, l, sd);
    IndexedPrefixed(p, "send/", ParameterGroups(c.sends, true), 1);
  }

  lemma DeviceFieldsPrefixed(p: string, d: Device)
    ensures Prefixed(p, DeviceFields(d))
      == Prefixed(p, DeviceLeaves(d))
      + Indexed(p + "sibling/", SiblingGroups(d), 1)
      + Indexed(p + "param/", ParameterGroups(d.parameters, false), 1)
      + (Indexed(p + "page/", PageGroups(d.pageNames, d.selectedPage), 1)
         + [Message(p + "page/selected/name", StrV(SelectedPageName(d.pageNames, d.selectedPage)))])
  {
    var l, sb, pr := DeviceLeaves(d), Indexed("sibling/", SiblingGroups(d), 1),
      Indexed("param/", ParameterGroups(d.parameters, false), 1);
    var pg := Indexed("page/", PageGroups(d.pageNames, d.selectedPage), 1);
    var nm := [Message("page/selected/name", StrV(SelectedPageName(d.pageNames, d.selectedPage)))];
    PrefixedAppend(p, l + sb + pr, pg + nm);
    PrefixedAppend(p, l + sb, pr);
    PrefixedAppend(p, l, sb);
    PrefixedAppend(p, pg, nm);
    IndexedPrefixed(p, "sibling/", SiblingGroups(d), 1);
    IndexedPrefixed(p, "param/", ParameterGroups(d.parameters, false), 1);
    IndexedPrefixed(p, "page/", PageGroups(d.pageNames, d.selectedPage), 1);
  }

  lemma BrowserFieldsPrefixed(p: string, b: Browser)
    ensures Prefixed(p, BrowserFields(b))
      == Prefixed(p, [Message("isActive", BoolV(b.active)), Message("tab", StrV(b.contentType))])
      + Indexed(p + "filter/", ColumnGroups(b.filterColumns), 1)
      + Indexed(p + "result/", BrowserItemGroups(b.results), 1)
  {
    var l := [Message("isActive", BoolV(b.active)), Message("tab", StrV(b.contentType))];
    var f, r := Indexed("filter/", ColumnGroups(b.filterColumns), 1), Indexed("result/", BrowserItemGroups(b.results), 1);
    PrefixedAppend(p, l + f, r);
    PrefixedAppend(p, l, f);
    IndexedPrefixed(p, "filter/", ColumnGroups(b.filterColumns), 1);
    IndexedPrefixed(p, "result/", BrowserItemGroups(b.results), 1);
  }

  lemma ColumnFieldsPrefixed(p: string, c: BrowserColumn)
    ensures Prefixed(p, ColumnFields(c))
      == Prefixed(p, [Message("exists", BoolV(c.doesExist)), Message("name", StrV(c.name)), Message("wildcard", StrV(c.wildcard))])
      + Indexed(p + "item/", BrowserItemGroups(c.items), 1)
  {
    PrefixedAppend(p, [Message("exists", BoolV(c.doesExist)), Message("name", StrV(c.name)), Message("wildcard", StrV(c.wildcard))],
      Indexed("item/", BrowserItemGroups(c.items), 1));
    IndexedPrefixed(p, "item/", BrowserItemGroups(c.items), 1);
  }

  /** The four runs of flushTrack make one run over the track's fields. */
  lemma TrackRun(g: GateState, p: string, t: Track, cfg: Config, dump: bool)
    ensures Run(Run(Run(Run(g, Prefixed(p, TrackLeaves(t)), dump),
        Indexed(p + "send/", ParameterGroups(t.sends, true), 1), dump),
        Indexed(p + "clip/", ClipSlotGroups(t.slots), 1), dump),
        Prefixed(p, TrackTail(t, cfg)), dump)
      == Run(g, Prefixed(p, TrackFields(t, cfg)), dump)
  {
    TrackFieldsPrefixed(p, t, cfg);
    RunJoin(g, Prefixed(p, TrackLeaves(t)), Indexed(p + "send/", ParameterGroups(t.sends, true), 1),
      Indexed(p + "clip/", ClipSlotGroups(t.slots), 1), Prefixed(p, TrackTail(t, cfg)), dump);
  }

  /** The runs of flushDevice make one run over the device's fields. */
  lemma DeviceRun(g: GateState, p: string, d: Device, dump: bool)
    ensures Run(Run(Run(Run(g, Prefixed(p, DeviceLeaves(d)), dump),
        Indexed(p + "sibling/", SiblingGroups(d), 1), dump),
        Indexed(p + "param/", ParameterGroups(d.parameters, false), 1), dump),
        Indexed(p + "page/", PageGroups(d.pageNames, d.selectedPage), 1)
        + [Message(p + "page/selected/name", StrV(SelectedPageName(d.pageNames, d.selectedPage)))], dump)
      == Run(g, Prefixed(p, DeviceFields(d)), dump)
  {
    DeviceFieldsPrefixed(p, d);
    RunJoin(g, Prefixed(p, DeviceLeaves(d)), Indexed(p + "sibling/", SiblingGroups(d), 1),
      Indexed(p + "param/", ParameterGroups(d.parameters, false), 1),
      Indexed(p + "page/", PageGroups(d.pageNames, d.selectedPage), 1)
      + [Message(p + "page/selected/name", StrV(SelectedPageName(d.pageNames, d.selectedPage)))], dump);
  }

  /** The runs of flushDeviceLayers make one run over the channel's fields. */
  lemma ChannelRun(g: GateState, p: string, c: Channel, cfg: Config, dump: bool)
    ensures Run(Run(Run(g, Prefixed(p, ChannelLeaves(c)), dump),
        Indexed(p + "send/", ParameterGroups(c.sends, true), 1), dump),
        Prefixed(p, ChannelTail(c, cfg)), dump)
      == Run(g, Prefixed(p, ChannelFields(c, cfg)), dump)
  {
    var l, sd := Prefixed(p, ChannelLeaves(c)), Indexed(p + "send/", ParameterGroups(c.sends, true), 1);
    ChannelFieldsPrefixed(p, c, cfg);
    RunAppend(g, l, sd, dump);
    RunAppend(g, l + sd, Prefixed(p, ChannelTail(c, cfg)), dump);
  }

  /** The tail of flushDeviceLayers: the VU meter when enabled, then the colour. */
  lemma ChannelTailRun(g: GateState, p: string, c: Channel, cfg: Config, dump: bool)
    ensures Run(g, Prefixed(p, ChannelTail(c, cfg)), dump)
      == Step(if cfg.vuMeters then Step(g, Message(p + "vu", IntV(c.vu)), dump) else g,
              Message(p + "color", ColorV(c.color)), dump)
  {
    var vu := if cfg.vuMeters then [Message(p + "vu", IntV(c.vu))] else [];
    assert Prefixed(p, ChannelTail(c, cfg)) == vu + [Message(p + "color", ColorV(c.color))];
    RunSnoc(g, vu, Message(p + "color", ColorV(c.color)), dump);
    if cfg.vuMeters {
      RunSingle(g, Message(p + "vu", IntV(c.vu)), dump);
    }
  }

  /** The runs of flushBrowser make one run over the browser's fields. */
  lemma BrowserRun(g: GateState, p: string, b: Browser, dump: bool)
    ensures Run(Run(Run(g, Prefixed(p, [Message("isActive", BoolV(b.active)), Message("tab", StrV(b.contentType))]), dump),
        Indexed(p + "filter/", ColumnGroups(b.filterColumns), 1), dump),
        Indexed(p + "result/", BrowserItemGroups(b.results), 1), dump)
      == Run(g, Prefixed(p, BrowserFields(b)), dump)
  {
    var l := Prefixed(p, [Message("isActive", BoolV(b.active)), Message("tab", StrV(b.contentType))]);
    var f := Indexed(p + "filter/", ColumnGroups(b.filterColumns), 1);
    BrowserFieldsPrefixed(p, b);
    RunAppend(g, l, f, dump);
    RunAppend(g, l + f, Indexed(p + "result/", BrowserItemGroups(b.results), 1), dump);
  }

  /** The runs of one filter column make one run over the column's fields. */
  lemma ColumnRun(g: GateState, p: string, c: BrowserColumn, dump: bool)
    ensures Run(Run(g, Prefixed(p, [Message("exists", BoolV(c.doesExist)), Message("name", StrV(c.name)), Message("wildcard", StrV(c.wildcard))]), dump),
        Indexed(p + "item/", BrowserItemGroups(c.items), 1), dump)
      == Run(g, Prefixed(p, ColumnFields(c)), dump)
  {
    ColumnFieldsPrefixed(p, c);
    RunAppend(g, Prefixed(p, [Message("exists", BoolV(c.doesExist)), Message("name", StrV(c.name)), Message("wildcard", StrV(c.wildcard))]),
      Indexed(p + "item/", BrowserItemGroups(c.items), 1), dump);
  }

  /** The runs of flushDevice's page window make one run over the window and the selected name. */
  lemma PagesRun(g: GateState, base: string, names: seq<string>, selected: int, page: int, start: nat, m: Message, dump: bool)
    requires (page, start) == PageWindow(|names|, selected)
    ensures Step(Run(g, Indexed(base, PageSlots(names, page, start), 1), dump), m, dump)
      == Run(g, Indexed(base, PageGroups(names, selected), 1) + [m], dump)
  {
    assert PageGroups(names, selected) == PageSlots(names, page, start);
    RunSnoc(g, Indexed(base, PageSlots(names, page, start), 1), m, dump);
  }

  /** The device section's four runs make one run over the section. */
  lemma DeviceSectionRun(g: GateState, s: Snapshot, cfg: Config, dump: bool)
    ensures Run(Run(Run(Run(g, Prefixed("/device/", DeviceFields(s.cursorDevice)), dump),
        DrumPadSection(s.cursorDevice, cfg), dump), LayerSection(s.cursorDevice, cfg), dump),
        Prefixed("/primary/", DeviceFields(s.primaryDevice)), dump)
      == Run(g, DeviceSection(s, cfg), dump)
  {
    RunJoin(g, Prefixed("/device/", DeviceFields(s.cursorDevice)), DrumPadSection(s.cursorDevice, cfg),
      LayerSection(s.cursorDevice, cfg), Prefixed("/primary/", DeviceFields(s.primaryDevice)), dump);
  }

  /** The track section's runs make one run over the section. */
  lemma TrackSectionRun(g: GateState, s: Snapshot, cfg: Config, m: Message, dump: bool)
    requires m == Message("/track/toggleBank", IntV(if s.effectTrackBankActive then 1 else 0))
    ensures Step(Run(Run(Run(g, Indexed("/track/", TrackGroups(s.tracks, cfg), 1), dump),
        Prefixed("/master/", TrackFields(s.master, cfg)), dump),
        Prefixed("/track/selected/", TrackFields(SelectedOrEmpty(s), cfg)), dump), m, dump)
      == Run(g, TrackSection(s, cfg), dump)
  {
    var a, b, c := Indexed("/track/", TrackGroups(s.tracks, cfg), 1), Prefixed("/master/", TrackFields(s.master, cfg)),
      Prefixed("/track/selected/", TrackFields(SelectedOrEmpty(s), cfg));
    RunSingle(Run(Run(Run(g, a, dump), b, dump), c, dump), m, dump);
    RunJoin(g, a, b, c, [m], dump);
    TrackSectionSplit(s, cfg);
  }

  /** The two halves of a flush make one run over everything it offers. */
  lemma FlushRun(g: GateState, s: Snapshot, cfg: Config, dump: bool)
    ensures Run(Run(g, GlobalMessages(s) + TrackSection(s, cfg) + SceneSection(s), dump),
        DeviceSection(s, cfg) + Prefixed("/browser/", BrowserFields(s.browser)) + NoteSection(s.keyboard), dump)
      == Run(g, FlushMessages(s, cfg), dump)
  {
    RunHalves(g, GlobalMessages(s), TrackSection(s, cfg), SceneSection(s), DeviceSection(s, cfg),
      Prefixed("/browser/", BrowserFields(s.browser)), NoteSection(s.keyboard), dump);
  }

  /** One pass of the note loop is one step of the run over the notes. */
  lemma NoteStep(g: GateState, address: string, kb: Keyboard, i: nat, dump: bool)
    requires i < NoteCount
    ensures Step(Run(g, Indexed(address, NoteGroups(kb)[..i], 0), dump),
        Message(Slot(address, i) + "color", ColorV(NoteColor(kb, i))), dump)
      == Run(g, Indexed(address, NoteGroups(kb)[..i + 1], 0), dump)
  {
    var m := Message(Slot(address, i) + "color", ColorV(NoteColor(kb, i)));
    assert Prefixed(Slot(address, i), NoteGroups(kb)[i]) == [m];
    RunSingle(Run(g, Indexed(address, NoteGroups(kb)[..i], 0), dump), m, dump);
    IndexedStep(g, address, NoteGroups(kb), 0, i, dump);
  }

  /** One pass of the layer loop: a null entry sends nothing. */
  lemma LayerStep(g: GateState, base: string, ls: seq<Option<Channel>>, cfg: Config, i: nat, dump: bool)
    requires i < |ls|
    ensures ls[i].None? ==>
      (Run(g, Indexed(base, LayerGroups(ls, cfg)[..i], 1), dump)
       == Run(g, Indexed(base, LayerGroups(ls, cfg)[..i + 1], 1), dump))
    ensures ls[i].Some? ==>
      (Run(Run(g, Indexed(base, LayerGroups(ls, cfg)[..i], 1), dump),
         Prefixed(Slot(base, i + 1), ChannelFields(ls[i].value, cfg)), dump)
       == Run(g, Indexed(base, LayerGroups(ls, cfg)[..i + 1], 1), dump))
  {
    IndexedStep(g, base, LayerGroups(ls, cfg), 1, i, dump);
    if ls[i].None? {
      assert Prefixed(Slot(base, i + 1), LayerGroups(ls, cfg)[i]) == [];
    }
  }

  /** One pass of the page window loop is the run over window slot i. */
  lemma PageSlotStep(g: GateState, base: string, names: seq<string>, page: int, start: nat, i: nat, dump: bool)
    requires i < 8
    ensures Run(Run(g, Indexed(base, PageSlots(names, page, start)[..i], 1), dump),
        Prefixed(Slot(base, i + 1), [Message("", StrV(PageSlotName(names, start + i))),
          Message("selected", BoolV(page == start + i))]), dump)
      == Run(g, Indexed(base, PageSlots(names, page, start)[..i + 1], 1), dump)
  {
    assert PageSlots(names, page, start)[i] == PageSlot(names, page, start + i);
    IndexedStep(g, base, PageSlots(names, page, start), 1, i, dump);
  }

  class Writer {
    /** The last value sent per address. */
    var lastSent: map<string, Value>
    /** The messages handed to the OSC port, oldest first. */
    var queue: seq<Message>
    /** The OSC configuration (whether VU meters are enabled). */
    const config: Config

    function State(): GateState
      reads this
    {
      GateState(lastSent, queue)
    }

    constructor (cfg: Config)
      ensures config == cfg && State() == GateState(map[], [])
    {
      config := cfg;
      lastSent := map[];
      queue := [];
    }

    /**
     * sendOSC: remember the value, and queue the message when `dump` is set
     * or the value differs from the one last sent to this address.
     */
    method SendOsc(address: string, value: Value, dump: bool)
      modifies this
      ensures State() == Step(old(State()), Message(address, value), dump)
    {
      if dump || address !in lastSent || lastSent[address] != value {
        queue := queue + [Message(address, value)];
      }
      lastSent := lastSent[address := value];
    }

    /** A straight run of sendOSC calls, one per message, in order. */
    method SendAll(ms: seq<Message>, dump: bool)
      modifies this
      ensures State() == Run(old(State()), ms, dump)
    {
      ghost var g0 := State();
      for i := 0 to |ms|
        invariant State() == Run(g0, ms[..i], dump)
      {
        SendOsc(ms[i].address, ms[i].value, dump);
        RunSnoc(g0, ms[..i], ms[i], dump);
        assert ms[..i + 1] == ms[..i] + [ms[i]];
      }
      assert ms[..|ms|] == ms;
    }

    // -------------------------------------------------------------------
    // flush

    /**
     * flush: nothing when no client is connected; otherwise transport,
     * frames and project, then tracks, scenes, devices, the browser and
     * the notes, every value through the change tracker.
     */
    method Flush(s: Snapshot, connected: bool, dump: bool)
      modifies this
      ensures !connected ==> State() == old(State())
      ensures connected ==> State() == Run(old(State()), FlushMessages(s, config), dump)
    {
      if !connected {
        return;
      }
      ghost var g0 := State();
      FlushFront(s, dump);
      FlushBack(s, dump);
      FlushRun(g0, s, config, dump);
    }

    /** The first half of a flush: transport, frames and project, then tracks and scenes. */
    method FlushFront(s: Snapshot, dump: bool)
      modifies this
      ensures State() == Run(old(State()), GlobalMessages(s) + TrackSection(s, config) + SceneSection(s), dump)
    {
      ghost var g0 := State();
      SendAll(GlobalMessages(s), dump);
      FlushTrackSection(s, dump);
      FlushSceneSection(s, dump);
      RunJoinThree(g0, GlobalMessages(s), TrackSection(s, config), SceneSection(s), dump);
    }

    /** The second half of a flush: devices, the browser, then the notes. */
    method FlushBack(s: Snapshot, dump: bool)
      modifies this
      ensures State() == Run(old(State()),
        DeviceSection(s, config) + Prefixed("/browser/", BrowserFields(s.browser)) + NoteSection(s.keyboard), dump)
    {
      ghost var g0 := State();
      FlushDeviceSection(s, dump);
      FlushBrowser("/browser/", s.browser, dump);
      FlushNotes("/vkb_midi/note/", s.keyboard, dump);
      RunJoinThree(g0, DeviceSection(s, config), Prefixed("/browser/", BrowserFields(s.browser)), NoteSection(s.keyboard), dump);
    }

    /** The tracks of the current bank, the master, the selected track (or the empty one) and the bank toggle. */
    method FlushTrackSection(s: Snapshot, dump: bool)
      modifies this
      ensures State() == Run(old(State()), TrackSection(s, config), dump)
    {
      ghost var g0 := State();
      ghost var gs := TrackGroups(s.tracks, config);
      for i := 0 to |s.tracks|
        invariant State() == Run(g0, Indexed("/track/", gs[..i], 1), dump)
      {
        FlushTrackAt("/track/", s.tracks, i, g0, dump);
      }
      assert gs[..|s.tracks|] == gs;
      FlushTrack("/master/", s.master, dump);
      var selected := if s.selectedTrack.Some? then s.selectedTrack.value else EmptyTrack;
      assert selected == SelectedOrEmpty(s);
      FlushTrack("/track/selected/", selected, dump);
      var toggle := Message("/track/toggleBank", IntV(if s.effectTrackBankActive then 1 else 0));
      SendOsc(toggle.address, toggle.value, dump);
      TrackSectionRun(g0, s, config, toggle, dump);
    }

    /** One pass of the track loop: track i under Slot(base, i + 1). */
    method FlushTrackAt(base: string, ts: seq<Track>, i: nat, ghost g0: GateState, dump: bool)
      requires i < |ts|
      requires State() == Run(g0, Indexed(base, TrackGroups(ts, config)[..i], 1), dump)
      modifies this
      ensures State() == Run(g0, Indexed(base, TrackGroups(ts, config)[..i + 1], 1), dump)
    {
      FlushTrack(Slot(base, i + 1), ts[i], dump);
      IndexedStep(g0, base, TrackGroups(ts, config), 1, i, dump);
    }

    /** The scene bank, when the model has one. */
    method FlushSceneSection(s: Snapshot, dump: bool)
      modifies this
      ensures State() == Run(old(State()), SceneSection(s), dump)
    {
      if s.scenes.None? {
        return;
      }
      var scenes := s.scenes.value;
      ghost var g0 := State();
      ghost var gs := SceneGroups(scenes);
      for i := 0 to |scenes|
        invariant State() == Run(g0, Indexed("/scene/", gs[..i], 1), dump)
      {
        FlushSceneAt("/scene/", scenes, i, g0, dump);
      }
      assert gs[..|scenes|] == gs;
    }

    /** One pass of the scene loop: scene i under Slot(base, i + 1). */
    method FlushSceneAt(base: string, scs: seq<Scene>, i: nat, ghost g0: GateState, dump: bool)
      requires i < |scs|
      requires State() == Run(g0, Indexed(base, SceneGroups(scs)[..i], 1), dump)
      modifies this
      ensures State() == Run(g0, Indexed(base, SceneGroups(scs)[..i + 1], 1), dump)
    {
      FlushScene(Slot(base, i + 1), scs[i], dump);
      IndexedStep(g0, base, SceneGroups(scs), 1, i, dump);
    }

    /** The cursor device, its drum pads (when it has them) and layers, then the primary device. */
    method FlushDeviceSection(s: Snapshot, dump: bool)
      modifies this
      ensures State() == Run(old(State()), DeviceSection(s, config), dump)
    {
      ghost var g0 := State();
      var cd := s.cursorDevice;
      FlushDevice("/device/", cd, dump);
      ghost var g1 := State();
      if cd.hasDrumPads {
        FlushLayers("/device/drumpad/", cd.drumPads, dump);
      }
      assert State() == Run(g1, DrumPadSection(cd, config), dump);
      FlushLayers("/device/layer/", cd.layers, dump);
      FlushDevice("/primary/", s.primaryDevice, dump);
      DeviceSectionRun(g0, s, config, dump);
    }

    // -------------------------------------------------------------------
    // flushTrack, flushScene, flushParameterData

    /** flushTrack: the leaves, the sends, the clip slots, then colour, crossfade flags and VU. */
    method FlushTrack(address: string, t: Track, dump: bool)
      modifies this
      ensures State() == Run(old(State()), Prefixed(address, TrackFields(t, config)), dump)
    {
      ghost var g0 := State();
      SendAll(Prefixed(address, TrackLeaves(t)), dump);
      FlushParameters(address + "send/", t.sends, true, dump);
      FlushClipSlots(address + "clip/", t.slots, dump);
      SendAll(Prefixed(address, TrackTail(t, config)), dump);
      TrackRun(g0, address, t, config, dump);
    }

    /** The clip slot loop of flushTrack: slot i's nine values under Slot(base, i + 1). */
    method FlushClipSlots(base: string, cs: seq<ClipSlot>, dump: bool)
      modifies this
      ensures State() == Run(old(State()), Indexed(base, ClipSlotGroups(cs), 1), dump)
    {
      ghost var g0 := State();
      ghost var gs := ClipSlotGroups(cs);
      for i := 0 to |cs|
        invariant State() == Run(g0, Indexed(base, gs[..i], 1), dump)
      {
        FlushClipSlotAt(base, cs, i, g0, dump);
      }
      assert gs[..|cs|] == gs;
    }

    method FlushClipSlotAt(base: string, cs: seq<ClipSlot>, i: nat, ghost g0: GateState, dump: bool)
      requires i < |cs|
      requires State() == Run(g0, Indexed(base, ClipSlotGroups(cs)[..i], 1), dump)
      modifies this
      ensures State() == Run(g0, Indexed(base, ClipSlotGroups(cs)[..i + 1], 1), dump)
    {
      SendAll(Prefixed(Slot(base, i + 1), ClipSlotFields(cs[i])), dump);
      IndexedStep(g0, base, ClipSlotGroups(cs), 1, i, dump);
    }

    /** flushScene. */
    method FlushScene(address: string, sc: Scene, dump: bool)
      modifies this
      ensures State() == Run(old(State()), Prefixed(address, SceneFields(sc)), dump)
    {
      SendAll(Prefixed(address, SceneFields(sc)), dump);
    }

    /** flushParameterData: name, displayed value, value and modulated value of one parameter. */
    method FlushParameterData(address: string, p: Parameter, isSend: bool, dump: bool)
      modifies this
      ensures State() == Run(old(State()), Prefixed(address, ParameterFields(p, isSend)), dump)
    {
      SendAll(Prefixed(address, ParameterFields(p, isSend)), dump);
    }

    /** The loop over a send or parameter bank: entry i under Slot(base, i + 1). */
    method FlushParameters(base: string, ps: seq<Parameter>, isSend: bool, dump: bool)
      modifies this
      ensures State() == Run(old(State()), Indexed(base, ParameterGroups(ps, isSend), 1), dump)
    {
      ghost var g0 := State();
      ghost var gs := ParameterGroups(ps, isSend);
      for i := 0 to |ps|
        invariant State() == Run(g0, Indexed(base, gs[..i], 1), dump)
      {
        FlushParameterAt(base, ps, isSend, i, g0, dump);
      }
      assert gs[..|ps|] == gs;
    }

    method FlushParameterAt(base: string, ps: seq<Parameter>, isSend: bool, i: nat, ghost g0: GateState, dump: bool)
      requires i < |ps|
      requires State() == Run(g0, Indexed(base, ParameterGroups(ps, isSend)[..i], 1), dump)
      modifies this
      ensures State() == Run(g0, Indexed(base, ParameterGroups(ps, isSend)[..i + 1], 1), dump)
    {
      FlushParameterData(Slot(base, i + 1), ps[i], isSend, dump);
      IndexedStep(g0, base, ParameterGroups(ps, isSend), 1, i, dump);
    }

    // -------------------------------------------------------------------
    // flushDevice

    /**
     * flushDevice: the leaves, the sibling bank, the parameter bank, the
     * window of eight parameter pages and the selected page's name.
     */
    method FlushDevice(address: string, d: Device, dump: bool)
      modifies this
      ensures State() == Run(old(State()), Prefixed(address, DeviceFields(d)), dump)
    {
      ghost var g0 := State();
      SendAll(Prefixed(address, DeviceLeaves(d)), dump);
      FlushSiblings(address + "sibling/", d, dump);
      FlushParameters(address + "param/", d.parameters, false, dump);
      FlushPages(address, d.pageNames, d.selectedPage, dump);
      DeviceRun(g0, address, d, dump);
    }

    /** The sibling loop of flushDevice: sibling i's name, flagged when it is the device's own position. */
    method FlushSiblings(base: string, d: Device, dump: bool)
      modifies this
      ensures State() == Run(old(State()), Indexed(base, SiblingGroups(d), 1), dump)
    {
      ghost var g0 := State();
      ghost var gs := SiblingGroups(d);
      for i := 0 to |d.siblingNames|
        invariant State() == Run(g0, Indexed(base, gs[..i], 1), dump)
      {
        FlushSiblingAt(base, d, i, g0, dump);
      }
      assert gs[..|d.siblingNames|] == gs;
    }

    method FlushSiblingAt(base: string, d: Device, i: nat, ghost g0: GateState, dump: bool)
      requires i < |d.siblingNames|
      requires State() == Run(g0, Indexed(base, SiblingGroups(d)[..i], 1), dump)
      modifies this
      ensures State() == Run(g0, Indexed(base, SiblingGroups(d)[..i + 1], 1), dump)
    {
      var slot := [Message("name", StrV(d.siblingNames[i])), Message("selected", BoolV(i == d.positionInBank))];
      assert slot == SiblingGroups(d)[i];
      SendAll(Prefixed(Slot(base, i + 1), slot), dump);
      IndexedStep(g0, base, SiblingGroups(d), 1, i, dump);
    }

    /**
     * The page window part of flushDevice: the selected page clamped to the
     * list, the eight slots of its block, then the selected page's name.
     * The source takes that name at index page % 8 (a slot position); this
     * method sends the selected page's own name, see SelectedPageNameAsWritten.
     */
    method FlushPages(address: string, names: seq<string>, selected: int, dump: bool)
      modifies this
      ensures State() == Run(old(State()),
        Indexed(address + "page/", PageGroups(names, selected), 1)
        + [Message(address + "page/selected/name", StrV(SelectedPageName(names, selected)))], dump)
    {
      ghost var g0 := State();
      var page := Min(Max(0, selected), |names| - 1);
      var start := TruncDiv(page, 8) * 8;
      assert (page, start) == PageWindow(|names|, selected);
      FlushPageSlots(address + "page/", names, page, start, dump);
      var name := if page >= 0 then names[page] else "";
      assert name == SelectedPageName(names, selected);
      SendOsc(address + "page/selected/name", StrV(name), dump);
      PagesRun(g0, address + "page/", names, selected, page, start, Message(address + "page/selected/name", StrV(name)), dump);
    }

    /** The eight window slots starting at `start`. */
    method FlushPageSlots(base: string, names: seq<string>, page: int, start: nat, dump: bool)
      modifies this
      ensures State() == Run(old(State()), Indexed(base, PageSlots(names, page, start), 1), dump)
    {
      ghost var g0 := State();
      ghost var gs := PageSlots(names, page, start);
      for i := 0 to 8
        invariant State() == Run(g0, Indexed(base, gs[..i], 1), dump)
      {
        FlushPageSlotAt(base, names, page, start, i, g0, dump);
      }
      assert gs[..8] == gs;
    }

    /** Window slot i: the name of page start + i ("" past the list), flagged when it is `page`. */
    method FlushPageSlotAt(base: string, names: seq<string>, page: int, start: nat, i: nat, ghost g0: GateState, dump: bool)
      requires i < 8
      requires State() == Run(g0, Indexed(base, PageSlots(names, page, start)[..i], 1), dump)
      modifies this
      ensures State() == Run(g0, Indexed(base, PageSlots(names, page, start)[..i + 1], 1), dump)
    {
      var index := start + i;
      var pageName := if index < |names| then names[index] else "";
      SendAll(Prefixed(Slot(base, i + 1), [Message("", StrV(pageName)), Message("selected", BoolV(page == index))]), dump);
      PageSlotStep(g0, base, names, page, start, i, dump);
    }

    // -------------------------------------------------------------------
    // flushDeviceLayers

    /** flushDeviceLayers: nothing for a null layer; otherwise its leaves, sends, VU (when enabled) and colour. */
    method FlushDeviceLayers(address: string, layer: Option<Channel>, dump: bool)
      modifies this
      ensures layer.None? ==> State() == old(State())
      ensures layer.Some? ==> State() == Run(old(State()), Prefixed(address, ChannelFields(layer.value, config)), dump)
    {
      if layer.None? {
        return;
      }
      var c := layer.value;
      ghost var g0 := State();
      SendAll(Prefixed(address, ChannelLeaves(c)), dump);
      FlushParameters(address + "send/", c.sends, true, dump);
      ghost var g2 := State();
      if config.vuMeters {
        SendOsc(address + "vu", IntV(c.vu), dump);
      }
      SendOsc(address + "color", ColorV(c.color), dump);
      ChannelTailRun(g2, address, c, config, dump);
      ChannelRun(g0, address, c, config, dump);
    }

    /** The loop over a layer or drum pad bank: entry i under Slot(base, i + 1). */
    method FlushLayers(base: string, ls: seq<Option<Channel>>, dump: bool)
      modifies this
      ensures State() == Run(old(State()), Indexed(base, LayerGroups(ls, config), 1), dump)
    {
      ghost var g0 := State();
      ghost var gs := LayerGroups(ls, config);
      for i := 0 to |ls|
        invariant State() == Run(g0, Indexed(base, gs[..i], 1), dump)
      {
        FlushLayerAt(base, ls, i, g0, dump);
      }
      assert gs[..|ls|] == gs;
    }

    method FlushLayerAt(base: string, ls: seq<Option<Channel>>, i: nat, ghost g0: GateState, dump: bool)
      requires i < |ls|
      requires State() == Run(g0, Indexed(base, LayerGroups(ls, config)[..i], 1), dump)
      modifies this
      ensures State() == Run(g0, Indexed(base, LayerGroups(ls, config)[..i + 1], 1), dump)
    {
      FlushDeviceLayers(Slot(base, i + 1), ls[i], dump);
      LayerStep(g0, base, ls, config, i, dump);
    }

    // -------------------------------------------------------------------
    // flushBrowser

    /** flushBrowser: the leaves, the filter columns with their items, then the result items. */
    method FlushBrowser(address: string, b: Browser, dump: bool)
      modifies this
      ensures State() == Run(old(State()), Prefixed(address, BrowserFields(b)), dump)
    {
      ghost var g0 := State();
      SendAll(Prefixed(address, [Message("isActive", BoolV(b.active)), Message("tab", StrV(b.contentType))]), dump);
      FlushColumns(address + "filter/", b.filterColumns, dump);
      FlushItems(address + "result/", b.results, dump);
      BrowserRun(g0, address, b, dump);
    }

    /** The filter column loop of flushBrowser: column i under Slot(base, i + 1). */
    method FlushColumns(base: string, cs: seq<BrowserColumn>, dump: bool)
      modifies this
      ensures State() == Run(old(State()), Indexed(base, ColumnGroups(cs), 1), dump)
    {
      ghost var g0 := State();
      ghost var gs := ColumnGroups(cs);
      for i := 0 to |cs|
        invariant State() == Run(g0, Indexed(base, gs[..i], 1), dump)
      {
        FlushColumnAt(base, cs, i, g0, dump);
      }
      assert gs[..|cs|] == gs;
    }

    /** One filter column: exists, name, wildcard, then its items. */
    method FlushColumnAt(base: string, cs: seq<BrowserColumn>, i: nat, ghost g0: GateState, dump: bool)
      requires i < |cs|
      requires State() == Run(g0, Indexed(base, ColumnGroups(cs)[..i], 1), dump)
      modifies this
      ensures State() == Run(g0, Indexed(base, ColumnGroups(cs)[..i + 1], 1), dump)
    {
      var address := Slot(base, i + 1);
      var c := cs[i];
      ghost var g1 := State();
      SendAll(Prefixed(address, [Message("exists", BoolV(c.doesExist)), Message("name", StrV(c.name)), Message("wildcard", StrV(c.wildcard))]), dump);
      FlushItems(address + "item/", c.items, dump);
      ColumnRun(g1, address, c, dump);
      IndexedStep(g0, base, ColumnGroups(cs), 1, i, dump);
    }

    /** The loop over browser items (a column's items or the results): item i under Slot(base, i + 1). */
    method FlushItems(base: string, items: seq<BrowserItem>, dump: bool)
      modifies this
      ensures State() == Run(old(State()), Indexed(base, BrowserItemGroups(items), 1), dump)
    {
      ghost var g0 := State();
      ghost var gs := BrowserItemGroups(items);
      for i := 0 to |items|
        invariant State() == Run(g0, Indexed(base, gs[..i], 1), dump)
      {
        FlushItemAt(base, items, i, g0, dump);
      }
      assert gs[..|items|] == gs;
    }

    method FlushItemAt(base: string, items: seq<BrowserItem>, i: nat, ghost g0: GateState, dump: bool)
      requires i < |items|
      requires State() == Run(g0, Indexed(base, BrowserItemGroups(items)[..i], 1), dump)
      modifies this
      ensures State() == Run(g0, Indexed(base, BrowserItemGroups(items)[..i + 1], 1), dump)
    {
      SendAll(Prefixed(Slot(base, i + 1), BrowserItemFields(items[i])), dump);
      IndexedStep(g0, base, BrowserItemGroups(items), 1, i, dump);
    }

    // -------------------------------------------------------------------
    // flushNotes

    /** flushNotes: the colour of notes 0 to 126, each under "<address><note>/color". */
    method FlushNotes(address: string, kb: Keyboard, dump: bool)
      modifies this
      ensures State() == Run(old(State()), Indexed(address, NoteGroups(kb), 0), dump)
    {
      ghost var g0 := State();
      ghost var gs := NoteGroups(kb);
      for i := 0 to NoteCount
        invariant State() == Run(g0, Indexed(address, gs[..i], 0), dump)
      {
        FlushNoteAt(address, kb, i, g0, dump);
      }
      assert gs[..NoteCount] == gs;
    }

    /** Note i: its colour (getNoteColor) under Slot(address, i) + "color". */
    method FlushNoteAt(address: string, kb: Keyboard, i: nat, ghost g0: GateState, dump: bool)
      requires i < NoteCount
      requires State() == Run(g0, Indexed(address, NoteGroups(kb)[..i], 0), dump)
      modifies this
      ensures State() == Run(g0, Indexed(address, NoteGroups(kb)[..i + 1], 0), dump)
    {
      SendOsc(Slot(address, i) + "color", ColorV(NoteColor(kb, i)), dump);
      NoteStep(g0, address, kb, i, dump);
    }
  }
}
