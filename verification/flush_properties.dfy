/**
 * What one flush does to the change tracker: a dump sends every message, a
 * non-dump flush sends exactly the changed ones, a repeated flush of the
 * same snapshot sends nothing, and after a flush the tracker holds each
 * entity's current value at its address.
 */
module FlushProperties {
  import opened Decimal
  import opened Options
  import opened OscValues
  import opened OscAddress
  import opened OscGate
  import opened OscSnapshot
  import opened OscFlush
  import opened FlushAddresses

  /** A dump sends every message of the flush, in order. */
  lemma FlushDumpSendsAll(g: GateState, s: Snapshot, cfg: Config)
    ensures Run(g, FlushMessages(s, cfg), true).queue == g.queue + FlushMessages(s, cfg)
  {
    RunDump(g, FlushMessages(s, cfg));
  }

  /** Without dump, a flush sends exactly the messages whose value changed since the last send. */
  lemma FlushSendsChanged(g: GateState, s: Snapshot, cfg: Config)
    ensures Run(g, FlushMessages(s, cfg), false).queue == g.queue + Changed(g.lastSent, FlushMessages(s, cfg))
  {
    FlushAddressesUnique(s, cfg);
    RunSendsChanged(g, FlushMessages(s, cfg));
  }

  /** Flushing the same snapshot again, without dump, sends nothing and changes nothing. */
  lemma FlushTwiceQuiet(g: GateState, s: Snapshot, cfg: Config, dump: bool)
    ensures var once := Run(g, FlushMessages(s, cfg), dump);
      Run(once, FlushMessages(s, cfg), false) == once
  {
    FlushAddressesUnique(s, cfg);
    SecondRunQuiet(g, FlushMessages(s, cfg), dump);
  }

  /** After a flush, the address of the flush's k-th message holds that message's value. */
  lemma FlushCaches(g: GateState, s: Snapshot, cfg: Config, dump: bool, k: nat)
    requires k < |FlushMessages(s, cfg)|
    ensures var m := FlushMessages(s, cfg)[k];
      var r := Run(g, FlushMessages(s, cfg), dump);
      m.address in r.lastSent && r.lastSent[m.address] == m.value
  {
    FlushAddressesUnique(s, cfg);
    RunHolds(g, FlushMessages(s, cfg), dump, FlushMessages(s, cfg)[k]);
  }

  /** Field j of bank track i is published under "/track/<i+1>/". */
  lemma FlushPublishesTrackField(s: Snapshot, cfg: Config, i: nat, j: nat)
    requires i < |s.tracks| && j < |TrackFields(s.tracks[i], cfg)|
    ensures var m := TrackFields(s.tracks[i], cfg)[j];
      Message(Slot("/track/", i + 1) + m.address, m.value) in FlushMessages(s, cfg)
  {
    var m := TrackFields(s.tracks[i], cfg)[j];
    var msg := Message(Slot("/track/", i + 1) + m.address, m.value);
    IndexedMember("/track/", TrackGroups(s.tracks, cfg), 1, i, j);
    InTrackSection(s, cfg, msg);
  }

  lemma InTrackSection(s: Snapshot, cfg: Config, m: Message)
    requires m in Indexed("/track/", TrackGroups(s.tracks, cfg), 1) || m in Prefixed("/track/selected/", TrackFields(SelectedOrEmpty(s), cfg))
    ensures m in FlushMessages(s, cfg)
  {
    InSecond(m, GlobalMessages(s), TrackSection(s, cfg), SceneSection(s) + DeviceSection(s, cfg)
      + Prefixed("/browser/", BrowserFields(s.browser)) + NoteSection(s.keyboard));
  }

  lemma InSecond(m: Message, a: seq<Message>, b: seq<Message>, c: seq<Message>)
    requires m in b
    ensures m in a + b + c
  {
  }

  /** After a flush, "/track/<i+1>/name" holds the name of bank track i. */
  lemma FlushShowsTrackName(g: GateState, s: Snapshot, cfg: Config, dump: bool, i: nat)
    requires i < |s.tracks|
    ensures var r := Run(g, FlushMessages(s, cfg), dump);
      var a := Slot("/track/", i + 1) + "name";
      a in r.lastSent && r.lastSent[a] == StrV(s.tracks[i].name)
  {
    TrackNameField(s.tracks[i], cfg);
    FlushPublishesTrackField(s, cfg, i, 5);
    FlushAddressesUnique(s, cfg);
    RunHolds(g, FlushMessages(s, cfg), dump, Message(Slot("/track/", i + 1) + "name", StrV(s.tracks[i].name)));
  }

  /** Field 5 of a track is its name. */
  lemma TrackNameField(t: Track, cfg: Config)
    ensures |TrackFields(t, cfg)| > 5 && TrackFields(t, cfg)[5] == Message("name", StrV(t.name))
  {
  }

  /** Without a selected track, "/track/selected/exists" is published as false. */
  lemma FlushNoSelection(g: GateState, s: Snapshot, cfg: Config, dump: bool)
    requires s.selectedTrack.None?
    ensures var r := Run(g, FlushMessages(s, cfg), dump);
      "/track/selected/exists" in r.lastSent && r.lastSent["/track/selected/exists"] == BoolV(false)
  {
    var selected := Prefixed("/track/selected/", TrackFields(EmptyTrack, cfg));
    assert selected[0] == Message("/track/selected/exists", BoolV(false));
    InTrackSection(s, cfg, selected[0]);
    FlushAddressesUnique(s, cfg);
    RunHolds(g, FlushMessages(s, cfg), dump, Message("/track/selected/exists", BoolV(false)));
  }

  /** The 127 note messages: note i at "/vkb_midi/note/<i>/color" with its computed colour. */
  lemma NoteSectionLayout(kb: Keyboard)
    ensures |NoteSection(kb)| == NoteCount
    ensures forall i :: 0 <= i < NoteCount ==>
      NoteSection(kb)[i] == Message("/vkb_midi/note/" + NatToString(i) + "/color", ColorV(NoteColor(kb, i)))
  {
    IndexedSingletons("/vkb_midi/note/", NoteGroups(kb), 0);
    forall i | 0 <= i < NoteCount
      ensures Slot("/vkb_midi/note/", i) + "color" == "/vkb_midi/note/" + NatToString(i) + "/color"
    {
    }
  }

  /** When the selected track cannot hold notes, every key is published with the palette's "off" colour. */
  lemma NotesOffWhenDisabled(kb: Keyboard)
    requires !kb.enabled
    ensures forall i :: 0 <= i < |NoteSection(kb)| ==> NoteSection(kb)[i].value == ColorV(Off)
  {
    NoteSectionLayout(kb);
  }

  /** A held key is red while recording and green otherwise; any other key shows its scale colour. */
  lemma NoteColorsWhenEnabled(kb: Keyboard, note: nat)
    requires kb.enabled && note < NoteCount
    ensures |NoteSection(kb)| == NoteCount
    ensures note in kb.pressed && kb.recording ==> NoteSection(kb)[note].value == ColorV(Red)
    ensures note in kb.pressed && !kb.recording ==> NoteSection(kb)[note].value == ColorV(Green)
    ensures note !in kb.pressed ==> NoteSection(kb)[note].value == ColorV(kb.scaleColor(note))
  {
    NoteSectionLayout(kb);
  }

  // ---------------------------------------------------------------------
  // A layer that the host reports as missing

  lemma LayerSlotHeads(n: nat)
    ensures |Slot("/device/layer/", n)| >= 11
    ensures Head(Slot("/device/layer/", n), 1) == ('d', 'e', 'v')
    ensures Head(Slot("/device/layer/", n), 8) == ('l', 'a', 'y')
  {
    var base := "/device/layer/";
    assert Slot(base, n) == base + (NatToString(n) + "/");
    HeadOfPrefixed(base, NatToString(n) + "/", 1);
    HeadOfPrefixed(base, NatToString(n) + "/", 8);
  }

  lemma DrumPadsSilent(d: Device, cfg: Config, p: string)
    requires |p| >= 11 && Head(p, 8) == ('l', 'a', 'y')
    ensures NoneUnder(p, DrumPadSection(d, cfg))
  {
    if d.hasDrumPads {
      LayerGroupsUnique(d.drumPads, cfg);
      ChannelFamilyShape("/device/drumpad/", LayerGroups(d.drumPads, cfg), ('d', 'r', 'u'));
    }
    HeadsExclude(p, DrumPadSection(d, cfg), 8, {('d', 'r', 'u')});
  }

  lemma DeviceSectionSkipsLayer(s: Snapshot, cfg: Config, i: nat)
    requires i < |s.cursorDevice.layers| && s.cursorDevice.layers[i].None?
    ensures NoneUnder(Slot("/device/layer/", i + 1), DeviceSection(s, cfg))
  {
    var d := s.cursorDevice;
    var p := Slot("/device/layer/", i + 1);
    LayerSlotHeads(i + 1);
    DeviceBaseHeads();
    DeviceFieldsShape(d);
    HeadsInPrefixed("/device/", DeviceFields(d), DeviceHeads);
    HeadsExclude(p, Prefixed("/device/", DeviceFields(d)), 8, DeviceHeads);
    DrumPadsSilent(d, cfg, p);
    IndexedOutsideSlot("/device/layer/", LayerGroups(d.layers, cfg), 1, i + 1);
    DeviceFieldsShape(s.primaryDevice);
    PrefixedShape("/primary/", DeviceFields(s.primaryDevice), 1, ('p', 'r', 'i'));
    HeadsExclude(p, Prefixed("/primary/", DeviceFields(s.primaryDevice)), 1, {('p', 'r', 'i')});
    NoneUnderAppend(p, Prefixed("/device/", DeviceFields(d)), DrumPadSection(d, cfg));
    NoneUnderAppend(p, Prefixed("/device/", DeviceFields(d)) + DrumPadSection(d, cfg), LayerSection(d, cfg));
    NoneUnderAppend(p, Prefixed("/device/", DeviceFields(d)) + DrumPadSection(d, cfg) + LayerSection(d, cfg),
      Prefixed("/primary/", DeviceFields(s.primaryDevice)));
  }

  /** Sections other than the device section publish nothing under "/device/". */
  lemma GlobalsSilent(s: Snapshot, p: string)
    requires |p| >= 4 && Head(p, 1) == ('d', 'e', 'v')
    ensures NoneUnder(p, GlobalMessages(s))
  {
    GlobalShape(s);
    DeviceHeadNotGlobal();
    HeadsExclude(p, GlobalMessages(s), 1, GlobalHeads);
  }

  lemma DeviceHeadNotGlobal()
    ensures ('d', 'e', 'v') !in GlobalHeads
  {
    DeviceHeadsApartFromFront();
  }

  lemma TracksSilent(s: Snapshot, cfg: Config, p: string)
    requires |p| >= 4 && Head(p, 1) == ('d', 'e', 'v')
    ensures NoneUnder(p, TrackSection(s, cfg))
  {
    TrackSectionShape(s, cfg);
    HeadsExclude(p, TrackSection(s, cfg), 1, {('t', 'r', 'a'), ('m', 'a', 's')});
  }

  lemma ScenesSilent(s: Snapshot, p: string)
    requires |p| >= 4 && Head(p, 1) == ('d', 'e', 'v')
    ensures NoneUnder(p, SceneSection(s))
  {
    SceneSectionShape(s);
    HeadsExclude(p, SceneSection(s), 1, {('s', 'c', 'e')});
  }

  lemma BackSectionsSilent(s: Snapshot, p: string)
    requires |p| >= 4 && Head(p, 1) == ('d', 'e', 'v')
    ensures NoneUnder(p, Prefixed("/browser/", BrowserFields(s.browser))) && NoneUnder(p, NoteSection(s.keyboard))
  {
    BrowserSectionShape(s.browser);
    HeadsExclude(p, Prefixed("/browser/", BrowserFields(s.browser)), 1, {('b', 'r', 'o')});
    NoteSectionShape(s.keyboard);
    HeadsExclude(p, NoteSection(s.keyboard), 1, {('v', 'k', 'b')});
  }

  /**
   * A layer the host reports as missing publishes nothing: no address of
   * the flush lies under its slot.
   */
  lemma FlushSkipsMissingLayer(s: Snapshot, cfg: Config, i: nat)
    requires i < |s.cursorDevice.layers| && s.cursorDevice.layers[i].None?
    ensures NoneUnder(Slot("/device/layer/", i + 1), FlushMessages(s, cfg))
  {
    var p := Slot("/device/layer/", i + 1);
    LayerSlotHeads(i + 1);
    GlobalsSilent(s, p);
    TracksSilent(s, cfg, p);
    ScenesSilent(s, p);
    DeviceSectionSkipsLayer(s, cfg, i);
    BackSectionsSilent(s, p);
    NoneUnderJoin(p, GlobalMessages(s), TrackSection(s, cfg), SceneSection(s), DeviceSection(s, cfg),
      Prefixed("/browser/", BrowserFields(s.browser)), NoteSection(s.keyboard));
  }

  lemma NoneUnderJoin(p: string, gl: seq<Message>, t: seq<Message>, sc: seq<Message>, d: seq<Message>, b: seq<Message>, n: seq<Message>)
    requires NoneUnder(p, gl) && NoneUnder(p, t) && NoneUnder(p, sc)
    requires NoneUnder(p, d) && NoneUnder(p, b) && NoneUnder(p, n)
    ensures NoneUnder(p, gl + t + sc + d + b + n)
  {
    NoneUnderAppend(p, gl, t);
    NoneUnderAppend(p, gl + t, sc);
    NoneUnderAppend(p, gl + t + sc, d);
    NoneUnderAppend(p, gl + t + sc + d, b);
    NoneUnderAppend(p, gl + t + sc + d + b, n);
  }

  /**
   * Hence a flush leaves whatever was last sent under a missing layer's slot
   * as it was: the client keeps showing the layer's old values.
   */
  lemma FlushKeepsMissingLayer(g: GateState, s: Snapshot, cfg: Config, dump: bool, i: nat, a: string)
    requires i < |s.cursorDevice.layers| && s.cursorDevice.layers[i].None?
    requires Slot("/device/layer/", i + 1) <= a
    ensures var r := Run(g, FlushMessages(s, cfg), dump);
      (a in r.lastSent <==> a in g.lastSent) && (a in g.lastSent ==> r.lastSent[a] == g.lastSent[a])
  {
    FlushSkipsMissingLayer(s, cfg, i);
    var ms := FlushMessages(s, cfg);
    forall k | 0 <= k < |ms| ensures ms[k].address != a {
      PrefixNotEqual(Slot("/device/layer/", i + 1), ms[k].address, a);
    }
    RunKeepsUntouched(g, ms, dump, a);
  }

  lemma PrefixNotEqual(p: string, b: string, a: string)
    requires p <= a && !(p <= b)
    ensures b != a
  {
  }
}
