/**
 * What one flush offers to the change tracker: the ordered list of
 * (address, value) messages for a snapshot, domain by domain, in the order
 * the writer visits them. Addresses inside a domain are relative; the
 * writer puts the domain's prefix in front (Prefixed, Indexed).
 */
module OscFlush {
  import opened Decimal
  import opened Options
  import opened OscValues
  import opened OscAddress
  import opened OscSnapshot

  // ---------------------------------------------------------------------
  // Transport, frames, project

  function TransportMessages(t: Transport): seq<Message> {
    [ Message("/play", BoolV(t.playing)),
      Message("/record", BoolV(t.recording)),
      Message("/overdub", BoolV(t.arrangerOverdub)),
      Message("/overdub/launcher", BoolV(t.launcherOverdub)),
      Message("/repeat", BoolV(t.loop)),
      Message("/punchIn", BoolV(t.punchIn)),
      Message("/punchOut", BoolV(t.punchOut)),
      Message("/click", BoolV(t.metronome)),
      Message("/click/ticks", BoolV(t.metronomeTicks)),
      Message("/click/volume", IntV(t.metronomeVolume)),
      Message("/click/volumeStr", StrV(t.metronomeVolumeText)),
      Message("/click/preroll", BoolV(t.prerollMetronome)),
      Message("/preroll", IntV(t.prerollBars)),
      Message("/tempo/raw", t.tempo),
      Message("/crossfade", IntV(t.crossfade)),
      Message("/autowrite", BoolV(t.arrangerAutomation)),
      Message("/autowrite/launcher", BoolV(t.launcherAutomation)),
      Message("/automationWriteMode", StrV(t.automationWriteMode)),
      Message("/time/str", StrV(t.positionText)),
      Message("/time/signature", StrV(IntToString(t.numerator) + " / " + IntToString(t.denominator))),
      Message("/beat/str", StrV(t.beatText)) ]
  }

  function FrameMessages(layout: string, a: Arranger, m: Mixer): seq<Message> {
    [ Message("/layout", StrV(ToLower(layout))),
      Message("/arranger/cueMarkerVisibility", BoolV(a.cueMarkersVisible)),
      Message("/arranger/playbackFollow", BoolV(a.playbackFollow)),
      Message("/arranger/trackRowHeight", BoolV(a.doubleRowTrackHeight)),
      Message("/arranger/clipLauncherSectionVisibility", BoolV(a.clipLauncherVisible)),
      Message("/arranger/timeLineVisibility", BoolV(a.timelineVisible)),
      Message("/arranger/ioSectionVisibility", BoolV(a.ioSectionVisible)),
      Message("/arranger/effectTracksVisibility", BoolV(a.effectTracksVisible)),
      Message("/mixer/clipLauncherSectionVisibility", BoolV(m.clipLauncherSectionVisible)),
      Message("/mixer/crossFadeSectionVisibility", BoolV(m.crossFadeSectionVisible)),
      Message("/mixer/deviceSectionVisibility", BoolV(m.deviceSectionVisible)),
      Message("/mixer/sendsSectionVisibility", BoolV(m.sendSectionVisible)),
      Message("/mixer/ioSectionVisibility", BoolV(m.ioSectionVisible)),
      Message("/mixer/meterSectionVisibility", BoolV(m.meterSectionVisible)) ]
  }

  function ProjectMessages(name: string, engineActive: bool): seq<Message> {
    [ Message("/project/name", StrV(name)),
      Message("/project/engine", BoolV(engineActive)) ]
  }

  /** Transport, frames and project: the fixed addresses at the top of a flush. */
  function GlobalMessages(s: Snapshot): seq<Message> {
    TransportMessages(s.transport)
    + FrameMessages(s.panelLayout, s.arranger, s.mixer)
    + ProjectMessages(s.projectName, s.engineActive)
  }

  // ---------------------------------------------------------------------
  // Parameters, tracks, scenes

  /** flushParameterData: a send publishes "volume…" where a device parameter publishes "value…". */
  function ParameterFields(p: Parameter, isSend: bool): seq<Message> {
    [ Message("name", StrV(p.name)),
      Message(if isSend then "volumeStr" else "valueStr", StrV(p.displayedValue)),
      Message(if isSend then "volume" else "value", IntV(p.value)),
      Message("modulatedValue", IntV(p.modulatedValue)) ]
  }

  function ParameterGroups(ps: seq<Parameter>, isSend: bool): (gs: seq<seq<Message>>)
    ensures |gs| == |ps|
  {
    seq(|ps|, i requires 0 <= i < |ps| => ParameterFields(ps[i], isSend))
  }

  function ClipSlotFields(c: ClipSlot): seq<Message> {
    [ Message("name", StrV(c.name)),
      Message("isSelected", BoolV(c.selected)),
      Message("hasContent", BoolV(c.hasContent)),
      Message("isPlaying", BoolV(c.playing)),
      Message("isRecording", BoolV(c.recording)),
      Message("isPlayingQueued", BoolV(c.playingQueued)),
      Message("isRecordingQueued", BoolV(c.recordingQueued)),
      Message("isStopQueued", BoolV(c.stopQueued)),
      Message("color", ColorV(c.color)) ]
  }

  function ClipSlotGroups(cs: seq<ClipSlot>): (gs: seq<seq<Message>>)
    ensures |gs| == |cs|
  {
    seq(|cs|, i requires 0 <= i < |cs| => ClipSlotFields(cs[i]))
  }

  /** The scalar leaves at the head of flushTrack. */
  function TrackLeaves(t: Track): seq<Message> {
    [ Message("exists", BoolV(t.doesExist)),
      Message("type", match t.channelType case None => NullV case Some(n) => StrV(ToLower(n))),
      Message("activated", BoolV(t.activated)),
      Message("selected", BoolV(t.selected)),
      Message("isGroup", BoolV(t.isGroup)),
      Message("name", StrV(t.name)),
      Message("volumeStr", StrV(t.volumeText)),
      Message("volume", IntV(t.volume)),
      Message("panStr", StrV(t.panText)),
      Message("pan", IntV(t.pan)),
      Message("mute", BoolV(t.mute)),
      Message("solo", BoolV(t.solo)),
      Message("recarm", BoolV(t.recArm)),
      Message("monitor", BoolV(t.monitor)),
      Message("autoMonitor", BoolV(t.autoMonitor)),
      Message("canHoldNotes", BoolV(t.canHoldNotes)),
      Message("canHoldAudioData", BoolV(t.canHoldAudioData)),
      Message("position", IntV(t.position)) ]
  }

  /**
   * The three crossfade flags. At most one is true, and one is true exactly
   * when the mode is "A", "B" or "AB".
   */
  function CrossfadeFlags(mode: string): (fs: seq<Message>)
    ensures |fs| == 3
    ensures forall i, j :: 0 <= i < j < 3 ==> !(fs[i].value == BoolV(true) && fs[j].value == BoolV(true))
    ensures forall i :: 0 <= i < 3 ==> fs[i].value.BoolV?
    ensures fs[0].value.b || fs[1].value.b || fs[2].value.b <==> mode in {"A", "B", "AB"}
  {
    [ Message("crossfadeMode/A", BoolV(mode == "A")),
      Message("crossfadeMode/B", BoolV(mode == "B")),
      Message("crossfadeMode/AB", BoolV(mode == "AB")) ]
  }

  /** The leaves after the sends and clips of flushTrack. */
  function TrackTail(t: Track, cfg: Config): seq<Message> {
    [Message("color", ColorV(t.color))]
    + CrossfadeFlags(t.crossfadeMode)
    + [Message("vu", IntV(if cfg.vuMeters then t.vu else 0))]
  }

  /** flushTrack, relative to the track's prefix. */
  function TrackFields(t: Track, cfg: Config): seq<Message> {
    TrackLeaves(t)
    + Indexed("send/", ParameterGroups(t.sends, true), 1)
    + Indexed("clip/", ClipSlotGroups(t.slots), 1)
    + TrackTail(t, cfg)
  }

  function TrackGroups(ts: seq<Track>, cfg: Config): (gs: seq<seq<Message>>)
    ensures |gs| == |ts|
  {
    seq(|ts|, i requires 0 <= i < |ts| => TrackFields(ts[i], cfg))
  }

  /** What "/track/selected/" shows: the selected track, or the empty stand-in. */
  function SelectedOrEmpty(s: Snapshot): (t: Track)
    ensures s.selectedTrack.None? ==> !t.doesExist
  {
    match s.selectedTrack
    case None => EmptyTrack
    case Some(t) => t
  }

  /** The bank's tracks, the master, the selected track and the bank toggle (lines 129-135). */
  function TrackSection(s: Snapshot, cfg: Config): seq<Message> {
    Indexed("/track/", TrackGroups(s.tracks, cfg), 1)
    + Prefixed("/master/", TrackFields(s.master, cfg))
    + Prefixed("/track/selected/", TrackFields(SelectedOrEmpty(s), cfg))
    + [Message("/track/toggleBank", IntV(if s.effectTrackBankActive then 1 else 0))]
  }

  function SceneFields(sc: Scene): seq<Message> {
    [ Message("exists", BoolV(sc.doesExist)),
      Message("name", StrV(sc.name)),
      Message("selected", BoolV(sc.selected)) ]
  }

  function SceneGroups(scs: seq<Scene>): (gs: seq<seq<Message>>)
    ensures |gs| == |scs|
  {
    seq(|scs|, i requires 0 <= i < |scs| => SceneFields(scs[i]))
  }

  /** The scene bank; nothing when the model has none (lines 141-146). */
  function SceneSection(s: Snapshot): seq<Message> {
    match s.scenes
    case None => []
    case Some(scs) => Indexed("/scene/", SceneGroups(scs), 1)
  }

  // ---------------------------------------------------------------------
  // Devices

  function Min(a: int, b: int): int { if a < b then a else b }
  function Max(a: int, b: int): int { if a < b then b else a }

  /**
   * The parameter page window of flushDevice (lines 284-285): the selected
   * page clamped to the list, and the start of its block of eight, computed
   * with Java's truncating division. An empty list gives page -1, start 0.
   */
  function PageWindow(count: nat, selected: int): (w: (int, int))
    ensures count == 0 ==> w == (-1, 0)
    ensures count > 0 ==> 0 <= w.0 < count && w.1 % 8 == 0 && 0 <= w.1 <= w.0 < w.1 + 8
    ensures count > 0 && selected <= 0 ==> w.0 == 0
    ensures count > 0 && selected >= count ==> w.0 == count - 1
    ensures 0 <= selected < count ==> w.0 == selected
  {
    var page := Min(Max(0, selected), count - 1);
    (page, TruncDiv(page, 8) * 8)
  }

  /** The name shown in a window slot: the page's name, or "" past the end of the list. */
  function PageSlotName(names: seq<string>, index: int): string
    requires index >= 0
  {
    if index < |names| then names[index] else ""
  }

  /** A window slot: the name of page `index`, flagged when it is the selected `page`. */
  function PageSlot(names: seq<string>, page: int, index: nat): (r: seq<Message>)
    ensures |r| == 2 && r[0].address == "" && r[1].address == "selected"
  {
    [ Message("", StrV(PageSlotName(names, index))),
      Message("selected", BoolV(page == index)) ]
  }

  /** The eight slots of the window starting at `start`. */
  function PageSlots(names: seq<string>, page: int, start: nat): (gs: seq<seq<Message>>)
    ensures |gs| == 8
  {
    seq(8, i requires 0 <= i < 8 => PageSlot(names, page, start + i))
  }

  /** The eight window slots around the selected page. */
  function PageGroups(names: seq<string>, selected: int): (gs: seq<seq<Message>>)
    ensures |gs| == 8
    ensures forall i :: 0 <= i < 8 ==> |gs[i]| == 2 && gs[i][0].address == "" && gs[i][1].address == "selected"
  {
    var (page, start) := PageWindow(|names|, selected);
    assert forall i :: 0 <= i < 8 ==> PageSlots(names, page, start)[i] == PageSlot(names, page, start + i);
    PageSlots(names, page, start)
  }

  /**
   * "page/selected/name" as line 297 computes it: the name at index
   * page % 8 of the whole list, the slot position rather than the page.
   * The index is always inside the list.
   */
  function SelectedPageNameAsWritten(names: seq<string>, selected: int): (r: string)
    ensures |names| == 0 ==> r == ""
    ensures |names| > 0 ==> r in names
  {
    var (page, start) := PageWindow(|names|, selected);
    var sel := TruncRem(page, 8);
    if sel >= 0 && sel < 8 then names[sel] else ""
  }

  /** "page/selected/name" as intended: the name of the selected page, "" when there is none. */
  function SelectedPageName(names: seq<string>, selected: int): (r: string)
    ensures |names| == 0 ==> r == ""
    ensures 0 <= selected < |names| ==> r == names[selected]
    ensures |names| > 0 ==> 0 <= PageWindow(|names|, selected).0 < |names| && r == names[PageWindow(|names|, selected).0]
    ensures |names| > 0 && selected < 0 ==> r == names[0]
    ensures |names| > 0 && selected >= |names| ==> r == names[|names| - 1]
  {
    var (page, start) := PageWindow(|names|, selected);
    if page >= 0 then names[page] else ""
  }

  function PageFields(names: seq<string>, selected: int): seq<Message> {
    Indexed("page/", PageGroups(names, selected), 1)
    + [Message("page/selected/name", StrV(SelectedPageName(names, selected)))]
  }

  /** Sibling i is flagged selected exactly when it is the device's position in the bank. */
  function SiblingGroups(d: Device): (gs: seq<seq<Message>>)
    ensures |gs| == |d.siblingNames|
    ensures forall i :: 0 <= i < |gs| ==> |gs[i]| == 2 && (gs[i][1].value == BoolV(true) <==> i == d.positionInBank)
  {
    seq(|d.siblingNames|, i requires 0 <= i < |d.siblingNames| =>
      [ Message("name", StrV(d.siblingNames[i])),
        Message("selected", BoolV(i == d.positionInBank)) ])
  }

  function DeviceLeaves(d: Device): seq<Message> {
    [ Message("exists", BoolV(d.doesExist)),
      Message("name", StrV(d.name)),
      Message("bypass", BoolV(!d.enabled)),
      Message("expand", BoolV(d.expanded)),
      Message("window", BoolV(d.windowOpen)) ]
  }

  /** flushDevice, relative to the device's prefix. */
  function DeviceFields(d: Device): seq<Message> {
    DeviceLeaves(d)
    + Indexed("sibling/", SiblingGroups(d), 1)
    + Indexed("param/", ParameterGroups(d.parameters, false), 1)
    + PageFields(d.pageNames, d.selectedPage)
  }

  function ChannelLeaves(c: Channel): seq<Message> {
    [ Message("exists", BoolV(c.doesExist)),
      Message("activated", BoolV(c.activated)),
      Message("selected", BoolV(c.selected)),
      Message("name", StrV(c.name)),
      Message("volumeStr", StrV(c.volumeText)),
      Message("volume", IntV(c.volume)),
      Message("panStr", StrV(c.panText)),
      Message("pan", IntV(c.pan)),
      Message("mute", BoolV(c.mute)),
      Message("solo", BoolV(c.solo)) ]
  }

  function ChannelTail(c: Channel, cfg: Config): seq<Message> {
    (if cfg.vuMeters then [Message("vu", IntV(c.vu))] else [])
    + [Message("color", ColorV(c.color))]
  }

  /** flushDeviceLayers, relative to the layer's prefix. */
  function ChannelFields(c: Channel, cfg: Config): seq<Message> {
    ChannelLeaves(c)
    + Indexed("send/", ParameterGroups(c.sends, true), 1)
    + ChannelTail(c, cfg)
  }

  /** A null layer or drum pad contributes no message. */
  function LayerGroups(ls: seq<Option<Channel>>, cfg: Config): (gs: seq<seq<Message>>)
    ensures |gs| == |ls|
    ensures forall i :: 0 <= i < |ls| ==> (ls[i].None? <==> gs[i] == [])
  {
    seq(|ls|, i requires 0 <= i < |ls| =>
      match ls[i]
      case None => []
      case Some(c) => ChannelFields(c, cfg))
  }

  function DrumPadSection(d: Device, cfg: Config): seq<Message> {
    if d.hasDrumPads then Indexed("/device/drumpad/", LayerGroups(d.drumPads, cfg), 1) else []
  }

  function LayerSection(d: Device, cfg: Config): seq<Message> {
    Indexed("/device/layer/", LayerGroups(d.layers, cfg), 1)
  }

  /** The cursor device with its drum pads and layers, then the primary device (lines 151-160). */
  function DeviceSection(s: Snapshot, cfg: Config): seq<Message> {
    Prefixed("/device/", DeviceFields(s.cursorDevice))
    + DrumPadSection(s.cursorDevice, cfg)
    + LayerSection(s.cursorDevice, cfg)
    + Prefixed("/primary/", DeviceFields(s.primaryDevice))
  }

  // ---------------------------------------------------------------------
  // Browser and notes

  function BrowserItemFields(it: BrowserItem): seq<Message> {
    [ Message("exists", BoolV(it.doesExist)),
      Message("name", StrV(it.name)),
      Message("hits", IntV(it.hitCount)),
      Message("isSelected", BoolV(it.selected)) ]
  }

  function BrowserItemGroups(its: seq<BrowserItem>): (gs: seq<seq<Message>>)
    ensures |gs| == |its|
  {
    seq(|its|, i requires 0 <= i < |its| => BrowserItemFields(its[i]))
  }

  function ColumnFields(c: BrowserColumn): seq<Message> {
    [ Message("exists", BoolV(c.doesExist)),
      Message("name", StrV(c.name)),
      Message("wildcard", StrV(c.wildcard)) ]
    + Indexed("item/", BrowserItemGroups(c.items), 1)
  }

  function ColumnGroups(cs: seq<BrowserColumn>): (gs: seq<seq<Message>>)
    ensures |gs| == |cs|
  {
    seq(|cs|, i requires 0 <= i < |cs| => ColumnFields(cs[i]))
  }

  /** flushBrowser, relative to "/browser/". */
  function BrowserFields(b: Browser): seq<Message> {
    [ Message("isActive", BoolV(b.active)),
      Message("tab", StrV(b.contentType)) ]
    + Indexed("filter/", ColumnGroups(b.filterColumns), 1)
    + Indexed("result/", BrowserItemGroups(b.results), 1)
  }

  /**
   * getNoteColor: the palette's "off" colour when the selected track cannot
   * hold notes; otherwise red (recording) or green for a held key, and the
   * scale's colour for any other key.
   */
  function NoteColor(kb: Keyboard, note: int): Color {
    if !kb.enabled then Off
    else if note !in kb.pressed then kb.scaleColor(note)
    else if kb.recording then Red
    else Green
  }

  const NoteCount := 127

  function NoteGroups(kb: Keyboard): (gs: seq<seq<Message>>)
    ensures |gs| == NoteCount
  {
    seq(NoteCount, i requires 0 <= i < NoteCount => [Message("color", ColorV(NoteColor(kb, i)))])
  }

  /** flushNotes: notes 0..126, numbered from 0 in their addresses. */
  function NoteSection(kb: Keyboard): seq<Message> {
    Indexed("/vkb_midi/note/", NoteGroups(kb), 0)
  }

  // ---------------------------------------------------------------------
  // The whole flush

  /** Everything one connected flush offers to the change tracker, in order (lines 71-172). */
  function FlushMessages(s: Snapshot, cfg: Config): seq<Message> {
    GlobalMessages(s)
    + TrackSection(s, cfg)
    + SceneSection(s)
    + DeviceSection(s, cfg)
    + Prefixed("/browser/", BrowserFields(s.browser))
    + NoteSection(s.keyboard)
  }
}
