/**
 * The part of the host's DAW model that the OSC writer reads on one flush,
 * as plain values. The host owns these entities; the writer only reads them.
 */
module OscSnapshot {
  import opened Options
  import opened OscValues

  datatype Transport = Transport(
    playing: bool,
    recording: bool,
    arrangerOverdub: bool,
    launcherOverdub: bool,
    loop: bool,
    punchIn: bool,
    punchOut: bool,
    metronome: bool,
    metronomeTicks: bool,
    metronomeVolume: int,
    metronomeVolumeText: string,
    prerollMetronome: bool,
    prerollBars: int,
    tempo: Value,
    crossfade: int,
    arrangerAutomation: bool,
    launcherAutomation: bool,
    automationWriteMode: string,
    positionText: string,
    numerator: int,
    denominator: int,
    beatText: string)

  datatype Arranger = Arranger(
    cueMarkersVisible: bool,
    playbackFollow: bool,
    doubleRowTrackHeight: bool,
    clipLauncherVisible: bool,
    timelineVisible: bool,
    ioSectionVisible: bool,
    effectTracksVisible: bool)

  datatype Mixer = Mixer(
    clipLauncherSectionVisible: bool,
    crossFadeSectionVisible: bool,
    deviceSectionVisible: bool,
    sendSectionVisible: bool,
    ioSectionVisible: bool,
    meterSectionVisible: bool)

  /** A send of a track or layer, or a parameter of a device. */
  datatype Parameter = Parameter(name: string, displayedValue: string, value: int, modulatedValue: int)

  /** A clip launcher slot. */
  datatype ClipSlot = ClipSlot(
    name: string,
    selected: bool,
    hasContent: bool,
    playing: bool,
    recording: bool,
    playingQueued: bool,
    recordingQueued: bool,
    stopQueued: bool,
    color: Color)

  /** A track; `channelType` is the name of its type, None when the host reports none. */
  datatype Track = Track(
    doesExist: bool,
    channelType: Option<string>,
    activated: bool,
    selected: bool,
    isGroup: bool,
    name: string,
    volumeText: string,
    volume: int,
    panText: string,
    pan: int,
    mute: bool,
    solo: bool,
    recArm: bool,
    monitor: bool,
    autoMonitor: bool,
    canHoldNotes: bool,
    canHoldAudioData: bool,
    position: int,
    sends: seq<Parameter>,
    slots: seq<ClipSlot>,
    color: Color,
    crossfadeMode: string,
    vu: int)

  /**
   * The stand-in published for "/track/selected/" when no track is selected.
   * Only `doesExist == false` is fixed by the writer; the other defaults are
   * the host's and are chosen here as false, zero and empty.
   */
  const EmptyTrack := Track(
    false, None, false, false, false, "", "", 0, "", 0, false, false, false, false, false,
    false, false, 0, [], [], Host(0), "", 0)

  datatype Scene = Scene(doesExist: bool, name: string, selected: bool)

  /** A device layer or drum pad channel. */
  datatype Channel = Channel(
    doesExist: bool,
    activated: bool,
    selected: bool,
    name: string,
    volumeText: string,
    volume: int,
    panText: string,
    pan: int,
    mute: bool,
    solo: bool,
    sends: seq<Parameter>,
    vu: int,
    color: Color)

  /**
   * A device cursor. `drumPads` and `layers` are what the host returns for
   * each index of the two banks; None is a null layer or pad.
   */
  datatype Device = Device(
    doesExist: bool,
    name: string,
    enabled: bool,
    expanded: bool,
    windowOpen: bool,
    positionInBank: int,
    siblingNames: seq<string>,
    parameters: seq<Parameter>,
    pageNames: seq<string>,
    selectedPage: int,
    hasDrumPads: bool,
    drumPads: seq<Option<Channel>>,
    layers: seq<Option<Channel>>)

  datatype BrowserItem = BrowserItem(doesExist: bool, name: string, hitCount: int, selected: bool)

  datatype BrowserColumn = BrowserColumn(doesExist: bool, name: string, wildcard: string, items: seq<BrowserItem>)

  datatype Browser = Browser(
    active: bool,
    contentType: string,
    filterColumns: seq<BrowserColumn>,
    results: seq<BrowserItem>)

  /**
   * What the note colours depend on: whether the selected track can hold
   * notes, whether the host is recording, which keys are held, and the
   * colour the current scale gives each note.
   */
  datatype Keyboard = Keyboard(
    enabled: bool,
    recording: bool,
    pressed: set<int>,
    scaleColor: int -> Color)

  /** One snapshot of everything a flush reads. */
  datatype Snapshot = Snapshot(
    transport: Transport,
    panelLayout: string,
    arranger: Arranger,
    mixer: Mixer,
    projectName: string,
    engineActive: bool,
    tracks: seq<Track>,
    master: Track,
    selectedTrack: Option<Track>,
    effectTrackBankActive: bool,
    scenes: Option<seq<Scene>>,
    cursorDevice: Device,
    primaryDevice: Device,
    browser: Browser,
    keyboard: Keyboard)

  /** The writer's configuration: whether VU meters are published. */
  datatype Config = Config(vuMeters: bool)
}
