/**
 * The Push track mode's knob table: which parameter of the selected track a
 * knob addresses, for both Push models, and the host calls a turn, a reset
 * or a touch of that parameter makes.
 */
module KnobTargets {
  import opened Options

  /** The eight knobs above the display. */
  const KnobCount := 8
  /** The size of a track's send bank on the Push. */
  const SendCount := 8

  /** The Push model and the two settings that move the sends along the knobs. */
  datatype Config = Config(push2: bool, sendsToggled: bool, displayCrossfader: bool, vuMeters: bool)

  /** What a knob addresses on the selected track. */
  datatype Target = Volume | Pan | Crossfader | Unused | SendTarget(send: nat)

  /**
   * onValueKnob's dispatch: knobs 0 and 1 are volume and pan. On Push 2 knob 2
   * is the crossfader, knob 3 is unused and knob k >= 4 is send k - 4, or send
   * k when the sends are toggled. On Push 1 knob 2 is the crossfader when it
   * is displayed and send 0 otherwise, and knob k >= 3 is send k - 3 with the
   * crossfader shown and send k - 2 without.
   */
  function KnobTarget(index: nat, cfg: Config): (t: Target)
    ensures index < KnobCount && t.SendTarget? ==> t.send < SendCount
    ensures t.SendTarget? ==> t.send <= index
  {
    if index == 0 then Volume
    else if index == 1 then Pan
    else if cfg.push2 then
      if index == 2 then Crossfader
      else if index == 3 then Unused
      else SendTarget(index - (if cfg.sendsToggled then 0 else 4))
    else if index == 2 then
      if cfg.displayCrossfader then Crossfader else SendTarget(0)
    else SendTarget(index - (if cfg.displayCrossfader then 3 else 2))
  }

  /** On Push 2 knob 4 + j addresses send j, or send 4 + j when the sends are toggled. */
  function Push2SendOffset(sendsToggled: bool): nat {
    if sendsToggled then 4 else 0
  }

  /** The first display column (and knob) that shows a send on Push 1. */
  function SendStart(displayCrossfader: bool): nat {
    if displayCrossfader then 3 else 2
  }

  /** How many sends Push 1 shows: the columns from SendStart to the last one. */
  function SendColumns(displayCrossfader: bool): (n: nat)
    ensures SendStart(displayCrossfader) + n == KnobCount
  {
    if displayCrossfader then 5 else 6
  }

  /** Knobs 0 and 1 are volume and pan, whatever the model and settings. */
  lemma MixerKnobs(cfg: Config)
    ensures KnobTarget(0, cfg) == Volume && KnobTarget(1, cfg) == Pan
  {
  }

  /** Push 2: knob 4 + j turns send j untoggled and send 4 + j toggled. */
  lemma Push2SendKnobs(cfg: Config, j: nat)
    requires cfg.push2 && j < 4
    ensures KnobTarget(4 + j, cfg) == SendTarget(Push2SendOffset(cfg.sendsToggled) + j)
  {
  }

  /** Push 1: the knob under display column SendStart + i turns send i. */
  lemma Push1SendKnobs(cfg: Config, i: nat)
    requires !cfg.push2 && i < SendColumns(cfg.displayCrossfader)
    ensures KnobTarget(SendStart(cfg.displayCrossfader) + i, cfg) == SendTarget(i)
  {
  }

  /** No two knobs address the same parameter. */
  lemma KnobTargetInjective(i: nat, j: nat, cfg: Config)
    requires i < KnobCount && j < KnobCount && i != j
    ensures KnobTarget(i, cfg) != KnobTarget(j, cfg)
  {
  }

  /** Every send of the first six (Push 1) or of the bank's two halves (Push 2) has its knob. */
  lemma SendsReachable(cfg: Config, k: nat)
    requires cfg.push2 ==> Push2SendOffset(cfg.sendsToggled) <= k < Push2SendOffset(cfg.sendsToggled) + 4
    requires !cfg.push2 ==> k < SendColumns(cfg.displayCrossfader)
    ensures exists i :: 0 <= i < KnobCount && KnobTarget(i, cfg) == SendTarget(k)
  {
    if cfg.push2 {
      var j := k - Push2SendOffset(cfg.sendsToggled);
      Push2SendKnobs(cfg, j);
      assert KnobTarget(4 + j, cfg) == SendTarget(k);
    } else {
      Push1SendKnobs(cfg, k);
      assert KnobTarget(SendStart(cfg.displayCrossfader) + k, cfg) == SendTarget(k);
    }
  }

  // ---------------------------------------------------------------------
  // Host calls

  /** A call the track mode makes on the selected track, the surface or the display. */
  datatype Effect =
    | ChangeVolume(delta: int)
    | ChangePan(delta: int)
    | ChangeCrossfadeMode(delta: int)
    | ChangeSend(send: nat, delta: int)
    | ResetVolume
    | ResetPan
    | SetCrossfadeMode(mode: string)
    | ResetSend(send: nat)
    | ConsumeDelete
    | Notify(text: string)
    | TouchVolume(touched: bool)
    | TouchPan(touched: bool)
    | TouchSend(send: nat, touched: bool)
    | StopAutomationOnRelease(touched: bool)

  /** The touch-related calls: they are made only when delete is not held. */
  predicate IsTouchCall(e: Effect) {
    e.Notify? || e.TouchVolume? || e.TouchPan? || e.TouchSend? || e.StopAutomationOnRelease?
  }

  /** A turn by `delta`: the crossfader moves only when the knob slow-down lets the movement through. */
  function TurnEffects(t: Target, delta: int, movementAccepted: bool): (r: seq<Effect>)
    ensures |r| <= 1
    ensures r == [] <==> t.Unused? || (t.Crossfader? && !movementAccepted)
    ensures t.SendTarget? ==> r == [ChangeSend(t.send, delta)]
  {
    match t
    case Volume => [ChangeVolume(delta)]
    case Pan => [ChangePan(delta)]
    case Crossfader => if movementAccepted then [ChangeCrossfadeMode(delta)] else []
    case Unused => []
    case SendTarget(k) => [ChangeSend(k, delta)]
  }

  /** Touch with delete held: the parameter goes back to its default, the crossfader to "AB". */
  function ResetEffects(t: Target): (r: seq<Effect>)
    ensures |r| <= 1
    ensures r == [] <==> t.Unused?
    ensures t.SendTarget? ==> r == [ResetSend(t.send)]
    ensures forall e :: e in r ==> !IsTouchCall(e)
  {
    match t
    case Volume => [ResetVolume]
    case Pan => [ResetPan]
    case Crossfader => [SetCrossfadeMode("AB")]
    case Unused => []
    case SendTarget(k) => [ResetSend(k)]
  }

  /** Touch state forwarded to the host parameter; the crossfader takes none. */
  function TouchForward(t: Target, touched: bool): (r: seq<Effect>)
    ensures |r| <= 1
    ensures r == [] <==> t.Crossfader? || t.Unused?
    ensures t.SendTarget? ==> r == [TouchSend(t.send, touched)]
  {
    match t
    case Volume => [TouchVolume(touched)]
    case Pan => [TouchPan(touched)]
    case Crossfader => []
    case Unused => []
    case SendTarget(k) => [TouchSend(k, touched)]
  }

  /** What the host reports about one send of the selected track. */
  datatype SendInfo = SendInfo(doesExist: bool, name: string, displayedValue: string, value: int, modulatedValue: int)

  /** What the host reports about a track (volume and pan texts are its 8-character strings). */
  datatype TrackInfo = TrackInfo(
    doesExist: bool, name: string, selected: bool,
    volume: int, modulatedVolume: int, volumeText: string,
    pan: int, modulatedPan: int, panText: string, vu: int,
    mute: bool, solo: bool, recArm: bool,
    crossfadeMode: string, crossfadeModeNumber: int,
    sends: seq<SendInfo>)

  /** The host's banks are full: the track has its eight sends, the effect bank (when active) its eight tracks. */
  predicate HostFits(t: TrackInfo, fx: Option<seq<string>>) {
    |t.sends| >= SendCount && (fx.Some? ==> |fx.value| >= SendCount)
  }

  /** A send's name: the effect track's name when the effect bank exists, the send's own otherwise. */
  function SendName(t: TrackInfo, fx: Option<seq<string>>, k: nat): (name: string)
    requires HostFits(t, fx) && k < SendCount
    ensures fx.None? ==> name == t.sends[k].name
    ensures fx.Some? ==> name == fx.value[k]
  {
    if fx.None? then t.sends[k].name else fx.value[k]
  }

  /** The notification a touch shows; a send with an empty name shows none. */
  function NotifyEffects(t: Target, track: TrackInfo, fx: Option<seq<string>>): (r: seq<Effect>)
    requires t.SendTarget? ==> t.send < SendCount
    requires HostFits(track, fx)
    ensures |r| <= 1 && (forall e :: e in r ==> e.Notify?)
    ensures t.Unused? ==> r == []
    ensures t.SendTarget? ==> (r == [] <==> SendName(track, fx, t.send) == "")
  {
    match t
    case Volume => [Notify("Volume: " + track.volumeText)]
    case Pan => [Notify("Pan: " + track.panText)]
    case Crossfader => [Notify("Crossfader: " + track.crossfadeMode)]
    case Unused => []
    case SendTarget(k) =>
      var name := SendName(track, fx, k);
      if |name| > 0 then [Notify("Send " + name + ": " + track.sends[k].displayedValue)] else []
  }

  /**
   * onValueKnobTouch for a selected track: touch-down with delete held marks
   * delete as consumed and resets the parameter, and nothing else; otherwise
   * a touch-down notifies, and every touch change is forwarded and ends with
   * the automation check.
   */
  function TouchEffects(t: Target, touched: bool, deletePressed: bool, track: TrackInfo, fx: Option<seq<string>>): (r: seq<Effect>)
    requires t.SendTarget? ==> t.send < SendCount
    requires HostFits(track, fx)
    ensures touched && deletePressed ==> |r| >= 1 && r[0] == ConsumeDelete && forall e :: e in r ==> !IsTouchCall(e)
    ensures !(touched && deletePressed) ==> |r| >= 1 && r[|r| - 1] == StopAutomationOnRelease(touched)
    ensures !(touched && deletePressed) ==> ConsumeDelete !in r
  {
    if touched && deletePressed then [ConsumeDelete] + ResetEffects(t)
    else (if touched then NotifyEffects(t, track, fx) else []) + TouchForward(t, touched) + [StopAutomationOnRelease(touched)]
  }

  /** A release never resets and never notifies: it forwards the release and runs the automation check. */
  lemma ReleaseForwards(t: Target, deletePressed: bool, track: TrackInfo, fx: Option<seq<string>>)
    requires t.SendTarget? ==> t.send < SendCount
    requires HostFits(track, fx)
    ensures TouchEffects(t, false, deletePressed, track, fx) == TouchForward(t, false) + [StopAutomationOnRelease(false)]
  {
  }

  /** A reset, a touch and a turn of the same knob all address the send the knob turns. */
  lemma TouchFollowsTurn(index: nat, cfg: Config, touched: bool, deletePressed: bool, track: TrackInfo,
                         fx: Option<seq<string>>, delta: int, k: nat)
    requires index < KnobCount && HostFits(track, fx)
    requires TurnEffects(KnobTarget(index, cfg), delta, true) == [ChangeSend(k, delta)]
    ensures touched && deletePressed ==> TouchEffects(KnobTarget(index, cfg), touched, deletePressed, track, fx) == [ConsumeDelete, ResetSend(k)]
    ensures !(touched && deletePressed) ==> TouchSend(k, touched) in TouchEffects(KnobTarget(index, cfg), touched, deletePressed, track, fx)
  {
    var t := KnobTarget(index, cfg);
    assert t == SendTarget(k);
    var r := TouchEffects(t, touched, deletePressed, track, fx);
    if !(touched && deletePressed) {
      var front := if touched then NotifyEffects(t, track, fx) else [];
      assert r == front + [TouchSend(k, touched)] + [StopAutomationOnRelease(touched)];
      assert r[|front|] == TouchSend(k, touched);
    }
  }

  // ---------------------------------------------------------------------
  // The Push 2 reset and touch, as written

  /**
   * The target Push 2's delete-reset, touch notification and touch
   * forwarding use as written: send index - 4, whatever the sends toggle.
   */
  function Push2TouchTargetAsWritten(index: nat): (t: Target)
    ensures t.SendTarget? ==> index >= 4 && t.send == index - 4
  {
    if index == 0 then Volume
    else if index == 1 then Pan
    else if index == 2 then Crossfader
    else if index == 3 then Unused
    else SendTarget(index - 4)
  }

  /** As written, the Push 2 touch target agrees with the turn target exactly when the sends are not toggled. */
  lemma Push2TouchAsWrittenAgreement(index: nat, cfg: Config)
    requires cfg.push2 && 4 <= index < KnobCount
    ensures Push2TouchTargetAsWritten(index) == KnobTarget(index, cfg) <==> !cfg.sendsToggled
  {
  }

  /**
   * With the sends toggled, touching knob 4 on Push 2 with delete held resets
   * send 0, while turning the same knob changes send 4.
   */
  lemma Push2ResetHitsWrongSend(track: TrackInfo, fx: Option<seq<string>>)
    requires HostFits(track, fx)
    ensures var cfg := Config(true, true, false, false);
      TurnEffects(KnobTarget(4, cfg), 1, true) == [ChangeSend(4, 1)]
      && TouchEffects(Push2TouchTargetAsWritten(4), true, true, track, fx) == [ConsumeDelete, ResetSend(0)]
  {
  }
}
