/**
 * The Push track mode: the knobs edit the selected track's volume, pan,
 * crossfader and sends, a touch resets, notifies and forwards the touch, and
 * the two displays show the track (Push 1 text display) or the track bank
 * with a sends panel next to the selected track (Push 2 graphics display).
 */
module TrackMode {
  import opened Options
  import opened Decimal
  import opened KnobTargets

  // ---------------------------------------------------------------------
  // Push 1 text display

  /** A display bar: none, a value bar, or a bar centred like a pan knob. */
  datatype Bar = NoBar | ValueBar(level: int) | PanBar(level: int)

  /** One column of the first three display rows: a caption, a text, a bar. */
  datatype Cell = Cell(caption: string, text: string, bar: Bar)

  /** The text display: the prompt on row 1 when no track is selected, eight columns otherwise. */
  datatype Screen = Prompt(text: string) | Columns(cells: seq<Cell>)

  const PromptText := "                     Please selecta track...                        "
  const EmptyCell := Cell("", "", NoBar)

  /** Column 0: the volume text and either the VU level or the volume. */
  function VolumeCell(t: TrackInfo, cfg: Config): (c: Cell)
    ensures c.caption == "Volume" && c.text == t.volumeText && c.bar.ValueBar?
    ensures c.bar.level == (if cfg.vuMeters then t.vu else t.volume)
  {
    Cell("Volume", t.volumeText, ValueBar(if cfg.vuMeters then t.vu else t.volume))
  }

  /** Column 1: the pan text and a centred pan bar. */
  function PanCell(t: TrackInfo): (c: Cell)
    ensures c.caption == "Pan" && c.text == t.panText && c.bar == PanBar(t.pan)
  {
    Cell("Pan", t.panText, PanBar(t.pan))
  }

  /**
   * Column 2 when the crossfader is displayed: "A" sits left with the bar at
   * 0, "B" right with the bar at the upper bound, anything else centred.
   */
  function CrossfaderCell(mode: string, upperBound: int): (c: Cell)
    ensures c.caption == "Crossfdr" && c.bar.PanBar?
    ensures 0 <= upperBound ==> 0 <= c.bar.level <= upperBound
    ensures c.bar.level == 0 <==> mode == "A" || (mode != "B" && -1 <= upperBound <= 1) || (mode == "B" && upperBound == 0)
  {
    if mode == "A" then Cell("Crossfdr", "A", PanBar(0))
    else if mode == "B" then Cell("Crossfdr", "       B", PanBar(upperBound))
    else Cell("Crossfdr", "   <> ", PanBar(TruncDiv(upperBound, 2)))
  }

  /** Send column i: filled from send i when the track's own sends are shown and that send exists. */
  function SendCell(t: TrackInfo, i: nat, fxActive: bool): (c: Cell)
    ensures c != EmptyCell ==> !fxActive && i < |t.sends| && t.sends[i].doesExist
    ensures c != EmptyCell ==> c == Cell(t.sends[i].name, t.sends[i].displayedValue, ValueBar(t.sends[i].value))
    ensures !fxActive && i < |t.sends| && t.sends[i].doesExist ==> c.bar.ValueBar?
  {
    if !fxActive && i < |t.sends| && t.sends[i].doesExist
    then Cell(t.sends[i].name, t.sends[i].displayedValue, ValueBar(t.sends[i].value))
    else EmptyCell
  }

  // ---------------------------------------------------------------------
  // Push 2 graphics display

  /** The menu above a column and the track name below it. */
  datatype Header = Header(topMenu: string, topMenuSelected: bool, bottomMenu: string, bottomMenuOn: bool)

  /** One of the four sends of the sends panel. */
  datatype SendSlot = SendSlot(name: string, valueText: string, value: int, modulatedValue: int, selected: bool)

  /** A column of the graphics display. */
  datatype Element =
    | ChannelElement(header: Header, volume: int, modulatedVolume: int, volumeText: string,
                     pan: int, modulatedPan: int, panText: string, vu: int,
                     mute: bool, solo: bool, recArm: bool, crossfadeMode: int)
    | SendsElement(header: Header, slots: seq<SendSlot>)
    | SelectorElement(header: Header)

  /** The bank's selected track, or -1 when none is selected. */
  function SelectedIndex(tracks: seq<TrackInfo>): (r: int)
    ensures -1 <= r < |tracks|
    ensures r == -1 <==> forall i :: 0 <= i < |tracks| ==> !tracks[i].selected
    ensures r >= 0 ==> tracks[r].selected && forall i :: 0 <= i < r ==> !tracks[i].selected
    decreases |tracks|
  {
    if tracks == [] then -1
    else if tracks[0].selected then 0
    else
      var r := SelectedIndex(tracks[1..]);
      assert forall i :: 1 <= i < |tracks| ==> tracks[1..][i - 1] == tracks[i];
      if r == -1 then -1 else r + 1
  }

  /**
   * Where the sends panel goes: right of the selected track, or at column 6
   * when the selected track is the last; nowhere without a selected track or
   * while the effect track bank is shown.
   */
  function SendsIndex(selectedIndex: int, fxActive: bool): (r: int)
    requires -1 <= selectedIndex < KnobCount
    ensures r == -1 <==> selectedIndex == -1 || fxActive
    ensures r != -1 ==> 0 <= r < KnobCount && r != selectedIndex
    ensures r != -1 ==> r == selectedIndex + 1 || (selectedIndex == KnobCount - 1 && r == KnobCount - 2)
  {
    var s := if selectedIndex == -1 || fxActive then -1 else selectedIndex + 1;
    if s == 8 then 6 else s
  }

  /** The header of column i: the track's name only when it exists; lit when it is selected. */
  function HeaderOf(t: TrackInfo, menu: (string, bool)): (h: Header)
    ensures h.bottomMenu != "" ==> t.doesExist
    ensures h.bottomMenuOn <==> t.selected
  {
    Header(menu.0, menu.1, if t.doesExist then t.name else "", t.selected)
  }

  /**
   * The selected track's column: volume and pan with their texts only while
   * their knob is touched, the VU level only with VU meters on, and the
   * crossfade mode number only when the crossfader is displayed (-1 otherwise).
   */
  function ChannelOf(h: Header, t: TrackInfo, cfg: Config, touched: seq<bool>): (e: Element)
    requires |touched| == KnobCount
    ensures e.ChannelElement? && e.header == h
    ensures e.volumeText == (if touched[0] then t.volumeText else "")
    ensures e.panText == (if touched[1] then t.panText else "")
    ensures e.vu == (if cfg.vuMeters then t.vu else 0)
    ensures e.crossfadeMode == (if cfg.displayCrossfader then t.crossfadeModeNumber else -1)
    ensures e.volume == t.volume && e.pan == t.pan && e.mute == t.mute && e.solo == t.solo && e.recArm == t.recArm
    ensures e.modulatedVolume == t.modulatedVolume && e.modulatedPan == t.modulatedPan
  {
    ChannelElement(h, t.volume, t.modulatedVolume, if touched[0] then t.volumeText else "",
                   t.pan, t.modulatedPan, if touched[1] then t.panText else "",
                   if cfg.vuMeters then t.vu else 0, t.mute, t.solo, t.recArm,
                   if cfg.displayCrossfader then t.crossfadeModeNumber else -1)
  }

  /**
   * Slot j of the sends panel shows send Push2SendOffset + j of the selected
   * track: the effect track's name when the effect bank exists, the value
   * text only while knob 4 + j is touched, zeros for a send that does not
   * exist, and a blank slot when the track has no such send.
   */
  function SendSlotAt(sel: TrackInfo, cfg: Config, fx: Option<seq<string>>, touched: seq<bool>, j: nat): (s: SendSlot)
    requires j < 4 && |touched| == KnobCount
    requires fx.Some? ==> |fx.value| >= SendCount
    ensures s.selected
    ensures var k := Push2SendOffset(cfg.sendsToggled) + j;
      s.valueText != "" ==> k < |sel.sends| && sel.sends[k].doesExist && touched[4 + j] && s.valueText == sel.sends[k].displayedValue
    ensures var k := Push2SendOffset(cfg.sendsToggled) + j;
      k < |sel.sends| ==> s.name == (if fx.None? then sel.sends[k].name else fx.value[k])
    ensures var k := Push2SendOffset(cfg.sendsToggled) + j;
      k < |sel.sends| && sel.sends[k].doesExist ==> s.value == sel.sends[k].value && s.modulatedValue == sel.sends[k].modulatedValue
    ensures var k := Push2SendOffset(cfg.sendsToggled) + j;
      k < |sel.sends| && sel.sends[k].doesExist && touched[4 + j] ==> s.valueText == sel.sends[k].displayedValue
    ensures var k := Push2SendOffset(cfg.sendsToggled) + j;
      !(k < |sel.sends| && sel.sends[k].doesExist) ==> s.value == 0 && s.modulatedValue == 0 && s.valueText == ""
  {
    var k := Push2SendOffset(cfg.sendsToggled) + j;
    if k >= |sel.sends| then SendSlot("", "", 0, 0, true)
    else
      var send := sel.sends[k];
      SendSlot(if fx.None? then send.name else fx.value[k],
               if send.doesExist && touched[4 + j] then send.displayedValue else "",
               if send.doesExist then send.value else 0,
               if send.doesExist then send.modulatedValue else 0,
               true)
  }

  /** The sends panel's four slots. */
  function SendSlotsOf(sel: TrackInfo, cfg: Config, fx: Option<seq<string>>, touched: seq<bool>): (r: seq<SendSlot>)
    requires |touched| == KnobCount
    requires fx.Some? ==> |fx.value| >= SendCount
    ensures |r| == 4
  {
    seq(4, j requires 0 <= j < 4 => SendSlotAt(sel, cfg, fx, touched, j))
  }

  /** Column i of the graphics display. */
  function ElementAt(tracks: seq<TrackInfo>, menu: seq<(string, bool)>, cfg: Config, fxActive: bool,
                     fx: Option<seq<string>>, touched: seq<bool>, i: nat): (e: Element)
    requires |tracks| == KnobCount && |menu| >= KnobCount && |touched| == KnobCount && i < KnobCount
    requires fx.Some? ==> |fx.value| >= SendCount
    ensures e.header == HeaderOf(tracks[i], menu[i])
    ensures e.ChannelElement? <==> tracks[i].selected
    ensures e.SendsElement? ==> i == SendsIndex(SelectedIndex(tracks), fxActive) && |e.slots| == 4
  {
    var h := HeaderOf(tracks[i], menu[i]);
    var selected := SelectedIndex(tracks);
    if tracks[i].selected then ChannelOf(h, tracks[i], cfg, touched)
    else if SendsIndex(selected, fxActive) == i then
      SendsElement(h, SendSlotsOf(tracks[selected], cfg, fx, touched))
    else SelectorElement(h)
  }

  // ---------------------------------------------------------------------
  // The mode

  /**
   * The mode's state: which knobs are touched, and the host calls made so far.
   * The surface configuration is read afresh on every call, as the sends
   * toggle may change between calls.
   */
  class TrackModeState {
    const isKnobTouched: array<bool>
    var effects: seq<Effect>

    predicate Valid()
      reads this
    {
      isKnobTouched.Length == KnobCount
    }

    constructor ()
      ensures Valid() && effects == [] && fresh(isKnobTouched)
      ensures forall i :: 0 <= i < KnobCount ==> !isKnobTouched[i]
    {
      isKnobTouched := new bool[KnobCount](_ => false);
      effects := [];
    }

    method Emit(e: Effect)
      modifies this
      ensures effects == old(effects) + [e]
    {
      effects := effects + [e];
    }

    /**
     * A turn of knob `index` by `value`: nothing without a selected track,
     * otherwise the change of the parameter the knob addresses.
     */
    method OnValueKnob(config: Config, index: nat, value: int, sel: Option<TrackInfo>, movementAccepted: bool)
      requires index < KnobCount
      modifies this
      ensures effects == old(effects) + (if sel.None? then [] else TurnEffects(KnobTarget(index, config), value, movementAccepted))
    {
      if sel.None? {
        return;
      }
      if index == 0 {
        Emit(ChangeVolume(value));
        return;
      }
      if index == 1 {
        Emit(ChangePan(value));
        return;
      }
      if config.push2 {
        if index == 2 {
          ChangeCrossfader(value, movementAccepted);
        } else if index == 3 {
        } else {
          var sendOffset := if config.sendsToggled then 0 else 4;
          Emit(ChangeSend(index - sendOffset, value));
        }
        return;
      }
      if index == 2 {
        if config.displayCrossfader {
          ChangeCrossfader(value, movementAccepted);
        } else {
          Emit(ChangeSend(0, value));
        }
      } else {
        Emit(ChangeSend(index - (if config.displayCrossfader then 3 else 2), value));
      }
    }

    /** The crossfader moves only when the knob slow-down lets the movement through. */
    method ChangeCrossfader(value: int, movementAccepted: bool)
      modifies this
      ensures effects == old(effects) + TurnEffects(Crossfader, value, movementAccepted)
    {
      if movementAccepted {
        Emit(ChangeCrossfadeMode(value));
      }
    }

    /**
     * A touch of knob `index`: without a selected track nothing happens;
     * otherwise the touch is recorded and the calls of TouchEffects are made
     * for the parameter the knob turns.
     */
    method OnValueKnobTouch(config: Config, index: nat, isTouched: bool, sel: Option<TrackInfo>, deletePressed: bool, fx: Option<seq<string>>)
      requires Valid() && index < KnobCount
      requires sel.Some? ==> HostFits(sel.value, fx)
      modifies this, isKnobTouched
      ensures sel.None? ==> effects == old(effects) && isKnobTouched[..] == old(isKnobTouched[..])
      ensures sel.Some? ==> isKnobTouched[..] == old(isKnobTouched[..])[index := isTouched]
      ensures sel.Some? ==> effects == old(effects) + TouchEffects(KnobTarget(index, config), isTouched, deletePressed, sel.value, fx)
    {
      if sel.None? {
        return;
      }
      isKnobTouched[index] := isTouched;
      var target := KnobTarget(index, config);
      if isTouched {
        if deletePressed {
          Emit(ConsumeDelete);
          ResetParameter(target);
          return;
        }
        NotifyParameter(target, sel.value, fx);
      }
      ForwardTouch(target, isTouched);
      Emit(StopAutomationOnRelease(isTouched));
    }

    /** Delete held on touch-down: the touched parameter goes back to its default. */
    method ResetParameter(target: Target)
      modifies this
      ensures effects == old(effects) + ResetEffects(target)
    {
      match target {
        case Volume => Emit(ResetVolume);
        case Pan => Emit(ResetPan);
        case Crossfader => Emit(SetCrossfadeMode("AB"));
        case Unused =>
        case SendTarget(k) => Emit(ResetSend(k));
      }
    }

    /** Touch-down: the display notifies the touched parameter's value. */
    method NotifyParameter(target: Target, track: TrackInfo, fx: Option<seq<string>>)
      requires target.SendTarget? ==> target.send < SendCount
      requires HostFits(track, fx)
      modifies this
      ensures effects == old(effects) + NotifyEffects(target, track, fx)
    {
      match target {
        case Volume => Emit(Notify("Volume: " + track.volumeText));
        case Pan => Emit(Notify("Pan: " + track.panText));
        case Crossfader => Emit(Notify("Crossfader: " + track.crossfadeMode));
        case Unused =>
        case SendTarget(k) =>
          var name := if fx.None? then track.sends[k].name else fx.value[k];
          if |name| > 0 {
            Emit(Notify("Send " + name + ": " + track.sends[k].displayedValue));
          }
      }
    }

    /** Every touch change goes on to the touched host parameter. */
    method ForwardTouch(target: Target, isTouched: bool)
      modifies this
      ensures effects == old(effects) + TouchForward(target, isTouched)
    {
      match target {
        case Volume => Emit(TouchVolume(isTouched));
        case Pan => Emit(TouchPan(isTouched));
        case Crossfader =>
        case Unused =>
        case SendTarget(k) => Emit(TouchSend(k, isTouched));
      }
    }

    /**
     * The Push 1 text display: the prompt without a selected track;
     * otherwise volume, pan, the crossfader when displayed, then one column
     * per send from SendStart to the last column.
     */
    method UpdateDisplay1(config: Config, sel: Option<TrackInfo>, upperBound: int, fxActive: bool) returns (screen: Screen)
      ensures sel.None? <==> screen == Prompt(PromptText)
      ensures sel.Some? ==> screen.Columns? && |screen.cells| == KnobCount
      ensures sel.Some? ==> screen.cells[0] == VolumeCell(sel.value, config) && screen.cells[1] == PanCell(sel.value)
      ensures sel.Some? && config.displayCrossfader ==> screen.cells[2] == CrossfaderCell(sel.value.crossfadeMode, upperBound)
      ensures sel.Some? ==> forall i :: 0 <= i < SendColumns(config.displayCrossfader) ==>
        screen.cells[SendStart(config.displayCrossfader) + i] == SendCell(sel.value, i, fxActive)
    {
      if sel.None? {
        return Prompt(PromptText);
      }
      var t := sel.value;
      var cells := [VolumeCell(t, config), PanCell(t)];
      var sendStart := 2;
      var sendCount := 6;
      if config.displayCrossfader {
        sendStart := 3;
        sendCount := 5;
        cells := cells + [CrossfaderCell(t.crossfadeMode, upperBound)];
      }
      assert sendStart == SendStart(config.displayCrossfader) && sendCount == SendColumns(config.displayCrossfader);
      for i := 0 to sendCount
        invariant |cells| == sendStart + i
        invariant cells[0] == VolumeCell(t, config) && cells[1] == PanCell(t)
        invariant config.displayCrossfader ==> cells[2] == CrossfaderCell(t.crossfadeMode, upperBound)
        invariant forall k :: 0 <= k < i ==> cells[sendStart + k] == SendCell(t, k, fxActive)
      {
        cells := cells + [SendCell(t, i, fxActive)];
      }
      screen := Columns(cells);
    }

    /** The four slots of the sends panel for the selected track. */
    method SendSlots(config: Config, sel: TrackInfo, fx: Option<seq<string>>) returns (slots: seq<SendSlot>)
      requires Valid() && (fx.Some? ==> |fx.value| >= SendCount)
      ensures |slots| == 4
      ensures forall j :: 0 <= j < 4 ==> slots[j] == SendSlotAt(sel, config, fx, isKnobTouched[..], j)
    {
      slots := [];
      for j := 0 to 4
        invariant |slots| == j
        invariant forall k :: 0 <= k < j ==> slots[k] == SendSlotAt(sel, config, fx, isKnobTouched[..], k)
      {
        var sendOffset := if config.sendsToggled then 4 else 0;
        var sendPos := sendOffset + j;
        var slot := SendSlot("", "", 0, 0, true);
        if sendPos < |sel.sends| {
          var send := sel.sends[sendPos];
          slot := SendSlot(if fx.None? then send.name else fx.value[sendPos],
                           if send.doesExist && isKnobTouched[4 + j] then send.displayedValue else "",
                           if send.doesExist then send.value else 0,
                           if send.doesExist then send.modulatedValue else 0,
                           true);
        }
        slots := slots + [slot];
      }
    }

    /**
     * The Push 2 graphics display: the selected track's column shows the
     * channel, the column SendsIndex shows the sends panel, every other
     * column a track selector.
     */
    method UpdateDisplay2(config: Config, tracks: seq<TrackInfo>, menu: seq<(string, bool)>, fxActive: bool, fx: Option<seq<string>>)
      returns (elements: seq<Element>)
      requires Valid() && |tracks| == KnobCount && |menu| >= KnobCount
      requires fx.Some? ==> |fx.value| >= SendCount
      ensures |elements| == KnobCount
      ensures forall i :: 0 <= i < KnobCount ==> elements[i] == ElementAt(tracks, menu, config, fxActive, fx, isKnobTouched[..], i)
    {
      var selectedIndex := SelectedIndex(tracks);
      var sendsIndex := if selectedIndex == -1 || fxActive then -1 else selectedIndex + 1;
      if sendsIndex == 8 {
        sendsIndex := 6;
      }
      assert sendsIndex == SendsIndex(selectedIndex, fxActive);
      elements := [];
      for i := 0 to KnobCount
        invariant |elements| == i
        invariant forall k :: 0 <= k < i ==> elements[k] == ElementAt(tracks, menu, config, fxActive, fx, isKnobTouched[..], k)
      {
        var e := ElementFor(config, tracks, menu, fxActive, fx, i, selectedIndex, sendsIndex);
        elements := elements + [e];
      }
    }

    /** Column i of the graphics display, given the selected track and the sends panel's column. */
    method ElementFor(config: Config, tracks: seq<TrackInfo>, menu: seq<(string, bool)>, fxActive: bool, fx: Option<seq<string>>,
                      i: nat, selectedIndex: int, sendsIndex: int) returns (e: Element)
      requires Valid() && |tracks| == KnobCount && |menu| >= KnobCount && i < KnobCount
      requires fx.Some? ==> |fx.value| >= SendCount
      requires selectedIndex == SelectedIndex(tracks) && sendsIndex == SendsIndex(selectedIndex, fxActive)
      ensures e == ElementAt(tracks, menu, config, fxActive, fx, isKnobTouched[..], i)
    {
      var touched := isKnobTouched[..];
      var t := tracks[i];
      var h := HeaderOf(t, menu[i]);
      if t.selected {
        e := ChannelOf(h, t, config, touched);
      } else if sendsIndex == i {
        var slots := SendSlots(config, tracks[selectedIndex], fx);
        assert slots == SendSlotsOf(tracks[selectedIndex], config, fx, touched);
        e := SendsElement(h, slots);
      } else {
        e := SelectorElement(h);
      }
    }
  }

  // ---------------------------------------------------------------------
  // What the displays and the knobs agree on

  /** Push 1: the column above knob SendStart + i shows send i, the send that knob turns. */
  lemma Display1ShowsKnobSend(t: TrackInfo, cfg: Config, fxActive: bool, i: nat)
    requires !cfg.push2 && i < SendColumns(cfg.displayCrossfader)
    requires !fxActive && i < |t.sends| && t.sends[i].doesExist
    ensures KnobTarget(SendStart(cfg.displayCrossfader) + i, cfg) == SendTarget(i)
    ensures SendCell(t, i, fxActive).caption == t.sends[i].name
  {
    Push1SendKnobs(cfg, i);
  }

  /**
   * Push 2: sends-panel slot j shows the send knob 4 + j turns: its name (the
   * one a touch of that knob notifies), its value and modulated value, and
   * its value text exactly while that knob is touched.
   */
  lemma Display2ShowsKnobSend(sel: TrackInfo, cfg: Config, fx: Option<seq<string>>, touched: seq<bool>, j: nat)
    requires cfg.push2 && j < 4 && |touched| == KnobCount
    requires HostFits(sel, fx)
    ensures var k := Push2SendOffset(cfg.sendsToggled) + j;
      KnobTarget(4 + j, cfg) == SendTarget(k)
      && SendSlotAt(sel, cfg, fx, touched, j).name == SendName(sel, fx, k)
    ensures var k := Push2SendOffset(cfg.sendsToggled) + j;
      var s := SendSlotAt(sel, cfg, fx, touched, j);
      sel.sends[k].doesExist ==> s.value == sel.sends[k].value && s.modulatedValue == sel.sends[k].modulatedValue
    ensures var k := Push2SendOffset(cfg.sendsToggled) + j;
      sel.sends[k].doesExist ==> (SendSlotAt(sel, cfg, fx, touched, j).valueText == sel.sends[k].displayedValue <== touched[4 + j])
    ensures SendSlotAt(sel, cfg, fx, touched, j).valueText != "" ==> touched[4 + j]
  {
    Push2SendKnobs(cfg, j);
  }

  /** With one track selected and the track bank shown, exactly one column carries the sends panel, next to it. */
  lemma OneSendsPanel(tracks: seq<TrackInfo>, menu: seq<(string, bool)>, cfg: Config, fx: Option<seq<string>>,
                      touched: seq<bool>, s: nat)
    requires |tracks| == KnobCount && |menu| >= KnobCount && |touched| == KnobCount
    requires fx.Some? ==> |fx.value| >= SendCount
    requires s < KnobCount && forall i :: 0 <= i < KnobCount ==> (tracks[i].selected <==> i == s)
    ensures var p := if s == KnobCount - 1 then s - 1 else s + 1;
      ElementAt(tracks, menu, cfg, false, fx, touched, p).SendsElement?
      && forall i :: 0 <= i < KnobCount && i != p ==> !ElementAt(tracks, menu, cfg, false, fx, touched, i).SendsElement?
  {
    assert tracks[s].selected;
    assert SelectedIndex(tracks) == s;
  }

  /** While the effect track bank is shown there is no sends panel. */
  lemma NoSendsPanelOnEffectBank(tracks: seq<TrackInfo>, menu: seq<(string, bool)>, cfg: Config, fx: Option<seq<string>>,
                                 touched: seq<bool>, i: nat)
    requires |tracks| == KnobCount && |menu| >= KnobCount && |touched| == KnobCount && i < KnobCount
    requires fx.Some? ==> |fx.value| >= SendCount
    ensures !ElementAt(tracks, menu, cfg, true, fx, touched, i).SendsElement?
  {
  }
}
