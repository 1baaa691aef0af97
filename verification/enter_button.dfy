/**
 * The Enter button of the Komplete Kontrol mk II: on a press it does nothing
 * in the parameter mode, starts the browser in the browser mode, and
 * otherwise toggles solo on the current bank's selected track.
 */
module EnterButton {
  import opened Options

  datatype ButtonEvent = Down | Up | LongPress

  /** The active mode of the surface; only the parameter and browser modes matter here. */
  datatype Mode = Params | Browser | Other(name: string)

  /** What a button event does. */
  datatype Action = NoAction | StartBrowser | ToggleSolo(track: nat)

  /** The dispatch of `execute`: the event first, then the parameter mode, then the browser mode, then the selection. */
  function ActionOf(event: ButtonEvent, mode: Mode, selected: Option<nat>): (a: Action)
    ensures event != Down ==> a == NoAction
    ensures mode.Params? ==> a == NoAction
    ensures a == StartBrowser <==> event == Down && mode.Browser?
    ensures a.ToggleSolo? <==> event == Down && mode.Other? && selected.Some?
    ensures a.ToggleSolo? ==> selected == Some(a.track)
  {
    if event != Down then NoAction
    else if mode.Params? then NoAction
    else if mode.Browser? then StartBrowser
    else if selected.Some? then ToggleSolo(selected.value)
    else NoAction
  }

  /** The bank's solo flags after an action: only a toggle changes them, and only its track's flag. */
  function SoloAfter(solo: seq<bool>, a: Action): (r: seq<bool>)
    requires a.ToggleSolo? ==> a.track < |solo|
    ensures |r| == |solo|
    ensures forall j :: 0 <= j < |solo| && !(a.ToggleSolo? && j == a.track) ==> r[j] == solo[j]
    ensures a.ToggleSolo? ==> r[a.track] == !solo[a.track]
  {
    if a.ToggleSolo? then solo[a.track := !solo[a.track]] else solo
  }

  /** Pressing Enter twice in a row outside the parameter and browser modes leaves every solo flag as it was. */
  lemma PressTwiceRestores(solo: seq<bool>, mode: Mode, selected: Option<nat>)
    requires selected.Some? ==> selected.value < |solo|
    ensures var a := ActionOf(Down, mode, selected);
      SoloAfter(SoloAfter(solo, a), a) == solo
  {
    var a := ActionOf(Down, mode, selected);
    var once := SoloAfter(solo, a);
    var twice := SoloAfter(once, a);
    assert forall j :: 0 <= j < |solo| ==> twice[j] == solo[j];
  }

  /** Without a selected track, no event in any mode changes a solo flag. */
  lemma NoSelectionNoSolo(solo: seq<bool>, event: ButtonEvent, mode: Mode)
    ensures SoloAfter(solo, ActionOf(event, mode, None)) == solo
  {
  }

  /** The command and the host state it reaches: the current bank's solo flags and the browser starts requested. */
  class EnterButtonCommand {
    const trackSolo: array<bool>
    var browserStarts: seq<(bool, bool)>

    constructor (solo: array<bool>)
      ensures trackSolo == solo && browserStarts == []
    {
      trackSolo := solo;
      browserStarts := [];
    }

    /**
     * A button event: non-press events and the parameter mode do nothing;
     * the browser mode starts the browser with both flags off; otherwise
     * the selected track's solo flips and no other track changes.
     */
    method Execute(event: ButtonEvent, mode: Mode, selected: Option<nat>)
      requires selected.Some? ==> selected.value < trackSolo.Length
      modifies this, trackSolo
      ensures trackSolo[..] == SoloAfter(old(trackSolo[..]), ActionOf(event, mode, selected))
      ensures browserStarts == old(browserStarts) + (if ActionOf(event, mode, selected) == StartBrowser then [(false, false)] else [])
    {
      if event != Down {
        return;
      }
      if mode.Params? {
        return;
      }
      if mode.Browser? {
        browserStarts := browserStarts + [(false, false)];
        return;
      }
      if selected.Some? {
        trackSolo[selected.value] := !trackSolo[selected.value];
      }
    }
  }
}
