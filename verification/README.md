# DrivenByMoss core, modelled in Dafny

DrivenByMoss connects the Bitwig host to hardware controllers. This model
covers three parts of it:

- **The OSC writer** publishes the host's state as OSC messages. Its `flush`
  visits the transport, the window frames, the project, the track bank with
  the master and the selected track, the scenes, the cursor device with its
  drum pads and layers, the primary device, the browser and the 127
  virtual-keyboard notes. Every value goes through `sendOSC`, which caches
  the last value sent per address. It passes a message on when `dump` is set
  or when the value changed.
- **The Push track mode** maps the eight knobs to the selected track's
  volume, pan, crossfader and sends. A touch resets the parameter when
  delete is held; otherwise it notifies the value and forwards the touch.
  The mode draws the Push 1 text display and the Push 2 graphics display,
  which shows a sends panel next to the selected track.
- **The Komplete Kontrol mk II Enter button** does nothing in the parameter
  mode, starts the browser in the browser mode, and otherwise toggles solo on
  the selected track.

Layout:

- `osc_values`, `osc_snapshot`: OSC values, and the host state one flush
  reads.
- `osc_address`: address construction (`"/track/" + (i + 1) + "/"`) and
  address uniqueness.
- `osc_gate`: the `sendOSC` change gate as a pure step function and its fold.
- `osc_flush`: the messages one flush offers, domain by domain, in order.
- `flush_addresses`, `flush_properties`, `device_pages`: what a flush
  guarantees.
- `osc_writer`: the writer class. Its methods loop over banks, slots, pages
  and notes, and each is proved to equal the fold over its messages.
- `knob_targets`, `track_mode`: the Push track mode.
- `enter_button`: the Kontrol Enter button.
- `decimal`, `options`: Java integer-to-string, truncating division, ASCII
  lower-casing, and an Option type.

Source paths below are relative to the repository root. `OSCWriter.java` is
`src/main/java/de/mossgrabers/controller/osc/protocol/OSCWriter.java`,
`TrackMode.java` is `src/main/java/de/mossgrabers/controller/push/mode/track/TrackMode.java`,
and `EnterButtonCommand.java` is
`src/main/java/de/mossgrabers/controller/kontrol/usb/mkii/command/trigger/EnterButtonCommand.java`.

## Model

| member | source | states |
|---|---|---|
| OscGate.Step | src/main/java/de/mossgrabers/controller/osc/protocol/OSCWriter.java:183 | one `sendOSC`: the address then caches the value, other addresses keep theirs, and the message is queued exactly when dump is set, the address is new, or the cached value differs |
| OscGate.Run | src/main/java/de/mossgrabers/controller/osc/protocol/OSCWriter.java:62-175 | a sequence of `sendOSC` calls only appends to the queue, at most one message per call, and caches every offered address |
| OscGate.RunAppend | src/main/java/de/mossgrabers/controller/osc/protocol/OSCWriter.java:62-175 | offering two message lists one after the other is offering their concatenation |
| OscGate.RunDump | src/main/java/de/mossgrabers/controller/osc/protocol/OSCWriter.java:183 | with dump, every offered message is queued, in order |
| OscGate.RunCachedQuiet | src/main/java/de/mossgrabers/controller/osc/protocol/OSCWriter.java:183 | offering values the cache already holds leaves the cache as it is, and without dump queues nothing |
| OscGate.RunCaches | src/main/java/de/mossgrabers/controller/osc/protocol/OSCWriter.java:183 | after a run over distinct addresses, the cache holds every offered value |
| OscGate.RunHolds | src/main/java/de/mossgrabers/controller/osc/protocol/OSCWriter.java:183 | after a run over distinct addresses, each offered address holds the offered value |
| OscGate.SecondRunQuiet | src/main/java/de/mossgrabers/controller/osc/protocol/OSCWriter.java:183 | offering the same distinct-address messages again without dump changes neither the queue nor the cache |
| OscGate.RunKeepsUntouched | src/main/java/de/mossgrabers/controller/osc/protocol/OSCWriter.java:183 | an address that no message of the run names keeps its cached value, or stays absent |
| OscGate.RunSendsChanged | src/main/java/de/mossgrabers/controller/osc/protocol/OSCWriter.java:183 | without dump, a distinct-address run queues exactly the messages whose value differs from the cache at the start, in order |
| OscAddress.IndexedUnique | src/main/java/de/mossgrabers/controller/osc/protocol/OSCWriter.java:130-131 | numbered groups `base<i+1>/...` whose own addresses are distinct give distinct addresses |
| OscAddress.IndexedMember | src/main/java/de/mossgrabers/controller/osc/protocol/OSCWriter.java:207-208 | field j of group i is published at `base<first+i>/` followed by its relative address |
| OscAddress.IndexedSingletons | src/main/java/de/mossgrabers/controller/osc/protocol/OSCWriter.java:405-409 | groups of one message give one message per group, the i-th at slot first + i |
| OscAddress.SlotPrefixFree | src/main/java/de/mossgrabers/controller/osc/protocol/OSCWriter.java:131 | an address can begin with only one numbered slot of a base, so `/track/1/` and `/track/12/` never collide |
| Decimal.NatToString | src/main/java/de/mossgrabers/controller/osc/protocol/OSCWriter.java:131 | Java's decimal text of a non-negative int: digits only, no leading zero |
| Decimal.ParseNatToString | src/main/java/de/mossgrabers/controller/osc/protocol/OSCWriter.java:131 | the decimal text reads back as the number |
| Decimal.NatToStringInjective | src/main/java/de/mossgrabers/controller/osc/protocol/OSCWriter.java:131 | different slot numbers give different texts |
| Decimal.IntToString | src/main/java/de/mossgrabers/controller/osc/protocol/OSCWriter.java:91 | a signed int's text starts with a digit exactly when it is non-negative |
| Decimal.TruncDiv | src/main/java/de/mossgrabers/controller/osc/protocol/OSCWriter.java:285 | Java's `/`: the quotient is rounded toward zero |
| Decimal.TruncRem | src/main/java/de/mossgrabers/controller/osc/protocol/OSCWriter.java:296 | Java's `%`: it satisfies a = q*b + r, and r takes the sign of a |
| Decimal.ToLower | src/main/java/de/mossgrabers/controller/osc/protocol/OSCWriter.java:189 | lower-casing keeps the length, maps A-Z to a-z and leaves every other character |
| OscFlush.CrossfadeFlags | src/main/java/de/mossgrabers/controller/osc/protocol/OSCWriter.java:230-233 | the three crossfade flags are never two at once, and one is set exactly when the mode is A, B or AB |
| OscFlush.SelectedOrEmpty | src/main/java/de/mossgrabers/controller/osc/protocol/OSCWriter.java:133-134 | without a selected track, the empty track, which does not exist, is published |
| OscFlush.PageWindow | src/main/java/de/mossgrabers/controller/osc/protocol/OSCWriter.java:284-285 | the selected page is clamped into the page list, and the window starts at the multiple of 8 at or below it |
| OscFlush.PageGroups | src/main/java/de/mossgrabers/controller/osc/protocol/OSCWriter.java:287-295 | eight page slots, each a name and a `selected` flag |
| OscFlush.SelectedPageNameAsWritten | src/main/java/de/mossgrabers/controller/osc/protocol/OSCWriter.java:296-297 | the name published as written: empty without pages, otherwise one of the page names |
| OscFlush.SelectedPageName | src/main/java/de/mossgrabers/controller/osc/protocol/OSCWriter.java:296-297 | corrected: the name of the clamped selected page (the first page below the list, the last above it), empty without pages |
| OscFlush.SiblingGroups | src/main/java/de/mossgrabers/controller/osc/protocol/OSCWriter.java:268-274 | one name and one flag per sibling device; the flag is set exactly at the device's position in the bank |
| OscFlush.LayerGroups | src/main/java/de/mossgrabers/controller/osc/protocol/OSCWriter.java:352-355 | a missing layer or drum pad contributes no message at all |
| FlushAddresses.TransportAddressesDistinct | src/main/java/de/mossgrabers/controller/osc/protocol/OSCWriter.java:72-92 | the 21 transport addresses are pairwise distinct |
| FlushAddresses.FrameAddressesApart | src/main/java/de/mossgrabers/controller/osc/protocol/OSCWriter.java:99-116 | the frame addresses are pairwise distinct and apart from every other domain |
| FlushAddresses.TrackGroupsUnique | src/main/java/de/mossgrabers/controller/osc/protocol/OSCWriter.java:185-236 | one track's fields, sends, clips, colour, crossfade flags and VU go to distinct addresses |
| FlushAddresses.FlushAddressesUnique | src/main/java/de/mossgrabers/controller/osc/protocol/OSCWriter.java:62-175 | no two messages of one flush share an address |
| FlushProperties.FlushDumpSendsAll | src/main/java/de/mossgrabers/controller/osc/protocol/OSCWriter.java:62-175 | a dump flush queues every message of the flush, in order |
| FlushProperties.FlushSendsChanged | src/main/java/de/mossgrabers/controller/osc/protocol/OSCWriter.java:62-175 | a plain flush queues exactly the messages whose value changed since the last send, in flush order |
| FlushProperties.FlushTwiceQuiet | src/main/java/de/mossgrabers/controller/osc/protocol/OSCWriter.java:62-175 | flushing an unchanged state a second time without dump queues nothing and changes nothing |
| FlushProperties.FlushCaches | src/main/java/de/mossgrabers/controller/osc/protocol/OSCWriter.java:62-175 | after a flush, the address of every message of the flush holds that message's value |
| FlushProperties.FlushPublishesTrackField | src/main/java/de/mossgrabers/controller/osc/protocol/OSCWriter.java:130-131 | every field of bank track i is published under `/track/<i+1>/` |
| FlushProperties.FlushShowsTrackName | src/main/java/de/mossgrabers/controller/osc/protocol/OSCWriter.java:193 | after a flush, `/track/<i+1>/name` holds bank track i's name |
| FlushProperties.TrackNameField | src/main/java/de/mossgrabers/controller/osc/protocol/OSCWriter.java:193 | a track's sixth field is its name |
| FlushProperties.FlushNoSelection | src/main/java/de/mossgrabers/controller/osc/protocol/OSCWriter.java:133-134 | without a selected track, `/track/selected/exists` holds false after a flush |
| FlushProperties.NoteSectionLayout | src/main/java/de/mossgrabers/controller/osc/protocol/OSCWriter.java:403-410 | 127 note messages, note i at `/vkb_midi/note/<i>/color` (no +1) with its computed colour |
| FlushProperties.NotesOffWhenDisabled | src/main/java/de/mossgrabers/controller/osc/protocol/OSCWriter.java:421-423 | when the selected track cannot hold notes, every key shows the "off" colour |
| FlushProperties.NoteColorsWhenEnabled | src/main/java/de/mossgrabers/controller/osc/protocol/OSCWriter.java:425-433 | a held key is red while recording and green otherwise; any other key shows its scale colour |
| FlushProperties.DrumPadsSilent | src/main/java/de/mossgrabers/controller/osc/protocol/OSCWriter.java:153-157 | the drum pad messages never land under a `/device/layer/` slot |
| FlushProperties.DeviceSectionSkipsLayer | src/main/java/de/mossgrabers/controller/osc/protocol/OSCWriter.java:151-160 | the device section publishes nothing under the slot of a missing layer |
| FlushProperties.GlobalsSilent | src/main/java/de/mossgrabers/controller/osc/protocol/OSCWriter.java:71-123 | transport, frames and project publish nothing under `/dev...` |
| FlushProperties.TracksSilent | src/main/java/de/mossgrabers/controller/osc/protocol/OSCWriter.java:129-135 | the track section publishes nothing under `/dev...` |
| FlushProperties.ScenesSilent | src/main/java/de/mossgrabers/controller/osc/protocol/OSCWriter.java:141-146 | the scene section publishes nothing under `/dev...` |
| FlushProperties.BackSectionsSilent | src/main/java/de/mossgrabers/controller/osc/protocol/OSCWriter.java:166-172 | the browser and note sections publish nothing under `/dev...` |
| FlushProperties.FlushSkipsMissingLayer | src/main/java/de/mossgrabers/controller/osc/protocol/OSCWriter.java:354-355 | a whole flush publishes nothing under the slot of a missing layer |
| FlushProperties.FlushKeepsMissingLayer | src/main/java/de/mossgrabers/controller/osc/protocol/OSCWriter.java:354-355 | after a flush, every cached address under a missing layer's slot keeps its stale value |
| DevicePages.PageSlotFlag | src/main/java/de/mossgrabers/controller/osc/protocol/OSCWriter.java:287-295 | a page slot is flagged exactly when it shows the clamped selected page, and then it shows that page's name |
| DevicePages.PageWindowFlagsOne | src/main/java/de/mossgrabers/controller/osc/protocol/OSCWriter.java:284-295 | with at least one page, exactly one of the eight slots is flagged |
| DevicePages.NoPagesShowsNothing | src/main/java/de/mossgrabers/controller/osc/protocol/OSCWriter.java:284-297 | without pages, every slot is empty and unflagged, and the selected name is empty |
| DevicePages.SelectedNameAsWrittenFirstBlock | src/main/java/de/mossgrabers/controller/osc/protocol/OSCWriter.java:296-297 | on the first block of eight pages, the name as written is right |
| DevicePages.SelectedNameAsWrittenWrongPage | src/main/java/de/mossgrabers/controller/osc/protocol/OSCWriter.java:296-297 | with nine pages and the ninth selected, slot 1 is flagged with "p9" but the selected name as written is "p1" |
| OscWriter.Writer.constructor | src/main/java/de/mossgrabers/controller/osc/protocol/OSCWriter.java:53-57 | a new writer has an empty cache and an empty queue |
| OscWriter.Writer.SendOsc | src/main/java/de/mossgrabers/controller/osc/protocol/OSCWriter.java:183 | the writer's cache and queue move by one gate step |
| OscWriter.Writer.SendAll | src/main/java/de/mossgrabers/controller/osc/protocol/OSCWriter.java:72-92 | sending a list of messages one by one is the fold over the list |
| OscWriter.Writer.Flush | src/main/java/de/mossgrabers/controller/osc/protocol/OSCWriter.java:62-175 | without a connection nothing changes; otherwise the new state is the fold of all of the flush's messages, in order |
| OscWriter.Writer.FlushFront | src/main/java/de/mossgrabers/controller/osc/protocol/OSCWriter.java:71-146 | transport, frames, project, tracks and scenes, as one fold |
| OscWriter.Writer.FlushBack | src/main/java/de/mossgrabers/controller/osc/protocol/OSCWriter.java:151-172 | devices, browser and notes, as one fold |
| OscWriter.Writer.FlushTrackSection | src/main/java/de/mossgrabers/controller/osc/protocol/OSCWriter.java:129-135 | bank tracks `/track/<i+1>/`, then `/master/`, the selected or empty track, and the bank toggle |
| OscWriter.Writer.FlushTrackAt | src/main/java/de/mossgrabers/controller/osc/protocol/OSCWriter.java:130-131 | one loop iteration adds bank track i to the fold |
| OscWriter.Writer.FlushSceneSection | src/main/java/de/mossgrabers/controller/osc/protocol/OSCWriter.java:141-146 | without a scene bank nothing; otherwise every scene under `/scene/<i+1>/` |
| OscWriter.Writer.FlushSceneAt | src/main/java/de/mossgrabers/controller/osc/protocol/OSCWriter.java:144-145 | one loop iteration adds scene i to the fold |
| OscWriter.Writer.FlushDeviceSection | src/main/java/de/mossgrabers/controller/osc/protocol/OSCWriter.java:151-160 | cursor device, its drum pads when it has them, its layers, then the primary device |
| OscWriter.Writer.FlushTrack | src/main/java/de/mossgrabers/controller/osc/protocol/OSCWriter.java:185-236 | a track's fields under its address, in the source's order |
| OscWriter.Writer.FlushClipSlots | src/main/java/de/mossgrabers/controller/osc/protocol/OSCWriter.java:210-225 | every clip slot under `clip/<i+1>/` |
| OscWriter.Writer.FlushClipSlotAt | src/main/java/de/mossgrabers/controller/osc/protocol/OSCWriter.java:212-224 | one loop iteration adds clip slot i |
| OscWriter.Writer.FlushScene | src/main/java/de/mossgrabers/controller/osc/protocol/OSCWriter.java:246-251 | a scene's exists, name and selected flag under its address |
| OscWriter.Writer.FlushParameterData | src/main/java/de/mossgrabers/controller/osc/protocol/OSCWriter.java:386-394 | a parameter's four fields; a send uses `volumeStr`/`volume`, a device parameter `valueStr`/`value` |
| OscWriter.Writer.FlushParameters | src/main/java/de/mossgrabers/controller/osc/protocol/OSCWriter.java:207-208 | every send or parameter under `<i+1>/` |
| OscWriter.Writer.FlushParameterAt | src/main/java/de/mossgrabers/controller/osc/protocol/OSCWriter.java:276-280 | one loop iteration adds parameter i |
| OscWriter.Writer.FlushDevice | src/main/java/de/mossgrabers/controller/osc/protocol/OSCWriter.java:261-298 | a device's fields, siblings, parameters and page window under its address |
| OscWriter.Writer.FlushSiblings | src/main/java/de/mossgrabers/controller/osc/protocol/OSCWriter.java:268-275 | every sibling's name and selected flag |
| OscWriter.Writer.FlushSiblingAt | src/main/java/de/mossgrabers/controller/osc/protocol/OSCWriter.java:271-273 | one loop iteration adds sibling i |
| OscWriter.Writer.FlushPages | src/main/java/de/mossgrabers/controller/osc/protocol/OSCWriter.java:281-297 | the eight page slots, then the selected page's name (corrected) |
| OscWriter.Writer.FlushPageSlots | src/main/java/de/mossgrabers/controller/osc/protocol/OSCWriter.java:287-295 | the eight slots of the page window |
| OscWriter.Writer.FlushPageSlotAt | src/main/java/de/mossgrabers/controller/osc/protocol/OSCWriter.java:289-294 | one loop iteration adds page slot i |
| OscWriter.Writer.FlushDeviceLayers | src/main/java/de/mossgrabers/controller/osc/protocol/OSCWriter.java:352-376 | a missing layer changes nothing; otherwise the layer's fields are sent under its address |
| OscWriter.Writer.FlushLayers | src/main/java/de/mossgrabers/controller/osc/protocol/OSCWriter.java:155-159 | every layer or drum pad under `<i+1>/`; missing ones are skipped |
| OscWriter.Writer.FlushLayerAt | src/main/java/de/mossgrabers/controller/osc/protocol/OSCWriter.java:156 | one loop iteration adds layer i, or nothing when it is missing |
| OscWriter.Writer.FlushBrowser | src/main/java/de/mossgrabers/controller/osc/protocol/OSCWriter.java:308-342 | browser state, filter columns with their items, then the results |
| OscWriter.Writer.FlushColumns | src/main/java/de/mossgrabers/controller/osc/protocol/OSCWriter.java:315-330 | every filter column under `filter/<i+1>/` |
| OscWriter.Writer.FlushColumnAt | src/main/java/de/mossgrabers/controller/osc/protocol/OSCWriter.java:317-329 | one loop iteration adds filter column i |
| OscWriter.Writer.FlushItems | src/main/java/de/mossgrabers/controller/osc/protocol/OSCWriter.java:335-341 | every item under `<i+1>/` |
| OscWriter.Writer.FlushItemAt | src/main/java/de/mossgrabers/controller/osc/protocol/OSCWriter.java:337-340 | one loop iteration adds item i |
| OscWriter.Writer.FlushNotes | src/main/java/de/mossgrabers/controller/osc/protocol/OSCWriter.java:403-410 | the 127 note colours, note i at `<i>/color` |
| OscWriter.Writer.FlushNoteAt | src/main/java/de/mossgrabers/controller/osc/protocol/OSCWriter.java:407-408 | one loop iteration adds note i's colour |
| KnobTargets.KnobTarget | src/main/java/de/mossgrabers/controller/push/mode/track/TrackMode.java:42-88 | the parameter a knob turns; a send knob never addresses a send past the bank of eight |
| KnobTargets.SendColumns | src/main/java/de/mossgrabers/controller/push/mode/track/TrackMode.java:277-283 | the Push 1 send columns always end at the last column |
| KnobTargets.MixerKnobs | src/main/java/de/mossgrabers/controller/push/mode/track/TrackMode.java:48-56 | knobs 0 and 1 are volume and pan on both models |
| KnobTargets.Push2SendKnobs | src/main/java/de/mossgrabers/controller/push/mode/track/TrackMode.java:59-73 | Push 2 knob 4 + j turns send j, or send 4 + j when the sends are toggled |
| KnobTargets.Push1SendKnobs | src/main/java/de/mossgrabers/controller/push/mode/track/TrackMode.java:76-87 | Push 1 knob SendStart + i turns send i, so with the crossfader shown knob 3 turns send 0 |
| KnobTargets.KnobTargetInjective | src/main/java/de/mossgrabers/controller/push/mode/track/TrackMode.java:42-88 | two different knobs never address the same parameter |
| KnobTargets.SendsReachable | src/main/java/de/mossgrabers/controller/push/mode/track/TrackMode.java:59-87 | every send the current layout shows has a knob that turns it |
| KnobTargets.TurnEffects | src/main/java/de/mossgrabers/controller/push/mode/track/TrackMode.java:48-95 | a turn makes at most one change; it makes none exactly for the unused knob, or for the crossfader when the slow-down holds the movement back |
| KnobTargets.ResetEffects | src/main/java/de/mossgrabers/controller/push/mode/track/TrackMode.java:113-134 | a reset makes no touch or notify call, and it resets the crossfader to "AB" |
| KnobTargets.TouchForward | src/main/java/de/mossgrabers/controller/push/mode/track/TrackMode.java:162-178 | touch state reaches volume, pan or the send; the crossfader takes none |
| KnobTargets.SendName | src/main/java/de/mossgrabers/controller/push/mode/track/TrackMode.java:150 | a send's name is the effect track's name at the same index when the effect bank exists, the send's own name otherwise |
| KnobTargets.NotifyEffects | src/main/java/de/mossgrabers/controller/push/mode/track/TrackMode.java:137-159 | at most one notification; a send whose name is empty shows none |
| KnobTargets.TouchEffects | src/main/java/de/mossgrabers/controller/push/mode/track/TrackMode.java:100-260 | touch-down with delete held consumes delete and resets, with no touch or notify call; otherwise the calls end with the automation check and delete is not consumed |
| KnobTargets.ReleaseForwards | src/main/java/de/mossgrabers/controller/push/mode/track/TrackMode.java:162-180 | a release never resets or notifies; it forwards the release and runs the automation check |
| KnobTargets.TouchFollowsTurn | src/main/java/de/mossgrabers/controller/push/mode/track/TrackMode.java:100-260 | a reset and a touch of a knob address the same send a turn of it changes |
| KnobTargets.Push2TouchTargetAsWritten | src/main/java/de/mossgrabers/controller/push/mode/track/TrackMode.java:113-178 | as written, the Push 2 reset, notify and touch use send index - 4 |
| KnobTargets.Push2TouchAsWrittenAgreement | src/main/java/de/mossgrabers/controller/push/mode/track/TrackMode.java:113-178 | as written, the Push 2 touch targets the turned send exactly when the sends are not toggled |
| KnobTargets.Push2ResetHitsWrongSend | src/main/java/de/mossgrabers/controller/push/mode/track/TrackMode.java:131 | with the sends toggled, a delete-touch of knob 4 resets send 0 while turning it changes send 4 |
| TrackMode.VolumeCell | src/main/java/de/mossgrabers/controller/push/mode/track/TrackMode.java:274 | column 0 shows the volume text, with the VU level as the bar when VU meters are on |
| TrackMode.PanCell | src/main/java/de/mossgrabers/controller/push/mode/track/TrackMode.java:275 | column 1 shows the pan text with a centred pan bar |
| TrackMode.CrossfaderCell | src/main/java/de/mossgrabers/controller/push/mode/track/TrackMode.java:279-287 | the crossfader bar stays within 0..upperBound, and it is 0 exactly for mode A, for mode B with an upper bound of 0, or for any other mode when half the bound truncates to 0 |
| TrackMode.SendCell | src/main/java/de/mossgrabers/controller/push/mode/track/TrackMode.java:289-298 | a send column is filled only from an existing send of the track's own bank, never while the effect bank is shown |
| TrackMode.SelectedIndex | src/main/java/de/mossgrabers/controller/push/mode/track/TrackMode.java:310-314 | the index of the bank's selected track, or -1 exactly when none is selected |
| TrackMode.SendsIndex | src/main/java/de/mossgrabers/controller/push/mode/track/TrackMode.java:314-317 | the sends panel sits right of the selected track, at 6 for the last track, never on the selected column, and nowhere without a selection or on the effect bank |
| TrackMode.HeaderOf | src/main/java/de/mossgrabers/controller/push/mode/track/TrackMode.java:329-337 | a column shows a name only for an existing track, and is lit exactly for the selected track |
| TrackMode.ChannelOf | src/main/java/de/mossgrabers/controller/push/mode/track/TrackMode.java:340-344 | volume, pan, their modulated values, mute, solo and arm are the track's; volume and pan texts appear only while their knob is touched; VU only with meters on; the crossfade mode only when the crossfader is displayed |
| TrackMode.SendSlotAt | src/main/java/de/mossgrabers/controller/push/mode/track/TrackMode.java:354-371 | panel slot j shows send offset + j: the effect track's name when the effect bank exists and the send's name otherwise, an existing send's value and modulated value, and its value text exactly while knob 4 + j is touched; a missing send shows zeros and no text |
| TrackMode.SendSlotsOf | src/main/java/de/mossgrabers/controller/push/mode/track/TrackMode.java:350-372 | the sends panel has four slots |
| TrackMode.ElementAt | src/main/java/de/mossgrabers/controller/push/mode/track/TrackMode.java:326-375 | the channel column appears exactly for the selected track; the sends panel only at SendsIndex |
| TrackMode.TrackModeState.constructor | src/main/java/de/mossgrabers/controller/push/mode/track/TrackMode.java:33-37 | no knob is touched and no host call has been made |
| TrackMode.TrackModeState.OnValueKnob | src/main/java/de/mossgrabers/controller/push/mode/track/TrackMode.java:42-88 | nothing without a selected track; otherwise exactly the turn change for the knob's target |
| TrackMode.TrackModeState.ChangeCrossfader | src/main/java/de/mossgrabers/controller/push/mode/track/TrackMode.java:91-95 | the crossfade mode changes only when the slow-down lets the movement through |
| TrackMode.TrackModeState.OnValueKnobTouch | src/main/java/de/mossgrabers/controller/push/mode/track/TrackMode.java:100-260 | nothing without a selected track; otherwise only that knob's touch flag changes, and the host calls are TouchEffects for the target the knob turns (corrected on Push 2) |
| TrackMode.TrackModeState.ResetParameter | src/main/java/de/mossgrabers/controller/push/mode/track/TrackMode.java:186-207 | the calls of a reset |
| TrackMode.TrackModeState.NotifyParameter | src/main/java/de/mossgrabers/controller/push/mode/track/TrackMode.java:210-238 | the notification of a touch-down |
| TrackMode.TrackModeState.ForwardTouch | src/main/java/de/mossgrabers/controller/push/mode/track/TrackMode.java:241-257 | the touch forwarding |
| TrackMode.TrackModeState.UpdateDisplay1 | src/main/java/de/mossgrabers/controller/push/mode/track/TrackMode.java:265-303 | the prompt exactly without a selected track; otherwise eight columns: volume, pan, the crossfader when displayed, then send i at column SendStart + i |
| TrackMode.TrackModeState.SendSlots | src/main/java/de/mossgrabers/controller/push/mode/track/TrackMode.java:354-371 | the four panel slots from the loop equal SendSlotAt |
| TrackMode.TrackModeState.UpdateDisplay2 | src/main/java/de/mossgrabers/controller/push/mode/track/TrackMode.java:308-378 | eight columns, column i being ElementAt i |
| TrackMode.TrackModeState.ElementFor | src/main/java/de/mossgrabers/controller/push/mode/track/TrackMode.java:326-375 | one loop iteration builds column i |
| TrackMode.Display1ShowsKnobSend | src/main/java/de/mossgrabers/controller/push/mode/track/TrackMode.java:289-298 | on Push 1 the column above a send knob names the send that knob turns |
| TrackMode.Display2ShowsKnobSend | src/main/java/de/mossgrabers/controller/push/mode/track/TrackMode.java:354-371 | on Push 2 panel slot j shows the send knob 4 + j turns: the name a touch of that knob notifies, the send's value and modulated value, and its value text exactly while the knob is touched |
| TrackMode.OneSendsPanel | src/main/java/de/mossgrabers/controller/push/mode/track/TrackMode.java:314-317 | with one selected track, exactly one column carries the sends panel, right next to it |
| TrackMode.NoSendsPanelOnEffectBank | src/main/java/de/mossgrabers/controller/push/mode/track/TrackMode.java:315 | while the effect bank is shown no column carries the sends panel |
| EnterButton.ActionOf | src/main/java/de/mossgrabers/controller/kontrol/usb/mkii/command/trigger/EnterButtonCommand.java:42-63 | only a press acts; it does nothing in the parameter mode, starts the browser exactly in the browser mode, and toggles solo exactly in another mode with a selected track |
| EnterButton.SoloAfter | src/main/java/de/mossgrabers/controller/kontrol/usb/mkii/command/trigger/EnterButtonCommand.java:60-62 | a toggle flips the selected track's solo and no other track's |
| EnterButton.PressTwiceRestores | src/main/java/de/mossgrabers/controller/kontrol/usb/mkii/command/trigger/EnterButtonCommand.java:60-62 | two presses leave every solo flag as it was |
| EnterButton.NoSelectionNoSolo | src/main/java/de/mossgrabers/controller/kontrol/usb/mkii/command/trigger/EnterButtonCommand.java:60-62 | without a selected track no event changes a solo flag |
| EnterButton.EnterButtonCommand.constructor | src/main/java/de/mossgrabers/controller/kontrol/usb/mkii/command/trigger/EnterButtonCommand.java:33-36 | the command starts with no browser start requested |
| EnterButton.EnterButtonCommand.Execute | src/main/java/de/mossgrabers/controller/kontrol/usb/mkii/command/trigger/EnterButtonCommand.java:42-63 | the solo flags become SoloAfter of the action, and the browser is started, with both flags off, exactly for StartBrowser |

## Left out

- The OSC server, the socket and message framing are not modelled. The superclass's `flush()`, which hands the queue to the server, is not modelled either: the model's output is the queue itself.
- `isConnected` is the `connected` parameter of `Writer.Flush`.
- `sendOSC` and `sendOSCColor` live in a superclass that is not part of this model. The gate models the change-tracking contract that the `dump` parameter documents.
- Colours are opaque tokens. The RGB doubles, the `OSCColors` lookup, `Scales.getColor` and the key translation matrix are left out. The scale colour per note is a function in the keyboard input.
- The tempo and other floating-point values are opaque values that are compared for equality only.
- Host accessors are inputs: volume and pan texts, displayed values and names. The number formatting behind them is left out.
- TrackMode.TrackModeState.UpdateDisplay2: values pass through unchanged. The host's `toDisplayValue` scaling is left out.
- The device's drum pads and layers are two input lists. The source reads both through one `getLayerOrDrumPad(i)` call.
- `increaseKnobMovement` (the time-based knob slow-down) is the `movementAccepted` input.
- `checkStopAutomationOnKnobRelease` is the `StopAutomationOnRelease` call. `display.notify` is the `Notify` call.
- The rendering of the Push displays is left out, and so is the track type and colour in the graphics columns.
- `drawRow4` and `updateMenuItems` belong to the superclass: the menu row is an input.
- TrackMode.TrackModeState.OnValueKnobTouch requires the selected track to have its eight sends and the effect bank its eight tracks. The host's banks always have that size.
- EnterButton: `startBrowser` internals are left out, and the call is recorded with its two arguments. Modes other than the parameter and browser modes are one `Other` case.
- The OSC writer's constructor arguments (host, key manager, configuration) are inputs of the snapshot and configuration.
- OscWriter.Writer.Flush, OscWriter.Writer.FlushBack, OscWriter.Writer.FlushDeviceSection, OscWriter.Writer.FlushDevice and OscWriter.Writer.FlushPages publish the corrected `page/selected/name` (the selected page's own name, OscFlush.SelectedPageName). The code as written publishes `names[page % 8]` there (OscFlush.SelectedPageNameAsWritten, Finding 1). Every other address of a flush is as written, and no flush theorem depends on the value at that address.
- TrackMode.TrackModeState.OnValueKnobTouch resets, notifies and forwards the send the knob turns (KnobTargets.KnobTarget). On Push 2 the code as written uses send `index - 4` even while the sends are toggled (KnobTargets.Push2TouchTargetAsWritten, Finding 2). The two agree whenever the sends are not toggled (KnobTargets.Push2TouchAsWrittenAgreement).
- Java `int` overflow is not modelled. The counts and indices involved stay far below 2^31.

## Findings

| source | as written | input that shows it | evidently intended | confidence | as-written member | corrected member |
|---|---|---|---|---|---|---|
| src/main/java/de/mossgrabers/controller/osc/protocol/OSCWriter.java:296-297 | `page/selected/name` publishes the page names entry at `page % 8`, an index into the whole list | nine pages with the ninth selected: slot 1 is flagged and shows "p9", but the selected name is "p1" (DevicePages.SelectedNameAsWrittenWrongPage) | the selected page's own name, `names[page]` | high; not executed | OscFlush.SelectedPageNameAsWritten | OscFlush.SelectedPageName |
| src/main/java/de/mossgrabers/controller/push/mode/track/TrackMode.java:131-175 | on Push 2 the delete-reset, the touch notification and the touch forwarding use send `index - 4`, whatever the sends toggle | sends toggled, knob 4 touched with delete held: send 0 is reset, while turning knob 4 changes send 4 and the display shows send 4 (KnobTargets.Push2ResetHitsWrongSend) | the send the knob turns, `index - sendOffset` as at lines 69-70 (KnobTargets.TouchFollowsTurn) | medium; not executed | KnobTargets.Push2TouchTargetAsWritten | TrackMode.TrackModeState.OnValueKnobTouch |
