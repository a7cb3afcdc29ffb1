# AudioControlPipewirePulse: a Dafny model of the decision core

AudioControlPipewirePulse is a StreamController plugin that puts sound-server
controls on deck keys and dials. Its actions mute or unmute a sink or a
microphone, move a volume by a step, set a fixed volume, and show a device's
name and volume on the key's labels. This project models the decisions those
actions make, and proves what they promise:

- which device an action targets;
- which label a device gets;
- what a key press, dial turn or dial press asks the sound server or the control script to do;
- what the labels show.

The sound server is a value: a `Server` holds the sink and source lists and
the default device names. A `Device` carries its index, name, description,
property list, 0/1 mute flag, and one integer percent per channel. Handlers do
not mutate anything. Each one returns what it would do:

- a `Reaction`: report an error on the deck, let an exception escape, issue a command, or do nothing;
- or the action's new fields.

Commands come in two kinds:

- Direct client-library calls are `Common.PulseCall`. `Common.ApplyCall` gives their meaning: only the device with the target index changes.
- Control-script invocations are `PulseHelpers.ScriptCommand`. `PulseHelpers.RunScript` gives the meaning the plugin relies on: `up`/`down` move the volume, `set` sets it, and `mute` toggles. The plugin passes the script no device. The model assumes the script acts on the server's default device, and the lemmas that apply a script command to a level say which device that level belongs to.

Python's `None` is `Option.None`. A truthiness test is `Common.Truthy`.
`dict.get(k, d)` is `Common.GetOr` over an `Entry`, which tells a missing key
apart from a key stored as None. `str(int)` is `Common.IntToString`, with
`Common.ParseInt` as its proved inverse. A `for` loop that breaks on the first
hit is `Common.FindFirst`. A loop without `break` that keeps overwriting is
`Common.FindLast`.

Modules follow the source files:

- `Common`: shared vocabulary.
- `PulseHelpers`: `internal/PulseHelpers.py`.
- `DeviceBase`, `DialController`, `AdjustVolume`: the newer action base and its two actions.
- `VolumeAction`, `Mute`, `MicMute`, `SetVolume`: the older action base and its actions.
- `VolumeAdjust`, `VolumeDisplay`: two stand-alone actions.

In these places the model follows the code:

- `load_settings` copies the pulse name and the device label from the settings before it looks for a device. So when no device is found, those two fields hold the stored values. Only the index keeps its previous value.
- Decreases are never clamped at zero on the dial or the adjust key: `TurnDownIsUnbounded`, `StepDownIsUnbounded`. Only the per-channel key floors its channels at zero.
- The per-channel key (`VolumeAdjust.on_key_down`) breaks after its first write. A press therefore rewrites only the first sink whose label matches; later sinks with the same label keep their channels.
- `AdjustVolume.on_key_down` calls `get_device`, `get_volumes_from_device`, `change_volume` and `set_volume` as methods of its base class, which does not define them. The model reads them as the `PulseHelpers` functions of the same names. The device and its channel volumes are parameters of `AdjustVolume.KeyDown`, and the writes are `PulseHelpers` script commands.

## Model

| member | source | states |
|---|---|---|
| PulseHelpers.FilterProplist | internal/PulseHelpers.py:17-57 | The label is the value of a listed key of at least three characters whose score is the highest. Ties go to the earliest key. The result is None exactly when no listed key qualifies. |
| PulseHelpers.FirstMaxIsWinner | internal/PulseHelpers.py:51-56 | The head of the stably sorted candidates comes from the winning key: no qualifying key scores higher, and no earlier one scores the same. |
| PulseHelpers.WinnerUnique | internal/PulseHelpers.py:51-56 | At most one key position wins, so the chosen label is determined by the property list. |
| PulseHelpers.ScoreIsCostSum | internal/PulseHelpers.py:29-49 | The table-driven score (punctuation counts times weights, plus length times -5) equals an independent per-character cost sum. |
| PulseHelpers.ScoreAdditive | internal/PulseHelpers.py:29-49 | The score adds up over concatenation, and each character lowers it by 5 to 105, so longer and more punctuated values rank lower. |
| PulseHelpers.LabelIsListedValue | internal/PulseHelpers.py:41-56 | Any label returned is the value stored under one of the listed keys and is at least three characters long. |
| PulseHelpers.OnlyLabelKeysMatter | internal/PulseHelpers.py:18-43 | Two property lists that agree on the listed keys get the same label; other keys never matter. |
| PulseHelpers.ChangeVolume | internal/PulseHelpers.py:96-108 | A relative change asks for `down` by the magnitude when the truncated adjustment is negative, and `up` otherwise. The signed amount equals the adjustment truncated toward zero. |
| PulseHelpers.ChangeVolumeMovesByTruncated | internal/PulseHelpers.py:96-108 | Run through the script, a relative change moves the volume by exactly the truncated adjustment and leaves mute alone. |
| PulseHelpers.SetVolume | internal/PulseHelpers.py:110-116 | Setting a volume asks the script to `set` that volume. |
| PulseHelpers.Mute | internal/PulseHelpers.py:118-124 | Muting always asks the script for its `mute` verb, whatever state is requested. |
| PulseHelpers.MuteIsToggle | internal/PulseHelpers.py:118-124 | `mute` ignores the requested state: it flips the mute flag and leaves the volume. |
| PulseHelpers.CommandsIgnoreDevice | internal/PulseHelpers.py:96-124 | No script command depends on the device it is asked to act on: the device argument never reaches the command line. |
| PulseHelpers.CommandLine | internal/PulseHelpers.py:102-121 | Every command line starts with the host spawner, the plugin directory and the script path, followed by one of the verbs `up`, `down`, `set`, `mute`. |
| PulseHelpers.ScriptArgsRoundTrip | internal/PulseHelpers.py:102-121 | The arguments written for any command parse back to the same command. |
| PulseHelpers.Truncate | internal/PulseHelpers.py:99 | Python `int()` of a real truncates toward zero, for both signs. |
| PulseHelpers.GetDevice | internal/PulseHelpers.py:60-74 | The lookup returns a listed device with that name; it returns None exactly when no listed device has the name. |
| PulseHelpers.GetStandardDevice | internal/PulseHelpers.py:126-135 | The server's default sink or source, or None exactly when the default name is not in the filter's list. |
| PulseHelpers.VolumesFromDevice | internal/PulseHelpers.py:86-93 | A device found by the lookup gives exactly its own channels. Non-empty volumes belong to a listed device with that name, and a failed lookup gives the empty list. |
| Common.ContainsIffOccurs | actions/DeviceBase.py:155 | The substring test used to skip monitors holds exactly when the word occurs at some position of the description. |
| Common.IntToStringRoundTrip | actions/DeviceBase.py:419 | The decimal text of every integer parses back to that integer. |
| Common.FindLastAppend | actions/SetVolume.py:153-159 | A loop that keeps overwriting ends on the last hit: appending a hit makes it the result, appending a miss keeps the previous one. |
| Common.LabelsAppend | actions/DeviceBase.py:196-206 | The labels of a concatenated device list are the labels of the parts, in order. |
| Common.LastLabelledIsLastRow | actions/VolumeDisplay.py:56-66 | A loop that overwrites the kept device with every labelled device ends on the device behind the last row of the list it builds. |
| Common.ComboSelection | actions/VolumeAdjust.py:68-80 | The row to activate: -1 for a stored None, the first equal row otherwise, and no change when nothing matches. |
| Common.DeviceByName | actions/SetVolume.py:77 | The lookup by name returns a listed device with that name. It returns None exactly when there is no name or no listed device has it. |
| Common.ToggleTwice | actions/Mute.py:92 | Toggling a 0/1 mute flag twice restores it. |
| Common.MuteStateImage | actions/Mute.py:198-202 | State 1 shows the mute image; any other state shows the audio image. |
| DeviceBase.ResolveDevice | actions/DeviceBase.py:147-159 | The default device takes precedence under `use_standard`. Otherwise the saved pulse name is used. Otherwise it is the first non-monitor device. Each case is None exactly when its lookup finds nothing. |
| DeviceBase.LoadSettings | actions/DeviceBase.py:132-166 | Every setting is copied in. A resolved device supplies index, label and pulse name. Without one, the index keeps its previous value and the names are those stored. |
| DeviceBase.LoadedNameDesignatesDevice | actions/DeviceBase.py:161-166 | After loading, looking up the stored pulse name finds the resolved device again. |
| DeviceBase.TopLabel | actions/DeviceBase.py:385-397 | Empty when names are hidden. Otherwise the nick when set; else, under `use_standard`, the default device's label, raising when there is no default device; else the stored label. |
| DeviceBase.TopLabelSources | actions/DeviceBase.py:385-397 | The top label is never invented: it is empty, the nick, the stored label, or the label of a listed device. |
| DeviceBase.VolumeText | actions/DeviceBase.py:412-420 | "N/A" exactly when there are no channels; otherwise text that parses back to the first channel. |
| DeviceBase.TargetVolumes | actions/DeviceBase.py:412-417 | Under `use_standard`, the default device's channels, raising exactly when there is none; otherwise the channels of the device with the stored pulse name. |
| DeviceBase.BottomLabel | actions/DeviceBase.py:399-423 | With info hidden the label is empty. Otherwise it is the adjustment text or the target's volume text. Under `use_standard`, a missing default device raises even when info is hidden. |
| DeviceBase.BottomLabelShowsFirstChannel | actions/DeviceBase.py:399-420 | With volume info shown, the bottom label parses back to the target's first channel, or is "N/A" without channels. |
| DeviceBase.NickFromEntry | actions/DeviceBase.py:331-344 | An empty entry clears the nick; any other text becomes the nick. |
| DeviceBase.NickEntryRoundTrip | actions/DeviceBase.py:334-339 | Showing a stored nick in the entry and reading it back gives the nick, and reading an entry then showing it gives its text. |
| DeviceBase.DropdownLabels | actions/DeviceBase.py:196-206 | The dropdown holds exactly the labels of the named, non-monitor devices. |
| DeviceBase.DropdownKeepsOrder | actions/DeviceBase.py:196-206 | The dropdown keeps server order: the labels of a split list are the labels of each part, in turn. |
| DeviceBase.SelectedRow | actions/DeviceBase.py:210-214 | The selected row is the first whose label equals the stored label; None exactly when no row does. |
| DeviceBase.SetDeviceSettings | actions/DeviceBase.py:429-439 | The first non-monitor device with the stored label supplies index and pulse name; nothing else changes, and without such a device nothing changes at all. |
| DeviceBase.OnDeviceChanged | actions/DeviceBase.py:278-289 | The picked label is stored, and list, `use_standard` and nick are kept. The first non-monitor device of the list carrying the label supplies index and pulse name; with none, nothing else changes. |
| DeviceBase.OnDeviceFilterChanged | actions/DeviceBase.py:265-276 | Switching lists forgets the pulse name and changes nothing else. |
| DeviceBase.EventCallback | actions/DeviceBase.py:358-368 | A short key release presses the key. Either hold start reloads. A clockwise turn turns by +1 and an anticlockwise turn by -1. A short dial release presses the dial. Each holds in both directions, and every other event is ignored. |
| DialController.ParseBehaviour | actions/DialController.py:112-117 | A missing behaviour is mute; only the two stored names parse, and anything else raises. |
| DialController.BehaviourRoundTrip | actions/DialController.py:20-22 | Each behaviour reads back from its stored name, and the two names differ. |
| DialController.LoadDialSettings | actions/DialController.py:112-123 | Missing entries take their defaults: step 1, bound 100, volume 0, not extended. Loading fails exactly when the behaviour does not parse. |
| DialController.LoadDialSettingsRoundTrip | actions/DialController.py:112-123 | Settings written under their stored names load back unchanged. |
| DialController.TargetDevice | actions/DialController.py:284-288 | Under `use_standard` the default device; otherwise the listed device with the stored pulse name, None exactly when there is none. |
| DialController.DialTurn | actions/DialController.py:279-303 | No pulse name is an error. Turning down always issues a decrease by the step, even with no device. Turning up with no device is an error. Otherwise it acts exactly when the first channel is below the bound: it sends `set` to the bound when the step would pass it, and a change by the step otherwise. This holds whatever device the script acts on. |
| DialController.DialReadsTargetVolumes | actions/DialController.py:295 | The channels the dial reads are the target device's own. |
| DialController.TurnUpStopsAtBound | actions/DialController.py:295-300 | When the target is the default device the script acts on, turning up from below the bound ends at the lower of volume plus step and the bound, never above the bound. |
| DialController.TurnUpCanPassBoundOnDefault | actions/DialController.py:284-300 | The bound is checked on the target's first channel, while the step moves whatever level the script acts on. When the target permits a full step and that level is within one step of the bound, the turn carries it past the bound. |
| DialController.TurnUpAtBoundIsIdle | actions/DialController.py:295-296 | Turning up at or above the bound does nothing. |
| DialController.TurnDownIsUnbounded | actions/DialController.py:290-293 | Turning down drops the volume by the full step, with no floor at zero. |
| DialController.TurnAfterFilterChangeFails | actions/DialController.py:280-282 | After a switch of device list the dial reports an error until a device is picked again. |
| DialController.DialDown | actions/DialController.py:269-327 | Mute behaviour toggles and records the device's new state, and fails without a device. Set behaviour sends the fixed volume and never reads the device. |
| DialController.PressRecordsToggledState | actions/DialController.py:305-316 | When the target is the default device the script acts on, the mute flag a press records is the state the toggle leaves that device in. |
| DialController.MuteIconAgrees | actions/DialController.py:347-351 | The icon drawn for the recorded flag matches the icon of the server's 0/1 mute state. |
| DialController.MuteIcon | actions/DialController.py:347-351 | The mute image exactly when the recorded flag is set, else the audio image. |
| DialController.OnPulseDeviceChange | actions/DialController.py:243-267 | Only an event about the target's index refreshes the mute flag, from the device's own state. Under `use_standard` a missing default device raises. |
| DialController.ExtendVolume | actions/DialController.py:209-223 | The upper end of the fixed-volume scale is 150 when extended and 100 otherwise. Switching off pulls a value above 100 down to 100; other values are kept. |
| DialController.ExtendOffKeepsInRange | actions/DialController.py:214-220 | A value within the extended range stays within the narrow range once extension is switched off. |
| DialController.DisplayAdjustment | actions/DialController.py:333-334 | The adjustment text parses back to the step. |
| AdjustVolume.KeyDown | actions/AdjustVolume.py:101-125 | A missing pulse name or step is an error. A negative step always decreases by its magnitude. A non-negative step acts exactly when the first channel is below the bound: it sends `set` to the bound when the step would pass it, and a change by the step otherwise. |
| AdjustVolume.StepUpStopsAtBound | actions/AdjustVolume.py:114-121 | When the level the script acts on holds the volume that was read, a step up from below the bound ends at the lower of volume plus step and the bound. |
| AdjustVolume.StepDownIsUnbounded | actions/AdjustVolume.py:109-112 | A negative step is applied in full, with no floor at zero. |
| AdjustVolume.InfoText | actions/AdjustVolume.py:131-133 | A missing step shows "None"; a step shows text that parses back to it. |
| AdjustVolume.InfoTextDistinguishesMissing | actions/AdjustVolume.py:131-133 | The info of a missing step differs from that of every step. |
| AdjustVolume.Icon | actions/AdjustVolume.py:135-142 | Up icon for a non-negative step, down icon for a negative one; the image is left alone without a step. |
| AdjustVolume.IconMatchesDirection | actions/AdjustVolume.py:101-142 | The icon points the way a press moves the volume. |
| VolumeAction.FilterAlsa | actions/VolumeAction.py:38-40 | The first non-empty of product name, nick and description; None exactly when all are empty or missing. |
| VolumeAction.FilterProplist | actions/VolumeAction.py:26-36 | A non-ALSA device with a non-empty node name goes by it; every other device falls back to the ALSA chain. |
| VolumeAction.NameNeverEmpty | actions/VolumeAction.py:26-40 | The label is never the empty string. |
| VolumeAction.AlsaIgnoresNodeName | actions/VolumeAction.py:27-36 | For an ALSA device the node name plays no part in the label. |
| VolumeAction.UpdateLabels | actions/VolumeAction.py:18-24 | With info on, the labels are the device name and the info, each empty when missing; with info off, both are empty. |
| VolumeAction.DeviceModel | actions/Mute.py:148-155 | The list holds exactly the sinks' labels under the older base's label rule, at most one row per sink. Mute and SetVolume share it. |
| VolumeAdjust.FilterProplist | actions/VolumeAdjust.py:50-56 | The node name, unless it is missing or mentions "alsa". In that case the product name when the key is present, even if empty, else the description. |
| VolumeAdjust.LabelComesFromProperties | actions/VolumeAdjust.py:50-56 | The label is one of the three consulted values, and None exactly when none of them can supply one. |
| VolumeAdjust.AlsaNodeNameIsSkipped | actions/VolumeAdjust.py:53 | A node name containing "alsa" becomes the label only if a fallback property holds the same text. |
| VolumeAdjust.DeviceModel | actions/VolumeAdjust.py:58-66 | The list holds exactly the sinks' labels under this action's own label rule, at most one row per sink. |
| VolumeAdjust.FloorAtZero | actions/VolumeAdjust.py:110 | A channel value is never negative, and is never below the shifted value it comes from. |
| VolumeAdjust.Floored | actions/VolumeAdjust.py:110 | Every channel is shifted by the step, and a channel equals the shifted value exactly when that value is not negative, else 0. |
| VolumeAdjust.RaisesCompose | actions/VolumeAdjust.py:110 | Two raises in a row are one raise by the sum. |
| VolumeAdjust.FloorIsNotUndone | actions/VolumeAdjust.py:110 | For every volume v and every larger step c, lowering by c and raising by c again gives c, not v: the floor at zero loses the volume. |
| VolumeAdjust.KeyDown | actions/VolumeAdjust.py:94-114 | No device, or a step stored as None, is an error; only a missing step defaults to 0. The press does nothing exactly when no sink carries the label. Otherwise it writes the FIRST such sink's channels, shifted and floored. |
| VolumeAdjust.PressFloorsFirstMatch | actions/VolumeAdjust.py:103-114 | Applied by the server, a press on sinks with unique indices floors the first sink carrying the label and leaves every other sink unchanged, later matches included. |
| VolumeAdjust.SecondMatchUntouched | actions/VolumeAdjust.py:103-114 | With two sinks carrying the label, only the first is written; the second keeps its channels. |
| VolumeAdjust.MissingStepIsZero | actions/VolumeAdjust.py:97 | A missing step setting behaves as a stored step of 0. |
| VolumeAdjust.KeyDownTargetIsListed | actions/VolumeAdjust.py:58-113 | A press that acts has a row in the device list for its stored label. |
| VolumeDisplay.SetSink | actions/VolumeDisplay.py:87-97 | The first sink whose label equals the name, or the sink kept so far when none does. |
| VolumeDisplay.OnReady | actions/VolumeDisplay.py:27-29 | A sink is kept exactly when one carries the stored label. The kept sink is the FIRST such sink. |
| VolumeDisplay.SetSinkIdempotent | actions/VolumeDisplay.py:87-97 | Looking the same name up twice keeps the first answer. |
| VolumeDisplay.LoadDeviceModel | actions/VolumeDisplay.py:56-66 | The list holds exactly the sinks' labels. The kept sink is the last labelled sink, or unchanged when none is labelled. |
| VolumeDisplay.LoadedSinkIsLastRow | actions/VolumeDisplay.py:56-66 | The sink kept after loading the list is the one behind its last row. |
| VolumeDisplay.TickLabel | actions/VolumeDisplay.py:99-106 | No sink leaves the label alone, and a sink without channels raises. Otherwise the label is text ending in a percent sign that parses back to the first channel. |
| Mute.KeyDown | actions/Mute.py:76-96 | No stored device is an error. Otherwise the first sink with the label is toggled and its new state drawn; with no such sink nothing happens. |
| Mute.PressShowsNewState | actions/Mute.py:92-95 | A press draws the mute image exactly when the sink was unmuted before. |
| Mute.PressActsOnFirstMatch | actions/Mute.py:85-96 | The press toggles the first sink with the label, whichever way that sink is found. |
| Mute.MuteWriteUndone | actions/Mute.py:92-94 | Writing a sink's mute flag and then writing its old flag back restores a list with unique indices. |
| Mute.PressTwiceRestores | actions/Mute.py:76-96 | Two presses, each applied by the server, restore every sink, given unique indices and 0/1 flags. |
| Mute.OnSinkChange | actions/Mute.py:131-142 | Only an event about the stored index redraws, using that sink's state. It redraws exactly when such a sink is listed. |
| Mute.UnboundIgnoresEvents | actions/Mute.py:131-142 | Before a sink is found, events about real sinks are ignored. |
| Mute.LabelTexts | actions/VolumeAction.py:18-24 | With info off both labels are empty; with info on the top label is the stored device, or empty without one. |
| Mute.TopLabelNamesAdoptedSink | actions/Mute.py:173-192 | After loading with info on, the top label is the label of the sink that was bound. |
| Mute.Adopt | actions/Mute.py:180-189 | Without a sink carrying the stored label nothing changes. When one exists, the FIRST such sink supplies index, name and mute image. |
| Mute.LoadInitialData | actions/Mute.py:173-192 | An empty stored device, or one no sink carries, changes nothing. Otherwise the first sink carrying it is bound: its index, name and mute image. |
| Mute.OnReady | actions/Mute.py:37-50 | The stored device and the info switch (off unless stored true) are read. A non-empty stored device that some sink carries binds the first such sink; otherwise the action starts unbound, with index -1, no name and no image. |
| Mute.OnDeviceChange | actions/Mute.py:102-119 | The picked label is stored and the info switch kept. The first sink carrying the label is bound; with none, nothing else changes. |
| Mute.PickedSinkIsPressed | actions/Mute.py:76-119 | Once a row that some sink carries is picked, a key press toggles the sink that was bound, by its index. |
| MicMute.Bind | actions/MicMute.py:81-92 | Without a non-monitor source carrying the stored label nothing changes. When one exists, the FIRST such source supplies index, name and mute image. |
| MicMute.OnReady | actions/MicMute.py:25-37 | Info is shown exactly when name or volume is, and each switch is on only when stored true. A non-empty stored device that a non-monitor source carries binds the first such source; otherwise the action starts unbound, with index -1, no name and no image. |
| MicMute.LoadInitialData | actions/MicMute.py:162-176 | An empty stored device, or one no non-monitor source carries, changes nothing. Otherwise the first such source is bound. The info invariant is kept. |
| MicMute.OnDeviceChange | actions/MicMute.py:77-97 | The picked label is stored and the switches kept. The first non-monitor source carrying it is bound; with none, nothing else changes. The info invariant is kept. |
| MicMute.OnSwitchChange | actions/MicMute.py:99-110 | Both switches are read, info follows them, and nothing else changes. |
| MicMute.KeyDown | actions/MicMute.py:65-75 | No stored device or source name is an error, and a source that has gone raises. Otherwise the source is toggled, and the mute image is drawn exactly when the new state is 1. |
| MicMute.PressTogglesBoundSource | actions/MicMute.py:65-97 | After picking a label some non-monitor source carries, with unique source names, a press toggles exactly the bound source, and a bound source with an empty name is reported as an error. |
| MicMute.OnSourceChange | actions/MicMute.py:112-125 | Only an event about the bound index redraws, from the source's state; a failed lookup is reported. |
| MicMute.VolumeInfo | actions/MicMute.py:182-187 | Empty exactly for a source without channels; otherwise text that parses back to the first channel. |
| MicMute.UpdateLabels | actions/MicMute.py:189-204 | The top label shows the device when enabled, and the bottom label the refreshed info when enabled. An error is reported exactly when the lookup fails, and then the previous info is kept. |
| MicMute.BottomShowsFirstChannel | actions/MicMute.py:182-204 | With volume shown and a bound source, the bottom label parses back to its first channel. |
| SetVolume.KeyDown | actions/SetVolume.py:72-78 | No stored device or percentage is an error, and a bound sink that has gone raises. Otherwise every channel of the sink is set to the percentage. |
| SetVolume.PressSetsAllChannels | actions/SetVolume.py:72-78 | After a press, every channel of the target holds the percentage, its channel count is kept, and no other sink changes. |
| SetVolume.InfoText | actions/SetVolume.py:161 | A missing percentage shows "0"; a percentage shows text that parses back to it. |
| SetVolume.OnDeviceChange | actions/SetVolume.py:84-99 | The picked label is stored and the FIRST sink with it supplies the name; nothing else changes. |
| SetVolume.LoadInitialData | actions/SetVolume.py:153-162 | A non-empty stored label binds the LAST sink with it; the info is refreshed. |
| SetVolume.OnReady | actions/SetVolume.py:37-46 | The settings are copied in and the info text refreshed. A non-empty stored label that some sink carries binds the LAST such sink; otherwise no sink is bound. |
| SetVolume.FirstAndLastMatchDisagree | actions/SetVolume.py:84-162 | With two same-labelled sinks, picking the label binds the first, while reloading binds the second. |
| SetVolume.UniqueMatchAgrees | actions/SetVolume.py:84-162 | With a single matching sink, picking and reloading bind the same sink. |
| SetVolume.Selection | actions/SetVolume.py:137-151 | -1 for a stored None. Otherwise the first row with the stored label, and no selection exactly when no row carries it. |
| SetVolume.ModelLabelIsSelected | actions/SetVolume.py:127-151 | A stored label taken from the list selects a row carrying it. |

## Left out

- The GTK configuration UI is not modelled: rows, switches, scales, dropdown population, signal connection and disconnection, the asset manager and its window, and localisation. Selecting a row is modelled by the label it carries.
- The background listener thread that relays sound-server events, and the async scheduling of handlers, are left out. An event is the index it carries (None when it carries too few arguments).
- Plugin registration (`main.py`) and the script's `chmod` at start-up are left out.
- Floating-point volumes are not modelled. The client library's 0.0-1.0 channel floats appear as integer percents, and the rounding of `round(v * 100)` and `int(v * 100)` is not modelled. So the older actions' volume conversions are the identity, and the per-channel key's `change * 0.01` is a step in percent.
- The scales deliver floats. Settings hold integers here, so `str(5.0)` reading "5.0" is not modelled.
- PulseHelpers.RunScript: the control script itself (`pulseaudio-ctl.sh`) is not part of this model. This function states the meaning its verbs are assumed to have. That the script acts on the server's default device is an assumption about the script, not something the model shows.
- DialController.TurnUpStopsAtBound: it holds only when the dial's target is the default device, since the script is told no device. `DialController.TurnUpCanPassBoundOnDefault` covers a full step on a non-default target. For every target, `DialController.DialTurn`'s contract gives the command sent, including `set` to the bound when the step would pass it.
- DialController.PressRecordsToggledState: it holds only when the dial's target is the default device. Otherwise the script toggles the default device while the dial records the target's toggled flag.
- AdjustVolume.StepUpStopsAtBound: it holds only when the script's level is the volume the key read, that is, when the key's device is the default device.
- Reading and writing the settings store is left out. Handlers take the stored values as parameters and return the new fields; the `set_settings` calls are not modelled.
- Enum conversion from stored text is left out for the device filter and the info content: they arrive typed. The dial's behaviour is parsed, since an unknown name raises there.
- Logging, `show_error`'s visual effect, and VolumeDisplay's console output are left out.
- Simple field-copying handlers are not modelled separately: `on_use_standard_changed`, `on_info_toggle_changed`, `on_info_content_changed`, `on_device_name_toggle_changed`, `on_volume_change`, `on_switch_change` of Mute and SetVolume, and the step and bound scale handlers. Each stores one setting and redraws with the functions above.
- `on_key_hold_start` (reload) is the composition of `DeviceBase.LoadSettings` and the label functions. It is not a separate member.
- `DialController.update_mute_image` is the same lookup as `DialController.OnPulseDeviceChange` without the index test. It is not a separate member.
- The `load_config_settings` of Mute, MicMute, VolumeAdjust and VolumeDisplay share the row-selection rule of `Common.ComboSelection`, which is instantiated once, in `SetVolume.Selection`.
- Mute.PressTwiceRestores: it holds only for 0/1 mute flags and unique indices, which the sound server guarantees but the plugin does not check.
- VolumeAdjust.PressFloorsFirstMatch: it assumes the sound server gives sinks unique indices.
