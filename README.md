# fm-dx client core in Dafny

This project models the core logic of the fm-dx Android client, an app that controls a remote FM-DX webserver tuner and plays its audio. It also proves properties of that logic. The model covers these parts:

- **The session view model** (`MainViewModel`).
  - The fifteen-field screen state (`UiState`).
  - Connecting, including the server-URL clean-up, and the connect result.
  - Disconnecting.
  - Tune, equaliser, IMS and antenna commands, and the antenna label.
  - The RDS reset after a retune.
  - Merging tuner-state updates.
  - The spectrum refresh and the plugin scan with its polling loop.
  - Persisting and restoring settings.
  - The command flow: a `MutableSharedFlow` with 64 extra slots that drops its oldest entry when full. A collector forwards its commands, in order, to the control socket.
- **The playback service** (`PlaybackService`).
  - The buffer profile computed from the two buffer preferences.
  - The preference-key filter.
  - Applying the latest settings.
  - Swapping to a freshly built player that keeps the old player's queue, position and play state.
- **The frequency picker arithmetic** of `MainActivity`.
  - Resolving the tuning range.
  - The MHz and decimal wheel bounds.
  - The initial selection.
  - The debounced tune request.
  - The wheel-wrap and clamping effects.
- **RDS text display.**
  - Radiotext padding to 64 characters.
  - Blanking a PI code that has an unknown digit.
  - Dimming characters that carry an error count.
- **The signal unit enum** and its lookups by display name and by name.
- **The tab-index clamp and the tab state controller** that the unit tests pin down.

Modules, one per file:

| Module | Contents |
|---|---|
| `Wrappers` | `Option` and `Result` |
| `KotlinStd` | The Kotlin standard-library operations the code relies on |
| `SignalUnits` | The signal unit enum and its lookups |
| `Tabs` | The tab-index clamp and the tab state controller |
| `FrequencyPicker` | The picker arithmetic |
| `RdsText` | RDS text display |
| `Playback` | The playback service |
| `Commands` | The wire commands and the command buffer |
| `Urls` | URL clean-up |
| `Session` | The screen state and its pure transitions |
| `ViewModel` | The `MainViewModel` class |

Kotlin semantics are written out explicitly:

- `/` and `%` truncate toward zero: `TruncDiv` and `TruncRem`.
- `coerceIn` requires `lo <= hi`: `CoerceIn`.
- `Int` wraps around at 32 bits: `Wrap32`, used wherever the model relies on it.

Objects whose fields the code updates in place are classes:

- `MainViewModel`
- `PlaybackService`
- `TabStateController`
- the picker's remembered `selectedMHz` / `selectedDecimalIndex`, as `FrequencySelection`

Everything else is a value.

Paths in the table below are relative to the repository root.

The table lists the members that carry a contract. Definitions without one (such as `Playback.TriggersReconfiguration`, `Playback.ProfileFor`, `Session.IsRetune` and `Tabs.TabStateController.Save`) appear in the contracts of the members that use them.

## Model

| member | source | states |
|---|---|---|
| SignalUnits.FromDisplayName | android/app/src/main/java/org/fmdx/app/model/SignalUnit.kt:9-10 | The result is the first entry whose display name matches; when no entry matches, the result is `DBF` |
| SignalUnits.FromName | android/app/src/main/java/org/fmdx/app/MainViewModel.kt:473-474 | The first entry whose enum name matches, or `DBF` when none does |
| SignalUnits.FirstIndexWhere | android/app/src/main/java/org/fmdx/app/model/SignalUnit.kt:10 | `firstOrNull`: the returned index matches, every earlier index does not, and `None` means that no index matches |
| SignalUnits.EveryUnitIsAnEntry | android/app/src/main/java/org/fmdx/app/model/SignalUnit.kt:3-6 | Every unit appears in `entries` |
| SignalUnits.NoEntryHasDisplayName | android/app/src/main/java/org/fmdx/app/model/SignalUnit.kt:9-10 | A display name that no entry carries is the display name of no unit, which is when the lookup falls back to `DBF` |
| SignalUnits.NoEntryHasName | android/app/src/main/java/org/fmdx/app/MainViewModel.kt:473-474 | An enum name that no entry carries is the name of no unit |
| SignalUnits.EntriesAreAllUnitsWithDistinctNames | android/app/src/main/java/org/fmdx/app/model/SignalUnit.kt:3-6 | The three entries are `DBF`, `DBUV`, `DBM` in declaration order, with pairwise distinct display names and names |
| SignalUnits.FromDisplayNameRoundTrip | android/app/src/main/java/org/fmdx/app/model/SignalUnit.kt:9-10 | Looking up a unit's own display name gives that unit back |
| SignalUnits.FromNameRoundTrip | android/app/src/main/java/org/fmdx/app/MainViewModel.kt:473-474 | A unit persisted by name is restored as itself |
| Tabs.ClampTabIndex | android/fm-dx-app/src/test/java/org/fmdx/app/MainActivityTest.kt:9-34 | With no tabs the result is 0; otherwise it is a valid index, equal to the page when the page is in range, 0 below the range and the last index above it |
| Tabs.TabStateController.constructor | android/fm-dx-app/src/test/java/org/fmdx/app/TabStateControllerTest.kt:11 | A new controller has the given page count and shows tab 0 |
| Tabs.TabStateController.SelectTab | android/fm-dx-app/src/test/java/org/fmdx/app/TabStateControllerTest.kt:9-21 | The selected tab becomes the request clamped into the page range; the page count is unchanged |
| Tabs.TabStateController.OnPagerPageChanged | android/fm-dx-app/src/test/java/org/fmdx/app/TabStateControllerTest.kt:24-31 | The selected tab follows the pager's page, clamped into range |
| Tabs.TabStateController.Reset | android/fm-dx-app/src/test/java/org/fmdx/app/TabStateControllerTest.kt:34-41 | The selection returns to the first tab |
| Tabs.TabStateController.Restore | android/fm-dx-app/src/test/java/org/fmdx/app/TabStateControllerTest.kt:44-49 | The saver restores a fresh, non-null controller whose selection is the saved index clamped into the page range |
| Tabs.SaveRestoreRoundTrip | android/fm-dx-app/src/test/java/org/fmdx/app/TabStateControllerTest.kt:44-49 | Saving a valid controller and restoring with the same page count gives back the same selection |
| FrequencyPicker.ResolveRange | android/app/src/main/java/org/fmdx/app/MainActivity.kt:687-692 | The step falls back to 100 kHz unless positive; the minimum falls back to 65000 kHz unless positive; the maximum falls back to 108000 kHz unless the tuner's value is at least the minimum, then is raised to the minimum; the resolved range is always valid |
| FrequencyPicker.TuningRange.DecimalSteps | android/app/src/main/java/org/fmdx/app/MainActivity.kt:704 | At least one position. For a step up to 1000 kHz, as many steps as fit in one MHz. One position for steps above 500 kHz |
| FrequencyPicker.MhzBoundsOrdered | android/app/src/main/java/org/fmdx/app/MainActivity.kt:701-702 | The MHz bounds are non-negative and in order |
| FrequencyPicker.MinDecimalIndexFor | android/app/src/main/java/org/fmdx/app/MainActivity.kt:706-716 | The lowest decimal index is within `[0, steps-1]`. It is 0 for a one-step wheel and for any MHz other than the band's lowest. On the band's lowest MHz, including a band inside one MHz, it is the lower-edge index capped at `steps-1` |
| FrequencyPicker.EdgeIndicesOrdered | android/app/src/main/java/org/fmdx/app/MainActivity.kt:710-722 | For a band inside one MHz, the lower edge's decimal index is not above the upper edge's, so that MHz's `min`/`max` pair taken by both pickers is the lower and the upper edge |
| FrequencyPicker.MaxDecimalIndexFor | android/app/src/main/java/org/fmdx/app/MainActivity.kt:718-729 | The highest decimal index is at least the lowest and at most `steps-1`. It is `steps-1` for any MHz other than the band's highest. On the band's highest MHz, including a band inside one MHz, it is the upper-edge index capped at `steps-1` |
| FrequencyPicker.TuneRequestKHz | android/app/src/main/java/org/fmdx/app/MainActivity.kt:744-746 | The requested frequency `mhz*1000 + index*step` when it lies in the band. A request below the band gives the band's bottom, one above it gives the top |
| FrequencyPicker.InitialSelection | android/app/src/main/java/org/fmdx/app/MainActivity.kt:731-738 | The wheels start on the current frequency's MHz, clamped to the band. The decimal index is `(f % 1000) / step` with Kotlin's truncating operators, clamped to that MHz's bounds: itself within them, the lower bound below them, the upper bound above them |
| FrequencyPicker.StepsBelowOneMhz | android/app/src/main/java/org/fmdx/app/MainActivity.kt:704 | Any in-bounds decimal offset stays below one MHz |
| FrequencyPicker.PickerPositionNearBand | android/app/src/main/java/org/fmdx/app/MainActivity.kt:744-745 | Every in-bounds wheel position requests a frequency no higher than the band's top and less than one MHz below its bottom |
| FrequencyPicker.GridIndexInBounds | android/app/src/main/java/org/fmdx/app/MainActivity.kt:731-738 | An in-band frequency on the step grid has its MHz and step index within the picker bounds |
| FrequencyPicker.InitialSelectionRoundTrip | android/app/src/main/java/org/fmdx/app/MainActivity.kt:731-746 | For an in-band frequency on the step grid (step dividing 1000), the initial selection requests that same frequency back |
| FrequencyPicker.DecimalWheelChange | android/app/src/main/java/org/fmdx/app/MainActivity.kt:871-887 | A forward wrap from the last decimal to 0 moves up one MHz (capped at the maximum). A backward wrap moves down one (floored at the minimum). The new index is the wheel value clamped to the bounds of the resulting MHz: the value itself within them, the lower bound below them, the upper bound above them |
| FrequencyPicker.DecimalWheelKeepsBounds | android/app/src/main/java/org/fmdx/app/MainActivity.kt:871-887 | From an in-band MHz, any wheel change leaves the selection within the picker bounds |
| FrequencyPicker.ForwardWrapRaisesFrequency | android/app/src/main/java/org/fmdx/app/MainActivity.kt:874-875 | Wrapping forward below the top MHz requests a strictly higher frequency than the last decimal it left |
| FrequencyPicker.FrequencySelection.constructor | android/app/src/main/java/org/fmdx/app/MainActivity.kt:698-699 | Both remembered wheel values start at 0 |
| FrequencyPicker.FrequencySelection.SyncToFrequency | android/app/src/main/java/org/fmdx/app/MainActivity.kt:731-738 | The wheels are set to the initial selection for the current frequency |
| FrequencyPicker.FrequencySelection.OnMhzValueChanged | android/app/src/main/java/org/fmdx/app/MainActivity.kt:826-828 | The selected MHz is the wheel value offset by the minimum MHz; the decimal index is unchanged |
| FrequencyPicker.FrequencySelection.ClampToRange | android/app/src/main/java/org/fmdx/app/MainActivity.kt:765-777 | The MHz is clamped to the band, then the decimal index to that MHz's bounds, leaving the selection in bounds |
| FrequencyPicker.FrequencySelection.OnDecimalValueChanged | android/app/src/main/java/org/fmdx/app/MainActivity.kt:871-887 | The selection becomes the decimal wheel change of the old selection |
| FrequencyPicker.FrequencySelection.TuneRequest | android/app/src/main/java/org/fmdx/app/MainActivity.kt:744-746 | The debounced request for the remembered selection lies within the band |
| RdsText.PadToRadiotextLength | android/app/src/main/java/org/fmdx/app/MainActivity.kt:1281-1289 | Exactly 64 characters: the first 64 of the text, padded with spaces |
| RdsText.PadToRadiotextLengthIdempotent | android/app/src/main/java/org/fmdx/app/MainActivity.kt:1283-1289 | Padding padded text changes nothing |
| RdsText.PiDisplay | android/app/src/main/java/org/fmdx/app/MainActivity.kt:1260-1261 | A PI code with an unknown digit `?` shows as four spaces; otherwise the code or the placeholder is shown unchanged |
| RdsText.PiDisplayHasNoUnknownDigit | android/app/src/main/java/org/fmdx/app/MainActivity.kt:1261 | The shown PI never contains `?` |
| RdsText.ShownText | android/app/src/main/java/org/fmdx/app/MainActivity.kt:1430 | Empty text shows as one space; other text is unchanged; the result is never empty |
| RdsText.AnnotateErrors | android/app/src/main/java/org/fmdx/app/MainActivity.kt:1430-1441 | One styled character per shown character, in order. A character is dimmed exactly when its error count exists and is positive |
| Playback.ManualProfile | android/fm-dx-app/src/main/java/org/fmdx/app/audio/PlaybackService.kt:153-167 | Chunks are clamped to `[1, 16]` and kept when in range. Min buffer is at least 500 ms and equals the preference above it. Max buffer is at least min + 300. Playback buffer is at least 250 ms and below the maximum. Rebuffer equals min |
| Playback.ManualProfileMonotone | android/fm-dx-app/src/main/java/org/fmdx/app/audio/PlaybackService.kt:155-159 | A larger player-buffer preference never gives a smaller buffer |
| Playback.ManualProfileInt32 | android/fm-dx-app/src/main/java/org/fmdx/app/audio/PlaybackService.kt:153-167 | The profile as computed in 32-bit `Int`. It agrees with the intended profile for every preference up to `0x3fff_ffff` |
| Playback.ManualProfileInt32Overflows | android/fm-dx-app/src/main/java/org/fmdx/app/audio/PlaybackService.kt:157 | At `Int.MAX_VALUE` the 32-bit maximum buffer wraps to -2, below the minimum buffer |
| Playback.OtherKeysDoNotReconfigure | android/fm-dx-app/src/main/java/org/fmdx/app/audio/PlaybackService.kt:48-53 | Only the two buffer keys trigger a reconfiguration; a null key and the app's other keys do not |
| Playback.BuildPlayer | android/fm-dx-app/src/main/java/org/fmdx/app/audio/PlaybackService.kt:136-151 | A new player carries the profile, has an empty queue and is neither prepared nor playing |
| Playback.Reseeded | android/fm-dx-app/src/main/java/org/fmdx/app/audio/PlaybackService.kt:113-130 | The new player has the new profile and the old player's items, index, position and play-when-ready. It is prepared, and play is called exactly when the old player was set to play |
| Playback.ReseededTwice | android/fm-dx-app/src/main/java/org/fmdx/app/audio/PlaybackService.kt:109-134 | Two successive swaps give the same player as one swap to the second profile |
| Playback.PlaybackService.constructor | android/fm-dx-app/src/main/java/org/fmdx/app/audio/PlaybackService.kt:55-72 | `onCreate`: the session's player is built from the stored preferences' profile, and that profile is the current one |
| Playback.PlaybackService.RecreatePlayerWithProfile | android/fm-dx-app/src/main/java/org/fmdx/app/audio/PlaybackService.kt:109-134 | Without a session nothing changes. Otherwise the session gets the reseeded player, the old player is released, and the profile becomes current. The new player's id differs from every released player's |
| Playback.PlaybackService.ApplyLatestSettings | android/fm-dx-app/src/main/java/org/fmdx/app/audio/PlaybackService.kt:97-107 | With a session and a profile that differs from the current one, the session gets the reseeded player, the old player is released, the profile becomes current and one player id is used. Otherwise nothing changes |
| Playback.PlaybackService.OnPreferenceChanged | android/fm-dx-app/src/main/java/org/fmdx/app/audio/PlaybackService.kt:48-53 | A buffer key behaves as `ApplyLatestSettings`: the reseeded player, the release, the new profile and the next id when the profile changed and a session exists. Any other key, an unchanged profile or a missing session changes nothing |
| Playback.PlaybackService.OnDestroy | android/fm-dx-app/src/main/java/org/fmdx/app/audio/PlaybackService.kt:85-95 | The session's player is released and the session is cleared |
| Playback.ApplyTwiceSwapsAtMostOnce | android/fm-dx-app/src/main/java/org/fmdx/app/audio/PlaybackService.kt:97-107 | Applying the same settings twice releases at most one player. With a session, the settings' profile is then current and the queue and position are kept |
| Commands.Encode | android/app/src/main/java/org/fmdx/app/MainViewModel.kt:207-257 | `T<kHz>`, `G<eq><ims>` with 0/1 digits, and `Z<index>` |
| Commands.DecodeEncode | android/app/src/main/java/org/fmdx/app/MainViewModel.kt:207-257 | Every command line reads back as the command it was built from |
| Commands.EncodeInjective | android/app/src/main/java/org/fmdx/app/MainViewModel.kt:207-257 | Different commands are different lines |
| Commands.Enqueue | android/app/src/main/java/org/fmdx/app/MainViewModel.kt:50 | `tryEmit` with a collector: the buffer is the newest 64 of the old buffer and the command, and ends in the command |
| Commands.EnqueueAllKeepsNewest | android/app/src/main/java/org/fmdx/app/MainViewModel.kt:358-360 | Any run of sends leaves the newest 64 of everything buffered and sent, in send order |
| Urls.WithHttpScheme | android/app/src/main/java/org/fmdx/app/MainViewModel.kt:407-413 | The result always starts with `http://` or `https://`, ignoring case |
| Urls.SchemeSeparatorAt | android/app/src/main/java/org/fmdx/app/MainViewModel.kt:410-411 | After a scheme of letters, `substringAfter("://")` is the text right after that scheme's `://` |
| Urls.WithHttpSchemeCases | android/app/src/main/java/org/fmdx/app/MainViewModel.kt:407-413 | In the order the code tries them: `http`/`https` URLs are kept; `ws://x` becomes `http://x`; `wss://x` becomes `https://x`; anything else gets `http://` in front |
| Urls.WithoutRootSlash | android/app/src/main/java/org/fmdx/app/MainViewModel.kt:418-424 | For a root path, the result is the canonical text with only trailing slashes removed, and it does not end in `/`. Any other path keeps the text unchanged |
| Urls.SanitizeUrl | android/app/src/main/java/org/fmdx/app/MainViewModel.kt:401-427 | A blank input gives "Server URL is required", both ways. A URL the parser rejects gives "Invalid server URL", both ways. An accepted URL gives the parser's text after the slash step |
| Session.BaselineSpectrum | android/app/src/main/java/org/fmdx/app/MainViewModel.kt:442-450 | 501 points, each with signal 0 |
| Session.InitialUiState | android/app/src/main/java/org/fmdx/app/MainViewModel.kt:498-514 | The default screen state: disconnected, no tuner, empty URL, no messages, `DBF`, buffers 2 and 2000, restart on tune, baseline spectrum |
| Session.EnsureSpectrum | android/app/src/main/java/org/fmdx/app/MainViewModel.kt:429-431 | The result is never empty: the baseline when there are no points, otherwise the points unchanged |
| Session.EnsureSpectrumIdempotent | android/app/src/main/java/org/fmdx/app/MainViewModel.kt:429-431 | Ensuring twice is ensuring once |
| Session.Disconnected | android/app/src/main/java/org/fmdx/app/MainViewModel.kt:176-186 | The state is fresh except for URL and settings: baseline spectrum, status "Disconnected", nothing connected |
| Session.DisconnectedIdempotent | android/app/src/main/java/org/fmdx/app/MainViewModel.kt:167-187 | Disconnecting twice is disconnecting once |
| Session.ConnectRequest | android/app/src/main/java/org/fmdx/app/MainViewModel.kt:107-109 | The request is ignored exactly while a connection attempt is under way |
| Session.ConnectRequestCases | android/app/src/main/java/org/fmdx/app/MainViewModel.kt:107-131 | A blank URL is refused as required. Any refusal sets only the error message. A launch installs the sanitized URL with the Connecting status and no error. Every URL that sanitizes is launched |
| Session.ConnectionName | android/app/src/main/java/org/fmdx/app/MainViewModel.kt:136 | The tuner's name when it is not blank, else the URL |
| Session.Connected | android/app/src/main/java/org/fmdx/app/MainViewModel.kt:138-149 | The fetched tuner info is stored, with the antenna names. The state is connected and not connecting, with no error and status "Connected to <name>". Every other field (tuner state, spectrum, scanning and audio flags, settings) is kept as it was |
| Session.ConnectFailed | android/app/src/main/java/org/fmdx/app/MainViewModel.kt:155-162 | The state is neither connected nor connecting. The error is the message; the status is the message or "Connection failed" |
| Session.ConnectAttemptSettles | android/app/src/main/java/org/fmdx/app/MainViewModel.kt:107-164 | A launched attempt always ends the connecting phase, whether it succeeds or fails |
| Session.WithTunerState | android/app/src/main/java/org/fmdx/app/MainViewModel.kt:317-325 | The tuner state is replaced. Antennas are filled from the tuner info only when none are known. Nothing else changes |
| Session.WithTunerStateLastWins | android/app/src/main/java/org/fmdx/app/MainViewModel.kt:317-325 | Of two updates, the later one is what remains |
| Session.WithRdsReset | android/app/src/main/java/org/fmdx/app/MainViewModel.kt:362-373 | With a tuner state, only its PS and both radiotext lines are emptied. Without one, nothing changes |
| Session.WithRdsResetKeepsTuning | android/app/src/main/java/org/fmdx/app/MainViewModel.kt:362-373 | The reset keeps frequency, PI, flags, antenna and the error counts, and is idempotent |
| Session.ToggleEqCommand | android/app/src/main/java/org/fmdx/app/MainViewModel.kt:242-247 | The equaliser flag is flipped and IMS is kept |
| Session.ToggleImsCommand | android/app/src/main/java/org/fmdx/app/MainViewModel.kt:235-240 | The IMS flag is flipped and the equaliser is kept |
| Session.ToggleTwiceRestores | android/app/src/main/java/org/fmdx/app/MainViewModel.kt:235-247 | Once the tuner reports a toggled flag, toggling again sends the original flags |
| Session.AntennaCount | android/app/src/main/java/org/fmdx/app/MainViewModel.kt:251-252 | The list length, or 1 for the `Default` list when none are known; always positive |
| Session.NextAntenna | android/app/src/main/java/org/fmdx/app/MainViewModel.kt:253-254 | `(current + 1) % count` in 32-bit Kotlin arithmetic. The result lies strictly between `-count` and `count`, and for a valid index it is again a valid index |
| Session.NextAntennaCycles | android/app/src/main/java/org/fmdx/app/MainViewModel.kt:249-257 | Cycling `count` times from a valid index returns to it |
| Session.AntennaLabel | android/app/src/main/java/org/fmdx/app/MainViewModel.kt:395-399 | The name at the current index when it is in range, else "Default" |
| Session.WithAntenna | android/app/src/main/java/org/fmdx/app/MainViewModel.kt:256 | Only the tuner state's antenna index changes, and only when there is a tuner state |
| Session.CycledLabelNamesAntenna | android/app/src/main/java/org/fmdx/app/MainViewModel.kt:249-257 | After cycling with known antennas, the label is the name of the antenna the command selected |
| Session.RefreshedSpectrum | android/app/src/main/java/org/fmdx/app/MainViewModel.kt:297-307 | A successful fetch sets the ensured spectrum; a failure sets only the error message |
| Session.ScanPolls | android/app/src/main/java/org/fmdx/app/MainViewModel.kt:268-284 | The poll loop leaves a non-empty spectrum and changes only spectrum and error message |
| Session.ScannedState | android/app/src/main/java/org/fmdx/app/MainViewModel.kt:263-286 | A whole scan ends not scanning, with a non-empty spectrum. Only the spectrum, the error message and the scanning flag can differ |
| Session.ScanPollsAllFailed | android/app/src/main/java/org/fmdx/app/MainViewModel.kt:268-284 | When every poll fails, the spectrum is the ensured old spectrum and the error is the last failure's message |
| Session.ScanPollsFirstFetchCommits | android/app/src/main/java/org/fmdx/app/MainViewModel.kt:268-280 | The first successful poll ends the loop. Its points become the spectrum, and later outcomes are ignored |
| Session.ScanOutcomes | android/app/src/main/java/org/fmdx/app/MainViewModel.kt:259-287 | A scan with failures followed by a success shows that success's points |
| Session.PersistSettings | android/app/src/main/java/org/fmdx/app/MainViewModel.kt:463-470 | All four settings are stored and the server URL is untouched |
| Session.RestoredSettings | android/app/src/main/java/org/fmdx/app/MainViewModel.kt:472-486 | A stored unit name is restored as that unit. A missing or unknown one gives `DBF`. Buffers default to 2 and 2000, restart defaults to true. Only these four fields change |
| Session.RestoredServerUrl | android/app/src/main/java/org/fmdx/app/MainViewModel.kt:457-461 | No stored URL leaves the state unchanged. A stored one is restored sanitized, or as stored when it does not sanitize |
| Session.PersistedSettingsRoundTrip | android/app/src/main/java/org/fmdx/app/MainViewModel.kt:463-486 | Settings persisted and restored are the settings that were set |
| ViewModel.MainViewModel.constructor | android/app/src/main/java/org/fmdx/app/MainViewModel.kt:69-73 | `init` restores the URL and then the settings, with no sockets, collector or queued player item |
| ViewModel.MainViewModel.UpdateServerUrl | android/app/src/main/java/org/fmdx/app/MainViewModel.kt:91-93 | Only the screen state's server URL changes. The method may modify nothing but the screen state, so sockets, collector, buffer, player and preferences are unchanged |
| ViewModel.MainViewModel.UpdateSettings | android/app/src/main/java/org/fmdx/app/MainViewModel.kt:95-105 | The four settings are set on screen and persisted. The method may modify only the screen state and the preferences, so sockets, collector, buffer and player are unchanged |
| ViewModel.MainViewModel.Connect | android/app/src/main/java/org/fmdx/app/MainViewModel.kt:107-131 | The state follows `ConnectRequest`. A launched URL is returned and persisted; otherwise the preferences are unchanged |
| ViewModel.MainViewModel.CompleteConnect | android/app/src/main/java/org/fmdx/app/MainViewModel.kt:132-164 | With the info and both sockets opening: connected state, both sockets open, a fresh collector with an empty buffer, then one spectrum refresh. A control socket that throws: the failed state over the connected copy, no collector, an empty buffer. A plugin socket that throws: the same state, with the control socket and its collector running. A failed fetch: only the failed state |
| ViewModel.MainViewModel.StartControlConnection | android/app/src/main/java/org/fmdx/app/MainViewModel.kt:309-347 | The buffer empties. A successful connect call opens the socket and starts a new collector; one that throws leaves the socket reference as it was and no collector |
| ViewModel.MainViewModel.StartPluginConnection | android/app/src/main/java/org/fmdx/app/MainViewModel.kt:349-356 | A successful connect call sets the plugin socket; one that throws leaves it as it was |
| ViewModel.MainViewModel.SendCommand | android/app/src/main/java/org/fmdx/app/MainViewModel.kt:358-360 | With a collector, the command is buffered with drop-oldest; without one it is discarded |
| ViewModel.MainViewModel.ForwardCommand | android/app/src/main/java/org/fmdx/app/MainViewModel.kt:341-346 | The collector hands the oldest buffered command to the control socket |
| ViewModel.MainViewModel.Disconnect | android/app/src/main/java/org/fmdx/app/MainViewModel.kt:167-187 | Sockets are closed, the collector stops and the buffer is dropped. The player is stopped and cleared when present. The state becomes `Disconnected`. Sent commands, preferences and the scan-request count are kept |
| ViewModel.MainViewModel.OnControlClosed | android/app/src/main/java/org/fmdx/app/MainViewModel.kt:326-329 | A closed control socket disconnects the session: the same new state as `Disconnect`, the player stopped and cleared when present, with sent commands, preferences and the scan-request count kept |
| ViewModel.MainViewModel.RefreshAudioStream | android/app/src/main/java/org/fmdx/app/MainViewModel.kt:220-233 | The URL becomes the player's item. It plays if it was playing or play is forced. Without a controller nothing changes |
| ViewModel.MainViewModel.ToggleAudio | android/app/src/main/java/org/fmdx/app/MainViewModel.kt:189-200 | Only when connected with a controller: a playing player pauses, otherwise the stream is refreshed and played |
| ViewModel.MainViewModel.OnIsPlayingChanged | android/app/src/main/java/org/fmdx/app/MainViewModel.kt:81-83 | The screen's audio flag follows the player |
| ViewModel.MainViewModel.ResetRds | android/app/src/main/java/org/fmdx/app/MainViewModel.kt:362-373 | The state becomes `WithRdsReset` of the old state |
| ViewModel.MainViewModel.TuneToFrequency | android/app/src/main/java/org/fmdx/app/MainViewModel.kt:207-218 | Tuning to the current frequency does nothing. Otherwise it sends `T<kHz>`, resets RDS and, when set, refreshes the audio. With a controller, that loads the stream and keeps the playing flag; without one, the player is untouched. Tuning without the restart setting leaves the player as it was |
| ViewModel.MainViewModel.ToggleIms | android/app/src/main/java/org/fmdx/app/MainViewModel.kt:235-240 | With a tuner state, sends the IMS toggle command; the screen state is unchanged |
| ViewModel.MainViewModel.ToggleEq | android/app/src/main/java/org/fmdx/app/MainViewModel.kt:242-247 | With a tuner state, sends the equaliser toggle command; the screen state is unchanged |
| ViewModel.MainViewModel.CycleAntenna | android/app/src/main/java/org/fmdx/app/MainViewModel.kt:249-257 | With a tuner state, sends `Z<next>` and records `next` as the antenna index |
| ViewModel.MainViewModel.OnState | android/app/src/main/java/org/fmdx/app/MainViewModel.kt:317-325 | Tuner-state updates are merged by `WithTunerState` |
| ViewModel.MainViewModel.OnControlError | android/app/src/main/java/org/fmdx/app/MainViewModel.kt:330-338 | The message becomes both the error and the status |
| ViewModel.MainViewModel.OnPluginError | android/app/src/main/java/org/fmdx/app/MainViewModel.kt:352-355 | The message becomes the error |
| ViewModel.MainViewModel.RefreshSpectrum | android/app/src/main/java/org/fmdx/app/MainViewModel.kt:289-307 | A blank URL does nothing; otherwise one fetch is applied as `RefreshedSpectrum` describes |
| ViewModel.MainViewModel.RequestSpectrumScan | android/app/src/main/java/org/fmdx/app/MainViewModel.kt:259-287 | Without a plugin socket or URL nothing happens. Otherwise one scan request is sent, and the poll loop gives exactly `ScannedState` |
| ViewModel.SendAllThenForward | android/app/src/main/java/org/fmdx/app/MainViewModel.kt:341-360 | For any run of commands and any starting buffer, after one forward: what was sent, then what is buffered, is what was sent before followed by the newest 64 of the old buffer and the commands, in order. Without a collector nothing moves |

## Left out

- Floating point:
  - The tuner state's MHz bounds, and the `valueMHz * 1000` conversion in `tuneToFrequency`. `TuningRange` and `TuneToFrequency` take kHz integers.
  - `tuneStep`.
  - `formatSignal`.
  - The baseline spectrum's frequency values. Only its 501 points at signal 0 are modelled.
- The OkHttp URL parser is a function parameter `parse` of the URL members. Its behaviour is not modelled; `Urls.SanitizeUrl` is stated for every parser.
- Coroutines, the `Mutex`, the dispatchers and the 400 ms debounce: every callback is an atomic step. The scan's 500 ms delays and 10 s deadline are replaced by a list of at most 20 poll outcomes.
- The network is left out. The tuner-info fetch, the spectrum fetches and the sockets' messages are parameters: `fetched`, `spectrumOutcome`, `PollOutcome`.
- Which exception types reach the connect handler's `catch` is not modelled. A failed fetch is an `Err` with its message, and a socket's connect call either opens or throws with a message (`Opening`). `refreshSpectrum` catches its own failures.
- The old control socket that `startControlConnection` closes may call its `onClosed` callback later. That deferred `disconnect` is not modelled.
- `TunerState`, `TunerInfo` and `SpectrumPoint` are declared elsewhere in the repository; those files are not part of this model. They carry only the fields the core reads.
- ExoPlayer, MediaSession and MediaController internals are not modelled.
  - A player is a record of its profile, queue, index, position, play-when-ready, prepared flag and whether `play()` was called.
  - `WebSocketMediaSourceFactory` and `DefaultLoadControl` only receive the profile.
  - `onTaskRemoved` and the session callback's playback resumption are not modelled.
- `ViewModel.MainViewModel.controllerReady` is fixed when the view model is built. In the app the MediaController future completes some time after `init`, so a controller that becomes ready during a session is not modelled.
- `SharedPreferences` is a `Preferences` record (view model) and an `int` map (playback service).
- `MIN_PLAYER_BUFFER_MS` and `MAX_NETWORK_BUFFER_CHUNKS` are defined in repository files that are not part of this model. The model uses 500 and 16.
- `Tabs.TabStateController`: its Kotlin source is not part of this model. It is built from its tests. Clamping in `OnPagerPageChanged` and in `Restore` is an assumption the tests neither confirm nor rule out.
- All Compose, `NumberPicker` and logging code is left out. So is the initial-frequency fallback to `pendingFrequencyMHz` (a floating-point value): `InitialSelection` takes the resolved kHz.
- Case-insensitive prefix matching folds ASCII letters only.
- RdsText.PadToRadiotextLength: counts Unicode scalar values, while Kotlin's `take(64)` and `padEnd(64)` count UTF-16 code units. For radiotext with a character outside the Basic Multilingual Plane, Kotlin can keep half a surrogate pair and counts that character twice; the model counts it once.
- RdsText.AnnotateErrors: pairs error `i` with character `i` of the text as scalar values. Kotlin's `forEachIndexed` and `errors.getOrNull(index)` work by UTF-16 index, so its lookup shifts by one after each character outside the Basic Multilingual Plane.
- `Commands.Decode` is the model's own reading of the wire format, to state that `Encode` is injective. The client never decodes commands.
- Frequency arithmetic (`mhz * 1000` and the like) uses unbounded integers, because the tuning ranges involved are far below 32-bit limits. 32-bit wrap-around is modelled only in `NextAntenna` and in `ManualProfileInt32`.

Where the model follows the code rather than the app's described behaviour:

- `requestSpectrumScan` has no guard against a scan that is already running.
- The scan loop stops at the first successful fetch, even an empty one, which then shows the baseline.
- `connect` checks only `isConnecting`, so it runs again while connected.
- A failed player build leaves no rollback. The service has no error path for it.

## Findings

| source | as written | input that shows it | evidently intended | confidence | as-written member | corrected member |
|---|---|---|---|---|---|---|
| android/fm-dx-app/src/main/java/org/fmdx/app/audio/PlaybackService.kt:157 | `(base * 2).coerceAtLeast(minBuffer + 300)` in 32-bit `Int`: both sums wrap around | `playerBufferMs = 2147483647`: max buffer -2, min buffer 2147483647 | max buffer at least min buffer + 300 | not executed | Playback.ManualProfileInt32Overflows | Playback.ManualProfile |
