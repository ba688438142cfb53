/**
 * The session's view model: the screen state it publishes, the persisted
 * preferences, the two sockets, the command flow with its collector, and the
 * media controller's player as far as the session drives it.
 */
module ViewModel {
  import opened Wrappers
  import opened KotlinStd
  import opened SignalUnits
  import opened Urls
  import opened Commands
  import opened Session

  /** How opening a socket went: it opened, or the repository's connect call threw with this message. */
  datatype Opening = Opened | Threw(message: Option<string>)

  class MainViewModel {
    /** `_uiState.value`. */
    var uiState: UiState
    /** The preference store. */
    var preferences: Preferences
    /** `controlConnection != null` and `pluginConnection != null`. */
    var controlOpen: bool
    var pluginOpen: bool
    /** `commandJob` is collecting `commandFlow`. */
    var collecting: bool
    /** The commands emitted but not yet taken by the collector, oldest first. */
    var commandBuffer: seq<string>
    /** Every line the collector has handed to the control connection, oldest first. */
    var sent: seq<string>
    /** Whether the media controller future has completed. */
    const controllerReady: bool
    /** The controller's player: its current media id and whether it plays. */
    var playerMediaId: Option<string>
    var playerPlaying: bool
    /** How often the plugin socket was asked to start a scan. */
    var scanRequests: nat

    /** The flow holds at most 64 commands, and only while a collector runs on an open control socket. */
    ghost predicate Valid()
      reads this`commandBuffer, this`collecting, this`controlOpen
    {
      && |commandBuffer| <= COMMAND_BUFFER_CAPACITY
      && (!collecting ==> commandBuffer == [])
      && (collecting ==> controlOpen)
    }

    /** `init`: restore the persisted server URL and settings into a fresh state. */
    constructor (preferences: Preferences, parse: string -> Option<ParsedUrl>, controllerReady: bool)
      ensures Valid()
      ensures uiState == RestoredSettings(RestoredServerUrl(InitialUiState(), preferences, parse), preferences)
      ensures this.preferences == preferences && this.controllerReady == controllerReady
      ensures !controlOpen && !pluginOpen && !collecting && sent == [] && playerMediaId.None? && !playerPlaying
    {
      this.preferences := preferences;
      this.controllerReady := controllerReady;
      uiState := InitialUiState();
      controlOpen, pluginOpen, collecting := false, false, false;
      commandBuffer, sent := [], [];
      playerMediaId, playerPlaying := None, false;
      scanRequests := 0;
      new;
      uiState := RestoredServerUrl(uiState, preferences, parse);
      uiState := RestoredSettings(uiState, preferences);
    }

    /** `updateServerUrl`. */
    method UpdateServerUrl(url: string)
      modifies this`uiState
      ensures uiState == old(uiState).(serverUrl := url)
    {
      uiState := uiState.(serverUrl := url);
    }

    /** `updateSettings`: show the new settings and persist them. */
    method UpdateSettings(unit: SignalUnit, networkBuffer: int, playerBuffer: int, restartAudioOnTune: bool)
      modifies this`uiState, this`preferences
      ensures uiState == old(uiState).(signalUnit := unit, networkBuffer := networkBuffer,
        playerBuffer := playerBuffer, restartAudioOnTune := restartAudioOnTune)
      ensures preferences == PersistSettings(old(preferences), unit, networkBuffer, playerBuffer, restartAudioOnTune)
    {
      uiState := uiState.(signalUnit := unit, networkBuffer := networkBuffer,
                          playerBuffer := playerBuffer, restartAudioOnTune := restartAudioOnTune);
      preferences := PersistSettings(preferences, unit, networkBuffer, playerBuffer, restartAudioOnTune);
    }

    /**
     * `connect`'s synchronous part. `launched` is the sanitized URL the
     * tuner-info fetch is started for, if one is started; that URL is also
     * persisted. The command flow is not touched, so `Valid` is kept by the frame.
     */
    method Connect(parse: string -> Option<ParsedUrl>) returns (launched: Option<string>)
      modifies this`uiState, this`preferences
      ensures ConnectRequest(old(uiState), parse).Ignored? ==>
        uiState == old(uiState) && launched.None? && preferences == old(preferences)
      ensures ConnectRequest(old(uiState), parse).Refused? ==>
        uiState == ConnectRequest(old(uiState), parse).state && launched.None? && preferences == old(preferences)
      ensures ConnectRequest(old(uiState), parse).Launched? ==>
        && uiState == ConnectRequest(old(uiState), parse).state
        && launched == Some(ConnectRequest(old(uiState), parse).sanitized)
        && preferences == old(preferences).(lastServerUrl := launched)
    {
      launched := None;
      var current := uiState;
      if current.isConnecting {
        return;
      }
      var rawUrl := current.serverUrl;
      if IsBlank(rawUrl) {
        uiState := uiState.(errorMessage := Some(URL_REQUIRED));
        return;
      }
      var sanitized := SanitizeUrl(rawUrl, parse);
      if sanitized.Err? {
        uiState := uiState.(errorMessage := Some(sanitized.error));
        return;
      }
      preferences := preferences.(lastServerUrl := Some(sanitized.value));
      var connectingMessage := "Connecting to " + sanitized.value + "…";
      uiState := uiState.(serverUrl := sanitized.value, isConnecting := true,
                          errorMessage := None, statusMessage := Some(connectingMessage));
      launched := Some(sanitized.value);
    }

    /**
     * The launched part of `connect`, under one `try`: with the tuner info,
     * Connected, then the control socket, the plugin socket and the spectrum
     * refresh with `spectrumOutcome`. A failed fetch, or a socket whose opening
     * throws, ends in the catch's failed state; a socket that throws leaves the
     * Connected copy's tuner info and antennas in place and skips what follows it.
     */
    method CompleteConnect(sanitized: string, fetched: Result<TunerInfo, Option<string>>,
                           control: Opening, plugin: Opening, spectrumOutcome: PollOutcome)
      requires Valid()
      modifies this`uiState, this`controlOpen, this`pluginOpen, this`collecting, this`commandBuffer
      ensures Valid()
      ensures fetched.Ok? && control.Opened? && plugin.Opened? ==>
        && uiState == RefreshedSpectrum(Connected(old(uiState), sanitized, fetched.value), spectrumOutcome)
        && controlOpen && pluginOpen && collecting && commandBuffer == []
      ensures fetched.Ok? && control.Threw? ==>
        && uiState == ConnectFailed(Connected(old(uiState), sanitized, fetched.value), control.message)
        && controlOpen == old(controlOpen) && pluginOpen == old(pluginOpen)
        && !collecting && commandBuffer == []
      ensures fetched.Ok? && control.Opened? && plugin.Threw? ==>
        && uiState == ConnectFailed(Connected(old(uiState), sanitized, fetched.value), plugin.message)
        && controlOpen && pluginOpen == old(pluginOpen) && collecting && commandBuffer == []
      ensures fetched.Err? ==>
        && uiState == ConnectFailed(old(uiState), fetched.error)
        && controlOpen == old(controlOpen) && pluginOpen == old(pluginOpen)
        && collecting == old(collecting) && commandBuffer == old(commandBuffer)
    {
      match fetched
      case Ok(info) =>
        uiState := Connected(uiState, sanitized, info);
        StartControlConnection(control);
        if control.Threw? {
          uiState := ConnectFailed(uiState, control.message);
          return;
        }
        StartPluginConnection(plugin);
        if plugin.Threw? {
          uiState := ConnectFailed(uiState, plugin.message);
          return;
        }
        uiState := RefreshedSpectrum(uiState, spectrumOutcome);
      case Err(message) =>
        uiState := ConnectFailed(uiState, message);
    }

    /**
     * `startControlConnection`: the old collector is cancelled, and the flow
     * keeps nothing without a subscriber, so the buffer empties. When the
     * connect call then succeeds there is a new control socket and a new
     * collector; when it throws, the old reference stays and no collector runs.
     */
    method StartControlConnection(opening: Opening)
      modifies this`controlOpen, this`collecting, this`commandBuffer
      ensures Valid()
      ensures commandBuffer == []
      ensures opening.Opened? ==> controlOpen && collecting
      ensures opening.Threw? ==> controlOpen == old(controlOpen) && !collecting
    {
      collecting := false;
      commandBuffer := [];
      if opening.Threw? {
        return;
      }
      controlOpen := true;
      collecting := true;
    }

    /** `startPluginConnection`: the plugin socket is set when the connect call succeeds. */
    method StartPluginConnection(opening: Opening)
      requires Valid()
      modifies this`pluginOpen
      ensures Valid()
      ensures opening.Opened? ==> pluginOpen
      ensures opening.Threw? ==> pluginOpen == old(pluginOpen)
    {
      if opening.Opened? {
        pluginOpen := true;
      }
    }

    /** `sendCommand`: `tryEmit` keeps the command only while a collector runs. */
    method SendCommand(command: string)
      requires Valid()
      modifies this`commandBuffer
      ensures Valid()
      ensures collecting ==> commandBuffer == Enqueue(old(commandBuffer), command)
      ensures !collecting ==> commandBuffer == old(commandBuffer)
    {
      if collecting {
        commandBuffer := Enqueue(commandBuffer, command);
      }
    }

    /** One step of the collector: the oldest buffered command is sent on the control socket. */
    method ForwardCommand()
      requires Valid()
      modifies this`commandBuffer, this`sent
      ensures Valid()
      ensures sent + commandBuffer == old(sent) + old(commandBuffer)
      ensures |commandBuffer| == if old(commandBuffer) == [] then 0 else |old(commandBuffer)| - 1
    {
      if commandBuffer != [] {
        sent := sent + [commandBuffer[0]];
        commandBuffer := commandBuffer[1..];
      }
    }

    /** `disconnect`: close both sockets, stop the collector and the player, and reset the screen state. */
    method Disconnect()
      modifies this
      ensures Valid()
      ensures uiState == Disconnected(old(uiState))
      ensures !controlOpen && !pluginOpen && !collecting && commandBuffer == []
      ensures controllerReady ==> playerMediaId.None? && !playerPlaying
      ensures !controllerReady ==> playerMediaId == old(playerMediaId) && playerPlaying == old(playerPlaying)
      ensures sent == old(sent) && preferences == old(preferences) && scanRequests == old(scanRequests)
    {
      controlOpen := false;
      pluginOpen := false;
      collecting := false;
      commandBuffer := [];
      if controllerReady {
        playerPlaying := false;
        playerMediaId := None;
      }
      uiState := Disconnected(uiState);
    }

    /** `refreshAudioStream(forcePlay)`: load the server URL into the player; play it if it was playing or asked to. */
    method RefreshAudioStream(forcePlay: bool)
      modifies this`playerMediaId, this`playerPlaying
      ensures controllerReady ==> playerMediaId == Some(uiState.serverUrl)
      ensures controllerReady ==> playerPlaying == (old(playerPlaying) || forcePlay)
      ensures !controllerReady ==> playerMediaId == old(playerMediaId) && playerPlaying == old(playerPlaying)
    {
      if !controllerReady {
        return;
      }
      var wasPlaying := playerPlaying;
      playerMediaId := Some(uiState.serverUrl);
      if wasPlaying || forcePlay {
        playerPlaying := true;
      }
    }

    /** `toggleAudio`: when connected, pause a playing stream or (re)start it. */
    method ToggleAudio()
      modifies this`playerMediaId, this`playerPlaying
      ensures !uiState.isConnected || !controllerReady ==>
        playerMediaId == old(playerMediaId) && playerPlaying == old(playerPlaying)
      ensures uiState.isConnected && controllerReady && old(playerPlaying) ==>
        !playerPlaying && playerMediaId == old(playerMediaId)
      ensures uiState.isConnected && controllerReady && !old(playerPlaying) ==>
        playerPlaying && playerMediaId == Some(uiState.serverUrl)
    {
      if !uiState.isConnected || !controllerReady {
        return;
      }
      if playerPlaying {
        playerPlaying := false;
      } else {
        RefreshAudioStream(true);
      }
    }

    /** The player's `onIsPlayingChanged` mirrored into the screen state. */
    method OnIsPlayingChanged(isPlaying: bool)
      modifies this`uiState
      ensures uiState == old(uiState).(audioPlaying := isPlaying)
    {
      uiState := uiState.(audioPlaying := isPlaying);
    }

    /** `resetRds`. */
    method ResetRds()
      modifies this`uiState
      ensures uiState == WithRdsReset(old(uiState))
      ensures uiState.serverUrl == old(uiState).serverUrl && uiState.restartAudioOnTune == old(uiState).restartAudioOnTune
    {
      if uiState.tunerState.None? {
        return;
      }
      var state := uiState.tunerState.value;
      uiState := uiState.(tunerState := Some(state.(ps := "", rt0 := "", rt1 := "")));
    }

    /**
     * `tuneToFrequency` with the frequency already in kHz: a request for the
     * current frequency does nothing; any other sends `T<kHz>`, clears the RDS
     * text and, when so configured, reloads the audio stream.
     */
    method TuneToFrequency(kHz: int)
      requires Valid()
      modifies this`commandBuffer, this`uiState, this`playerMediaId, this`playerPlaying
      ensures Valid()
      ensures !IsRetune(old(uiState), kHz) ==> uiState == old(uiState) && commandBuffer == old(commandBuffer)
      ensures IsRetune(old(uiState), kHz) ==> uiState == WithRdsReset(old(uiState))
      ensures IsRetune(old(uiState), kHz) ==>
        commandBuffer == (if collecting then Enqueue(old(commandBuffer), Encode(Tune(kHz))) else old(commandBuffer))
      ensures IsRetune(old(uiState), kHz) && old(uiState).restartAudioOnTune && controllerReady ==>
        playerMediaId == Some(old(uiState).serverUrl)
      ensures !(IsRetune(old(uiState), kHz) && old(uiState).restartAudioOnTune && controllerReady) ==>
        playerMediaId == old(playerMediaId)
      ensures playerPlaying == old(playerPlaying)
    {
      if !IsRetune(uiState, kHz) {
        return;
      }
      ghost var before := uiState;
      SendCommand(Encode(Tune(kHz)));
      ResetRds();
      assert uiState == WithRdsReset(before);
      if uiState.restartAudioOnTune {
        RefreshAudioStream(false);
      }
    }

    /** `toggleIms`: send the flags with IMS flipped; the state waits for the tuner's report. */
    method ToggleIms()
      requires Valid()
      modifies this`commandBuffer
      ensures Valid()
      ensures uiState.tunerState.None? || !collecting ==> commandBuffer == old(commandBuffer)
      ensures uiState.tunerState.Some? && collecting ==>
        commandBuffer == Enqueue(old(commandBuffer), Encode(ToggleImsCommand(uiState.tunerState.value)))
    {
      if uiState.tunerState.None? {
        return;
      }
      SendCommand(Encode(ToggleImsCommand(uiState.tunerState.value)));
    }

    /** `toggleEq`: send the flags with the equaliser flipped. */
    method ToggleEq()
      requires Valid()
      modifies this`commandBuffer
      ensures Valid()
      ensures uiState.tunerState.None? || !collecting ==> commandBuffer == old(commandBuffer)
      ensures uiState.tunerState.Some? && collecting ==>
        commandBuffer == Enqueue(old(commandBuffer), Encode(ToggleEqCommand(uiState.tunerState.value)))
    {
      if uiState.tunerState.None? {
        return;
      }
      SendCommand(Encode(ToggleEqCommand(uiState.tunerState.value)));
    }

    /** `cycleAntenna`: send `Z<next>` and select that antenna at once. */
    method CycleAntenna()
      requires Valid()
      modifies this`commandBuffer, this`uiState
      ensures Valid()
      ensures old(uiState).tunerState.None? ==> uiState == old(uiState) && commandBuffer == old(commandBuffer)
      ensures old(uiState).tunerState.Some? ==>
        var next := NextAntenna(old(uiState).tunerState.value.antennaIndex.GetOr(0), AntennaCount(old(uiState).antennas));
        && uiState == WithAntenna(old(uiState), next)
        && commandBuffer == (if collecting then Enqueue(old(commandBuffer), Encode(Antenna(next))) else old(commandBuffer))
    {
      if uiState.tunerState.None? {
        return;
      }
      var state := uiState.tunerState.value;
      var count := AntennaCount(uiState.antennas);
      var current := state.antennaIndex.GetOr(0);
      var next := NextAntenna(current, count);
      SendCommand(Encode(Antenna(next)));
      uiState := WithAntenna(uiState, next);
    }

    /** The control socket's `onState`. */
    method OnState(state: TunerState)
      modifies this`uiState
      ensures uiState == WithTunerState(old(uiState), state)
    {
      uiState := WithTunerState(uiState, state);
    }

    /** The control socket's `onError`: the message is both the error and the status. */
    method OnControlError(message: Option<string>)
      modifies this`uiState
      ensures uiState == old(uiState).(errorMessage := message, statusMessage := message)
    {
      uiState := uiState.(errorMessage := message, statusMessage := message);
    }

    /** The plugin socket's error callback. */
    method OnPluginError(message: Option<string>)
      modifies this`uiState
      ensures uiState == old(uiState).(errorMessage := message)
    {
      uiState := uiState.(errorMessage := message);
    }

    /** The control socket's `onClosed`: the whole session is disconnected. */
    method OnControlClosed()
      modifies this
      ensures Valid()
      ensures uiState == Disconnected(old(uiState))
      ensures !controlOpen && !pluginOpen && !collecting && commandBuffer == []
      ensures controllerReady ==> playerMediaId.None? && !playerPlaying
      ensures !controllerReady ==> playerMediaId == old(playerMediaId) && playerPlaying == old(playerPlaying)
      ensures sent == old(sent) && preferences == old(preferences) && scanRequests == old(scanRequests)
    {
      Disconnect();
    }

    /** `refreshSpectrum()`: with a URL, one fetch whose outcome is `outcome`. */
    method RefreshSpectrum(outcome: PollOutcome)
      modifies this`uiState
      ensures IsBlank(old(uiState).serverUrl) ==> uiState == old(uiState)
      ensures !IsBlank(old(uiState).serverUrl) ==> uiState == RefreshedSpectrum(old(uiState), outcome)
    {
      if IsBlank(uiState.serverUrl) {
        return;
      }
      uiState := RefreshedSpectrum(uiState, outcome);
    }

    /**
     * `requestSpectrumScan`, with `polls` the outcomes of the fetches that fit
     * before the deadline: without a plugin socket or URL nothing happens;
     * otherwise the plugin is asked to scan and the polls run as `ScannedState`
     * describes.
     */
    method RequestSpectrumScan(polls: seq<PollOutcome>)
      requires |polls| <= MAX_SCAN_POLLS
      modifies this`uiState, this`scanRequests
      ensures !pluginOpen || IsBlank(old(uiState).serverUrl) ==> uiState == old(uiState) && scanRequests == old(scanRequests)
      ensures pluginOpen && !IsBlank(old(uiState).serverUrl) ==>
        uiState == ScannedState(old(uiState), polls) && scanRequests == old(scanRequests) + 1
    {
      if !pluginOpen || IsBlank(uiState.serverUrl) {
        return;
      }
      uiState := uiState.(isScanning := true);
      ghost var scanning := uiState;
      scanRequests := scanRequests + 1;
      var fetched := false;
      var i := 0;
      while i < |polls| && !fetched
        invariant 0 <= i <= |polls| && scanRequests == old(scanRequests) + 1
        invariant !fetched ==> ScanPolls(uiState, polls[i..]) == ScanPolls(scanning, polls)
        invariant fetched ==> uiState == ScanPolls(scanning, polls)
        decreases |polls| - i
      {
        match polls[i] {
          case Err(message) =>
            uiState := uiState.(errorMessage := message);
          case Ok(points) =>
            uiState := uiState.(spectrum := EnsureSpectrum(points));
            fetched := true;
        }
        i := i + 1;
      }
      if !fetched {
        assert polls[i..] == [];
        uiState := uiState.(spectrum := EnsureSpectrum(uiState.spectrum));
      }
      uiState := uiState.(isScanning := false);
    }
  }

  /**
   * Commands sent one after another reach the control socket in the order they
   * were sent: after any run of sends and one forward, what was sent followed
   * by what is still buffered is what was sent before followed by the newest
   * 64 of the buffer and the new commands, in order. Without a collector the
   * commands are discarded and nothing moves.
   */
  method SendAllThenForward(vm: MainViewModel, commands: seq<string>)
    requires vm.Valid()
    modifies vm
    ensures vm.Valid()
    ensures old(vm.collecting) ==>
      vm.sent + vm.commandBuffer == old(vm.sent) + Newest(old(vm.commandBuffer) + commands, COMMAND_BUFFER_CAPACITY)
    ensures !old(vm.collecting) ==> vm.sent == old(vm.sent) && vm.commandBuffer == []
  {
    ghost var initial := vm.commandBuffer;
    var i := 0;
    while i < |commands|
      invariant 0 <= i <= |commands|
      invariant vm.Valid()
      invariant vm.collecting == old(vm.collecting) && vm.sent == old(vm.sent)
      invariant vm.collecting ==>
        vm.commandBuffer == Newest(initial + commands[..i], COMMAND_BUFFER_CAPACITY)
    {
      vm.SendCommand(commands[i]);
      if vm.collecting {
        EnqueueNewest(initial, commands[..i], commands[i]);
        assert commands[..i + 1] == commands[..i] + [commands[i]];
      }
      i := i + 1;
    }
    assert commands[..i] == commands;
    vm.ForwardCommand();
    assert vm.commandBuffer == [] ==> vm.sent + vm.commandBuffer == vm.sent;
  }
}
