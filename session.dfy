/**
 * The screen state of the tuner session and the pure transitions the view
 * model applies to it: the connect steps, disconnect, the RDS reset, the
 * antenna cycle, the control socket's state merge, and the spectrum scan as a
 * fold over its poll outcomes.
 */
module Session {
  import opened Wrappers
  import opened KotlinStd
  import opened SignalUnits
  import opened Urls
  import opened Commands

  /** One point of the band spectrum; its numbers are never computed with here. */
  datatype SpectrumPoint = SpectrumPoint(frequencyMhz: real, signal: real)

  /** The flat spectrum shown before any scan: 83.0 to 108.0 MHz in 0.05 MHz steps. */
  function BaselineSpectrum(): (r: seq<SpectrumPoint>)
    ensures |r| == 501
    ensures forall i :: 0 <= i < |r| ==> r[i].signal == 0.0
  {
    seq(501, i => SpectrumPoint(83.0 + (i as real) / 20.0, 0.0))
  }

  /** What the tuner's web interface reports about itself. */
  datatype TunerInfo = TunerInfo(tunerName: string, tunerDescription: string, antennaNames: seq<string>)

  /**
   * The parts of a control-socket state update the session uses: frequency,
   * RDS fields with their per-character error counts, flags and antenna.
   */
  datatype TunerState = TunerState(
    freqKHz: int,
    pi: string,
    ps: string,
    psErrors: seq<int>,
    rt0: string,
    rt0Errors: seq<int>,
    rt1: string,
    rt1Errors: seq<int>,
    pty: int,
    eq: bool,
    ims: bool,
    antennaIndex: Option<int>,
    users: int)

  /** `UiState`, field by field. */
  datatype UiState = UiState(
    serverUrl: string,
    tunerInfo: Option<TunerInfo>,
    tunerState: Option<TunerState>,
    audioPlaying: bool,
    isConnected: bool,
    isConnecting: bool,
    antennas: seq<string>,
    spectrum: seq<SpectrumPoint>,
    isScanning: bool,
    errorMessage: Option<string>,
    signalUnit: SignalUnit,
    networkBuffer: int,
    playerBuffer: int,
    restartAudioOnTune: bool,
    statusMessage: Option<string>)

  const DEFAULT_NETWORK_BUFFER: int := 2
  const DEFAULT_PLAYER_BUFFER: int := 2000

  /** `UiState(spectrum = baselineSpectrum())`: every field at its declared default except the spectrum. */
  function InitialUiState(): (s: UiState)
    ensures s.serverUrl == [] && s.tunerInfo.None? && s.tunerState.None?
    ensures !s.audioPlaying && !s.isConnected && !s.isConnecting && !s.isScanning
    ensures s.antennas == [] && s.spectrum == BaselineSpectrum()
    ensures s.errorMessage.None? && s.statusMessage.None?
    ensures s.signalUnit == DBF && s.networkBuffer == DEFAULT_NETWORK_BUFFER
    ensures s.playerBuffer == DEFAULT_PLAYER_BUFFER && s.restartAudioOnTune
  {
    UiState("", None, None, false, false, false, [], BaselineSpectrum(), false, None,
            DBF, DEFAULT_NETWORK_BUFFER, DEFAULT_PLAYER_BUFFER, true, None)
  }

  /** `ensureSpectrum`: an empty point list is replaced by the baseline, any other is kept. */
  function EnsureSpectrum(points: seq<SpectrumPoint>): (r: seq<SpectrumPoint>)
    ensures |r| > 0
    ensures points == [] ==> r == BaselineSpectrum()
    ensures points != [] ==> r == points
  {
    if points == [] then BaselineSpectrum() else points
  }

  /** Applying `ensureSpectrum` again changes nothing. */
  lemma EnsureSpectrumIdempotent(points: seq<SpectrumPoint>)
    ensures EnsureSpectrum(EnsureSpectrum(points)) == EnsureSpectrum(points)
  {
  }

  // ------------------------------------------------------------- disconnect

  /**
   * The state `disconnect` installs: the defaults, except that the server URL
   * and the four settings are kept, the spectrum is the baseline and the
   * status reads "Disconnected".
   */
  function Disconnected(s: UiState): (r: UiState)
    ensures r == InitialUiState().(serverUrl := s.serverUrl, signalUnit := s.signalUnit,
      networkBuffer := s.networkBuffer, playerBuffer := s.playerBuffer,
      restartAudioOnTune := s.restartAudioOnTune, statusMessage := Some("Disconnected"))
    ensures !r.isConnected && !r.isConnecting && !r.isScanning && r.tunerState.None? && r.antennas == []
  {
    UiState(s.serverUrl, None, None, false, false, false, [], BaselineSpectrum(), false, None,
            s.signalUnit, s.networkBuffer, s.playerBuffer, s.restartAudioOnTune, Some("Disconnected"))
  }

  /** Disconnecting twice leaves the same state as disconnecting once. */
  lemma DisconnectedIdempotent(s: UiState)
    ensures Disconnected(Disconnected(s)) == Disconnected(s)
  {
  }

  // ---------------------------------------------------------------- connect

  /** What `connect` decides before it launches the tuner-info fetch. */
  datatype ConnectStep =
    | Ignored
    | Refused(state: UiState)
    | Launched(state: UiState, sanitized: string)

  /**
   * `connect`'s synchronous part: nothing while a connection attempt is under
   * way; a blank URL or one `sanitizeUrl` rejects only sets the error message;
   * otherwise the sanitized URL is installed and the state is Connecting.
   */
  function ConnectRequest(s: UiState, parse: string -> Option<ParsedUrl>): (r: ConnectStep)
    ensures s.isConnecting <==> r.Ignored?
  {
    if s.isConnecting then Ignored
    else if IsBlank(s.serverUrl) then Refused(s.(errorMessage := Some(URL_REQUIRED)))
    else match SanitizeUrl(s.serverUrl, parse)
      case Err(message) => Refused(s.(errorMessage := Some(message)))
      case Ok(sanitized) =>
        Launched(s.(serverUrl := sanitized, isConnecting := true, errorMessage := None,
                    statusMessage := Some("Connecting to " + sanitized + "…")), sanitized)
  }

  /**
   * The three outcomes of `connect`'s synchronous part: a blank URL is refused
   * as required; any refusal sets only the error message; a launch installs
   * the sanitized URL and the Connecting status; and every URL that sanitizes
   * is launched.
   */
  lemma ConnectRequestCases(s: UiState, parse: string -> Option<ParsedUrl>)
    ensures var r := ConnectRequest(s, parse);
      && (!s.isConnecting && IsBlank(s.serverUrl) ==> r == Refused(s.(errorMessage := Some(URL_REQUIRED))))
      && (r.Refused? ==>
            && !r.state.isConnecting && r.state.errorMessage.Some?
            && r.state == s.(errorMessage := r.state.errorMessage))
      && (r.Launched? ==>
            && SanitizeUrl(s.serverUrl, parse) == Ok(r.sanitized)
            && r.state == s.(serverUrl := r.sanitized, isConnecting := true, errorMessage := None,
                             statusMessage := Some("Connecting to " + r.sanitized + "…")))
      && (!s.isConnecting && SanitizeUrl(s.serverUrl, parse).Ok? ==> r.Launched?)
  {
  }

  /** The name a successful connection is announced with: the tuner's name unless it is blank, else the URL. */
  function ConnectionName(info: TunerInfo, sanitized: string): (r: string)
    ensures !IsBlank(info.tunerName) ==> r == info.tunerName
    ensures IsBlank(info.tunerName) ==> r == sanitized
  {
    if !IsBlank(info.tunerName) then info.tunerName else sanitized
  }

  /** The fetched tuner info arrived: Connected, with the tuner's antennas and no error. */
  function Connected(s: UiState, sanitized: string, info: TunerInfo): (r: UiState)
    ensures r.isConnected && !r.isConnecting
    ensures r.serverUrl == sanitized && r.tunerInfo == Some(info) && r.antennas == info.antennaNames
    ensures r.errorMessage.None? && r.statusMessage == Some("Connected to " + ConnectionName(info, sanitized))
    ensures r == s.(serverUrl := sanitized, tunerInfo := Some(info), antennas := info.antennaNames,
                    errorMessage := None, isConnected := true, isConnecting := false,
                    statusMessage := r.statusMessage)
  {
    s.(serverUrl := sanitized, tunerInfo := Some(info), antennas := info.antennaNames,
       errorMessage := None, isConnected := true, isConnecting := false,
       statusMessage := Some("Connected to " + ConnectionName(info, sanitized)))
  }

  /** The fetch failed with `message`: neither connected nor connecting, with the message shown. */
  function ConnectFailed(s: UiState, message: Option<string>): (r: UiState)
    ensures !r.isConnected && !r.isConnecting
    ensures r.errorMessage == message
    ensures message.Some? ==> r.statusMessage == message
    ensures message.None? ==> r.statusMessage == Some("Connection failed")
    ensures r == s.(isConnected := false, isConnecting := false, errorMessage := r.errorMessage,
                    statusMessage := r.statusMessage)
  {
    s.(errorMessage := message, isConnected := false, isConnecting := false,
       statusMessage := Some(message.GetOr("Connection failed")))
  }

  /**
   * A launched connect ends Connected or back where a new attempt may start:
   * either way it is no longer connecting, so `connect` works again.
   */
  lemma ConnectAttemptSettles(s: UiState, parse: string -> Option<ParsedUrl>, info: TunerInfo, message: Option<string>)
    requires ConnectRequest(s, parse).Launched?
    ensures var step := ConnectRequest(s, parse);
      && ConnectRequest(step.state, parse).Ignored?
      && !ConnectRequest(Connected(step.state, step.sanitized, info), parse).Ignored?
      && !ConnectRequest(ConnectFailed(step.state, message), parse).Ignored?
  {
  }

  // ------------------------------------------------------------ tuner state

  /** The control socket's `onState`: install the new state; fill an empty antenna list from the tuner info. */
  function WithTunerState(s: UiState, state: TunerState): (r: UiState)
    ensures r.tunerState == Some(state)
    ensures s.antennas != [] ==> r.antennas == s.antennas
    ensures s.antennas == [] && s.tunerInfo.Some? ==> r.antennas == s.tunerInfo.value.antennaNames
    ensures s.tunerInfo.None? ==> r.antennas == s.antennas
    ensures r == s.(tunerState := r.tunerState, antennas := r.antennas)
  {
    s.(tunerState := Some(state),
       antennas := if s.antennas == [] && s.tunerInfo.Some? then s.tunerInfo.value.antennaNames else s.antennas)
  }

  /** A later state update supersedes an earlier one completely. */
  lemma WithTunerStateLastWins(s: UiState, first: TunerState, second: TunerState)
    ensures WithTunerState(WithTunerState(s, first), second) == WithTunerState(s, second)
  {
  }

  /**
   * `resetRds`: clear the programme service name and both radiotext lines of
   * the current tuner state; without one nothing changes.
   */
  function WithRdsReset(s: UiState): (r: UiState)
    ensures s.tunerState.None? ==> r == s
    ensures s.tunerState.Some? ==>
      && r == s.(tunerState := r.tunerState) && r.tunerState.Some?
      && r.tunerState.value == s.tunerState.value.(ps := "", rt0 := "", rt1 := "")
  {
    match s.tunerState
    case None => s
    case Some(state) => s.(tunerState := Some(state.(ps := "", rt0 := "", rt1 := "")))
  }

  /** The frequency, flags and error counts survive the reset; resetting twice is resetting once. */
  lemma WithRdsResetKeepsTuning(s: UiState)
    requires s.tunerState.Some?
    ensures var t := WithRdsReset(s).tunerState.value;
      && t.freqKHz == s.tunerState.value.freqKHz && t.pi == s.tunerState.value.pi
      && t.eq == s.tunerState.value.eq && t.ims == s.tunerState.value.ims
      && t.antennaIndex == s.tunerState.value.antennaIndex && t.psErrors == s.tunerState.value.psErrors
      && t.ps == "" && t.rt0 == "" && t.rt1 == ""
    ensures WithRdsReset(WithRdsReset(s)) == WithRdsReset(s)
  {
  }

  /** `tuneToFrequency`'s guard: a request for the frequency already tuned is dropped. */
  predicate IsRetune(s: UiState, kHz: int) {
    s.tunerState.None? || s.tunerState.value.freqKHz != kHz
  }

  // ------------------------------------------------------------ eq and ims

  /** `toggleEq`'s command: the equaliser flag flipped, the IMS flag as it is. */
  function ToggleEqCommand(state: TunerState): (c: Command)
    ensures Encode(c) == ['G', FlagDigit(!state.eq), FlagDigit(state.ims)]
  {
    EqIms(!state.eq, state.ims)
  }

  /** `toggleIms`'s command: the equaliser flag as it is, the IMS flag flipped. */
  function ToggleImsCommand(state: TunerState): (c: Command)
    ensures Encode(c) == ['G', FlagDigit(state.eq), FlagDigit(!state.ims)]
  {
    EqIms(state.eq, !state.ims)
  }

  /** Once the tuner reports the toggled flags back, toggling again restores the original command. */
  lemma ToggleTwiceRestores(state: TunerState)
    ensures ToggleEqCommand(state.(eq := !state.eq)) == EqIms(state.eq, state.ims)
    ensures ToggleImsCommand(state.(ims := !state.ims)) == EqIms(state.eq, state.ims)
  {
  }

  // --------------------------------------------------------------- antennas

  /** The antennas `cycleAntenna` cycles through: the known ones, or a single "Default". */
  function AntennaCount(antennas: seq<string>): (n: int)
    ensures n >= 1
    ensures antennas != [] ==> n == |antennas|
  {
    if antennas != [] then |antennas| else 1
  }

  /**
   * `(current + 1) % count` in 32-bit Int arithmetic. The remainder truncates,
   * so a negative index reported by the tuner can give a negative result.
   */
  function NextAntenna(current: int, count: int): (next: int)
    requires count >= 1
    ensures -count < next < count
    ensures -1 <= current < INT32_MAX ==> 0 <= next
    ensures 0 <= current < count - 1 && current < INT32_MAX ==> next == current + 1
    ensures current == count - 1 && count - 1 < INT32_MAX ==> next == 0
  {
    var wrapped := Wrap32(current + 1);
    SmallRemainder(wrapped, count);
    TruncRem(wrapped, count)
  }

  /** The remainder of a number below the divisor is the number; of the divisor itself, 0. */
  lemma SmallRemainder(a: int, b: int)
    requires b >= 1
    ensures 0 <= a < b ==> a % b == a
    ensures a == b ==> a % b == 0
  {
  }

  /** The index after `steps` antenna cycles from `start`. */
  function CycleFrom(start: int, count: int, steps: nat): int
    requires count >= 1
  {
    if steps == 0 then start else NextAntenna(CycleFrom(start, count, steps - 1), count)
  }

  lemma {:induction false} CycleCompose(start: int, count: int, a: nat, b: nat)
    requires count >= 1
    ensures CycleFrom(start, count, a + b) == CycleFrom(CycleFrom(start, count, a), count, b)
    decreases b
  {
    if b > 0 {
      CycleCompose(start, count, a, b - 1);
    }
  }

  /** Below the last antenna, each cycle moves to the next index. */
  lemma {:induction false} CycleClimbs(start: int, count: int, steps: nat)
    requires 1 <= count <= INT32_MAX && 0 <= start && start + steps < count
    ensures CycleFrom(start, count, steps) == start + steps
    decreases steps
  {
    if steps > 0 {
      CycleClimbs(start, count, steps - 1);
    }
  }

  /**
   * From any valid index, `cycleAntenna` visits the following indices in
   * order, wraps from the last to 0, and is back after `count` steps.
   */
  lemma NextAntennaCycles(start: int, count: int)
    requires 1 <= count <= INT32_MAX && 0 <= start < count
    ensures forall k: nat :: start + k < count ==> CycleFrom(start, count, k) == start + k
    ensures CycleFrom(start, count, count) == start
  {
    forall k: nat | start + k < count ensures CycleFrom(start, count, k) == start + k {
      CycleClimbs(start, count, k);
    }
    var up := count - 1 - start;
    CycleClimbs(start, count, up);
    CycleCompose(start, count, up, 1);
    assert CycleFrom(start, count, up + 1) == 0;
    CycleClimbs(0, count, start);
    CycleCompose(start, count, up + 1, start);
  }

  /** `antennaLabel`: the current antenna's name when the index is valid, else "Default". */
  function AntennaLabel(s: UiState): (name: string)
    ensures var index := if s.tunerState.Some? then s.tunerState.value.antennaIndex.GetOr(0) else 0;
      && (0 <= index < |s.antennas| ==> name == s.antennas[index])
      && (!(0 <= index < |s.antennas|) ==> name == "Default")
  {
    var index := if s.tunerState.Some? then s.tunerState.value.antennaIndex.GetOr(0) else 0;
    if s.antennas != [] && 0 <= index < |s.antennas| then s.antennas[index] else "Default"
  }

  /** The state `cycleAntenna` installs: the tuner state's antenna set to `next` at once. */
  function WithAntenna(s: UiState, next: int): (r: UiState)
    ensures s.tunerState.None? ==> r == s
    ensures s.tunerState.Some? ==> r.tunerState == Some(s.tunerState.value.(antennaIndex := Some(next)))
    ensures r == s.(tunerState := r.tunerState)
  {
    s.(tunerState := if s.tunerState.Some? then Some(s.tunerState.value.(antennaIndex := Some(next))) else None)
  }

  /** After a cycle over known antennas the label names the antenna that was selected. */
  lemma CycledLabelNamesAntenna(s: UiState)
    requires s.tunerState.Some? && s.antennas != []
    requires var i := s.tunerState.value.antennaIndex.GetOr(0); 0 <= i < |s.antennas| <= INT32_MAX
    ensures var next := NextAntenna(s.tunerState.value.antennaIndex.GetOr(0), AntennaCount(s.antennas));
      0 <= next < |s.antennas| && AntennaLabel(WithAntenna(s, next)) == s.antennas[next]
  {
  }

  // ---------------------------------------------------------------- spectrum

  /** The result of one spectrum fetch: the points, or the exception's message. */
  type PollOutcome = Result<seq<SpectrumPoint>, Option<string>>

  /** The deadline is 10 s and every poll is preceded by a 500 ms delay. */
  const MAX_SCAN_POLLS: nat := 20

  /** `refreshSpectrum(url)`: fetched points replace the spectrum (via `ensureSpectrum`); a failure sets the error. */
  function RefreshedSpectrum(s: UiState, outcome: PollOutcome): (r: UiState)
    ensures outcome.Ok? ==> r == s.(spectrum := EnsureSpectrum(outcome.value))
    ensures outcome.Err? ==> r == s.(errorMessage := outcome.error)
  {
    match outcome
    case Ok(points) => s.(spectrum := EnsureSpectrum(points))
    case Err(message) => s.(errorMessage := message)
  }

  /**
   * The poll loop of `requestSpectrumScan`: each failure shows its message and
   * polling goes on; the first success commits its points and ends the loop;
   * if no poll succeeds, the current spectrum is kept (made non-empty).
   */
  function ScanPolls(s: UiState, polls: seq<PollOutcome>): (r: UiState)
    ensures |r.spectrum| > 0
    ensures r == s.(spectrum := r.spectrum, errorMessage := r.errorMessage)
    decreases |polls|
  {
    if polls == [] then s.(spectrum := EnsureSpectrum(s.spectrum))
    else match polls[0]
      case Ok(points) => s.(spectrum := EnsureSpectrum(points))
      case Err(message) => ScanPolls(s.(errorMessage := message), polls[1..])
  }

  /** A whole scan: Scanning while polling, then not. */
  function ScannedState(s: UiState, polls: seq<PollOutcome>): (r: UiState)
    ensures !r.isScanning && |r.spectrum| > 0
    ensures r == s.(spectrum := r.spectrum, errorMessage := r.errorMessage, isScanning := false)
  {
    ScanPolls(s.(isScanning := true), polls).(isScanning := false)
  }

  predicate AllFailed(polls: seq<PollOutcome>) {
    forall i :: 0 <= i < |polls| ==> polls[i].Err?
  }

  /** The message of the last failure, or `previous` when there was none. */
  function LastMessage(previous: Option<string>, failures: seq<PollOutcome>): Option<string>
    requires AllFailed(failures)
  {
    if failures == [] then previous else failures[|failures| - 1].error
  }

  /** Polls that all fail keep the spectrum (made non-empty) and leave the last failure's message. */
  lemma {:induction false} ScanPollsAllFailed(s: UiState, failures: seq<PollOutcome>)
    requires AllFailed(failures)
    ensures ScanPolls(s, failures) ==
      s.(spectrum := EnsureSpectrum(s.spectrum), errorMessage := LastMessage(s.errorMessage, failures))
    decreases |failures|
  {
    if failures != [] {
      var next := s.(errorMessage := failures[0].error);
      ScanPollsAllFailed(next, failures[1..]);
      assert failures[1..] != [] ==> failures[1..][|failures[1..]| - 1] == failures[|failures| - 1];
    }
  }

  /**
   * The first success after a run of failures commits its own points, whatever
   * comes after it; the error shown is the last failure's message.
   */
  lemma {:induction false} ScanPollsFirstFetchCommits(s: UiState, failures: seq<PollOutcome>,
                                                      points: seq<SpectrumPoint>, later: seq<PollOutcome>)
    requires AllFailed(failures)
    ensures ScanPolls(s, failures + [Ok(points)] + later) ==
      s.(spectrum := EnsureSpectrum(points), errorMessage := LastMessage(s.errorMessage, failures))
    decreases |failures|
  {
    if failures == [] {
      assert (failures + [Ok(points)] + later)[0] == Ok(points);
    } else {
      var next := s.(errorMessage := failures[0].error);
      ScanPollsFirstFetchCommits(next, failures[1..], points, later);
      assert (failures + [Ok(points)] + later)[1..] == failures[1..] + [Ok(points)] + later;
      assert failures[1..] != [] ==> failures[1..][|failures[1..]| - 1] == failures[|failures| - 1];
    }
  }

  /** The scan's end states, stated over the whole scan. */
  lemma ScanOutcomes(s: UiState, failures: seq<PollOutcome>, points: seq<SpectrumPoint>, later: seq<PollOutcome>)
    requires AllFailed(failures)
    ensures ScannedState(s, failures + [Ok(points)] + later) ==
      s.(spectrum := EnsureSpectrum(points), errorMessage := LastMessage(s.errorMessage, failures), isScanning := false)
    ensures ScannedState(s, failures) ==
      s.(spectrum := EnsureSpectrum(s.spectrum), errorMessage := LastMessage(s.errorMessage, failures), isScanning := false)
  {
    ScanPollsFirstFetchCommits(s.(isScanning := true), failures, points, later);
    ScanPollsAllFailed(s.(isScanning := true), failures);
  }

  // ------------------------------------------------------------- persistence

  /** The persisted preferences the session reads and writes; an absent key is `None`. */
  datatype Preferences = Preferences(
    lastServerUrl: Option<string>,
    signalUnitName: Option<string>,
    networkBuffer: Option<int>,
    playerBuffer: Option<int>,
    restartAudioOnTune: Option<bool>)

  /** `persistSettings`. */
  function PersistSettings(p: Preferences, unit: SignalUnit, networkBuffer: int, playerBuffer: int,
                           restartAudioOnTune: bool): (q: Preferences)
    ensures q.lastServerUrl == p.lastServerUrl
    ensures q.signalUnitName == Some(unit.Name()) && q.restartAudioOnTune == Some(restartAudioOnTune)
    ensures q.networkBuffer == Some(networkBuffer) && q.playerBuffer == Some(playerBuffer)
  {
    p.(signalUnitName := Some(unit.Name()), networkBuffer := Some(networkBuffer),
       playerBuffer := Some(playerBuffer), restartAudioOnTune := Some(restartAudioOnTune))
  }

  /** `restorePersistedSettings`: the stored settings, each defaulting as the code does. */
  function RestoredSettings(s: UiState, p: Preferences): (r: UiState)
    ensures r.networkBuffer == p.networkBuffer.GetOr(DEFAULT_NETWORK_BUFFER)
    ensures r.playerBuffer == p.playerBuffer.GetOr(DEFAULT_PLAYER_BUFFER)
    ensures r.restartAudioOnTune == p.restartAudioOnTune.GetOr(true)
    ensures p.signalUnitName.None? ==> r.signalUnit == DBF
    ensures p.signalUnitName.Some? && (forall e: SignalUnit :: e.Name() != p.signalUnitName.value) ==>
      r.signalUnit == DBF
    ensures p.signalUnitName.Some? && (exists e: SignalUnit :: e.Name() == p.signalUnitName.value) ==>
      r.signalUnit.Name() == p.signalUnitName.value
    ensures r == s.(signalUnit := r.signalUnit, networkBuffer := r.networkBuffer,
                    playerBuffer := r.playerBuffer, restartAudioOnTune := r.restartAudioOnTune)
  {
    FromNameRoundTrip(DBF);
    s.(signalUnit := FromName(p.signalUnitName.GetOr(DBF.Name())),
       networkBuffer := p.networkBuffer.GetOr(DEFAULT_NETWORK_BUFFER),
       playerBuffer := p.playerBuffer.GetOr(DEFAULT_PLAYER_BUFFER),
       restartAudioOnTune := p.restartAudioOnTune.GetOr(true))
  }

  /** `restorePersistedServerUrl`: a stored URL, sanitized when that succeeds and as stored otherwise. */
  function RestoredServerUrl(s: UiState, p: Preferences, parse: string -> Option<ParsedUrl>): (r: UiState)
    ensures p.lastServerUrl.None? ==> r == s
    ensures p.lastServerUrl.Some? && SanitizeUrl(p.lastServerUrl.value, parse).Ok? ==>
      r == s.(serverUrl := SanitizeUrl(p.lastServerUrl.value, parse).value)
    ensures p.lastServerUrl.Some? && SanitizeUrl(p.lastServerUrl.value, parse).Err? ==>
      r == s.(serverUrl := p.lastServerUrl.value)
  {
    match p.lastServerUrl
    case None => s
    case Some(persisted) =>
      match SanitizeUrl(persisted, parse)
      case Ok(sanitized) => s.(serverUrl := sanitized)
      case Err(_) => s.(serverUrl := persisted)
  }

  /** Settings written by `updateSettings` are read back unchanged next time. */
  lemma PersistedSettingsRoundTrip(s: UiState, p: Preferences, unit: SignalUnit, networkBuffer: int,
                                   playerBuffer: int, restartAudioOnTune: bool)
    ensures var r := RestoredSettings(s, PersistSettings(p, unit, networkBuffer, playerBuffer, restartAudioOnTune));
      r.signalUnit == unit && r.networkBuffer == networkBuffer && r.playerBuffer == playerBuffer
      && r.restartAudioOnTune == restartAudioOnTune
  {
    FromNameRoundTrip(unit);
  }
}
