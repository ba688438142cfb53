/**
 * The audio service's buffer profile and its hot reconfiguration: the buffer
 * settings are turned into a player profile, and when that profile changes the
 * session's player is replaced by one built with the new profile and seeded
 * with the old player's queue, position and play intent.
 */
module Playback {
  import opened Wrappers
  import opened KotlinStd

  const KEY_NETWORK_BUFFER: string := "network_buffer"
  const KEY_PLAYER_BUFFER: string := "player_buffer"
  const DEFAULT_NETWORK_BUFFER: int := 2
  const DEFAULT_PLAYER_BUFFER: int := 2000

  /**
   * Defined outside the service's own file. The 32-bit profile agrees with
   * the unbounded one for player buffers up to 0x3fff_ffff only while
   * MIN_PLAYER_BUFFER_MS is itself at most 0x3fff_ffff, as 500 is.
   */
  const MIN_PLAYER_BUFFER_MS: int := 500
  const MAX_NETWORK_BUFFER_CHUNKS: int := 16

  /** The buffering parameters a player is built with. */
  datatype BufferProfile = BufferProfile(
    networkChunks: int,
    minBufferMs: int,
    maxBufferMs: int,
    playbackBufferMs: int,
    playbackAfterRebufferMs: int)

  /**
   * `manualProfile`: the chunk count clamped into [1, MAX_NETWORK_BUFFER_CHUNKS];
   * the player buffer raised to at least MIN_PLAYER_BUFFER_MS and used as the
   * minimum and after-rebuffer durations; a maximum of twice that but at least
   * 300 ms more; a start threshold of half of it but at least 250 ms.
   */
  function ManualProfile(networkChunks: int, playerBufferMs: int): (p: BufferProfile)
    ensures 1 <= p.networkChunks <= MAX_NETWORK_BUFFER_CHUNKS
    ensures 1 <= networkChunks <= MAX_NETWORK_BUFFER_CHUNKS ==> p.networkChunks == networkChunks
    ensures p.minBufferMs == Max(playerBufferMs, MIN_PLAYER_BUFFER_MS)
    ensures p.playbackAfterRebufferMs == p.minBufferMs
    ensures p.maxBufferMs == Max(2 * p.minBufferMs, p.minBufferMs + 300)
    ensures p.maxBufferMs >= p.minBufferMs + 300 > p.minBufferMs
    ensures p.playbackBufferMs == Max(p.minBufferMs / 2, 250) && p.playbackBufferMs >= 250
    ensures p.playbackBufferMs < p.maxBufferMs
  {
    var safeChunks := CoerceIn(networkChunks, 1, MAX_NETWORK_BUFFER_CHUNKS);
    var base := CoerceAtLeast(playerBufferMs, MIN_PLAYER_BUFFER_MS);
    var minBuffer := base;
    var maxBuffer := CoerceAtLeast(base * 2, minBuffer + 300);
    var playback := CoerceAtLeast(base / 2, 250);
    var afterRebuffer := base;
    BufferProfile(safeChunks, minBuffer, maxBuffer, playback, afterRebuffer)
  }

  /** A larger player buffer never shortens any of the four durations. */
  lemma ManualProfileMonotone(networkChunks: int, smaller: int, larger: int)
    requires smaller <= larger
    ensures var p, q := ManualProfile(networkChunks, smaller), ManualProfile(networkChunks, larger);
      && p.minBufferMs <= q.minBufferMs && p.maxBufferMs <= q.maxBufferMs
      && p.playbackBufferMs <= q.playbackBufferMs && p.playbackAfterRebufferMs <= q.playbackAfterRebufferMs
      && p.networkChunks == q.networkChunks
  {
    var a, b := Max(smaller, MIN_PLAYER_BUFFER_MS), Max(larger, MIN_PLAYER_BUFFER_MS);
    DivMonotoneByTwo(a, b);
  }

  lemma DivMonotoneByTwo(a: int, b: int)
    requires a <= b
    ensures a / 2 <= b / 2
  {
  }

  /**
   * The same computation in the JVM's 32-bit Int arithmetic, as the service
   * performs it: `base * 2` and `minBuffer + 300` wrap around for very large
   * player buffers.
   */
  function ManualProfileInt32(networkChunks: int, playerBufferMs: int): (p: BufferProfile)
    requires INT32_MIN <= playerBufferMs <= INT32_MAX
    ensures playerBufferMs <= 0x3fff_ffff ==> p == ManualProfile(networkChunks, playerBufferMs)
  {
    var safeChunks := CoerceIn(networkChunks, 1, MAX_NETWORK_BUFFER_CHUNKS);
    var base := CoerceAtLeast(playerBufferMs, MIN_PLAYER_BUFFER_MS);
    var minBuffer := base;
    var maxBuffer := CoerceAtLeast(Wrap32(base * 2), Wrap32(minBuffer + 300));
    var playback := CoerceAtLeast(base / 2, 250);
    BufferProfile(safeChunks, minBuffer, maxBuffer, playback, base)
  }

  /** With the largest Int as player buffer, the 32-bit profile's maximum lies below its minimum. */
  lemma ManualProfileInt32Overflows()
    ensures var p := ManualProfileInt32(DEFAULT_NETWORK_BUFFER, INT32_MAX);
      p.minBufferMs == INT32_MAX && p.maxBufferMs == -2 && p.maxBufferMs < p.minBufferMs
  {
    var p := ManualProfileInt32(DEFAULT_NETWORK_BUFFER, INT32_MAX);
    assert Wrap32(INT32_MAX * 2) == -2;
    assert Wrap32(INT32_MAX + 300) == INT32_MIN + 299;
  }

  /** `preferenceListener`: only the two buffer settings cause a reconfiguration. */
  predicate TriggersReconfiguration(key: Option<string>) {
    key == Some(KEY_NETWORK_BUFFER) || key == Some(KEY_PLAYER_BUFFER)
  }

  /** The other persisted settings, and a notification without a key, cause none. */
  lemma OtherKeysDoNotReconfigure()
    ensures !TriggersReconfiguration(None)
    ensures !TriggersReconfiguration(Some("last_server_url"))
    ensures !TriggersReconfiguration(Some("signal_unit"))
    ensures !TriggersReconfiguration(Some("restart_audio_on_tune"))
  {
    assert "last_server_url"[0] != KEY_NETWORK_BUFFER[0] && "last_server_url"[0] != KEY_PLAYER_BUFFER[0];
    assert "signal_unit"[0] != KEY_NETWORK_BUFFER[0] && "signal_unit"[0] != KEY_PLAYER_BUFFER[0];
    assert "restart_audio_on_tune"[0] != KEY_NETWORK_BUFFER[0] && "restart_audio_on_tune"[0] != KEY_PLAYER_BUFFER[0];
  }

  /** `SharedPreferences.getInt(key, default)` over the persisted integers. */
  function GetInt(prefs: map<string, int>, key: string, default: int): int {
    if key in prefs then prefs[key] else default
  }

  /** The profile the persisted settings currently ask for. */
  function ProfileFor(prefs: map<string, int>): BufferProfile {
    ManualProfile(GetInt(prefs, KEY_NETWORK_BUFFER, DEFAULT_NETWORK_BUFFER),
                  GetInt(prefs, KEY_PLAYER_BUFFER, DEFAULT_PLAYER_BUFFER))
  }

  type MediaItem = string

  /**
   * What the service relies on of a player: the profile it was built with, its
   * queue, current index and position, its play intent, whether it was prepared
   * and whether `play()` was called on it. `id` tells instances apart.
   */
  datatype Player = Player(
    id: nat,
    profile: BufferProfile,
    items: seq<MediaItem>,
    currentIndex: int,
    positionMs: int,
    playWhenReady: bool,
    prepared: bool,
    playCalled: bool)

  /** `buildPlayer(profile)`: a new, empty player. */
  function BuildPlayer(id: nat, profile: BufferProfile): (p: Player)
    ensures p.id == id && p.profile == profile && p.items == [] && !p.prepared && !p.playCalled && !p.playWhenReady
  {
    Player(id, profile, [], 0, 0, false, false, false)
  }

  /**
   * The replacement player of `recreatePlayerWithProfile`: built with `profile`,
   * given the old player's items, index and position, prepared, its play intent
   * set to the old one's, and started exactly when the old one was playing.
   */
  function Reseeded(previous: Player, id: nat, profile: BufferProfile): (p: Player)
    ensures p.id == id && p.profile == profile
    ensures p.items == previous.items && p.currentIndex == previous.currentIndex && p.positionMs == previous.positionMs
    ensures p.playWhenReady == previous.playWhenReady && p.prepared && (p.playCalled <==> previous.playWhenReady)
  {
    var built := BuildPlayer(id, profile);
    var seeded := built.(items := previous.items, currentIndex := previous.currentIndex, positionMs := previous.positionMs);
    var prepared := seeded.(prepared := true, playWhenReady := previous.playWhenReady);
    if previous.playWhenReady then prepared.(playWhenReady := true, playCalled := true) else prepared
  }

  /** Reseeding only swaps the profile and identity: a second swap's result depends on the first's state alone. */
  lemma ReseededTwice(previous: Player, id1: nat, id2: nat, p1: BufferProfile, p2: BufferProfile)
    ensures Reseeded(Reseeded(previous, id1, p1), id2, p2) == Reseeded(previous, id2, p2)
  {
  }

  datatype MediaSession = MediaSession(player: Player)

  /** The playback service: its media session and the profile its player was last built with. */
  class PlaybackService {
    var mediaSession: Option<MediaSession>
    var currentProfile: Option<BufferProfile>
    /** Players released by the service, oldest first. */
    var released: seq<Player>
    var nextPlayerId: nat

    /** Every player id handed out so far is below `nextPlayerId`. */
    ghost predicate Valid()
      reads this
    {
      (mediaSession.Some? ==> mediaSession.value.player.id < nextPlayerId)
      && (forall i :: 0 <= i < |released| ==> released[i].id < nextPlayerId)
    }

    /** `onCreate`: build the first player from the persisted settings and open the session. */
    constructor (prefs: map<string, int>)
      ensures Valid()
      ensures currentProfile == Some(ProfileFor(prefs))
      ensures mediaSession == Some(MediaSession(BuildPlayer(0, ProfileFor(prefs))))
      ensures released == []
    {
      var initialProfile := ProfileFor(prefs);
      var player := BuildPlayer(0, initialProfile);
      currentProfile := Some(initialProfile);
      mediaSession := Some(MediaSession(player));
      released := [];
      nextPlayerId := 1;
    }

    /**
     * `recreatePlayerWithProfile`: with a session, swap in a player built with
     * `profile` and seeded from the old one, release the old one and record the
     * profile; without a session, nothing happens.
     */
    method RecreatePlayerWithProfile(profile: BufferProfile)
      requires Valid()
      modifies this
      ensures Valid()
      ensures old(mediaSession).None? ==>
        mediaSession == old(mediaSession) && currentProfile == old(currentProfile)
        && released == old(released) && nextPlayerId == old(nextPlayerId)
      ensures old(mediaSession).Some? ==>
        && mediaSession == Some(MediaSession(Reseeded(old(mediaSession).value.player, old(nextPlayerId), profile)))
        && released == old(released) + [old(mediaSession).value.player]
        && currentProfile == Some(profile)
        && nextPlayerId == old(nextPlayerId) + 1
      ensures old(mediaSession).Some? ==>
        forall i :: 0 <= i < |released| ==> released[i].id != mediaSession.value.player.id
    {
      if mediaSession.None? {
        return;
      }
      var existingSession := mediaSession.value;
      var oldPlayer := existingSession.player;
      var mediaItems := oldPlayer.items;
      var currentIndex := oldPlayer.currentIndex;
      var positionMs := oldPlayer.positionMs;
      var wasPlaying := oldPlayer.playWhenReady;

      var newPlayer := BuildPlayer(nextPlayerId, profile);
      nextPlayerId := nextPlayerId + 1;
      newPlayer := newPlayer.(items := mediaItems, currentIndex := currentIndex, positionMs := positionMs);
      newPlayer := newPlayer.(prepared := true);
      newPlayer := newPlayer.(playWhenReady := wasPlaying);

      mediaSession := Some(MediaSession(newPlayer));
      released := released + [oldPlayer];

      if wasPlaying {
        newPlayer := newPlayer.(playWhenReady := true, playCalled := true);
        mediaSession := Some(MediaSession(newPlayer));
      }

      currentProfile := Some(profile);
    }

    /**
     * `applyLatestSettings`, run as one atomic step (it holds the
     * reconfiguration mutex): recompute the profile from the settings and
     * recreate the player only when it differs from the current one.
     */
    method ApplyLatestSettings(prefs: map<string, int>)
      requires Valid()
      modifies this
      ensures Valid()
      ensures old(currentProfile) == Some(ProfileFor(prefs)) || old(mediaSession).None? ==>
        && mediaSession == old(mediaSession) && released == old(released)
        && currentProfile == old(currentProfile) && nextPlayerId == old(nextPlayerId)
      ensures old(currentProfile) != Some(ProfileFor(prefs)) && old(mediaSession).Some? ==>
        && mediaSession == Some(MediaSession(Reseeded(old(mediaSession).value.player, old(nextPlayerId), ProfileFor(prefs))))
        && released == old(released) + [old(mediaSession).value.player]
        && currentProfile == Some(ProfileFor(prefs))
        && nextPlayerId == old(nextPlayerId) + 1
    {
      var manualProfile := ProfileFor(prefs);
      if currentProfile != Some(manualProfile) {
        RecreatePlayerWithProfile(manualProfile);
      }
    }

    /** `preferenceListener`: a changed key reconfigures only when it is a buffer setting. */
    method OnPreferenceChanged(key: Option<string>, prefs: map<string, int>)
      requires Valid()
      modifies this
      ensures Valid()
      ensures !TriggersReconfiguration(key) || old(currentProfile) == Some(ProfileFor(prefs)) || old(mediaSession).None? ==>
        && mediaSession == old(mediaSession) && released == old(released)
        && currentProfile == old(currentProfile) && nextPlayerId == old(nextPlayerId)
      ensures TriggersReconfiguration(key) && old(currentProfile) != Some(ProfileFor(prefs)) && old(mediaSession).Some? ==>
        && mediaSession == Some(MediaSession(Reseeded(old(mediaSession).value.player, old(nextPlayerId), ProfileFor(prefs))))
        && released == old(released) + [old(mediaSession).value.player]
        && currentProfile == Some(ProfileFor(prefs))
        && nextPlayerId == old(nextPlayerId) + 1
    {
      if TriggersReconfiguration(key) {
        ApplyLatestSettings(prefs);
      }
    }

    /** `onDestroy`: release the player and drop the session. */
    method OnDestroy()
      requires Valid()
      modifies this
      ensures Valid()
      ensures mediaSession.None?
      ensures released == old(released) + (if old(mediaSession).Some? then [old(mediaSession).value.player] else [])
    {
      if mediaSession.Some? {
        released := released + [mediaSession.value.player];
      }
      mediaSession := None;
    }
  }

  /**
   * Applying the same settings twice rebuilds the player at most once: the
   * second application finds its profile already current.
   */
  method ApplyTwiceSwapsAtMostOnce(service: PlaybackService, prefs: map<string, int>)
    requires service.Valid()
    modifies service
    ensures service.Valid()
    ensures |service.released| <= |old(service.released)| + 1
    ensures old(service.mediaSession).Some? ==> service.currentProfile == Some(ProfileFor(prefs))
    ensures old(service.mediaSession).Some? ==>
      && service.mediaSession.Some?
      && service.mediaSession.value.player.positionMs == old(service.mediaSession).value.player.positionMs
      && service.mediaSession.value.player.items == old(service.mediaSession).value.player.items
  {
    service.ApplyLatestSettings(prefs);
    service.ApplyLatestSettings(prefs);
  }
}
