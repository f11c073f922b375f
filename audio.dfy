/** Game sound (static/javaScript/AudioManager.js): audio is switched on by the
    first user gesture, effects play only when audio is on, unmuted and their
    buffer exists, splashes are rate-limited, and the background music follows
    the game phase. Sample synthesis and the Web Audio graph are left out: a
    generated buffer is its name, a gain node is its gain value, and every
    sound that starts is appended to the played log. */
module Audio {
  import opened Util

  /** The generated buffers, keyed as soundBuffers is. */
  datatype Sound = CountdownBeep | StartSound | SplashGenerated | Victory | ButtonClick | BackgroundMusic

  /** One sound that started: a buffer source, the HTML splash element, or the looping music. */
  datatype Playback = Effect(sound: Sound) | SplashElement | Music

  /** The five effects generateSoundEffects writes. */
  const GENERATED_EFFECTS: set<Sound> := {CountdownBeep, StartSound, SplashGenerated, Victory, ButtonClick}

  const DEFAULT_MUSIC_VOLUME: real := 0.6
  const DEFAULT_SFX_VOLUME: real := 0.8
  const DEFAULT_SPLASH_COOLDOWN: int := 200
  const MIN_SPLASH_COOLDOWN: int := 50
  /** The delay between the start sound and the background music, in milliseconds. */
  const MUSIC_DELAY_MS: nat := 500

  /** Math.max(0, Math.min(1, v)). */
  function Clamp01(v: real): (r: real)
    ensures 0.0 <= r <= 1.0
    ensures 0.0 <= v <= 1.0 ==> r == v
    ensures v < 0.0 ==> r == 0.0
    ensures v > 1.0 ==> r == 1.0
  {
    MaxReal(0.0, MinReal(1.0, v))
  }

  /** Math.max(50, cooldown). */
  function CooldownFloor(cooldown: int): (r: int)
    ensures r >= MIN_SPLASH_COOLDOWN
    ensures cooldown >= MIN_SPLASH_COOLDOWN ==> r == cooldown
    ensures cooldown < MIN_SPLASH_COOLDOWN ==> r == MIN_SPLASH_COOLDOWN
  {
    MaxInt(MIN_SPLASH_COOLDOWN, cooldown)
  }

  /** The cooldown test of playSplashSound: has enough time passed since the last splash? */
  predicate SplashDue(now: int, lastSplash: int, cooldown: int)
  {
    now - lastSplash >= cooldown
  }

  /** The splash requests (times in ms, in order) that actually play, when the splash
      element exists and sound is unmuted throughout. */
  function AcceptedSplashes(lastSplash: int, cooldown: int, requests: seq<int>): seq<int>
    decreases |requests|
  {
    if requests == [] then []
    else if SplashDue(requests[0], lastSplash, cooldown) then
      [requests[0]] + AcceptedSplashes(requests[0], cooldown, requests[1..])
    else AcceptedSplashes(lastSplash, cooldown, requests[1..])
  }

  /** The rate limit: every splash that plays comes at least one cooldown after the
      previous one, and the first at least one cooldown after the last recorded splash. */
  lemma {:induction false} SplashesSpaced(lastSplash: int, cooldown: int, requests: seq<int>)
    decreases |requests|
    ensures var acc := AcceptedSplashes(lastSplash, cooldown, requests);
      (|acc| > 0 ==> acc[0] - lastSplash >= cooldown) &&
      forall i :: 0 <= i < |acc| - 1 ==> acc[i + 1] - acc[i] >= cooldown
  {
    if requests != [] {
      if SplashDue(requests[0], lastSplash, cooldown) {
        SplashesSpaced(requests[0], cooldown, requests[1..]);
      } else {
        SplashesSpaced(lastSplash, cooldown, requests[1..]);
      }
    }
  }

  /** Every splash that plays was requested. */
  lemma {:induction false} SplashesRequested(lastSplash: int, cooldown: int, requests: seq<int>)
    decreases |requests|
    ensures forall t :: t in AcceptedSplashes(lastSplash, cooldown, requests) ==> t in requests
  {
    if requests != [] {
      if SplashDue(requests[0], lastSplash, cooldown) {
        SplashesRequested(requests[0], cooldown, requests[1..]);
      } else {
        SplashesRequested(lastSplash, cooldown, requests[1..]);
      }
    }
  }

  /** All fields of an AudioManager, as a value. */
  datatype AudioState = AudioState(
    hasContext: bool,
    gestureListeners: bool,
    userInteractionReceived: bool,
    isInitialized: bool,
    isMuted: bool,
    buffers: set<Sound>,
    hasSplashElement: bool,
    currentMusic: bool,
    musicVolume: real,
    sfxVolume: real,
    masterGain: real,
    musicGain: real,
    sfxGain: real,
    lastSplashTime: int,
    splashCooldown: int,
    pendingMusicTimers: nat,
    played: seq<Playback>)

  /** The gate of playSoundEffect on a state: audio is on, unmuted and the effect's buffer exists. */
  predicate EffectGate(st: AudioState, s: Sound)
  {
    st.isInitialized && !st.isMuted && s in st.buffers
  }

  /** The state onGameStart leaves: the start sound under the gate and one more music timer. */
  function AfterGameStart(st: AudioState): AudioState
  {
    st.(pendingMusicTimers := st.pendingMusicTimers + 1,
        played := st.played + if EffectGate(st, StartSound) then [Effect(StartSound)] else [])
  }

  /** The state onGameWin leaves: the music stopped and the victory sound under the gate. */
  function AfterGameWin(st: AudioState): AudioState
  {
    st.(currentMusic := false, played := st.played + if EffectGate(st, Victory) then [Effect(Victory)] else [])
  }

  /** The state onBoatMove at time now leaves: with the splash element, the rate-limited HTML
      splash, silent while muted; without it, the generated splash under the gate. */
  function AfterBoatMove(st: AudioState, now: int): AudioState
  {
    if st.hasSplashElement then
      var plays := SplashDue(now, st.lastSplashTime, st.splashCooldown) && !st.isMuted;
      st.(played := st.played + (if plays then [SplashElement] else []),
          lastSplashTime := if plays then now else st.lastSplashTime)
    else
      st.(played := st.played + if EffectGate(st, SplashGenerated) then [Effect(SplashGenerated)] else [])
  }

  /** onBoatMove at each request time in turn. */
  function BoatMoves(st: AudioState, requests: seq<int>): AudioState
    decreases |requests|
  {
    if requests == [] then st else BoatMoves(AfterBoatMove(st, requests[0]), requests[1..])
  }

  /** One HTML splash in the played log per time. */
  function SplashMarks(times: seq<int>): seq<Playback>
  {
    seq(|times|, _ => SplashElement)
  }

  /** One request with the splash element and sound on: onBoatMove logs exactly the splash
      the rate-limit fold accepts, and stamps it. */
  lemma SplashStepAccepted(st: AudioState, now: int)
    requires st.hasSplashElement && !st.isMuted
    ensures var acc := AcceptedSplashes(st.lastSplashTime, st.splashCooldown, [now]);
      AfterBoatMove(st, now).played == st.played + SplashMarks(acc) &&
      AfterBoatMove(st, now).lastSplashTime == (if acc == [] then st.lastSplashTime else now)
  {
    var acc := AcceptedSplashes(st.lastSplashTime, st.splashCooldown, [now]);
    assert [now][0] == now && [now][1..] == [];
    if SplashDue(now, st.lastSplashTime, st.splashCooldown) {
      assert acc == [now] + AcceptedSplashes(now, st.splashCooldown, []);
      assert acc == [now];
      assert SplashMarks(acc) == [SplashElement];
    } else {
      assert acc == AcceptedSplashes(st.lastSplashTime, st.splashCooldown, []);
    }
  }

  /** Any series of boat moves with the splash element and sound on: the splashes logged are
      one per request the rate-limit fold accepts, and the stamp is the last accepted one. */
  lemma {:induction false} BoatMovesPlayAccepted(st: AudioState, requests: seq<int>)
    requires st.hasSplashElement && !st.isMuted
    decreases |requests|
    ensures var acc := AcceptedSplashes(st.lastSplashTime, st.splashCooldown, requests);
      BoatMoves(st, requests).played == st.played + SplashMarks(acc) &&
      BoatMoves(st, requests).lastSplashTime == (if acc == [] then st.lastSplashTime else acc[|acc| - 1])
  {
    if requests != [] {
      var next := AfterBoatMove(st, requests[0]);
      BoatMovesPlayAccepted(next, requests[1..]);
      var rest := AcceptedSplashes(next.lastSplashTime, next.splashCooldown, requests[1..]);
      if SplashDue(requests[0], st.lastSplashTime, st.splashCooldown) {
        assert SplashMarks([requests[0]] + rest) == [SplashElement] + SplashMarks(rest);
      }
    }
  }

  /** The audio manager as its constructor leaves it: no context, gesture listeners attached,
      default volumes and cooldown, nothing played. */
  const INITIAL_AUDIO: AudioState :=
    AudioState(false, true, false, false, false, {}, false, false,
               DEFAULT_MUSIC_VOLUME, DEFAULT_SFX_VOLUME, 1.0, 1.0, 1.0,
               0, DEFAULT_SPLASH_COOLDOWN, 0, [])

  class AudioManager {
    /** audioContext !== null. */
    var hasContext: bool
    /** The click/keydown/touchstart listeners that enable audio are attached. */
    var gestureListeners: bool
    var userInteractionReceived: bool
    var isInitialized: bool
    var isMuted: bool
    /** The keys of soundBuffers. */
    var buffers: set<Sound>
    /** htmlAudioElements.splash exists. */
    var hasSplashElement: bool
    /** currentMusic is a playing buffer source. */
    var currentMusic: bool
    var musicVolume: real
    var sfxVolume: real
    /** The gain values of the master, music and effects nodes (meaningful once the context exists). */
    var masterGain: real
    var musicGain: real
    var sfxGain: real
    var lastSplashTime: int
    var splashCooldown: int
    /** The 500 ms music timers onGameStart scheduled that have not fired yet. */
    var pendingMusicTimers: nat
    /** Every sound started, in order. */
    var played: seq<Playback>

    function State(): AudioState
      reads this
    {
      AudioState(hasContext, gestureListeners, userInteractionReceived, isInitialized, isMuted,
                 buffers, hasSplashElement, currentMusic, musicVolume, sfxVolume,
                 masterGain, musicGain, sfxGain, lastSplashTime, splashCooldown,
                 pendingMusicTimers, played)
    }

    /** Volumes stay in [0, 1], the cooldown never drops under 50 ms, and buffers,
        music and the initialised flag all need an audio context. */
    ghost predicate Valid()
      reads this
    {
      0.0 <= musicVolume <= 1.0 && 0.0 <= sfxVolume <= 1.0 &&
      splashCooldown >= MIN_SPLASH_COOLDOWN &&
      (!hasContext ==> buffers == {} && !currentMusic && !isInitialized)
    }

    /** The constructor and init: silent, waiting for a user gesture. */
    constructor()
      ensures Valid()
      ensures State() == INITIAL_AUDIO
    {
      hasContext := false;
      gestureListeners := true;
      userInteractionReceived := false;
      isInitialized := false;
      isMuted := false;
      buffers := {};
      hasSplashElement := false;
      currentMusic := false;
      musicVolume := DEFAULT_MUSIC_VOLUME;
      sfxVolume := DEFAULT_SFX_VOLUME;
      masterGain := 1.0;
      musicGain := 1.0;
      sfxGain := 1.0;
      lastSplashTime := 0;
      splashCooldown := DEFAULT_SPLASH_COOLDOWN;
      pendingMusicTimers := 0;
      played := [];
    }

    /** enableAudio, run by a user gesture. contextOk says whether the browser created the
        AudioContext; splashConfigured whether a splash audio path is configured. Only the
        first successful gesture has an effect. */
    method EnableAudio(contextOk: bool, splashConfigured: bool)
      requires Valid()
      modifies this
      ensures Valid()
      ensures old(userInteractionReceived) ==> State() == old(State())
      ensures !old(userInteractionReceived) && !contextOk ==>
        State() == old(State()).(isInitialized := false)
      ensures !old(userInteractionReceived) && contextOk ==>
        State() == old(State()).(hasContext := true, masterGain := 1.0,
                                 musicGain := old(musicVolume), sfxGain := old(sfxVolume),
                                 buffers := old(buffers) + GENERATED_EFFECTS,
                                 hasSplashElement := old(hasSplashElement) || splashConfigured,
                                 userInteractionReceived := true, isInitialized := true,
                                 gestureListeners := false)
    {
      if userInteractionReceived {
        return;
      }
      if !contextOk {
        isInitialized := false;
        return;
      }
      CreateContext(splashConfigured);
    }

    /** The successful part of enableAudio: the context and its gain nodes, the effects, the
        splash element, and the gesture listeners removed. */
    method CreateContext(splashConfigured: bool)
      requires Valid()
      modifies this
      ensures Valid()
      ensures State() == old(State()).(hasContext := true, masterGain := 1.0,
                                       musicGain := old(musicVolume), sfxGain := old(sfxVolume),
                                       buffers := old(buffers) + GENERATED_EFFECTS,
                                       hasSplashElement := old(hasSplashElement) || splashConfigured,
                                       userInteractionReceived := true, isInitialized := true,
                                       gestureListeners := false)
    {
      CreateGraph();
      GenerateSoundEffects();
      LoadAudioFiles(splashConfigured);
      Activate();
    }

    /** The audio context and its master, music and effects gain nodes, the latter two at
        the current volumes. */
    method CreateGraph()
      requires Valid()
      modifies this
      ensures Valid()
      ensures State() == old(State()).(hasContext := true, masterGain := 1.0,
                                       musicGain := old(musicVolume), sfxGain := old(sfxVolume))
    {
      hasContext, masterGain, musicGain, sfxGain := true, 1.0, musicVolume, sfxVolume;
    }

    /** The gesture has been received: audio is on and the gesture listeners are removed. */
    method Activate()
      requires Valid() && hasContext
      modifies this
      ensures Valid()
      ensures State() == old(State()).(userInteractionReceived := true, isInitialized := true,
                                       gestureListeners := false)
    {
      userInteractionReceived, isInitialized, gestureListeners := true, true, false;
    }

    /** generateSoundEffects: the five effect buffers, once there is an audio context. */
    method GenerateSoundEffects()
      requires Valid()
      modifies this
      ensures Valid()
      ensures State() == old(State()).(buffers := if old(hasContext) then old(buffers) + GENERATED_EFFECTS else old(buffers))
    {
      if hasContext {
        buffers := buffers + GENERATED_EFFECTS;
      }
    }

    /** loadAudioFiles: the HTML splash element, when a splash audio path is configured. */
    method LoadAudioFiles(splashConfigured: bool)
      requires Valid()
      modifies this
      ensures Valid()
      ensures State() == old(State()).(hasSplashElement := old(hasSplashElement) || splashConfigured)
    {
      if splashConfigured {
        hasSplashElement := true;
      }
    }

    /** An effect plays exactly when audio is on, unmuted and the effect's buffer exists. */
    predicate CanPlayEffect(s: Sound)
      reads this
    {
      isInitialized && !isMuted && s in buffers
    }

    method PlaySoundEffect(s: Sound)
      requires Valid()
      modifies this
      ensures Valid()
      ensures State() == old(State()).(played := old(played) + if old(CanPlayEffect(s)) then [Effect(s)] else [])
    {
      if !isInitialized || isMuted || s !in buffers {
        return;
      }
      played := played + [Effect(s)];
    }

    /** playSplashSound: plays the HTML splash when the cooldown has passed, the element exists
        and sound is unmuted; only a splash that plays restarts the cooldown. */
    method PlaySplashSound(now: int)
      requires Valid()
      modifies this
      ensures Valid()
      ensures var plays := SplashDue(now, old(lastSplashTime), old(splashCooldown)) && old(hasSplashElement) && !old(isMuted);
        State() == old(State()).(played := old(played) + (if plays then [SplashElement] else []),
                                 lastSplashTime := if plays then now else old(lastSplashTime))
      ensures old(hasSplashElement) && !old(isMuted) ==>
        played == old(played) + SplashMarks(AcceptedSplashes(old(lastSplashTime), old(splashCooldown), [now]))
    {
      if now - lastSplashTime < splashCooldown {
        return;
      }
      if hasSplashElement && !isMuted {
        SplashStepAccepted(State(), now);
        played := played + [SplashElement];
        lastSplashTime := now;
      }
    }

    method StopBackgroundMusic()
      requires Valid()
      modifies this
      ensures Valid()
      ensures State() == old(State()).(currentMusic := false)
    {
      currentMusic := false;
    }

    /** playBackgroundMusic: when audio is on and unmuted, (re)starts the looping music,
        generating its buffer on first use. */
    method PlayBackgroundMusic()
      requires Valid()
      modifies this
      ensures Valid()
      ensures !old(isInitialized) || old(isMuted) || !old(hasContext) ==> State() == old(State())
      ensures old(isInitialized) && !old(isMuted) && old(hasContext) ==>
        State() == old(State()).(currentMusic := true, buffers := old(buffers) + {BackgroundMusic},
                                 played := old(played) + [Music])
    {
      if !isInitialized || isMuted || !hasContext {
        return;
      }
      StopBackgroundMusic();
      if BackgroundMusic !in buffers {
        buffers := buffers + {BackgroundMusic};
      }
      currentMusic := true;
      played := played + [Music];
    }

    method PlayCountdownBeep()
      requires Valid()
      modifies this
      ensures Valid()
      ensures State() == old(State()).(played := old(played) + if old(CanPlayEffect(CountdownBeep)) then [Effect(CountdownBeep)] else [])
    {
      PlaySoundEffect(CountdownBeep);
    }

    method PlayStartSound()
      requires Valid()
      modifies this
      ensures Valid()
      ensures State() == old(State()).(played := old(played) + if old(CanPlayEffect(StartSound)) then [Effect(StartSound)] else [])
    {
      PlaySoundEffect(StartSound);
    }

    method PlayButtonClick()
      requires Valid()
      modifies this
      ensures Valid()
      ensures State() == old(State()).(played := old(played) + if old(CanPlayEffect(ButtonClick)) then [Effect(ButtonClick)] else [])
    {
      PlaySoundEffect(ButtonClick);
    }

    /** playSplash: the HTML element when there is one, the generated splash otherwise. */
    method PlaySplash(now: int)
      requires Valid()
      modifies this
      ensures Valid()
      ensures old(hasSplashElement) ==>
        var plays := SplashDue(now, old(lastSplashTime), old(splashCooldown)) && !old(isMuted);
        State() == old(State()).(played := old(played) + (if plays then [SplashElement] else []),
                                 lastSplashTime := if plays then now else old(lastSplashTime))
      ensures !old(hasSplashElement) ==>
        State() == old(State()).(played := old(played) + if old(CanPlayEffect(SplashGenerated)) then [Effect(SplashGenerated)] else [])
    {
      if hasSplashElement {
        PlaySplashSound(now);
      } else {
        PlaySoundEffect(SplashGenerated);
      }
    }

    /** playVictory: the music stops and the victory effect plays. */
    method PlayVictory()
      requires Valid()
      modifies this
      ensures Valid()
      ensures State() == old(State()).(currentMusic := false,
                                       played := old(played) + if old(CanPlayEffect(Victory)) then [Effect(Victory)] else [])
    {
      StopBackgroundMusic();
      PlaySoundEffect(Victory);
    }

    method SetSplashCooldown(cooldown: int)
      requires Valid()
      modifies this
      ensures Valid()
      ensures State() == old(State()).(splashCooldown := CooldownFloor(cooldown))
    {
      splashCooldown := CooldownFloor(cooldown);
    }

    /** setMusicVolume: the volume is clamped to [0, 1]; the music gain takes it, or 0 while muted. */
    method SetMusicVolume(volume: real)
      requires Valid()
      modifies this
      ensures Valid()
      ensures State() == old(State()).(musicVolume := Clamp01(volume),
                                       musicGain := if !old(hasContext) then old(musicGain)
                                                    else if old(isMuted) then 0.0 else Clamp01(volume))
    {
      musicVolume := Clamp01(volume);
      if hasContext {
        musicGain := if isMuted then 0.0 else musicVolume;
      }
    }

    /** setSfxVolume: the volume is clamped to [0, 1]; the effects gain takes it, or 0 while muted. */
    method SetSfxVolume(volume: real)
      requires Valid()
      modifies this
      ensures Valid()
      ensures State() == old(State()).(sfxVolume := Clamp01(volume),
                                       sfxGain := if !old(hasContext) then old(sfxGain)
                                                  else if old(isMuted) then 0.0 else Clamp01(volume))
    {
      sfxVolume := Clamp01(volume);
      if hasContext {
        sfxGain := if isMuted then 0.0 else sfxVolume;
      }
    }

    /** toggleMute: flips the mute flag and the master gain; muting stops the music and
        unmuting restarts it when the game is in its playing phase. */
    method ToggleMute(gamePlaying: bool)
      requires Valid()
      modifies this
      ensures Valid()
      ensures var gain := if !old(hasContext) then old(masterGain) else if old(isMuted) then 1.0 else 0.0;
        !old(isMuted) ==> State() == old(State()).(isMuted := true, masterGain := gain, currentMusic := false)
      ensures var gain := if !old(hasContext) then old(masterGain) else if old(isMuted) then 1.0 else 0.0;
        old(isMuted) && gamePlaying && old(isInitialized) ==>
        State() == old(State()).(isMuted := false, masterGain := gain, currentMusic := true,
                                 buffers := old(buffers) + {BackgroundMusic}, played := old(played) + [Music])
      ensures var gain := if !old(hasContext) then old(masterGain) else if old(isMuted) then 1.0 else 0.0;
        old(isMuted) && !(gamePlaying && old(isInitialized)) ==>
        State() == old(State()).(isMuted := false, masterGain := gain)
    {
      isMuted := !isMuted;
      if hasContext {
        masterGain := if isMuted then 0.0 else 1.0;
      }
      if isMuted {
        StopBackgroundMusic();
      } else if gamePlaying {
        PlayBackgroundMusic();
      }
    }

    /** onGameStart: the start sound now, and a timer that starts the music 500 ms later. */
    method OnGameStart()
      requires Valid()
      modifies this
      ensures Valid()
      ensures State() == old(State()).(pendingMusicTimers := old(pendingMusicTimers) + 1,
                                       played := old(played) + if old(CanPlayEffect(StartSound)) then [Effect(StartSound)] else [])
      ensures State() == AfterGameStart(old(State()))
    {
      PlayStartSound();
      pendingMusicTimers := pendingMusicTimers + 1;
    }

    /** One of the music timers fires; it is never cancelled, so it plays even after a restart. */
    method MusicTimerFires()
      requires Valid() && pendingMusicTimers > 0
      modifies this
      ensures Valid()
      ensures !old(isInitialized) || old(isMuted) ==> State() == old(State()).(pendingMusicTimers := old(pendingMusicTimers) - 1)
      ensures old(isInitialized) && !old(isMuted) ==>
        State() == old(State()).(pendingMusicTimers := old(pendingMusicTimers) - 1, currentMusic := true,
                                 buffers := old(buffers) + {BackgroundMusic}, played := old(played) + [Music])
    {
      pendingMusicTimers := pendingMusicTimers - 1;
      PlayBackgroundMusic();
    }

    method OnGameWin()
      requires Valid()
      modifies this
      ensures Valid()
      ensures State() == old(State()).(currentMusic := false,
                                       played := old(played) + if old(CanPlayEffect(Victory)) then [Effect(Victory)] else [])
      ensures State() == AfterGameWin(old(State()))
    {
      PlayVictory();
    }

    /** onGameRestart: the music stops and the splash cooldown window is reopened. */
    method OnGameRestart()
      requires Valid()
      modifies this
      ensures Valid()
      ensures State() == old(State()).(currentMusic := false, lastSplashTime := 0)
    {
      StopBackgroundMusic();
      lastSplashTime := 0;
    }

    method OnButtonClick()
      requires Valid()
      modifies this
      ensures Valid()
      ensures State() == old(State()).(played := old(played) + if old(CanPlayEffect(ButtonClick)) then [Effect(ButtonClick)] else [])
    {
      PlayButtonClick();
    }

    method OnCountdownTick()
      requires Valid()
      modifies this
      ensures Valid()
      ensures State() == old(State()).(played := old(played) + if old(CanPlayEffect(CountdownBeep)) then [Effect(CountdownBeep)] else [])
    {
      PlayCountdownBeep();
    }

    method OnBoatMove(now: int)
      requires Valid()
      modifies this
      ensures Valid()
      ensures old(hasSplashElement) ==>
        var plays := SplashDue(now, old(lastSplashTime), old(splashCooldown)) && !old(isMuted);
        State() == old(State()).(played := old(played) + (if plays then [SplashElement] else []),
                                 lastSplashTime := if plays then now else old(lastSplashTime))
      ensures !old(hasSplashElement) ==>
        State() == old(State()).(played := old(played) + if old(CanPlayEffect(SplashGenerated)) then [Effect(SplashGenerated)] else [])
      ensures State() == AfterBoatMove(old(State()), now)
    {
      PlaySplash(now);
    }

    /** destroy: the music stops and audio is switched off, so no effect passes the gate
        until a later gesture enables audio again; that can happen only while the gesture
        listeners are still attached, that is, when no gesture came before destroy. */
    method Destroy()
      requires Valid()
      modifies this
      ensures Valid()
      ensures State() == old(State()).(currentMusic := false, isInitialized := false)
      ensures forall s :: !CanPlayEffect(s)
    {
      StopBackgroundMusic();
      isInitialized := false;
    }
  }
}
