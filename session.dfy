/** A race session in the browser (static/javaScript/GameManager.js and
    static/javaScript/UIManager.js): the game manager that owns the boats, the
    scenery, the controls, the audio and the on-screen read-outs, runs the frame
    loop and decides the winner, and the UI manager that runs the countdown and
    writes the read-outs. The two refer to each other, so they share a module.
    Timers and the frame callback become methods the page calls when they fire. */
module Session {
  import opened Util
  import opened Config
  import opened Race
  import opened Input
  import opened Boats
  import opened Audio
  import opened Scenery

  /** Which of the page elements the UI manager looks up are present. */
  datatype Elements = Elements(
    countdownOverlay: bool,
    countdownNumber: bool,
    gameUI: bool,
    distance1: bool,
    distance2: bool,
    winnerScreen: bool,
    winnerText: bool,
    controlsInfo: bool)

  /** An element's display as the UI manager last set it; AsPage until it first writes it. */
  datatype Display = AsPage | Shown | Hidden

  /** Where the camera is put when it is created (its z coordinate). */
  const CAMERA_START_Z: real := -20.0
  /** The frame rate is measured over windows of at least this many milliseconds. */
  const FPS_WINDOW_MS: real := 1000.0
  /** A window with fewer frames than this drops a high-performance session to low. */
  const LOW_FPS: nat := 30
  const MAX_PIXEL_RATIO: real := 2.0
  /** The distance read-outs are refreshed on frames whose counter is a multiple of this. */
  const UI_REFRESH_FRAMES: nat := 5
  /** The scenery is updated on frames whose counter is a multiple of this. */
  const SCENERY_FRAMES: nat := 2
  /** The number the countdown starts from, and what it shows when it ends. */
  const COUNTDOWN_FROM: nat := 3
  const GO_TEXT: string := "GO!"
  /** What a name lookup outside the two players yields in a template literal. */
  const UNDEFINED_TEXT: string := "undefined"

  // ---------------------------------------------------------------- frame rate

  /** The frame-rate monitor and the renderer settings it controls. */
  datatype Perf = Perf(
    mode: PerfMode,
    frameCount: nat,
    lastCheck: real,
    fps: nat,
    shadows: bool,
    pixelRatio: real)

  /** monitorPerformance at time now (with switchToLowPerformanceMode when it triggers). */
  function Monitor(p: Perf, now: real): (q: Perf)
  {
    var counted := p.frameCount + 1;
    if now - p.lastCheck >= FPS_WINDOW_MS then
      var measured := p.(fps := counted, frameCount := 0, lastCheck := now);
      if counted < LOW_FPS && p.mode == High then measured.(mode := Low, shadows := false, pixelRatio := 1.0)
      else measured
    else p.(frameCount := counted)
  }

  /** Within a window the monitor only counts; at the end of one it records the count as the
      frame rate and starts the next window; quality drops exactly when a high-performance
      window counted fewer than 30 frames. */
  lemma MonitorWindows(p: Perf, now: real)
    ensures now - p.lastCheck < FPS_WINDOW_MS ==> Monitor(p, now) == p.(frameCount := p.frameCount + 1)
    ensures now - p.lastCheck >= FPS_WINDOW_MS ==>
      Monitor(p, now).fps == p.frameCount + 1 && Monitor(p, now).frameCount == 0 && Monitor(p, now).lastCheck == now
    ensures Monitor(p, now).mode != p.mode <==>
      now - p.lastCheck >= FPS_WINDOW_MS && p.frameCount + 1 < LOW_FPS && p.mode == High
  {
  }

  /** Quality only ever goes down: a low-performance session stays low with its renderer
      settings untouched, and low mode never has shadows. */
  lemma MonitorNeverRaisesQuality(p: Perf, now: real)
    ensures p.mode == Low ==>
      Monitor(p, now).mode == Low && Monitor(p, now).shadows == p.shadows && Monitor(p, now).pixelRatio == p.pixelRatio
    ensures (p.mode == Low ==> !p.shadows) ==> (Monitor(p, now).mode == Low ==> !Monitor(p, now).shadows)
  {
  }

  /** The first measuring window starts at time 0, not when the frame loop starts, so a
      high-performance session whose first frame comes a second or more after time 0 drops
      to low performance on that first frame. */
  lemma SlowStartDropsQuality(p: Perf, now: real)
    requires p.mode == High && p.frameCount == 0 && p.lastCheck == 0.0
    requires now >= FPS_WINDOW_MS
    ensures Monitor(p, now).mode == Low && !Monitor(p, now).shadows && Monitor(p, now).fps == 1
  {
  }

  /** The renderer settings createRenderer picks for a mode and a device pixel ratio. */
  function RendererPerf(mode: PerfMode, devicePixelRatio: real): (p: Perf)
    ensures p.shadows <==> mode == High
    ensures mode == Low ==> p.pixelRatio == 1.0
    ensures mode == High ==>
      p.pixelRatio <= MAX_PIXEL_RATIO && p.pixelRatio <= devicePixelRatio &&
      (p.pixelRatio == MAX_PIXEL_RATIO || p.pixelRatio == devicePixelRatio)
    ensures p.mode == mode && p.frameCount == 0 && p.lastCheck == 0.0 && p.fps == 60
  {
    Perf(mode, 0, 0.0, 60, mode == High, if mode == High then MinReal(devicePixelRatio, MAX_PIXEL_RATIO) else 1.0)
  }

  // ---------------------------------------------------------------- countdown

  /** One firing of the countdown interval on counter c: the next counter, the text shown,
      and whether the interval is cleared. */
  datatype Tick = Tick(next: nat, text: string, finished: bool)

  function CountdownStep(c: nat): Tick
  {
    if c > 1 then Tick(c - 1, NatToString(c - 1), false) else Tick(c, GO_TEXT, true)
  }

  /** The texts the interval shows from counter c until it is cleared. */
  function TickTexts(c: nat): (ts: seq<string>)
    decreases c
  {
    var t := CountdownStep(c);
    if t.finished then [t.text] else [t.text] + TickTexts(t.next)
  }

  /** From counter c the interval runs max(c, 1) times: it counts down through c - 1, ..., 1
      and then shows GO!, and GO! appears only at the end. */
  lemma {:induction false} CountdownCountsDown(c: nat)
    ensures |TickTexts(c)| == if c > 1 then c else 1
    ensures TickTexts(c)[|TickTexts(c)| - 1] == GO_TEXT
    ensures forall i :: 0 <= i < |TickTexts(c)| - 1 ==> TickTexts(c)[i] == NatToString(c - 1 - i)
    decreases c
  {
    if c > 1 {
      CountdownCountsDown(c - 1);
      var ts := TickTexts(c);
      var rest := TickTexts(c - 1);
      assert ts == [NatToString(c - 1)] + rest;
      forall i | 0 <= i < |ts| - 1
        ensures ts[i] == NatToString(c - 1 - i)
      {
        if i > 0 {
          assert ts[i] == rest[i - 1];
        }
      }
    }
  }

  /** The game's countdown: "3" when it starts, then "2", "1" and "GO!". */
  lemma CountdownFromThree()
    ensures NatToString(COUNTDOWN_FROM) == "3"
    ensures TickTexts(COUNTDOWN_FROM) == ["2", "1", GO_TEXT]
  {
  }

  // ---------------------------------------------------------------- strokes

  /** after is before with boat 0 rowed one stroke when m0 and boat 1 when m1: a rowed boat
      is BOAT_SPEED further down the river in the same lane and heading, and every other
      boat is untouched. */
  ghost predicate Rowed(before: seq<Pose>, after: seq<Pose>, m0: bool, m1: bool)
  {
    |after| == |before| &&
    forall i :: 0 <= i < |before| ==>
      var m := (i == 0 && m0) || (i == 1 && m1);
      after[i].z == before[i].z + (if m then BOAT_SPEED else 0.0) &&
      after[i].x == before[i].x && after[i].rotY == before[i].rotY &&
      (!m ==> after[i] == before[i])
  }

  /** Rowing boat 0 and then boat 1 is rowing both in one step. */
  lemma RowedInTurn(b0: seq<Pose>, b1: seq<Pose>, b2: seq<Pose>, m0: bool, m1: bool)
    requires Rowed(b0, b1, m0, false) && Rowed(b1, b2, false, m1)
    ensures Rowed(b0, b2, m0, m1)
  {
    forall i | 0 <= i < |b0|
      ensures b2[i].z == b0[i].z + (if (i == 0 && m0) || (i == 1 && m1) then BOAT_SPEED else 0.0)
    {
      assert b1[i].z == b0[i].z + (if i == 0 && m0 then BOAT_SPEED else 0.0);
      assert b2[i].z == b1[i].z + (if i == 1 && m1 then BOAT_SPEED else 0.0);
    }
  }

  /** A boat nobody rows stays where it is. */
  lemma StandingStill(b: seq<Pose>)
    ensures Rowed(b, b, false, false)
  {
  }

  // ---------------------------------------------------------------- the UI manager's view

  /** The UI manager's fields, as one value. */
  datatype UiState = UiState(
    isCountdownActive: bool,
    countdownRunning: bool,
    countdown: nat,
    countdownText: Option<string>,
    overlay: Display,
    controlsInfo: Display,
    gameUI: Display,
    winnerScreen: Display,
    distance1Text: Option<string>,
    distance2Text: Option<string>,
    winnerText: Option<string>,
    readyTimers: nat,
    goTimers: nat)

  /** The UI manager as its constructor leaves it. */
  const INITIAL_UI: UiState := UiState(false, false, 0, None, AsPage, AsPage, AsPage, AsPage, None, None, None, 0, 0)

  /** The name the read-outs and the banner show for boat i. */
  function BoatName(info: PlayerInfo, i: int): (n: string)
    ensures 0 <= i < 2 ==> n == PlayerNames(info)[i]
    ensures !(0 <= i < 2) ==> n == UNDEFINED_TEXT
  {
    if 0 <= i < 2 then PlayerNames(info)[i] else UNDEFINED_TEXT
  }

  /** The UI after updateUI on a frame with counter frameCount: with both boats and on every
      fifth frame, each present read-out shows its boat's name and the distance it has left. */
  function UiAfterRefresh(u: UiState, e: Elements, info: PlayerInfo, boats: seq<Pose>, frameCount: nat): UiState
  {
    if |boats| >= 2 && frameCount % UI_REFRESH_FRAMES == 0 then
      u.(distance1Text := if e.distance1 then Some(DistanceText(BoatName(info, 0), DisplayDistance(boats[0].z))) else u.distance1Text,
         distance2Text := if e.distance2 then Some(DistanceText(BoatName(info, 1), DisplayDistance(boats[1].z))) else u.distance2Text)
    else u
  }

  /** The UI after onGameWin for boat w: the banner names the winner and the winner screen shows. */
  function UiAfterWin(u: UiState, e: Elements, info: PlayerInfo, w: nat): UiState
  {
    u.(winnerText := if e.winnerText then Some(WinnerText(BoatName(info, w))) else u.winnerText,
       winnerScreen := if e.winnerScreen then Shown else u.winnerScreen)
  }

  /** The UI after one race step: the read-outs refreshed, then the banner when the step
      decided the race for boat decided.value. */
  function UiAfterStep(u: UiState, e: Elements, info: PlayerInfo, boats: seq<Pose>, frameCount: nat, decided: Option<nat>): UiState
  {
    var refreshed := UiAfterRefresh(u, e, info, boats, frameCount);
    if decided.Some? then UiAfterWin(refreshed, e, info, decided.value) else refreshed
  }

  /** The audio after one race step at wall-clock time now: onBoatMove when a boat was rowed,
      then onGameWin when the step decided the race. */
  function AudioAfterStep(a: AudioState, rowed: bool, now: int, decided: bool): AudioState
  {
    var moved := if rowed then AfterBoatMove(a, now) else a;
    if decided then AfterGameWin(moved) else moved
  }

  class GameManager {
    var gameState: GameState
    /** performanceMode, frameCount, lastFPSCheck, currentFPS and the renderer's shadow
        switch and pixel ratio. */
    var perf: Perf
    /** The renderer was asked to redraw its shadow map. */
    var shadowsNeedUpdate: bool
    var cameraZ: real
    const playerInfo: PlayerInfo
    var boatManager: BoatManager?
    var environment: Environment?
    var controls: Controls?
    var uiManager: UIManager?
    var audioManager: AudioManager?
    var isInitialized: bool
    /** A frame callback is scheduled. */
    var frameRequested: bool
    /** The game manager's keyboard and visibility listeners are attached. */
    var listening: bool

    /** The subsystems keep their own invariants, the UI manager belongs to this game, a
        winner is recorded exactly when the game is won, and low mode has no shadows. */
    ghost predicate Valid()
      reads this, boatManager, audioManager, uiManager
    {
      (boatManager != null ==> boatManager.Valid()) &&
      (audioManager != null ==> audioManager.Valid()) &&
      (uiManager != null ==> uiManager.gameManager == this && uiManager.Valid()) &&
      (gameState.gameWon <==> gameState.winner.Some?) &&
      (perf.mode == Low ==> !perf.shadows)
    }

    /** The same subsystems as before. */
    twostate predicate KeepsParts()
      reads this
    {
      boatManager == old(boatManager) && environment == old(environment) && controls == old(controls) &&
      uiManager == old(uiManager) && audioManager == old(audioManager)
    }

    /** The same camera, shadow-map request, flags and listeners as before. */
    twostate predicate KeepsView()
      reads this
    {
      shadowsNeedUpdate == old(shadowsNeedUpdate) && cameraZ == old(cameraZ) &&
      isInitialized == old(isInitialized) && frameRequested == old(frameRequested) && listening == old(listening)
    }

    /** The frame-loop state as before: frame rate and renderer settings, subsystems,
        camera, flags and listeners (the shadow-map request aside). */
    twostate predicate KeepsLoop()
      reads this
    {
      perf == old(perf) && KeepsParts() && cameraZ == old(cameraZ) &&
      isInitialized == old(isInitialized) && frameRequested == old(frameRequested) && listening == old(listening)
    }

    /** Everything but the game record as before. */
    twostate predicate KeepsRest()
      reads this
    {
      perf == old(perf) && KeepsParts() && KeepsView()
    }

    /** The boats as the frame logic sees them, or none before the boat manager exists. */
    function Boats(): seq<Pose>
      reads this, boatManager
    {
      if boatManager == null then [] else boatManager.boats
    }

    /** Whether the player of boat i holds their key. */
    predicate Moving(i: int)
      reads this, controls
    {
      controls != null && ((i == 0 && controls.IsPlayer1Moving()) || (i == 1 && controls.IsPlayer2Moving()))
    }

    /** The constructor: player information from the page's query string, the detected
        performance mode, and no subsystem yet. */
    constructor(query: seq<(string, string)>, detectedMode: PerfMode)
      ensures Valid()
      ensures gameState == INITIAL_STATE && perf == Perf(detectedMode, 0, 0.0, 60, false, 1.0)
      ensures !shadowsNeedUpdate && cameraZ == 0.0 && !isInitialized && !frameRequested && !listening
      ensures playerInfo == ExtractPlayerInfo(query)
      ensures boatManager == null && environment == null && controls == null
      ensures uiManager == null && audioManager == null
    {
      gameState := INITIAL_STATE;
      perf := Perf(detectedMode, 0, 0.0, 60, false, 1.0);
      shadowsNeedUpdate := false;
      cameraZ := 0.0;
      playerInfo := ExtractPlayerInfo(query);
      boatManager := null;
      environment := null;
      controls := null;
      uiManager := null;
      audioManager := null;
      isInitialized := false;
      frameRequested := false;
      listening := false;
    }

    // ------------------------------------------------------------ start-up

    /** init: the UI and audio managers, the camera and renderer, the scenery, the controls
        and the boats are created in that order, the listeners are attached, the game is
        ready, the first frame runs and the UI schedules the countdown. */
    method Init(elements: Elements, devicePixelRatio: real, modelLoaded: bool,
                sin: real -> real, cos: real -> real, perfNow: real)
      requires Valid()
      modifies this
      ensures Valid()
      ensures fresh(uiManager) && fresh(audioManager) && fresh(environment) && fresh(controls) && fresh(boatManager)
      ensures gameState == old(gameState).(current := Ready) && shadowsNeedUpdate == old(shadowsNeedUpdate)
      ensures var r := RendererPerf(old(perf.mode), devicePixelRatio);
        perf == Monitor(old(perf).(shadows := r.shadows, pixelRatio := r.pixelRatio), perfNow)
      ensures cameraZ == CAMERA_START_Z && isInitialized && frameRequested && listening
      ensures uiManager.elements == elements
      ensures uiManager.State() == INITIAL_UI.(gameUI := if elements.gameUI then Shown else AsPage, readyTimers := 1)
      ensures audioManager.State() == INITIAL_AUDIO
      ensures environment.config == GAME_LAYOUT && environment.performanceMode == old(perf.mode)
      ensures |environment.riverChunks| == ChunkCount(old(perf.mode))
      ensures environment.placed == environment.riverChunks + FinishLinePieces(GAME_LAYOUT) + [WATER_OVERLAY]
      ensures controls.keys == map[]
      ensures boatManager.boats == [CreatedPose(0, modelLoaded), CreatedPose(1, modelLoaded)]
      ensures boatManager.sin == sin && boatManager.cos == cos
    {
      InitializeUI(elements);
      InitializeAudio();
      CreateCamera();
      CreateRenderer(devicePixelRatio);
      InitializeEnvironment();
      InitializeControls();
      InitializeBoats(modelLoaded, sin, cos);
      SetupEventListeners();
      MarkReady();
      StartRenderLoop(perfNow);
      NotifyUiReady();
    }

    method InitializeUI(elements: Elements)
      requires Valid()
      modifies this
      ensures Valid() && fresh(uiManager)
      ensures uiManager.elements == elements && uiManager.State() == INITIAL_UI
      ensures gameState == old(gameState) && perf == old(perf) && KeepsView()
      ensures boatManager == old(boatManager) && environment == old(environment) && controls == old(controls)
      ensures audioManager == old(audioManager)
    {
      uiManager := new UIManager(this, elements);
    }

    method InitializeAudio()
      requires Valid()
      modifies this
      ensures Valid() && fresh(audioManager)
      ensures audioManager.State() == INITIAL_AUDIO
      ensures gameState == old(gameState) && perf == old(perf) && KeepsView()
      ensures boatManager == old(boatManager) && environment == old(environment) && controls == old(controls)
      ensures uiManager == old(uiManager)
    {
      audioManager := new AudioManager();
    }

    /** createCamera: the camera starts at the configured position. */
    method CreateCamera()
      requires Valid()
      modifies this
      ensures Valid()
      ensures cameraZ == CAMERA_START_Z
      ensures gameState == old(gameState) && perf == old(perf) && KeepsParts()
      ensures shadowsNeedUpdate == old(shadowsNeedUpdate) && isInitialized == old(isInitialized)
      ensures frameRequested == old(frameRequested) && listening == old(listening)
    {
      cameraZ := CAMERA_START_Z;
    }

    /** createRenderer: shadows only in high performance mode, and a pixel ratio that is the
        device's capped at 2 in high mode and 1 in low mode. */
    method CreateRenderer(devicePixelRatio: real)
      requires Valid()
      modifies this
      ensures Valid()
      ensures var r := RendererPerf(old(perf.mode), devicePixelRatio);
        perf == old(perf).(shadows := r.shadows, pixelRatio := r.pixelRatio)
      ensures gameState == old(gameState) && KeepsParts() && KeepsView()
    {
      var r := RendererPerf(perf.mode, devicePixelRatio);
      perf := perf.(shadows := r.shadows, pixelRatio := r.pixelRatio);
    }

    method InitializeEnvironment()
      requires Valid()
      modifies this
      ensures Valid() && fresh(environment)
      ensures environment.config == GAME_LAYOUT && environment.performanceMode == perf.mode
      ensures |environment.riverChunks| == ChunkCount(perf.mode)
      ensures environment.placed == environment.riverChunks + FinishLinePieces(GAME_LAYOUT) + [WATER_OVERLAY]
      ensures gameState == old(gameState) && perf == old(perf) && KeepsView()
      ensures boatManager == old(boatManager) && controls == old(controls)
      ensures uiManager == old(uiManager) && audioManager == old(audioManager)
    {
      var env := new Environment(GAME_LAYOUT, perf.mode);
      env.Init();
      environment := env;
    }

    method InitializeControls()
      requires Valid()
      modifies this
      ensures Valid() && fresh(controls)
      ensures controls.keys == map[]
      ensures gameState == old(gameState) && perf == old(perf) && KeepsView()
      ensures boatManager == old(boatManager) && environment == old(environment)
      ensures uiManager == old(uiManager) && audioManager == old(audioManager)
    {
      controls := new Controls();
    }

    method InitializeBoats(modelLoaded: bool, sin: real -> real, cos: real -> real)
      requires Valid()
      modifies this
      ensures Valid() && fresh(boatManager)
      ensures boatManager.boats == [CreatedPose(0, modelLoaded), CreatedPose(1, modelLoaded)]
      ensures boatManager.sin == sin && boatManager.cos == cos
      ensures gameState == old(gameState) && perf == old(perf) && KeepsView()
      ensures environment == old(environment) && controls == old(controls)
      ensures uiManager == old(uiManager) && audioManager == old(audioManager)
    {
      var bm := new BoatManager(sin, cos);
      bm.CreateBoats(modelLoaded);
      boatManager := bm;
    }

    /** setupEventListeners: the keyboard and visibility listeners are attached. */
    method SetupEventListeners()
      requires Valid()
      modifies this
      ensures Valid()
      ensures listening
      ensures gameState == old(gameState) && perf == old(perf) && KeepsParts()
      ensures shadowsNeedUpdate == old(shadowsNeedUpdate) && cameraZ == old(cameraZ)
      ensures isInitialized == old(isInitialized) && frameRequested == old(frameRequested)
    {
      listening := true;
    }

    /** The end of init: the game is ready and initialised. */
    method MarkReady()
      requires Valid()
      modifies this
      ensures Valid()
      ensures gameState == old(gameState).(current := Ready) && isInitialized
      ensures perf == old(perf) && KeepsParts()
      ensures shadowsNeedUpdate == old(shadowsNeedUpdate) && cameraZ == old(cameraZ)
      ensures frameRequested == old(frameRequested) && listening == old(listening)
    {
      gameState := gameState.(current := Ready);
      isInitialized := true;
    }

    /** startRenderLoop: the first frame, run at once. The game is ready and not playing,
        so that frame only schedules the next one and counts itself. */
    method StartRenderLoop(perfNow: real)
      requires Valid()
      modifies this
      ensures Valid()
      ensures frameRequested && perf == Monitor(old(perf), perfNow)
      ensures gameState == old(gameState) && KeepsParts()
      ensures shadowsNeedUpdate == old(shadowsNeedUpdate) && cameraZ == old(cameraZ)
      ensures isInitialized == old(isInitialized) && listening == old(listening)
    {
      frameRequested := true;
      MonitorPerformance(perfNow);
    }

    /** The UI manager is told the game is ready. */
    method NotifyUiReady()
      requires Valid()
      modifies uiManager
      ensures Valid()
      ensures uiManager != null ==> uiManager.State() == old(uiManager.State()).(
        gameUI := if uiManager.elements.gameUI then Shown else old(uiManager.gameUI),
        readyTimers := old(uiManager.readyTimers) + 1)
    {
      if uiManager != null {
        uiManager.OnGameReady();
      }
    }

    // ------------------------------------------------------------ starting a race

    /** startGame: only a ready game starts; the UI manager runs the countdown, or the
        game starts at once when there is no UI manager (or no countdown to show). */
    method StartGame(wallNow: int)
      requires Valid()
      modifies this, uiManager, audioManager
      ensures Valid()
      ensures KeepsLoop()
      ensures shadowsNeedUpdate == (old(shadowsNeedUpdate) || (old(gameState.current) == Ready && perf.shadows))
      ensures gameState ==
        if old(gameState.current) != Ready then old(gameState)
        else if uiManager != null && (old(uiManager.isCountdownActive) || uiManager.CountdownShown())
        then old(gameState).(current := Countdown)
        else old(gameState).(current := Playing, isRunning := true, startTime := Some(wallNow))
      ensures old(gameState.current) != Ready ==>
        (uiManager != null ==> uiManager.State() == old(uiManager.State())) &&
        (audioManager != null ==> audioManager.State() == old(audioManager.State()))
      ensures old(gameState.current) == Ready && uiManager != null && !old(uiManager.isCountdownActive) &&
              uiManager.CountdownShown() ==>
        uiManager.countdownRunning && uiManager.countdownText == Some(NatToString(COUNTDOWN_FROM))
    {
      if gameState.current != Ready {
        return;
      }
      gameState := gameState.(current := Countdown);
      if perf.shadows {
        shadowsNeedUpdate := true;
      }
      ghost var counting := gameState;
      BeginCountdown(wallNow);
      assert gameState == counting || gameState == old(gameState).(current := Playing, isRunning := true, startTime := Some(wallNow));
    }

    /** The second half of startGame: the UI manager runs the countdown, or the game starts
        at once when there is no UI manager. */
    method BeginCountdown(wallNow: int)
      requires Valid()
      modifies this, uiManager, audioManager
      ensures Valid()
      ensures KeepsRest()
      ensures gameState ==
        if uiManager != null && old(uiManager.isCountdownActive) then old(gameState)
        else if uiManager != null && uiManager.CountdownShown() then old(gameState).(current := Countdown)
        else old(gameState).(current := Playing, isRunning := true, startTime := Some(wallNow))
      ensures uiManager != null && !old(uiManager.isCountdownActive) && uiManager.CountdownShown() ==>
        uiManager.countdownRunning && uiManager.countdownText == Some(NatToString(COUNTDOWN_FROM))
    {
      if uiManager != null {
        uiManager.StartCountdown(wallNow);
      } else {
        StartGameplay(wallNow);
      }
    }

    /** startGameplay: the race is on; the audio manager plays the start sound and
        schedules the music. */
    method StartGameplay(wallNow: int)
      requires Valid()
      modifies this, audioManager
      ensures Valid()
      ensures gameState == old(gameState).(current := Playing, isRunning := true, startTime := Some(wallNow))
      ensures KeepsRest()
      ensures audioManager != null ==>
        audioManager.State() == old(audioManager.State()).(pendingMusicTimers := old(audioManager.pendingMusicTimers) + 1,
          played := old(audioManager.played) + if old(audioManager.CanPlayEffect(StartSound)) then [Effect(StartSound)] else [])
      ensures audioManager != null ==> audioManager.State() == AfterGameStart(old(audioManager.State()))
    {
      gameState := gameState.(current := Playing, isRunning := true, startTime := Some(wallNow));
      if audioManager != null {
        audioManager.OnGameStart();
      }
    }

    // ------------------------------------------------------------ restarting

    /** What restart and handleGameRestart share: the fresh game record, the boats back at
        the start line, and nothing else of the game manager changed. */
    twostate predicate RaceReset()
      reads this, boatManager
    {
      gameState == RESET_STATE && KeepsRest() &&
      (boatManager != null ==> boatManager.boats == ResetPoses(old(boatManager.boats)) &&
                               boatManager.waveTime == old(boatManager.waveTime))
    }

    /** The boats, if any, go back to the start line. */
    method ResetBoats()
      requires Valid()
      modifies boatManager
      ensures Valid()
      ensures boatManager != null ==>
        boatManager.boats == ResetPoses(old(boatManager.boats)) && boatManager.waveTime == old(boatManager.waveTime)
    {
      if boatManager != null {
        boatManager.ResetBoats();
      }
    }

    /** handleGameRestart, the restart a remote page asks for: the race is reset and the UI
        shows the game ready again with zeroed read-outs. The audio step calls a method the
        audio manager does not have, so with an audio manager present the call fails there
        (ok is false) and the clock is not renewed. */
    method HandleGameRestart() returns (ok: bool)
      requires Valid()
      modifies this, boatManager, uiManager
      ensures Valid()
      ensures RaceReset()
      ensures ok <==> audioManager == null
      ensures uiManager != null ==>
        var names := PlayerNames(playerInfo);
        uiManager.State() == old(uiManager.State()).(
          winnerScreen := if uiManager.elements.winnerScreen then Hidden else old(uiManager.winnerScreen),
          distance1Text := if uiManager.elements.distance1 then Some(DistanceText(names[0], 0)) else old(uiManager.distance1Text),
          distance2Text := if uiManager.elements.distance2 then Some(DistanceText(names[1], 0)) else old(uiManager.distance2Text),
          gameUI := if uiManager.elements.gameUI then Shown else old(uiManager.gameUI),
          readyTimers := old(uiManager.readyTimers) + 1)
    {
      gameState := RESET_STATE;
      ResetBoats();
      ShowRemoteRestart();
      ok := audioManager == null;
    }

    /** The UI part of handleGameRestart: banner hidden, read-outs zeroed, game ready again. */
    method ShowRemoteRestart()
      requires Valid()
      modifies uiManager
      ensures Valid()
      ensures uiManager != null ==>
        var names := PlayerNames(playerInfo);
        uiManager.State() == old(uiManager.State()).(
          winnerScreen := if uiManager.elements.winnerScreen then Hidden else old(uiManager.winnerScreen),
          distance1Text := if uiManager.elements.distance1 then Some(DistanceText(names[0], 0)) else old(uiManager.distance1Text),
          distance2Text := if uiManager.elements.distance2 then Some(DistanceText(names[1], 0)) else old(uiManager.distance2Text),
          gameUI := if uiManager.elements.gameUI then Shown else old(uiManager.gameUI),
          readyTimers := old(uiManager.readyTimers) + 1)
    {
      if uiManager != null {
        uiManager.HideWinner();
        uiManager.ResetDistances();
        uiManager.ShowGameReady();
      }
    }

    /** restart: the race is reset, the UI hides the banner and shows the game ready again,
        and the audio manager stops the music. */
    method Restart()
      requires Valid()
      modifies this, boatManager, uiManager, audioManager
      ensures Valid()
      ensures RaceReset()
      ensures uiManager != null ==> uiManager.State() == old(uiManager.State()).(
        winnerScreen := if uiManager.elements.winnerScreen then Hidden else old(uiManager.winnerScreen),
        gameUI := if uiManager.elements.gameUI then Shown else old(uiManager.gameUI),
        readyTimers := old(uiManager.readyTimers) + 1)
      ensures audioManager != null ==>
        audioManager.State() == old(audioManager.State()).(currentMusic := false, lastSplashTime := 0)
    {
      gameState := RESET_STATE;
      ResetBoats();
      NotifyUiRestart();
      NotifyAudioRestart();
    }

    method NotifyUiRestart()
      requires Valid()
      modifies uiManager
      ensures Valid()
      ensures uiManager != null ==> uiManager.State() == old(uiManager.State()).(
        winnerScreen := if uiManager.elements.winnerScreen then Hidden else old(uiManager.winnerScreen),
        gameUI := if uiManager.elements.gameUI then Shown else old(uiManager.gameUI),
        readyTimers := old(uiManager.readyTimers) + 1)
    {
      if uiManager != null {
        uiManager.OnGameRestart();
      }
    }

    method NotifyAudioRestart()
      requires Valid()
      modifies audioManager
      ensures Valid()
      ensures audioManager != null ==>
        audioManager.State() == old(audioManager.State()).(currentMusic := false, lastSplashTime := 0)
    {
      if audioManager != null {
        audioManager.OnGameRestart();
      }
    }

    // ------------------------------------------------------------ pausing and frame rate

    /** togglePause. */
    method TogglePause()
      requires Valid()
      modifies this
      ensures Valid()
      ensures gameState == Race.TogglePause(old(gameState)) && KeepsRest()
    {
      if gameState.current == Playing {
        gameState := gameState.(isPaused := !gameState.isPaused);
      }
    }

    /** The visibilitychange listener: hiding the page pauses a running game (and, since it
        toggles, resumes a paused one). */
    method OnVisibilityChange(hidden: bool)
      requires Valid()
      modifies this
      ensures Valid()
      ensures KeepsRest()
      ensures listening && hidden && old(gameState.current) == Playing ==>
        gameState == old(gameState).(isPaused := !old(gameState.isPaused))
      ensures !(listening && hidden && old(gameState.current) == Playing) ==> gameState == old(gameState)
    {
      if listening && hidden && gameState.current == Playing {
        TogglePause();
      }
    }

    /** monitorPerformance at performance time now. */
    method MonitorPerformance(now: real)
      requires Valid()
      modifies this`perf
      ensures Valid()
      ensures perf == Monitor(old(perf), now)
      ensures gameState == old(gameState) && KeepsParts() && KeepsView()
    {
      var counted := perf.frameCount + 1;
      if now - perf.lastCheck >= FPS_WINDOW_MS {
        perf := perf.(fps := counted, frameCount := 0, lastCheck := now);
        if counted < LOW_FPS && perf.mode == High {
          SwitchToLowPerformanceMode();
        }
      } else {
        perf := perf.(frameCount := counted);
      }
    }

    /** switchToLowPerformanceMode: no shadows and a pixel ratio of 1 for the rest of the
        session (the scenery has no detail reduction to call). */
    method SwitchToLowPerformanceMode()
      requires Valid()
      modifies this`perf
      ensures Valid()
      ensures perf == old(perf).(mode := Low, shadows := false, pixelRatio := 1.0)
      ensures gameState == old(gameState) && KeepsParts() && KeepsView()
    {
      perf := perf.(mode := Low, shadows := false, pixelRatio := 1.0);
    }

    // ------------------------------------------------------------ one frame

    /** One stroke of boat index (0 or 1) by its player. */
    method Stroke(index: nat)
      requires Valid() && boatManager != null && index <= 1
      modifies boatManager
      ensures Valid()
      ensures Rowed(old(Boats()), Boats(), index == 0, index == 1)
      ensures boatManager.waveTime == old(boatManager.waveTime)
    {
      boatManager.MoveBoat(index, true);
    }

    /** The audio manager, if any, is told a boat moved. */
    method NotifyAudioStroke(wallNow: int)
      requires Valid()
      modifies audioManager
      ensures Valid()
      ensures audioManager != null ==> audioManager.State() == AfterBoatMove(old(audioManager.State()), wallNow)
    {
      if audioManager != null {
        audioManager.OnBoatMove(wallNow);
      }
    }

    /** handleInput: each player holding a key rows their boat one stroke; a stroke by anyone
        asks the audio manager for a splash. Nothing moves once the game is won. */
    method HandleInput(wallNow: int)
      requires Valid()
      modifies boatManager, audioManager
      ensures Valid()
      ensures gameState.gameWon || boatManager == null || controls == null ==>
        Boats() == old(Boats()) &&
        (audioManager != null ==> audioManager.State() == old(audioManager.State()))
      ensures !gameState.gameWon && boatManager != null && controls != null ==>
        Rowed(old(Boats()), Boats(), Moving(0), Moving(1))
      ensures !gameState.gameWon && boatManager != null && controls != null && audioManager != null ==>
        (!Moving(0) && !Moving(1) ==> audioManager.State() == old(audioManager.State())) &&
        (Moving(0) || Moving(1) ==> audioManager.State() == AfterBoatMove(old(audioManager.State()), wallNow))
      ensures boatManager != null ==> boatManager.waveTime == old(boatManager.waveTime)
    {
      if gameState.gameWon || boatManager == null || controls == null {
        return;
      }
      var player1Moved, player2Moved := RowBoats();
      if player1Moved || player2Moved {
        NotifyAudioStroke(wallNow);
      }
    }

    /** The strokes of handleInput: player 1's key is read first and rows boat 0, then
        player 2's key rows boat 1. */
    method RowBoats() returns (player1Moved: bool, player2Moved: bool)
      requires Valid() && boatManager != null && controls != null
      modifies boatManager
      ensures Valid()
      ensures player1Moved == Moving(0) && player2Moved == Moving(1)
      ensures Rowed(old(Boats()), Boats(), player1Moved, player2Moved)
      ensures boatManager.waveTime == old(boatManager.waveTime)
    {
      ghost var b0 := Boats();
      player1Moved := controls.IsPlayer1Moving();
      if player1Moved {
        Stroke(0);
      } else {
        StandingStill(b0);
      }
      ghost var b1 := Boats();
      player2Moved := controls.IsPlayer2Moving();
      if player2Moved {
        Stroke(1);
      } else {
        StandingStill(b1);
      }
      RowedInTurn(b0, b1, Boats(), player1Moved, player2Moved);
    }

    /** updateCamera: the camera follows the midpoint of the two boats, 30 units behind. */
    method UpdateCamera()
      requires Valid()
      modifies this
      ensures Valid()
      ensures |Boats()| >= 2 ==> cameraZ == (Boats()[0].z + Boats()[1].z) / 2.0 + CAMERA_OFFSET_Z
      ensures |Boats()| < 2 ==> cameraZ == old(cameraZ)
      ensures gameState == old(gameState) && perf == old(perf) && KeepsParts()
      ensures shadowsNeedUpdate == old(shadowsNeedUpdate) && isInitialized == old(isInitialized)
      ensures frameRequested == old(frameRequested) && listening == old(listening)
    {
      if boatManager == null {
        return;
      }
      var boats := boatManager.boats;
      if |boats| < 2 {
        return;
      }
      cameraZ := (boats[0].z + boats[1].z) / 2.0 + CAMERA_OFFSET_Z;
    }

    /** updateUI: on every fifth frame, both read-outs show the distance left to row. */
    method UpdateUI()
      requires Valid()
      modifies uiManager
      ensures Valid()
      ensures uiManager != null && |Boats()| >= 2 && perf.frameCount % UI_REFRESH_FRAMES == 0 ==>
        uiManager.State() == old(uiManager.State()).(
          distance1Text := if uiManager.elements.distance1 then Some(DistanceText(BoatName(playerInfo, 0), DisplayDistance(Boats()[0].z)))
                           else old(uiManager.distance1Text),
          distance2Text := if uiManager.elements.distance2 then Some(DistanceText(BoatName(playerInfo, 1), DisplayDistance(Boats()[1].z)))
                           else old(uiManager.distance2Text))
      ensures uiManager != null && !(|Boats()| >= 2 && perf.frameCount % UI_REFRESH_FRAMES == 0) ==>
        uiManager.State() == old(uiManager.State())
      ensures uiManager != null ==>
        uiManager.State() == UiAfterRefresh(old(uiManager.State()), uiManager.elements, playerInfo, Boats(), perf.frameCount)
    {
      if boatManager == null || uiManager == null {
        return;
      }
      if perf.frameCount % UI_REFRESH_FRAMES != 0 {
        return;
      }
      var boats := boatManager.boats;
      if |boats| < 2 {
        return;
      }
      uiManager.UpdateDistanceDisplay(DisplayDistance(boats[0].z), DisplayDistance(boats[1].z));
    }

    /** checkWinCondition: once both boats exist, the first boat at or past the finish line
        wins, boat 0 being looked at first; a won game is not decided again. */
    method CheckWinCondition()
      requires Valid()
      modifies this, uiManager, audioManager
      ensures Valid()
      ensures KeepsRest()
      ensures old(gameState.gameWon) || |Boats()| < 2 || WinnerOf(Boats()[0].z, Boats()[1].z).None? ==>
        gameState == old(gameState) &&
        (uiManager != null ==> uiManager.State() == old(uiManager.State())) &&
        (audioManager != null ==> audioManager.State() == old(audioManager.State()))
      ensures !old(gameState.gameWon) && |Boats()| >= 2 && WinnerOf(Boats()[0].z, Boats()[1].z).Some? ==>
        var w := WinnerOf(Boats()[0].z, Boats()[1].z).value;
        gameState == old(gameState).(current := Finished, gameWon := true, winner := Some(w)) &&
        (uiManager != null ==> uiManager.State() == old(uiManager.State()).(
          winnerText := if uiManager.elements.winnerText then Some(WinnerText(BoatName(playerInfo, w))) else old(uiManager.winnerText),
          winnerScreen := if uiManager.elements.winnerScreen then Shown else old(uiManager.winnerScreen))) &&
        (audioManager != null ==> audioManager.State() == AfterGameWin(old(audioManager.State())))
      ensures uiManager != null ==>
        uiManager.State() == (if !old(gameState.gameWon) && gameState.gameWon
                              then UiAfterWin(old(uiManager.State()), uiManager.elements, playerInfo, gameState.winner.value)
                              else old(uiManager.State()))
      ensures audioManager != null ==>
        audioManager.State() == (if !old(gameState.gameWon) && gameState.gameWon
                                 then AfterGameWin(old(audioManager.State())) else old(audioManager.State()))
    {
      if gameState.gameWon || boatManager == null {
        return;
      }
      var boats := boatManager.boats;
      if |boats| < 2 {
        return;
      }
      if boats[0].z >= FINISH_LINE_Z {
        OnGameWon(0);
      } else if boats[1].z >= FINISH_LINE_Z {
        OnGameWon(1);
      }
    }

    /** onGameWon: the game is over with a recorded winner; the banner names the winner and
        the victory sound replaces the music. */
    method OnGameWon(winnerIndex: nat)
      requires Valid()
      modifies this, uiManager, audioManager
      ensures Valid()
      ensures gameState == old(gameState).(current := Finished, gameWon := true, winner := Some(winnerIndex))
      ensures KeepsRest()
      ensures uiManager != null ==> uiManager.State() == old(uiManager.State()).(
        winnerText := if uiManager.elements.winnerText then Some(WinnerText(BoatName(playerInfo, winnerIndex))) else old(uiManager.winnerText),
        winnerScreen := if uiManager.elements.winnerScreen then Shown else old(uiManager.winnerScreen))
      ensures audioManager != null ==> audioManager.State() == old(audioManager.State()).(currentMusic := false,
        played := old(audioManager.played) + if old(audioManager.CanPlayEffect(Victory)) then [Effect(Victory)] else [])
      ensures audioManager != null ==> audioManager.State() == AfterGameWin(old(audioManager.State()))
    {
      gameState := gameState.(current := Finished, gameWon := true, winner := Some(winnerIndex));
      NotifyUiWin(winnerIndex);
      NotifyAudioWin();
    }

    method NotifyUiWin(winnerIndex: nat)
      requires Valid()
      modifies uiManager
      ensures Valid()
      ensures uiManager != null ==> uiManager.State() == old(uiManager.State()).(
        winnerText := if uiManager.elements.winnerText then Some(WinnerText(BoatName(playerInfo, winnerIndex))) else old(uiManager.winnerText),
        winnerScreen := if uiManager.elements.winnerScreen then Shown else old(uiManager.winnerScreen))
    {
      if uiManager != null {
        uiManager.OnGameWin(winnerIndex);
      }
    }

    method NotifyAudioWin()
      requires Valid()
      modifies audioManager
      ensures Valid()
      ensures audioManager != null ==> audioManager.State() == old(audioManager.State()).(currentMusic := false,
        played := old(audioManager.played) + if old(audioManager.CanPlayEffect(Victory)) then [Effect(Victory)] else [])
    {
      if audioManager != null {
        audioManager.OnGameWin();
      }
    }

    /** The scenery is animated on every other frame. */
    method AnimateScenery()
      requires Valid()
      modifies environment
      ensures Valid()
      ensures environment != null ==>
        environment.waveTime == old(environment.waveTime) + (if perf.frameCount % SCENERY_FRAMES == 0 then 1 else 0)
    {
      if environment != null && perf.frameCount % SCENERY_FRAMES == 0 {
        environment.Update();
      }
    }

    /** The boats' wave clock advances. */
    method AdvanceWaves()
      requires Valid()
      modifies boatManager
      ensures Valid()
      ensures Boats() == old(Boats())
      ensures boatManager != null ==> boatManager.waveTime == old(boatManager.waveTime) + 0.5
    {
      if boatManager != null {
        boatManager.UpdateWaveTime();
      }
    }

    /** update: input, camera, read-outs and the win check, in that order, then the scenery
        on every other frame and the wave clock. */
    method Update(wallNow: int)
      requires Valid()
      modifies this, boatManager, uiManager, audioManager, environment
      ensures Valid()
      ensures perf == old(perf) && KeepsParts()
      ensures shadowsNeedUpdate == old(shadowsNeedUpdate) && isInitialized == old(isInitialized)
      ensures frameRequested == old(frameRequested) && listening == old(listening)
      ensures !old(gameState.gameWon) && boatManager != null && controls != null ==>
        Rowed(old(Boats()), Boats(), Moving(0), Moving(1))
      ensures old(gameState.gameWon) || boatManager == null || controls == null ==> Boats() == old(Boats())
      ensures |Boats()| >= 2 ==> cameraZ == (Boats()[0].z + Boats()[1].z) / 2.0 + CAMERA_OFFSET_Z
      ensures old(gameState.gameWon) ==> gameState == old(gameState)
      ensures !old(gameState.gameWon) && |Boats()| >= 2 ==>
        gameState.winner == WinnerOf(Boats()[0].z, Boats()[1].z) &&
        (gameState.winner.Some? ==> gameState.current == Finished && gameState.gameWon)
      ensures boatManager != null ==> boatManager.waveTime == old(boatManager.waveTime) + 0.5
      ensures environment != null ==>
        environment.waveTime == old(environment.waveTime) + (if perf.frameCount % SCENERY_FRAMES == 0 then 1 else 0)
      ensures uiManager != null ==>
        uiManager.State() == UiAfterStep(old(uiManager.State()), uiManager.elements, playerInfo, Boats(), perf.frameCount,
                                         if old(gameState.gameWon) then None else gameState.winner)
      ensures audioManager != null ==>
        audioManager.State() == AudioAfterStep(old(audioManager.State()),
                                               !old(gameState.gameWon) && boatManager != null && controls != null && (Moving(0) || Moving(1)),
                                               wallNow, !old(gameState.gameWon) && gameState.gameWon)
    {
      RaceStep(wallNow);
      AnimateScenery();
      AdvanceWaves();
    }

    /** The game-logic half of update: input, camera, read-outs and the win check. */
    method RaceStep(wallNow: int)
      requires Valid()
      modifies this, boatManager, uiManager, audioManager
      ensures Valid()
      ensures perf == old(perf) && KeepsParts()
      ensures shadowsNeedUpdate == old(shadowsNeedUpdate) && isInitialized == old(isInitialized)
      ensures frameRequested == old(frameRequested) && listening == old(listening)
      ensures !old(gameState.gameWon) && boatManager != null && controls != null ==>
        Rowed(old(Boats()), Boats(), Moving(0), Moving(1))
      ensures old(gameState.gameWon) || boatManager == null || controls == null ==> Boats() == old(Boats())
      ensures |Boats()| >= 2 ==> cameraZ == (Boats()[0].z + Boats()[1].z) / 2.0 + CAMERA_OFFSET_Z
      ensures old(gameState.gameWon) ==> gameState == old(gameState)
      ensures !old(gameState.gameWon) && |Boats()| >= 2 ==>
        gameState.winner == WinnerOf(Boats()[0].z, Boats()[1].z) &&
        (gameState.winner.Some? ==> gameState.current == Finished && gameState.gameWon)
      ensures boatManager != null ==> boatManager.waveTime == old(boatManager.waveTime)
      ensures uiManager != null ==>
        uiManager.State() == UiAfterStep(old(uiManager.State()), uiManager.elements, playerInfo, Boats(), perf.frameCount,
                                         if old(gameState.gameWon) then None else gameState.winner)
      ensures audioManager != null ==>
        audioManager.State() == AudioAfterStep(old(audioManager.State()),
                                               !old(gameState.gameWon) && boatManager != null && controls != null && (Moving(0) || Moving(1)),
                                               wallNow, !old(gameState.gameWon) && gameState.gameWon)
    {
      HandleInput(wallNow);
      UpdateCamera();
      RefreshAndJudge();
    }

    /** The last two steps of update: the read-outs, then the win check. */
    method RefreshAndJudge()
      requires Valid()
      modifies this, uiManager, audioManager
      ensures Valid()
      ensures KeepsRest()
      ensures old(gameState.gameWon) ==> gameState == old(gameState)
      ensures !old(gameState.gameWon) && |Boats()| >= 2 ==>
        gameState.winner == WinnerOf(Boats()[0].z, Boats()[1].z) &&
        (gameState.winner.Some? ==> gameState.current == Finished && gameState.gameWon)
      ensures !old(gameState.gameWon) && |Boats()| < 2 ==> gameState == old(gameState)
      ensures uiManager != null ==>
        uiManager.State() == UiAfterStep(old(uiManager.State()), uiManager.elements, playerInfo, Boats(), perf.frameCount,
                                         if old(gameState.gameWon) then None else gameState.winner)
      ensures audioManager != null ==>
        audioManager.State() == (if !old(gameState.gameWon) && gameState.gameWon
                                 then AfterGameWin(old(audioManager.State())) else old(audioManager.State()))
    {
      UpdateUI();
      CheckWinCondition();
    }

    /** animate: one frame callback at performance time perfNow and wall-clock time wallNow.
        The capped time step it computes is passed on but used by no subsystem, so the clock
        is not part of the model. */
    method Animate(perfNow: real, wallNow: int)
      requires Valid()
      modifies this, boatManager, uiManager, audioManager, environment
      ensures Valid()
      ensures frameRequested && perf == Monitor(old(perf), perfNow) && KeepsParts()
      ensures shadowsNeedUpdate == old(shadowsNeedUpdate) && isInitialized == old(isInitialized) && listening == old(listening)
      ensures !Runs(old(gameState)) ==>
        gameState == old(gameState) && cameraZ == old(cameraZ) && Boats() == old(Boats()) &&
        (boatManager != null ==> unchanged(boatManager)) && (environment != null ==> unchanged(environment)) &&
        (uiManager != null ==> unchanged(uiManager)) && (audioManager != null ==> unchanged(audioManager))
      ensures Runs(old(gameState)) && !old(gameState.gameWon) && boatManager != null && controls != null ==>
        Rowed(old(Boats()), Boats(), Moving(0), Moving(1))
      ensures Runs(old(gameState)) && (old(gameState.gameWon) || boatManager == null || controls == null) ==>
        Boats() == old(Boats())
      ensures Runs(old(gameState)) && |Boats()| >= 2 ==> cameraZ == (Boats()[0].z + Boats()[1].z) / 2.0 + CAMERA_OFFSET_Z
      ensures Runs(old(gameState)) && old(gameState.gameWon) ==> gameState == old(gameState)
      ensures Runs(old(gameState)) && !old(gameState.gameWon) && |Boats()| >= 2 ==>
        gameState.winner == WinnerOf(Boats()[0].z, Boats()[1].z) &&
        (gameState.winner.Some? ==> gameState.current == Finished && gameState.gameWon)
      ensures Runs(old(gameState)) && boatManager != null ==> boatManager.waveTime == old(boatManager.waveTime) + 0.5
      ensures Runs(old(gameState)) && environment != null ==>
        environment.waveTime == old(environment.waveTime) + (if perf.frameCount % SCENERY_FRAMES == 0 then 1 else 0)
      ensures Runs(old(gameState)) && uiManager != null ==>
        uiManager.State() == UiAfterStep(old(uiManager.State()), uiManager.elements, playerInfo, Boats(), perf.frameCount,
                                         if old(gameState.gameWon) then None else gameState.winner)
      ensures Runs(old(gameState)) && audioManager != null ==>
        audioManager.State() == AudioAfterStep(old(audioManager.State()),
                                               !old(gameState.gameWon) && boatManager != null && controls != null && (Moving(0) || Moving(1)),
                                               wallNow, !old(gameState.gameWon) && gameState.gameWon)
    {
      frameRequested := true;
      CountAndUpdate(perfNow, wallNow);
    }

    /** The part of animate after the next frame is requested: the frame is counted, then
        update runs only while playing and not paused. */
    method CountAndUpdate(perfNow: real, wallNow: int)
      requires Valid()
      modifies this, boatManager, uiManager, audioManager, environment
      ensures Valid()
      ensures perf == Monitor(old(perf), perfNow) && KeepsParts() && frameRequested == old(frameRequested)
      ensures shadowsNeedUpdate == old(shadowsNeedUpdate) && isInitialized == old(isInitialized) && listening == old(listening)
      ensures !Runs(old(gameState)) ==>
        gameState == old(gameState) && cameraZ == old(cameraZ) && Boats() == old(Boats()) &&
        (boatManager != null ==> unchanged(boatManager)) && (environment != null ==> unchanged(environment)) &&
        (uiManager != null ==> unchanged(uiManager)) && (audioManager != null ==> unchanged(audioManager))
      ensures Runs(old(gameState)) && !old(gameState.gameWon) && boatManager != null && controls != null ==>
        Rowed(old(Boats()), Boats(), Moving(0), Moving(1))
      ensures Runs(old(gameState)) && (old(gameState.gameWon) || boatManager == null || controls == null) ==>
        Boats() == old(Boats())
      ensures Runs(old(gameState)) && |Boats()| >= 2 ==> cameraZ == (Boats()[0].z + Boats()[1].z) / 2.0 + CAMERA_OFFSET_Z
      ensures Runs(old(gameState)) && old(gameState.gameWon) ==> gameState == old(gameState)
      ensures Runs(old(gameState)) && !old(gameState.gameWon) && |Boats()| >= 2 ==>
        gameState.winner == WinnerOf(Boats()[0].z, Boats()[1].z) &&
        (gameState.winner.Some? ==> gameState.current == Finished && gameState.gameWon)
      ensures Runs(old(gameState)) && boatManager != null ==> boatManager.waveTime == old(boatManager.waveTime) + 0.5
      ensures Runs(old(gameState)) && environment != null ==>
        environment.waveTime == old(environment.waveTime) + (if perf.frameCount % SCENERY_FRAMES == 0 then 1 else 0)
      ensures Runs(old(gameState)) && uiManager != null ==>
        uiManager.State() == UiAfterStep(old(uiManager.State()), uiManager.elements, playerInfo, Boats(), perf.frameCount,
                                         if old(gameState.gameWon) then None else gameState.winner)
      ensures Runs(old(gameState)) && audioManager != null ==>
        audioManager.State() == AudioAfterStep(old(audioManager.State()),
                                               !old(gameState.gameWon) && boatManager != null && controls != null && (Moving(0) || Moving(1)),
                                               wallNow, !old(gameState.gameWon) && gameState.gameWon)
    {
      MonitorPerformance(perfNow);
      if gameState.current == Playing && !gameState.isPaused {
        Update(wallNow);
      }
    }

    // ------------------------------------------------------------ the keyboard

    /** The UI manager's keydown listener, when there is a UI manager. */
    method UiShortcut(key: string)
      requires Valid()
      modifies this, boatManager, uiManager, audioManager
      ensures Valid()
      ensures uiManager != null && key in {"r", "R"} && old(gameState.current) == Finished ==> RaceReset()
      ensures !(uiManager != null && key in {"r", "R"} && old(gameState.current) == Finished) ==>
        gameState == old(gameState) && KeepsRest() && Boats() == old(Boats()) &&
        (boatManager != null ==> boatManager.waveTime == old(boatManager.waveTime))
    {
      if uiManager != null {
        uiManager.HandleKeyboardShortcuts(key);
      }
    }

    /** The controls' keydown listener, when there are controls. */
    method HoldKey(key: string)
      requires Valid()
      modifies controls
      ensures Valid()
      ensures controls != null ==> controls.keys == old(controls.keys)[key := true]
    {
      if controls != null {
        controls.KeyDown(key);
      }
    }

    /** The game manager's own keydown listener: Ctrl+R restarts, P pauses or resumes. */
    method GameShortcut(key: string, ctrlKey: bool)
      requires Valid()
      modifies this, boatManager, uiManager, audioManager
      ensures Valid()
      ensures listening && key in {"r", "R"} && ctrlKey ==> RaceReset()
      ensures listening && key !in {"r", "R"} && key in {"p", "P"} ==>
        gameState == Race.TogglePause(old(gameState)) && KeepsRest() && Boats() == old(Boats()) &&
        (boatManager != null ==> boatManager.waveTime == old(boatManager.waveTime))
      ensures !(listening && ((key in {"r", "R"} && ctrlKey) || key in {"p", "P"})) ==>
        gameState == old(gameState) && KeepsRest() && Boats() == old(Boats()) &&
        (boatManager != null ==> boatManager.waveTime == old(boatManager.waveTime))
    {
      if !listening {
        return;
      }
      if key in {"r", "R"} {
        if ctrlKey {
          Restart();
        }
      } else if key in {"p", "P"} {
        TogglePause();
      }
    }

    /** A keydown on the page, through the listeners in the order they were attached: the
        UI manager's (R restarts a finished game), the controls' (the key is held), and the
        game manager's (Ctrl+R restarts, P pauses or resumes). */
    method OnKeyDown(key: string, ctrlKey: bool)
      requires Valid()
      modifies this, boatManager, uiManager, audioManager, controls
      ensures Valid()
      ensures KeepsRest()
      ensures controls != null ==> controls.keys == old(controls.keys)[key := true]
      ensures key in {"r", "R"} && ((uiManager != null && old(gameState.current) == Finished) || (listening && ctrlKey)) ==>
        RaceReset()
      ensures key in {"r", "R"} && !((uiManager != null && old(gameState.current) == Finished) || (listening && ctrlKey)) ==>
        gameState == old(gameState) && Boats() == old(Boats())
      ensures key !in {"r", "R"} && listening && key in {"p", "P"} ==>
        gameState == Race.TogglePause(old(gameState)) && Boats() == old(Boats())
      ensures key !in {"r", "R"} && !(listening && key in {"p", "P"}) ==>
        gameState == old(gameState) && Boats() == old(Boats())
    {
      ghost var before := Boats();
      UiShortcut(key);
      ghost var g1 := gameState;
      ghost var b1 := Boats();
      HoldKey(key);
      assert gameState == g1 && Boats() == b1;
      GameShortcut(key, ctrlKey);
      ResetIdempotent(before);
    }

    /** A keyup on the page: only the controls listen for it. */
    method OnKeyUp(key: string)
      modifies controls
      ensures controls != null ==>
        controls.keys == old(controls.keys)[key := false] && controls.touchZones == old(controls.touchZones)
    {
      if controls != null {
        controls.KeyUp(key);
      }
    }

    // ------------------------------------------------------------ shutting down

    /** destroy: the frame loop stops, the touch zones go, the UI's countdown is cleared,
        audio is switched off, and the game is marked destroyed. */
    method Destroy()
      requires Valid()
      modifies this, controls, uiManager, audioManager
      ensures Valid()
      ensures gameState == old(gameState).(current := Destroyed, isRunning := false)
      ensures !isInitialized && !frameRequested
      ensures perf == old(perf) && KeepsParts()
      ensures shadowsNeedUpdate == old(shadowsNeedUpdate) && cameraZ == old(cameraZ) && listening == old(listening)
      ensures controls != null ==> controls.touchZones == [] && controls.keys == old(controls.keys)
      ensures uiManager != null ==>
        uiManager.State() == old(uiManager.State()).(countdownRunning := false, isCountdownActive := false)
      ensures audioManager != null ==>
        audioManager.State() == old(audioManager.State()).(currentMusic := false, isInitialized := false)
    {
      frameRequested := false;
      CleanupControls();
      DestroyUI();
      DestroyAudio();
      MarkDestroyed();
    }

    method CleanupControls()
      requires Valid()
      modifies controls
      ensures Valid()
      ensures controls != null ==> controls.touchZones == [] && controls.keys == old(controls.keys)
    {
      if controls != null {
        controls.Cleanup();
      }
    }

    method DestroyUI()
      requires Valid()
      modifies uiManager
      ensures Valid()
      ensures uiManager != null ==>
        uiManager.State() == old(uiManager.State()).(countdownRunning := false, isCountdownActive := false)
    {
      if uiManager != null {
        uiManager.Destroy();
      }
    }

    method DestroyAudio()
      requires Valid()
      modifies audioManager
      ensures Valid()
      ensures audioManager != null ==>
        audioManager.State() == old(audioManager.State()).(currentMusic := false, isInitialized := false)
    {
      if audioManager != null {
        audioManager.Destroy();
      }
    }

    /** The end of destroy: the game record says destroyed and not running, and the game is
        no longer initialised. */
    method MarkDestroyed()
      requires Valid()
      modifies this
      ensures Valid()
      ensures gameState == old(gameState).(current := Destroyed, isRunning := false) && !isInitialized
      ensures perf == old(perf) && KeepsParts()
      ensures shadowsNeedUpdate == old(shadowsNeedUpdate) && cameraZ == old(cameraZ)
      ensures frameRequested == old(frameRequested) && listening == old(listening)
    {
      gameState := gameState.(current := Destroyed, isRunning := false);
      isInitialized := false;
    }
  }

  class UIManager {
    const gameManager: GameManager
    const elements: Elements
    var isCountdownActive: bool
    /** The countdown interval is set. */
    var countdownRunning: bool
    /** The interval's counter. */
    var countdown: nat
    var countdownText: Option<string>
    var overlay: Display
    var controlsInfo: Display
    var gameUI: Display
    var winnerScreen: Display
    var distance1Text: Option<string>
    var distance2Text: Option<string>
    var winnerText: Option<string>
    /** The 1000 ms timers showGameReady set that have not fired yet. */
    var readyTimers: nat
    /** The 800 ms timers after GO! that have not fired yet. */
    var goTimers: nat

    function State(): UiState
      reads this
    {
      UiState(isCountdownActive, countdownRunning, countdown, countdownText, overlay, controlsInfo,
              gameUI, winnerScreen, distance1Text, distance2Text, winnerText, readyTimers, goTimers)
    }

    /** A running interval has both countdown elements to write to, and its counter never
        drops below 1. */
    ghost predicate Valid()
      reads this
    {
      countdownRunning ==> countdown >= 1 && CountdownShown()
    }

    /** Both countdown elements exist, so the countdown is shown rather than skipped. */
    predicate CountdownShown()
    {
      elements.countdownOverlay && elements.countdownNumber
    }

    constructor(gameManager: GameManager, elements: Elements)
      ensures Valid()
      ensures this.gameManager == gameManager && this.elements == elements
      ensures State() == INITIAL_UI
    {
      this.gameManager := gameManager;
      this.elements := elements;
      isCountdownActive := false;
      countdownRunning := false;
      countdown := 0;
      countdownText := None;
      overlay := AsPage;
      controlsInfo := AsPage;
      gameUI := AsPage;
      winnerScreen := AsPage;
      distance1Text := None;
      distance2Text := None;
      winnerText := None;
      readyTimers := 0;
      goTimers := 0;
    }

    /** handleKeyboardShortcuts: R (either case) restarts a finished game; Space only has its
        default action suppressed. */
    method HandleKeyboardShortcuts(key: string)
      requires gameManager.Valid() && gameManager.uiManager == this
      modifies gameManager, gameManager.boatManager, this, gameManager.audioManager
      ensures gameManager.Valid()
      ensures key in {"r", "R"} && old(gameManager.gameState.current) == Finished ==>
        gameManager.RaceReset() && gameManager.gameState == RESET_STATE &&
        State() == old(State()).(
          winnerScreen := if elements.winnerScreen then Hidden else old(winnerScreen),
          gameUI := if elements.gameUI then Shown else old(gameUI),
          readyTimers := old(readyTimers) + 1)
      ensures !(key in {"r", "R"} && old(gameManager.gameState.current) == Finished) ==>
        gameManager.gameState == old(gameManager.gameState) && gameManager.KeepsRest() && State() == old(State()) &&
        gameManager.Boats() == old(gameManager.Boats()) &&
        (gameManager.boatManager != null ==> gameManager.boatManager.waveTime == old(gameManager.boatManager.waveTime))
      ensures gameManager.shadowsNeedUpdate == old(gameManager.shadowsNeedUpdate)
    {
      if key in {"r", "R"} && gameManager.gameState.current == Finished {
        OnRestartButtonClick();
      }
    }

    /** showGameReady: the game UI is shown and a timer will start the countdown in a second. */
    method ShowGameReady()
      requires Valid()
      modifies this
      ensures State() == old(State()).(gameUI := if elements.gameUI then Shown else old(gameUI),
                                       readyTimers := old(readyTimers) + 1)
      ensures Valid()
    {
      ShowGameUI();
      readyTimers := readyTimers + 1;
    }

    method ShowGameUI()
      requires Valid()
      modifies this
      ensures Valid()
      ensures State() == old(State()).(gameUI := if elements.gameUI then Shown else old(gameUI))
    {
      if elements.gameUI {
        gameUI := Shown;
      }
    }

    method HideControlsInfo()
      requires Valid()
      modifies this
      ensures Valid()
      ensures State() == old(State()).(controlsInfo := if elements.controlsInfo then Hidden else old(controlsInfo))
    {
      if elements.controlsInfo {
        controlsInfo := Hidden;
      }
    }

    /** One of showGameReady's timers fires and starts the countdown. */
    method ReadyTimerFires(wallNow: int)
      requires gameManager.Valid() && gameManager.uiManager == this && readyTimers > 0
      modifies this, gameManager, gameManager.audioManager
      ensures gameManager.Valid()
      ensures gameManager.shadowsNeedUpdate == old(gameManager.shadowsNeedUpdate)
      ensures old(isCountdownActive) ==>
        State() == old(State()).(readyTimers := old(readyTimers) - 1) &&
        gameManager.gameState == old(gameManager.gameState) && gameManager.KeepsRest() &&
        (gameManager.audioManager != null ==> gameManager.audioManager.State() == old(gameManager.audioManager.State()))
      ensures !old(isCountdownActive) && CountdownShown() ==>
        State() == old(State()).(readyTimers := old(readyTimers) - 1, isCountdownActive := true, countdownRunning := true,
                                 countdown := COUNTDOWN_FROM, countdownText := Some(NatToString(COUNTDOWN_FROM)), overlay := Shown) &&
        gameManager.KeepsRest() && gameManager.gameState == old(gameManager.gameState).(current := Countdown) &&
        (gameManager.audioManager != null ==> gameManager.audioManager.State() == old(gameManager.audioManager.State()))
      ensures !old(isCountdownActive) && !CountdownShown() ==>
        State() == old(State()).(readyTimers := old(readyTimers) - 1, isCountdownActive := true,
                                 controlsInfo := if elements.controlsInfo then Hidden else old(controlsInfo)) &&
        gameManager.KeepsRest() && gameManager.gameState == old(gameManager.gameState).(current := Playing, isRunning := true, startTime := Some(wallNow)) &&
        (gameManager.audioManager != null ==> gameManager.audioManager.State() == AfterGameStart(old(gameManager.audioManager.State())))
    {
      readyTimers := readyTimers - 1;
      StartCountdown(wallNow);
    }

    /** startCountdown: ignored while a countdown is active; otherwise the game is put in
        the countdown phase and the overlay counts from 3, or, when the countdown elements
        are missing, the game starts at once. */
    method StartCountdown(wallNow: int)
      requires gameManager.Valid() && gameManager.uiManager == this
      modifies this, gameManager, gameManager.audioManager
      ensures gameManager.Valid()
      ensures gameManager.shadowsNeedUpdate == old(gameManager.shadowsNeedUpdate)
      ensures old(isCountdownActive) ==>
        State() == old(State()) && gameManager.gameState == old(gameManager.gameState) && gameManager.KeepsRest() &&
        (gameManager.audioManager != null ==> gameManager.audioManager.State() == old(gameManager.audioManager.State()))
      ensures !old(isCountdownActive) && CountdownShown() ==>
        State() == old(State()).(isCountdownActive := true, countdownRunning := true, countdown := COUNTDOWN_FROM,
                                 countdownText := Some(NatToString(COUNTDOWN_FROM)), overlay := Shown) &&
        gameManager.KeepsRest() && gameManager.gameState == old(gameManager.gameState).(current := Countdown) &&
        (gameManager.audioManager != null ==> gameManager.audioManager.State() == old(gameManager.audioManager.State()))
      ensures !old(isCountdownActive) && !CountdownShown() ==>
        State() == old(State()).(isCountdownActive := true,
                                 controlsInfo := if elements.controlsInfo then Hidden else old(controlsInfo)) &&
        gameManager.KeepsRest() && gameManager.gameState == old(gameManager.gameState).(current := Playing, isRunning := true, startTime := Some(wallNow)) &&
        (gameManager.audioManager != null ==> gameManager.audioManager.State() == AfterGameStart(old(gameManager.audioManager.State())))
    {
      if isCountdownActive {
        return;
      }
      isCountdownActive := true;
      gameManager.gameState := gameManager.gameState.(current := Countdown);
      if !CountdownShown() {
        OnCountdownComplete(wallNow);
        return;
      }
      ShowCountdown();
    }

    /** The overlay shows the first number and the interval starts. */
    method ShowCountdown()
      requires Valid() && CountdownShown()
      modifies this
      ensures Valid()
      ensures State() == old(State()).(countdownRunning := true, countdown := COUNTDOWN_FROM,
                                       countdownText := Some(NatToString(COUNTDOWN_FROM)), overlay := Shown)
    {
      countdown := COUNTDOWN_FROM;
      overlay := Shown;
      countdownText := Some(NatToString(countdown));
      countdownRunning := true;
    }

    /** One firing of the countdown interval. */
    method CountdownTick()
      requires Valid() && countdownRunning
      modifies this
      ensures Valid()
      ensures var t := CountdownStep(old(countdown));
        State() == old(State()).(countdown := t.next, countdownText := Some(t.text),
                                 countdownRunning := !t.finished,
                                 goTimers := old(goTimers) + if t.finished then 1 else 0)
    {
      if countdown > 1 {
        countdown := countdown - 1;
        countdownText := Some(NatToString(countdown));
      } else {
        countdownText := Some(GO_TEXT);
        countdownRunning := false;
        goTimers := goTimers + 1;
      }
    }

    /** The timer 800 ms after GO!: the overlay goes and the race starts. */
    method GoTimerFires(wallNow: int)
      requires gameManager.Valid() && gameManager.uiManager == this && goTimers > 0
      modifies this, gameManager, gameManager.audioManager
      ensures gameManager.Valid()
      ensures State() == old(State()).(goTimers := old(goTimers) - 1, isCountdownActive := false,
                                       overlay := if elements.countdownOverlay then Hidden else old(overlay),
                                       controlsInfo := if elements.controlsInfo then Hidden else old(controlsInfo))
      ensures gameManager.KeepsRest() && gameManager.gameState == old(gameManager.gameState).(current := Playing, isRunning := true, startTime := Some(wallNow))
      ensures gameManager.audioManager != null ==>
        gameManager.audioManager.State() == AfterGameStart(old(gameManager.audioManager.State()))
    {
      goTimers := goTimers - 1;
      HideCountdown();
      OnCountdownComplete(wallNow);
    }

    /** hideCountdown (its fade-out is collapsed into hiding the overlay at once). An interval
        that is still running is left alone. */
    method HideCountdown()
      requires Valid()
      modifies this
      ensures State() == old(State()).(isCountdownActive := false,
                                       overlay := if elements.countdownOverlay then Hidden else old(overlay))
      ensures Valid()
    {
      if elements.countdownOverlay {
        overlay := Hidden;
      }
      isCountdownActive := false;
    }

    /** onCountdownComplete: the controls help goes and the game manager starts the race. */
    method OnCountdownComplete(wallNow: int)
      requires gameManager.Valid() && gameManager.uiManager == this
      modifies this, gameManager, gameManager.audioManager
      ensures gameManager.Valid()
      ensures State() == old(State()).(controlsInfo := if elements.controlsInfo then Hidden else old(controlsInfo))
      ensures gameManager.KeepsRest() && gameManager.gameState == old(gameManager.gameState).(current := Playing, isRunning := true, startTime := Some(wallNow))
      ensures gameManager.shadowsNeedUpdate == old(gameManager.shadowsNeedUpdate)
      ensures gameManager.audioManager != null ==>
        gameManager.audioManager.State() == AfterGameStart(old(gameManager.audioManager.State()))
    {
      HideControlsInfo();
      gameManager.StartGameplay(wallNow);
    }

    method OnRestartButtonClick()
      requires gameManager.Valid() && gameManager.uiManager == this
      modifies gameManager, gameManager.boatManager, this, gameManager.audioManager
      ensures gameManager.Valid()
      ensures gameManager.RaceReset() && gameManager.gameState == RESET_STATE
      ensures gameManager.shadowsNeedUpdate == old(gameManager.shadowsNeedUpdate)
      ensures State() == old(State()).(
        winnerScreen := if elements.winnerScreen then Hidden else old(winnerScreen),
        gameUI := if elements.gameUI then Shown else old(gameUI),
        readyTimers := old(readyTimers) + 1)
    {
      gameManager.Restart();
    }

    /** updateDistanceDisplay: each present read-out shows its player's label and metres. */
    method UpdateDistanceDisplay(player1Distance: int, player2Distance: int)
      requires Valid()
      modifies this
      ensures State() == old(State()).(
        distance1Text := if elements.distance1 then Some(DistanceText(BoatName(gameManager.playerInfo, 0), player1Distance)) else old(distance1Text),
        distance2Text := if elements.distance2 then Some(DistanceText(BoatName(gameManager.playerInfo, 1), player2Distance)) else old(distance2Text))
      ensures Valid()
    {
      var playerNames := PlayerNames(gameManager.playerInfo);
      var text1 := DistanceText(playerNames[0], player1Distance);
      var text2 := DistanceText(playerNames[1], player2Distance);
      assert text1 == DistanceText(BoatName(gameManager.playerInfo, 0), player1Distance);
      assert text2 == DistanceText(BoatName(gameManager.playerInfo, 1), player2Distance);
      if elements.distance1 {
        distance1Text := Some(text1);
      }
      if elements.distance2 {
        distance2Text := Some(text2);
      }
    }

    /** resetDistances: both read-outs show 0 m. */
    method ResetDistances()
      requires Valid()
      modifies this
      ensures State() == old(State()).(
        distance1Text := if elements.distance1 then Some(DistanceText(BoatName(gameManager.playerInfo, 0), 0)) else old(distance1Text),
        distance2Text := if elements.distance2 then Some(DistanceText(BoatName(gameManager.playerInfo, 1), 0)) else old(distance2Text))
      ensures Valid()
    {
      UpdateDistanceDisplay(0, 0);
    }

    /** showWinner: the banner names the winning boat's player (an index other than 0 or 1
        names "undefined") and the winner screen is shown. */
    method ShowWinner(winnerIndex: int)
      requires Valid()
      modifies this
      ensures State() == old(State()).(
        winnerText := if elements.winnerText then Some(WinnerText(BoatName(gameManager.playerInfo, winnerIndex))) else old(winnerText),
        winnerScreen := if elements.winnerScreen then Shown else old(winnerScreen))
      ensures Valid()
    {
      if elements.winnerText {
        winnerText := Some(WinnerText(BoatName(gameManager.playerInfo, winnerIndex)));
      }
      if elements.winnerScreen {
        winnerScreen := Shown;
      }
    }

    /** hideWinner (its fade-out is collapsed into hiding the screen at once). */
    method HideWinner()
      requires Valid()
      modifies this
      ensures State() == old(State()).(winnerScreen := if elements.winnerScreen then Hidden else old(winnerScreen))
      ensures Valid()
    {
      if elements.winnerScreen {
        winnerScreen := Hidden;
      }
    }

    method OnGameReady()
      requires Valid()
      modifies this
      ensures State() == old(State()).(gameUI := if elements.gameUI then Shown else old(gameUI),
                                       readyTimers := old(readyTimers) + 1)
      ensures Valid()
    {
      ShowGameReady();
    }

    method OnGameWin(winnerIndex: int)
      requires Valid()
      modifies this
      ensures State() == old(State()).(
        winnerText := if elements.winnerText then Some(WinnerText(BoatName(gameManager.playerInfo, winnerIndex))) else old(winnerText),
        winnerScreen := if elements.winnerScreen then Shown else old(winnerScreen))
      ensures Valid()
    {
      ShowWinner(winnerIndex);
    }

    method OnGameRestart()
      requires Valid()
      modifies this
      ensures State() == old(State()).(
        winnerScreen := if elements.winnerScreen then Hidden else old(winnerScreen),
        gameUI := if elements.gameUI then Shown else old(gameUI),
        readyTimers := old(readyTimers) + 1)
      ensures Valid()
    {
      HideWinner();
      ShowGameReady();
    }

    /** destroy: the interval is cleared and the countdown marked inactive; the pending
        timers are not cancelled. */
    method Destroy()
      requires Valid()
      modifies this
      ensures State() == old(State()).(countdownRunning := false, isCountdownActive := false)
      ensures Valid()
    {
      countdownRunning := false;
      isCountdownActive := false;
    }
  }
}
