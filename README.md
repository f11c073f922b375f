# Boat race: a verified model of the game's core

The system is a two-player rowing race shown on a laptop, with players registering on a phone.
Each player rows by holding a key ('a' or 'b'). A boat moves a fixed step per tick, and the first
boat to cross the finish line wins. A session goes ready → countdown (3, 2, 1, "GO!") → playing
→ finished. The R key restarts a finished race, Ctrl+R restarts at any time, and the phone can
request a restart.

The phone's registration page checks the form and sends a `game_start` event over Socket.IO. The
server stamps the event, records the players in a CSV file and broadcasts it. The laptop's intro
page then goes to the game page with the players in its query string. The Flask game route
normalises those parameters and picks the logo and music to show. The admin page uploads them.

This project models those parts in Dafny and proves what they promise:

| Dafny file | module | models |
|---|---|---|
| util.dfy | Util | `Option`, `Math.round`, `String.prototype.trim`, ASCII lower-casing, decimal rendering |
| config.dfy | Config | the constants of static/javaScript/config.js and config.py |
| wire.dfy | Wire | JSON payloads of events, URL queries, `URLSearchParams.get` |
| controls.dfy | Input | the key table of static/javaScript/controls.js |
| boats.dfy | Boats | the boat store and its trig cache of static/javaScript/boats.js |
| audio.dfy | Audio | the gates, clamps and cooldown of static/javaScript/AudioManager.js |
| environment.dfy | Scenery | the counter and layout arithmetic of static/javaScript/environment.js |
| race.dfy | Race | the pure rules of static/javaScript/GameManager.js: pausing, names, distance, winner |
| session.dfy | Session | the game manager and the UI manager (GameManager.js, UIManager.js) |
| helpers.dfy | Helpers | utils/helpers.py: extension whitelists and CSV records |
| uploads.dfy | Uploads | utils/file_manager.py: the logo/music globals, session and upload folder |
| routes.dfy | Routes | routes/main_routes.py game() and routes/admin_routes.py |
| relay.dfy | Relay | utils/socket_events.py |
| login.dfy | Login | static/javaScript/login.js |
| client.dfy | Client | static/javaScript/socketClient.js and static/javaScript/intro.js |
| admin.dfy | Admin | static/javaScript/admin.js |

How the model represents the system:

- Objects whose fields the source updates become classes. Their methods state the whole new state in `ensures`.
- Timers (`setTimeout`, `setInterval`) become explicit step methods that the environment calls.
- The clock, `sin`/`cos` and the server's `secure_filename` become parameters or function-valued constants.
- Socket emissions and broadcasts are appended to outbox sequences.
- The filesystem, the Flask session and `sessionStorage` are maps and sets.
- Positions are exact reals.

## Model

| member | source | states |
|---|---|---|
| Util.JsRound | static/javaScript/GameManager.js:662-663 | Math.round: the result is the integer nearest to x, halves rounding up |
| Util.Trim | static/javaScript/login.js:35-38 | String.prototype.trim: the result is the input with its leading and trailing white space removed, empty exactly when the input is all white space, and starting and ending with a non-space |
| Util.TrimIdempotent | static/javaScript/socketClient.js:19-20 | trimming an already trimmed value changes nothing, so the laptop's trim of a name the phone trimmed keeps it as sent |
| Util.LowerAscii | utils/helpers.py:8 | lower-casing maps each capital Latin letter to its small letter and keeps every other character, keeping the length |
| Util.LowerAsciiIdempotent | routes/main_routes.py:82 | lower-casing twice is lower-casing once |
| Util.NatToStringRoundTrip | static/javaScript/UIManager.js:239-243 | the decimal text of a number reads back as that number |
| Wire.Or | static/javaScript/GameManager.js:87-92 | JavaScript's `a || b`: a truthy value is kept, a falsy one gives the fallback |
| Wire.QueryGetFinds | static/javaScript/GameManager.js:82-98 | URLSearchParams.get misses a key exactly when no pair carries it, and a found value belongs to a pair with that key |
| Wire.QueryGetFirstWins | static/javaScript/GameManager.js:82-98 | URLSearchParams.get yields the first pair with the key: pairs appended later cannot change it |
| Wire.QueryGetSkipsAbsent | static/javaScript/GameManager.js:82-98 | pairs without the key do not affect the lookup of it |
| Input.Controls.constructor | static/javaScript/controls.js:2-7 | the key table and the touch zones start empty, so neither player moves |
| Input.Controls.KeyDown | static/javaScript/controls.js:11-14 | keydown sets exactly that key to held, whatever the key |
| Input.Controls.KeyUp | static/javaScript/controls.js:16-19 | keyup sets exactly that key to released |
| Input.Controls.Cleanup | static/javaScript/controls.js:32-39 | the touch zones are left empty and the key table is untouched |
| Input.Controls.GetInputState | static/javaScript/controls.js:42-48 | the flags are true exactly when 'a' or 'A' (player 1) and 'b' or 'B' (player 2) are held, and the copy equals the table |
| Input.Controls.SimulateInput | static/javaScript/controls.js:51-57 | player 1 sets 'a', player 2 sets 'b', and any other player number changes nothing |
| Input.ForeignKeyIgnored | static/javaScript/controls.js:23-29 | a key other than a/A/b/B never changes either player's moving state |
| Input.PlayersIndependent | static/javaScript/controls.js:23-29 | player 1's keys never change player 2's state, and the reverse |
| Input.PressAndRelease | static/javaScript/controls.js:11-29 | pressing either case makes the player move; the player stops only once both cases are released |
| Boats.CreatedPose | static/javaScript/boats.js:219-235 | a created boat stands at the start line in its lane (boat 0 at BOAT_1_X, boat 1 at BOAT_2_X) and is turned by pi exactly when it is a clone of the loaded model |
| Boats.ResetPoses | static/javaScript/boats.js:424-447 | after a reset, boats 0 and 1 stand at (lane, BOAT_BASE_Y, START_POSITION_Z) with rotation (0, pi, 0), an absent boat stays absent, and any other boat is untouched |
| Boats.ResetIdempotent | static/javaScript/boats.js:424-447 | resetting twice gives the same boats as resetting once |
| Boats.ResetRestoresCreation | static/javaScript/boats.js:231-235 | a reset gives back the freshly created boats if and only if the model was loaded; fallback boats come back turned by pi although they were created unturned |
| Boats.SameKeyNearby | static/javaScript/boats.js:384 | two phases that share a cache key differ by less than 0.1 |
| Boats.Bob | static/javaScript/boats.js:404-411 | the cosmetic animation writes only the height and, when asked, the roll and pitch; x, z and the heading are never changed |
| Boats.StrokesToFinish | static/javaScript/boats.js:366 | with exact reals, a boat starting at START_POSITION_Z crosses FINISH_LINE_Z exactly from its 375th stroke on |
| Boats.StoreKeeps | static/javaScript/boats.js:395-401 | storing a phase under an absent key, into caches of at most 100 entries, keeps both caches on the same key set, at most 101 entries each, with every value the sine or cosine of a phase under its key |
| Boats.BoatManager.constructor | static/javaScript/boats.js:8-28 | no boats, wave time 0, stroke counter 0 and both caches empty |
| Boats.BoatManager.CreateBoats | static/javaScript/boats.js:33-50 | createBoats places boat 0 and boat 1 at their created poses, whether the model loaded or the fallback boats were built |
| Boats.BoatManager.AnimateBoatCached | static/javaScript/boats.js:378-412 | a cached phase is reused and the caches stay as they were; a missed phase stores its sine and cosine, after clearing both caches when they held more than 100 entries; the boat is bobbed with the cached values and rotated only on every eighth stroke |
| Boats.BoatManager.StoreSample | static/javaScript/boats.js:390-402 | on a miss both caches are cleared together when they hold more than 100 entries, before the new entry goes in |
| Boats.BoatManager.ClearCaches | static/javaScript/boats.js:396-397 | both caches become empty together; nothing else changes |
| Boats.BoatManager.MoveBoat | static/javaScript/boats.js:360-373 | a missing boat or a false isMoving changes nothing, not even the stroke counter; otherwise the boat moves exactly BOAT_SPEED in z, the counter goes up by one, the other boats are untouched, and the cosmetic animation runs only on every fourth stroke |
| Boats.BoatManager.UpdateWaveTime | static/javaScript/boats.js:417-419 | the wave clock advances by exactly 0.5 per call |
| Boats.BoatManager.ResetBoats | static/javaScript/boats.js:424-447 | the boats become ResetPoses of the old boats; the caches and counters stay |
| Boats.BoatManager.Dispose | static/javaScript/boats.js:479-516 | the boats are gone and both caches are empty |
| Audio.Clamp01 | static/javaScript/AudioManager.js:410 | the result lies in [0, 1], equals the input inside that range and the nearer bound outside it |
| Audio.CooldownFloor | static/javaScript/AudioManager.js:403 | the stored cooldown is never below 50 ms and equals the request from 50 ms up |
| Audio.SplashesSpaced | static/javaScript/AudioManager.js:150-165 | over any series of splash requests, each splash that plays comes at least one cooldown after the previous one, and the first at least one cooldown after the last recorded splash |
| Audio.SplashesRequested | static/javaScript/AudioManager.js:150-165 | every splash that plays is one of the requests |
| Audio.SplashStepAccepted | static/javaScript/AudioManager.js:150-165 | with the splash element and sound on, one onBoatMove logs exactly the splashes the rate-limit fold AcceptedSplashes accepts for that single request, and stamps its time when it is accepted |
| Audio.BoatMovesPlayAccepted | static/javaScript/AudioManager.js:150-165 | with the splash element and sound on, any series of onBoatMove calls logs one HTML splash per request that AcceptedSplashes accepts, and lastSplashTime ends at the last accepted request |
| Audio.AudioManager.constructor | static/javaScript/AudioManager.js:4-20 | no context, gesture listeners attached, volumes 0.6 and 0.8, cooldown 200 ms, last splash 0, unmuted and not initialised |
| Audio.AudioManager.EnableAudio | static/javaScript/AudioManager.js:46-87 | once a gesture has been received, later gestures change nothing; a context that fails leaves audio uninitialised; a successful one creates the gains at the current volumes, generates the five effects, loads the splash element when configured, sets both flags and removes the listeners |
| Audio.AudioManager.CreateContext | static/javaScript/AudioManager.js:51-81 | the successful branch of the unlock, as one state change |
| Audio.AudioManager.CreateGraph | static/javaScript/AudioManager.js:51-65 | the master gain is 1 and the music and effects gains take the current volumes |
| Audio.AudioManager.Activate | static/javaScript/AudioManager.js:73-81 | the gesture is recorded, audio is initialised and the listeners are removed |
| Audio.AudioManager.GenerateSoundEffects | static/javaScript/AudioManager.js:123-132 | the five effect buffers exist afterwards when there is a context; without one nothing changes |
| Audio.AudioManager.LoadAudioFiles | static/javaScript/AudioManager.js:137-145 | the splash element exists afterwards exactly when it existed or a splash path is configured |
| Audio.AudioManager.PlaySoundEffect | static/javaScript/AudioManager.js:272-286 | an effect plays exactly when audio is initialised, unmuted and its buffer exists; otherwise nothing changes |
| Audio.AudioManager.PlaySplashSound | static/javaScript/AudioManager.js:150-165 | a request within the cooldown is dropped; a splash plays only when the element exists and sound is unmuted, and only a splash that plays moves lastSplashTime to now; with the element and sound on, the splashes logged are those AcceptedSplashes accepts for this request |
| Audio.AudioManager.StopBackgroundMusic | static/javaScript/AudioManager.js:347-356 | afterwards no music is playing; nothing else changes |
| Audio.AudioManager.PlayBackgroundMusic | static/javaScript/AudioManager.js:320-342 | nothing happens unless audio is initialised, unmuted and has a context; otherwise the music buffer exists and the looping music is (re)started |
| Audio.AudioManager.PlayCountdownBeep | static/javaScript/AudioManager.js:361-363 | the countdown beep effect, under the playSoundEffect gate |
| Audio.AudioManager.PlayStartSound | static/javaScript/AudioManager.js:368-370 | the start effect, under the playSoundEffect gate |
| Audio.AudioManager.PlayButtonClick | static/javaScript/AudioManager.js:395-397 | the click effect, under the playSoundEffect gate |
| Audio.AudioManager.PlaySplash | static/javaScript/AudioManager.js:375-382 | with the splash element the cooldown path runs; without it the generated splash plays under the effect gate and never touches lastSplashTime |
| Audio.AudioManager.PlayVictory | static/javaScript/AudioManager.js:387-390 | the music stops first, then the victory effect plays under the effect gate |
| Audio.AudioManager.SetSplashCooldown | static/javaScript/AudioManager.js:402-404 | the cooldown becomes max(50, c); nothing else changes |
| Audio.AudioManager.SetMusicVolume | static/javaScript/AudioManager.js:409-422 | the music volume becomes the clamped value; the music gain takes it, or 0 while muted |
| Audio.AudioManager.SetSfxVolume | static/javaScript/AudioManager.js:427-437 | the effects volume becomes the clamped value; the effects gain takes it, or 0 while muted |
| Audio.AudioManager.ToggleMute | static/javaScript/AudioManager.js:442-467 | the whole new state per branch: muting sets the flag, zeroes the master gain when there is a context and stops the music; unmuting restores gain 1 and restarts the looping music (generating its buffer) only while the game is playing and audio is initialised; nothing else changes |
| Audio.AudioManager.OnGameStart | static/javaScript/AudioManager.js:495-500 | the start effect plays under its gate and one more 500 ms music timer is pending |
| Audio.AudioManager.MusicTimerFires | static/javaScript/AudioManager.js:497-499 | a pending timer is used up; when audio is initialised and unmuted the looping music starts, with its buffer generated, and nothing else changes; otherwise only the timer count changes |
| Audio.AudioManager.OnGameWin | static/javaScript/AudioManager.js:502-504 | the music stops and the victory effect plays under its gate |
| Audio.AudioManager.OnGameRestart | static/javaScript/AudioManager.js:506-509 | the music stops and lastSplashTime becomes 0; nothing else changes |
| Audio.AudioManager.OnButtonClick | static/javaScript/AudioManager.js:511-513 | the click effect, under its gate |
| Audio.AudioManager.OnCountdownTick | static/javaScript/AudioManager.js:515-517 | the countdown beep, under its gate |
| Audio.AudioManager.OnBoatMove | static/javaScript/AudioManager.js:519-522 | the same as playSplash at that time |
| Audio.AudioManager.Destroy | static/javaScript/AudioManager.js:527-544 | the music stops and audio is no longer initialised, so no effect passes the playSoundEffect gate afterwards |
| Scenery.OrNum | static/javaScript/environment.js:34 | JavaScript's `a \|\| b` on numbers: a when a is non-zero, b otherwise |
| Scenery.ChunksAbut | static/javaScript/environment.js:51-54 | water chunk 0 starts at z = 0 and each next chunk lies one chunk length further along -z |
| Scenery.FinishLinePieces | static/javaScript/environment.js:229-255 | three pieces, all at the finish-line z (FINISH_LINE_Z, or 100 when unset), the left post left of the banner and the banner left of the right post |
| Scenery.GameLayout | static/javaScript/config.js:8-27 | with the game's settings the finish line is at FINISH_LINE_Z, chunks are 500 long, the river is 50 wide and the banks 95 |
| Scenery.BanksOutsideRiver | static/javaScript/environment.js:115-125 | for non-negative settings every grass patch, palm and oak stands outside the water on its own bank |
| Scenery.VertexPassUnreachable | static/javaScript/environment.js:282-290 | when update() passes its every-fifth-frame test, the incremented counter ends in 1 or 6, so its multiple-of-10 test never holds |
| Scenery.Environment.constructor | static/javaScript/environment.js:6-21 | no chunks, no water, wave time 0 and an empty scene |
| Scenery.Environment.CreateOptimizedWater | static/javaScript/environment.js:30-64 | 3 chunks in high performance mode and 2 in low, chunk i at (0, -0.5, -chunkLength·i); the first chunk is the animated water; the chunks are added to the scene in order |
| Scenery.Environment.CreateFinishLine | static/javaScript/environment.js:227-259 | the two posts and the banner are added to the scene and nothing else changes |
| Scenery.Environment.PlaceGrassPatches | static/javaScript/environment.js:105-131 | three rows; row i adds a left then a right patch at z = (i - 1)·40, on the banks' x positions |
| Scenery.Environment.PlaceMinimalTrees | static/javaScript/environment.js:153-174 | count trees at xPos, tree i at z = (i - 0.5)·60, appended in order |
| Scenery.Environment.PlacePalms | static/javaScript/environment.js:177-190 | two palms on the left bank, then two on the right, 25 beyond the river's edge |
| Scenery.Environment.PlaceOaks | static/javaScript/environment.js:193-224 | one oak per bank, 15 beyond the river's edge, level with the origin |
| Scenery.Environment.AddWaterOverlay | static/javaScript/environment.js:261-278 | the overlay plane is added just above the water |
| Scenery.Environment.Init | static/javaScript/environment.js:23-28 | the chunks, then the finish line, then the overlay; the bank models come later through their load callbacks |
| Scenery.Environment.Update | static/javaScript/environment.js:280-304 | the frame counter goes up by one on every call and the vertex animation never runs |
| Race.TogglePauseTwice | static/javaScript/GameManager.js:495-511 | pausing twice restores the game state |
| Race.TogglePauseOnlyWhilePlaying | static/javaScript/GameManager.js:495-511 | outside the playing phase togglePause changes nothing; while playing it flips isPaused and only that |
| Race.ParamOr | static/javaScript/GameManager.js:87-92 | `urlParams.get(key) \|\| fallback`: the first value of the key unless it is absent or empty, then the fallback |
| Race.ExtractPlayerInfo | static/javaScript/GameManager.js:82-98 | both names are non-empty; a missing name becomes "Player 1" / "Player 2" and a missing phone ""; a present non-empty name and any present phone are taken as given |
| Race.PlayerNames | static/javaScript/GameManager.js:103-108 | two labels: player 1's name then " (Right Boat)", player 2's name then " (Left Boat)" |
| Race.DisplayDistance | static/javaScript/GameManager.js:662-663 | the metres shown are never negative |
| Race.DistanceIsRemaining | static/javaScript/GameManager.js:662-663 | the read-out is the rounded distance still to row to the finish line, 150 at the start line and 0 at or past the finish |
| Race.JsRoundMonotone | static/javaScript/GameManager.js:662 | Math.round never decreases as its argument grows |
| Race.DistanceMonotone | static/javaScript/GameManager.js:662-663 | a boat further down the river never shows more metres to go |
| Race.WinnerOf | static/javaScript/GameManager.js:672-688 | boat 0 wins exactly when it has reached the finish line, even if boat 1 has too; boat 1 wins exactly when only it has; otherwise nobody has won |
| Race.DistanceText | static/javaScript/UIManager.js:239-243 | the text is the player's name, ": ", the metres' decimal text and a final "m" |
| Race.DistanceTextReadsBack | static/javaScript/UIManager.js:239-243 | the digits between ": " and "m" read back as the metres, after a minus sign for a negative distance |
| Race.WinnerText | static/javaScript/UIManager.js:265 | the banner is "🏆 ", the winner's name and " Wins! 🏆" |
| Race.WinnerTextInjective | static/javaScript/UIManager.js:265 | two different winners never get the same banner |
| Session.MonitorWindows | static/javaScript/GameManager.js:524-539 | within a 1000 ms window the monitor only counts a frame; at the end of a window it records the count as the frame rate and starts the next window; the mode changes exactly when a high-performance window counted fewer than 30 frames |
| Session.MonitorNeverRaisesQuality | static/javaScript/GameManager.js:534-553 | a low-performance session stays low with its renderer settings untouched, and low mode never gains shadows |
| Session.SlowStartDropsQuality | static/javaScript/GameManager.js:524-537 | the first window is measured from time 0, so a high-performance session whose first frame comes at 1000 ms or later drops to low mode on that frame, having counted one frame |
| Session.RendererPerf | static/javaScript/GameManager.js:262-274 | shadows exactly in high mode; in high mode the pixel ratio is the device's capped at 2, in low mode it is 1 |
| Session.CountdownCountsDown | static/javaScript/UIManager.js:167-193 | from counter c the interval shows c - 1, ..., 1 in turn and then GO!, max(c, 1) texts in all, GO! only at the end |
| Session.CountdownFromThree | static/javaScript/UIManager.js:151-193 | the countdown shows "3" when it starts, then "2", "1" and "GO!" |
| Session.RowedInTurn | static/javaScript/GameManager.js:615-624 | rowing boat 0 and then boat 1 is the same as rowing both in one step |
| Session.StandingStill | static/javaScript/GameManager.js:611-624 | a boat nobody rows stays where it is |
| Session.BoatName | static/javaScript/UIManager.js:235-245 | boats 0 and 1 get their player labels; any other index reads "undefined" |
| Session.GameManager.constructor | static/javaScript/GameManager.js:12-48 | player information from the query string, the detected performance mode, the loading phase and no subsystem yet |
| Session.GameManager.Init | static/javaScript/GameManager.js:120-188 | the UI and audio managers, camera, renderer, scenery, controls and boats are created in that order; the listeners are attached; the game is ready; the first frame is counted; the UI holds one pending countdown timer |
| Session.GameManager.InitializeUI | static/javaScript/GameManager.js:392-399 | a fresh UI manager over the page's elements, in its initial state |
| Session.GameManager.InitializeAudio | static/javaScript/GameManager.js:404-411 | a fresh audio manager in its initial state |
| Session.GameManager.CreateCamera | static/javaScript/GameManager.js:218-234 | the camera starts at the configured z |
| Session.GameManager.CreateRenderer | static/javaScript/GameManager.js:239-284 | the renderer's shadow switch and pixel ratio are those RendererPerf picks for the mode |
| Session.GameManager.InitializeEnvironment | static/javaScript/GameManager.js:352-356 | a fresh scenery in the session's mode, with its chunks, finish line and overlay in place |
| Session.GameManager.InitializeControls | static/javaScript/GameManager.js:361-364 | fresh controls with no key held |
| Session.GameManager.InitializeBoats | static/javaScript/GameManager.js:369-372 | a fresh boat manager holding the two boats at their created poses |
| Session.GameManager.SetupEventListeners | static/javaScript/GameManager.js:765-792 | the keyboard and visibility listeners are attached; nothing else changes |
| Session.GameManager.MarkReady | static/javaScript/GameManager.js:163-164 | the phase becomes ready and the game is initialised |
| Session.GameManager.StartRenderLoop | static/javaScript/GameManager.js:517-519 | the first frame is scheduled and counted by the monitor |
| Session.GameManager.NotifyUiReady | static/javaScript/GameManager.js:173-175 | the UI shows the game UI and sets one more countdown timer |
| Session.GameManager.StartGame | static/javaScript/GameManager.js:416-436 | only a ready game starts; it asks for a shadow redraw when shadows are on; the UI's countdown puts it in the countdown phase, counting from 3, and without a UI or countdown elements the race starts at once |
| Session.GameManager.BeginCountdown | static/javaScript/GameManager.js:430-435 | with a UI manager its countdown starts; without one the race starts at once |
| Session.GameManager.StartGameplay | static/javaScript/GameManager.js:441-456 | playing and running, with the start time now; the audio plays the start sound under its gate and schedules the music |
| Session.GameManager.ResetBoats | static/javaScript/GameManager.js:472-474 | the boats, if any, go back to their start poses |
| Session.GameManager.HandleGameRestart | static/javaScript/GameManager.js:458-490 | the game record is reset and the boats go back; the UI hides the banner, zeroes both read-outs and shows the game ready again; with an audio manager the call to its missing pauseMusic fails (ok is false) |
| Session.GameManager.ShowRemoteRestart | static/javaScript/GameManager.js:477-481 | banner hidden, read-outs at 0 m, game UI shown and one more countdown timer |
| Session.GameManager.Restart | static/javaScript/GameManager.js:721-749 | the game record is reset and the boats go back; the UI hides the banner and shows the game ready again; the audio stops the music and forgets the last splash |
| Session.GameManager.NotifyUiRestart | static/javaScript/GameManager.js:742-744 | the UI's onGameRestart: banner hidden, game UI shown, one more countdown timer |
| Session.GameManager.NotifyAudioRestart | static/javaScript/GameManager.js:746-748 | the audio's onGameRestart: music stopped, last splash at 0 |
| Session.GameManager.TogglePause | static/javaScript/GameManager.js:495-511 | the game record becomes Race.TogglePause of the old one; nothing else changes |
| Session.GameManager.OnVisibilityChange | static/javaScript/GameManager.js:787-791 | hiding the page toggles pause exactly when the game is playing and the listener is attached; nothing else changes |
| Session.GameManager.MonitorPerformance | static/javaScript/GameManager.js:524-539 | the frame-rate state becomes Monitor of the old one at that time |
| Session.GameManager.SwitchToLowPerformanceMode | static/javaScript/GameManager.js:544-559 | low mode, no shadows and a pixel ratio of 1 |
| Session.GameManager.Stroke | static/javaScript/GameManager.js:608-630 | the named boat is rowed one stroke and no other boat moves |
| Session.GameManager.NotifyAudioStroke | static/javaScript/GameManager.js:627-629 | the audio's onBoatMove state: with the splash element, a splash plays and restarts the cooldown when it is due and sound is unmuted; without it, the generated splash plays under the effect gate |
| Session.GameManager.HandleInput | static/javaScript/GameManager.js:608-630 | nothing moves once the game is won or before boats and controls exist; otherwise each player holding a key rows their boat one stroke, and any stroke leaves the audio in its onBoatMove state, while no stroke leaves it unchanged |
| Session.GameManager.RowBoats | static/javaScript/GameManager.js:611-624 | player 1's key is read first and rows boat 0, then player 2's key rows boat 1; the results say who rowed |
| Session.GameManager.UpdateCamera | static/javaScript/GameManager.js:635-646 | with two boats, the camera sits at their mean z plus the camera offset; otherwise it stays |
| Session.GameManager.UpdateUI | static/javaScript/GameManager.js:651-667 | on frames whose counter is a multiple of 5 and with two boats, both read-outs show each player's distance left to row; otherwise the UI is unchanged; the new UI equals UiAfterRefresh of the old |
| Session.GameManager.CheckWinCondition | static/javaScript/GameManager.js:672-685 | a won game is not decided again; otherwise, with two boats, WinnerOf's winner is recorded, the game is finished, the banner names the winner (UiAfterWin), and the music stops while the victory sound plays under the effect gate (AfterGameWin); with no decision the UI and audio are unchanged |
| Session.GameManager.OnGameWon | static/javaScript/GameManager.js:690-707 | finished, won, with the winner recorded; the UI's banner names the winner; the audio stops the music and plays the victory effect under its gate |
| Session.GameManager.NotifyUiWin | static/javaScript/GameManager.js:696-698 | the UI's onGameWin: the banner names the winner and is shown |
| Session.GameManager.NotifyAudioWin | static/javaScript/GameManager.js:700-702 | the audio's onGameWin: music stopped, victory under its gate |
| Session.GameManager.AnimateScenery | static/javaScript/GameManager.js:595-597 | the scenery's frame counter advances on frames whose counter is even |
| Session.GameManager.AdvanceWaves | static/javaScript/GameManager.js:600-602 | the boats' wave clock advances by 0.5; the boats do not move |
| Session.GameManager.Update | static/javaScript/GameManager.js:588-603 | input, camera, read-outs and the win check run in that order: strokes as Rowed says, the camera on the new boats, the recorded winner is WinnerOf of the new positions; the UI is UiAfterStep (on every fifth frame both read-outs show the distance left, and a race decided this frame puts up the winner banner and screen); the audio is AudioAfterStep (onBoatMove when a boat was rowed, then onGameWin when the race was decided); then the scenery advances on even frames and the boats' wave clock by 0.5 |
| Session.GameManager.RaceStep | static/javaScript/GameManager.js:589-592 | the game-logic half of update, with the same guarantees about strokes, camera and winner, the new UI state (UiAfterStep) and the new audio state (AudioAfterStep); the wave clock is untouched |
| Session.GameManager.RefreshAndJudge | static/javaScript/GameManager.js:591-592 | updateUI then checkWinCondition: a won game stays as it was; otherwise, with two boats, WinnerOf of the positions is recorded; the UI is UiAfterStep (read-outs, then the banner when the race was decided) and the audio takes onGameWin exactly when the race was decided |
| Session.GameManager.Animate | static/javaScript/GameManager.js:564-583 | the next frame is scheduled and counted; when not playing or paused, the record, camera, boats, scenery, UI and audio are all unchanged; when playing and not paused, update runs with all of its guarantees, including the UI, audio, scenery and wave-clock states |
| Session.GameManager.CountAndUpdate | static/javaScript/GameManager.js:569-574 | the frame is counted by monitorPerformance; when not playing or paused nothing else changes; when playing and not paused, update runs with all of its guarantees |
| Session.GameManager.UiShortcut | static/javaScript/UIManager.js:79-92 | R or r on a finished game restarts it; any other key changes no game state |
| Session.GameManager.HoldKey | static/javaScript/controls.js:11-14 | the controls record the key as held |
| Session.GameManager.GameShortcut | static/javaScript/GameManager.js:770-784 | Ctrl+R restarts, P or p toggles pause, any other key does nothing |
| Session.GameManager.OnKeyDown | static/javaScript/GameManager.js:770-784 | the UI's, the controls' and the game manager's listeners run in attachment order: the key is held; R restarts when the game is finished or Ctrl is down; P toggles pause; the boats move only through a restart |
| Session.GameManager.OnKeyUp | static/javaScript/controls.js:16-19 | the controls record the key as released and keep their touch zones |
| Session.GameManager.Destroy | static/javaScript/GameManager.js:848-874 | the frame loop stops, the touch zones go, the UI's countdown is cleared, audio is switched off, and the game is marked destroyed and not running |
| Session.GameManager.CleanupControls | static/javaScript/GameManager.js:859-861 | the touch zones are removed and the keys kept |
| Session.GameManager.DestroyUI | static/javaScript/GameManager.js:863-865 | the UI's countdown interval is cleared and the countdown is inactive |
| Session.GameManager.DestroyAudio | static/javaScript/GameManager.js:867-869 | the music stops and audio is uninitialised |
| Session.GameManager.MarkDestroyed | static/javaScript/GameManager.js:871-873 | the phase is destroyed, the game is not running and not initialised |
| Session.UIManager.constructor | static/javaScript/UIManager.js:4-74 | the UI manager belongs to its game, knows which elements the page has, and starts with no countdown, no texts and no pending timers |
| Session.UIManager.HandleKeyboardShortcuts | static/javaScript/UIManager.js:79-92 | R or r on a finished game restarts it through the restart button's handler; any other key, or any key in another phase, changes nothing |
| Session.UIManager.ShowGameReady | static/javaScript/UIManager.js:97-104 | the game UI is shown and one more countdown timer is pending |
| Session.UIManager.ShowGameUI | static/javaScript/UIManager.js:119-123 | the game UI is shown when the element exists |
| Session.UIManager.HideControlsInfo | static/javaScript/UIManager.js:110-114 | the controls help is hidden when the element exists |
| Session.UIManager.ReadyTimerFires | static/javaScript/UIManager.js:101-103 | a pending timer is used up and startCountdown runs: nothing more while a countdown is active; the overlay counting from 3 with audio unchanged; or, without the countdown elements, the controls help hidden, the race started and the audio in its onGameStart state |
| Session.UIManager.StartCountdown | static/javaScript/UIManager.js:137-194 | ignored while a countdown is active; otherwise the countdown is active, the game is in the countdown phase and the overlay shows 3 with the interval running; without both countdown elements the race starts at once |
| Session.UIManager.ShowCountdown | static/javaScript/UIManager.js:151-167 | the overlay is shown with the first number and the interval runs from 3 |
| Session.UIManager.CountdownTick | static/javaScript/UIManager.js:167-193 | one firing: the counter steps down and its number shows, or GO! shows, the interval stops and the 800 ms timer is set |
| Session.UIManager.GoTimerFires | static/javaScript/UIManager.js:188-191 | the overlay goes, the countdown is inactive, the controls help goes and the race starts |
| Session.UIManager.HideCountdown | static/javaScript/UIManager.js:199-212 | the overlay is hidden and the countdown becomes inactive |
| Session.UIManager.OnCountdownComplete | static/javaScript/UIManager.js:217-221 | the controls help goes and the race starts |
| Session.UIManager.OnRestartButtonClick | static/javaScript/UIManager.js:228-230 | the game manager's restart runs |
| Session.UIManager.UpdateDistanceDisplay | static/javaScript/UIManager.js:235-245 | each present read-out shows its player's label, the metres and "m" |
| Session.UIManager.ResetDistances | static/javaScript/UIManager.js:247-255 | each present read-out shows its player's label at 0 m |
| Session.UIManager.ShowWinner | static/javaScript/UIManager.js:261-277 | the banner names the winning boat's player, or "undefined" for another index, and the winner screen is shown |
| Session.UIManager.HideWinner | static/javaScript/UIManager.js:283-292 | the winner screen is hidden when it exists |
| Session.UIManager.OnGameReady | static/javaScript/UIManager.js:350-352 | the same as showGameReady |
| Session.UIManager.OnGameWin | static/javaScript/UIManager.js:358-360 | the same as showWinner |
| Session.UIManager.OnGameRestart | static/javaScript/UIManager.js:362-365 | the winner screen is hidden and the game is shown ready again |
| Session.UIManager.Destroy | static/javaScript/UIManager.js:370-378 | the interval is cleared and the countdown is inactive; pending timers stay |
| Helpers.AfterLastDot | utils/helpers.py:8 | `rsplit('.', 1)[1]`: a dot-free suffix of the name that starts right after its last dot, or the whole name when it has no dot |
| Helpers.Extension | utils/helpers.py:6-12 | a name has an extension exactly when it contains a dot |
| Helpers.ImageIsFile | utils/helpers.py:6-12 | every name allowed_image accepts, allowed_file accepts too |
| Helpers.MusicIsNotImage | utils/helpers.py:6-12 | a .mp3 name is an allowed file but not an allowed image |
| Helpers.ExtensionOfSuffix | utils/helpers.py:8 | the extension of stem + "." + ext is ext lower-cased, whatever the stem, when ext has no dot |
| Helpers.AfterLastDotLower | utils/helpers.py:8 | lower-casing the name first gives the lower-cased extension |
| Helpers.AllowedIgnoresCase | utils/helpers.py:6-12 | both whitelist tests give the same answer for a name and its lower-case form |
| Helpers.PlayerRow | utils/helpers.py:36-41 | four cells: the two players' names and phones, a missing key as "" |
| Helpers.PlayerRowOnlyPlayers | utils/helpers.py:36-41 | a key other than the four player fields has no effect on the row |
| Helpers.LegacyRow | utils/helpers.py:24 | eight cells under a six-column header: the name, the phone, four blanks, False and the timestamp |
| Helpers.DataFile.constructor | utils/helpers.py:14-28 | a file that is absent has no rows |
| Helpers.DataFile.Append | utils/helpers.py:14-33 | the row is appended after the header when the file did not exist; the file exists afterwards |
| Helpers.DataFile.SavePlayerData | utils/helpers.py:26-41 | the header goes first into a new file, then one PlayerRow per call |
| Helpers.DataFile.SaveData | utils/helpers.py:14-24 | the legacy header goes first into a new file, then one LegacyRow per call |
| Uploads.Join | utils/file_manager.py:17-53 | os.path.join: an absolute second part replaces the first; otherwise the result ends with the second part |
| Uploads.RelativePath | utils/file_manager.py:24 | the returned path always lies under uploads/ |
| Uploads.FileIfExists | utils/file_manager.py:43-66 | a missing or empty path gives None; otherwise the path comes back unchanged exactly when its file exists, looked up under the static folder for an uploads/ path and under static/uploads for any other |
| Uploads.SavedPathFound | utils/file_manager.py:24-51 | the path of a saved upload is found exactly when its file exists under the static folder |
| Uploads.LogoEntriesExact | utils/file_manager.py:122-124 | the logo selection holds exactly the listing's entries whose names start with logo_ |
| Uploads.MusicEntriesExact | utils/file_manager.py:122-126 | the music selection holds exactly the listing's music_ entries, a logo_ name being taken as a logo first |
| Uploads.PrefixesExclusive | utils/file_manager.py:123-126 | no name starts with both logo_ and music_ |
| Uploads.Latest | utils/file_manager.py:112-143 | max by modification time: no entry is newer, and among equally new entries the first in the listing wins |
| Uploads.LatestPath | utils/file_manager.py:129-136 | no path for an empty selection; otherwise uploads/ followed by the newest entry's name |
| Uploads.LatestUploadedFiles | utils/file_manager.py:112-143 | without an upload folder, nothing; otherwise the listing is split in order into logo and music names and each kind reports its newest file |
| Uploads.UploadStore.constructor | utils/file_manager.py:7-8 | both globals start as None over the given session; nothing is written |
| Uploads.UploadStore.SaveUploadedFile | utils/file_manager.py:10-41 | a missing or unnamed file gives None and writes nothing; a name with a disallowed extension raises "Invalid <type> file type"; an allowed one is written as <type>_<secure name> in the upload folder, returns uploads/<type>_<secure name>, and for logo or music becomes the current file in the global and the session |
| Uploads.UploadStore.GetCurrentFiles | utils/file_manager.py:68-87 | each global, or when it is None the session's copy, which is then put back in the global; the session is unchanged |
| Uploads.UploadStore.ClearCurrentFiles | utils/file_manager.py:89-98 | both globals become None and both session keys are removed, and nothing else of the session |
| Uploads.UploadStore.InitializeFromSession | utils/file_manager.py:100-110 | each session copy that exists overwrites its global; the others keep their value |
| Uploads.UploadStore.InitializeThenGet | utils/file_manager.py:68-110 | after initialize_from_session the globals agree with the session, and get_current_files returns them and changes nothing |
| Routes.ArgOr | routes/main_routes.py:73-74 | `request.args.get(key) or fallback`: the argument unless it is absent or empty, then the fallback |
| Routes.ArgDefault | routes/main_routes.py:80-82 | `request.args.get(key, fallback)`: only an absent argument gives the fallback; an empty one is kept |
| Routes.TruncateName | routes/main_routes.py:77-78 | at most 20 characters; a short name is unchanged and a long one keeps its first 20 |
| Routes.TruncateIdempotent | routes/main_routes.py:77-78 | truncating twice is truncating once |
| Routes.ParseSkip | routes/main_routes.py:82 | skip is on exactly when the argument is present and lower-cases to "true" |
| Routes.SkipSpellings | routes/main_routes.py:82 | "true", "True" and "TRUE" switch skip on, and a request without it leaves skip off |
| Routes.ReadPlayers | routes/main_routes.py:73-82 | names default to "Player 1"/"Player 2" when absent or empty and are cut to 20 characters, phones default to "" only when absent, and skip as ParseSkip says; both names are non-empty |
| Routes.PlayerRecord | routes/main_routes.py:85-92 | the CSV row of the saved record holds the two names and phones as read |
| Routes.SaveOnlyRealPlayers | routes/main_routes.py:95-97 | an empty query saves nothing, and a query that names player 1 something other than the default saves |
| Routes.ChooseFile | routes/main_routes.py:43-50 | a current file is kept; when there is none, a non-empty latest upload takes its place |
| Routes.DisplayUrl | routes/main_routes.py:57-62 | the URL is empty exactly when the file does not exist, and otherwise is the file under /static/ |
| Routes.Game | routes/main_routes.py:23-104 | the session is read into the globals; logo and music are the current files, filled from the latest uploads, shown only when they exist; the names come from the query string; the record is appended to the CSV file only when it is not all defaults |
| Routes.FilesToShow | routes/main_routes.py:33-54 | the globals agree with the session, and each kind's path is ChooseFile of its current file and its latest upload |
| Routes.RecordPlayers | routes/main_routes.py:94-97 | one CSV row, with the header first into a new file, exactly when the record is worth saving |
| Routes.ErrorResponse | routes/admin_routes.py:58-61 | success false, the error's text and status 500 |
| Routes.SaveSlot | routes/admin_routes.py:20-48 | an absent, unnamed or rejected file leaves the store as it was, a rejected one ending the request with its error; a saved one is written as <slot>_<secure name>, adds the slot's uploaded flag and path, and becomes the current file in the global and the session |
| Routes.SaveSettings | routes/admin_routes.py:12-61 | the logo is handled before the music; a rejected logo answers 500 with the store unchanged; a rejected music answers 500 after a named logo was saved; otherwise success with an uploaded flag and the path exactly for each named file, those files written in order, and each global its new file or else get_current_files' session fallback |
| Routes.Fallback | utils/file_manager.py:68-87 | a set global is kept; an unset one takes the session's copy exactly when the session has one |
| Routes.Normalize | routes/admin_routes.py:71-75 | a missing or empty path gives null; any other becomes /static/ followed by the path without its leading slashes |
| Routes.StripSlashes | routes/admin_routes.py:74 | `lstrip("/")`: the longest suffix that does not start with a slash, everything before it being slashes |
| Routes.NormalizeOneSlash | routes/admin_routes.py:71-75 | however many slashes a stored path starts with, its URL has exactly one after /static |
| Routes.GetSettings | routes/admin_routes.py:64-86 | the body holds exactly logoUrl and musicUrl: the normalised current files, read with the session fallback, with status 200; the session and the written files stay as they were |
| Relay.Server.constructor | utils/socket_events.py:6 | the server starts with no broadcasts, over the given data file |
| Relay.Server.GameStart | utils/socket_events.py:8-19 | the payload gains the server's timestamp, its player row is appended to the CSV file (after the header when the file is new), and the stamped payload is broadcast as game_start |
| Relay.Server.GameRestart | utils/socket_events.py:21-28 | the payload is broadcast unchanged as game_restart; nothing is recorded |
| Relay.Server.SavePlayerData | utils/socket_events.py:30-34 | the payload's player row is appended to the CSV file; nothing is broadcast |
| Relay.Server.DebugPing | utils/socket_events.py:45-48 | a fixed debug_pong goes to every client, whatever the ping carried |
| Relay.StampedRowIsPlayers | utils/socket_events.py:14-15 | the timestamp is not written to the CSV file: two starts with the same payload record the same row |
| Login.PhoneAlert | static/javaScript/login.js:46 | the alert is "Player ", the player's index in decimal and " phone number must be 10 digits", and the index reads back from it |
| Login.PhoneAlertInjective | static/javaScript/login.js:46 | different players get different phone alerts |
| Login.VerdictPasses | static/javaScript/login.js:22-59 | the form passes exactly when the login is skipped, or neither phone is malformed and at least one player has both a trimmed name and a trimmed phone |
| Login.VerdictPhoneFirst | static/javaScript/login.js:32-56 | a malformed phone of player 1 is reported even when player 2 is complete; a skipped login passes whatever the fields; a passing form that is not skipped has a complete player |
| Login.BlankNameIncomplete | static/javaScript/login.js:33-42 | a name made only of white space counts as missing |
| Login.TrimOr | static/javaScript/login.js:135-138 | `value?.trim() \|\| fallback`: the trimmed text unless it is empty, then the fallback |
| Login.StartPayloadFields | static/javaScript/login.js:134-140 | each of the five fields of the game_start payload reads back as given |
| Login.TrimOrTrimmed | static/javaScript/login.js:135-138 | the field's text is already trimmed when its fallback is |
| Login.FieldsTrimmed | static/javaScript/login.js:135-138 | both names are non-empty and all four texts are already trimmed |
| Login.PlayerDataTrimmed | static/javaScript/login.js:134-140 | the payload's names are never empty, every text it carries is trimmed, and skip is the box's state |
| Login.LoginPage.constructor | static/javaScript/login.js:110-121 | no listener yet, no alert, no status and nothing sent |
| Login.LoginPage.OnLoaded | static/javaScript/login.js:112-120 | the submit listener is installed exactly when the socket exists |
| Login.LoginPage.ShowCustomAlert | static/javaScript/login.js:61-64 | the alert shows the message; nothing else changes |
| Login.LoginPage.CloseCustomAlert | static/javaScript/login.js:66-68 | the alert is hidden; nothing else changes |
| Login.LoginPage.UpdateStatusMessage | static/javaScript/login.js:103-108 | the status shows the message when the page has the element, and otherwise stays |
| Login.LoginPage.ValidateForm | static/javaScript/login.js:22-59 | the loop's answer is Verdict's: it passes exactly when Verdict has no alert, and a failing form shows Verdict's alert |
| Login.LoginPage.Submit | static/javaScript/login.js:123-161 | a passing form is sent as one game_start event carrying PlayerData of the form, and the alert and status say the game started; a failing form sends nothing and shows its alert; without the listener nothing happens |
| Login.LoginPage.RestartGame | static/javaScript/login.js:75-101 | without a socket only the connection alert shows; otherwise one game_restart event goes out with the timestamp and the source mobile_login, and the alert and status say so |
| Login.LoginPage.ResetForm | static/javaScript/login.js:70-73 | the status says the page is ready |
| Client.ReadBack | static/javaScript/socketClient.js:19-30 | a field contributes exactly when it is text whose trim is non-empty, and then contributes the trimmed text |
| Client.SkipParam | static/javaScript/socketClient.js:31-33 | skip=true is appended exactly when the payload's skip is truthy |
| Client.KeysDistinct | static/javaScript/socketClient.js:20-32 | the five parameter names differ from each other |
| Client.ParamThenRest | static/javaScript/socketClient.js:17-33 | a present parameter is found under its own name; any other name, or an absent parameter, passes the lookup on to the rest of the query |
| Client.ParamsAbsent | static/javaScript/socketClient.js:17-33 | a name none of the parameters carries is absent from their query |
| Client.ParamsGet | static/javaScript/socketClient.js:17-33 | in a query of parameters under different names, each reads back as it was appended |
| Client.ParamsReadBack | static/javaScript/socketClient.js:17-33 | five optional parameters under different names all read back as given |
| Client.GameQueryReadsBack | static/javaScript/socketClient.js:17-36 | on the game page, each text field of the payload reads back as its trimmed text when that is non-empty and is absent otherwise, and skip reads back as "true" exactly when it was truthy |
| Client.LoginNeverThrows | static/javaScript/socketClient.js:19-30 | the payload the registration page sends never makes the handler throw |
| Client.LoginNamesQuery | static/javaScript/socketClient.js:19-24 | both names of the registration page reach the game page as sent, and skip as ticked |
| Client.LoginPhonesQuery | static/javaScript/socketClient.js:25-30 | a phone reaches the game page, trimmed, exactly when it was given |
| Client.NameReadsBack | static/javaScript/socketClient.js:19-24 | a name as the registration page sends it reads back unchanged |
| Client.PhoneReadsBack | static/javaScript/socketClient.js:25-30 | a phone as the registration page sends it reads back when it is non-empty |
| Client.IntroNames | static/javaScript/intro.js:90-93 | two truthy names: each player's name when truthy, otherwise "Player 1" / "Player 2" |
| Client.FallbackQuery | static/javaScript/intro.js:102-105 | the fallback query starts with player1_name and then player2_name |
| Client.FallbackQueryReadsBack | static/javaScript/intro.js:102-107 | the fallback names both players, never carries a phone, and has skip exactly when it is truthy |
| Client.FallbackAgreesOnLogin | static/javaScript/intro.js:99-109 | for a payload of the registration page, the fallback redirect sends the same names and skip flag as the game_start redirect |
| Client.Page.constructor | static/javaScript/socketClient.js:1-5 | a page at its path with its session storage, nothing sent and nowhere navigated |
| Client.Page.GameStartReceived | static/javaScript/socketClient.js:10-42 | only the intro page reacts; there a field that is true where text is expected throws before anything is written; otherwise the payload is stored and the page goes to /game with GameQuery of the payload; other pages change nothing |
| Client.Page.GameRestartReceived | static/javaScript/socketClient.js:44-70 | a stored record is emitted as save_player_data with restart_timestamp added; the record is removed; the game and intro pages go to / |
| Client.Page.StartGameWithPlayers | static/javaScript/intro.js:86-110 | window.playerNames gets the names with their defaults, and one more fallback timer is pending |
| Client.Page.IntroLoaded | static/javaScript/intro.js:2-23 | a stored record starts the game again at once, and the page then listens for game_start |
| Client.Page.GameStartEvent | static/javaScript/socketClient.js:10-42 | socketClient's listener runs first; intro's listener runs next, when installed, unless the first threw |
| Client.Page.FallbackFires | static/javaScript/intro.js:99-109 | the oldest timer is used up; a page still on / goes to /game with the fallback query |
| Admin.FormOf | static/javaScript/admin.js:60-66 | the form has at most two parts |
| Admin.FormCarriesSlots | static/javaScript/admin.js:60-66 | the form holds a logo part exactly when a logo is uploaded, and a music part exactly when music is; each appears once and is the uploaded file |
| Admin.AdminPage.constructor | static/javaScript/admin.js:1-2 | both slots empty, no alert, no request, no status, the bar hidden |
| Admin.AdminPage.LogoChosen | static/javaScript/admin.js:5-18 | a chosen file of at most 5 MiB fills the logo slot; otherwise the slot keeps what it had and the size alert shows |
| Admin.AdminPage.MusicChosen | static/javaScript/admin.js:21-34 | the same rule for music with a 10 MiB limit |
| Admin.AdminPage.RemoveLogo | static/javaScript/admin.js:40-45 | the logo slot is emptied and nothing else changes |
| Admin.AdminPage.RemoveMusic | static/javaScript/admin.js:47-52 | the music slot is emptied and nothing else changes |
| Admin.AdminPage.ResetAll | static/javaScript/admin.js:103-107 | both slots are emptied and the status is cleared |
| Admin.AdminPage.SaveSettings | static/javaScript/admin.js:54-76 | with both slots empty only the nothing-to-save alert shows; otherwise the form of the filled slots is posted and the bar and status say saving |
| Admin.AdminPage.SaveAnswered | static/javaScript/admin.js:77-100 | a success shows the saved status, fills the bar and schedules the redirect; a failure shows the failed status and alerts the server's message, or a fixed one; a failed request or parse alerts "Upload failed."; the bar is hidden in every case |
| Admin.AdminPage.RedirectFires | static/javaScript/admin.js:84-86 | the page goes to / |

## Left out

- Rendering: the Three.js scene, lights, fog, materials, geometry, GLTF loading, the camera projection and the renderer's settings are not modelled. Only the counters, positions and flags the code reads back are kept.
- detectPerformanceMode (GameManager.js:53-77) reads the browser's user agent and hardware, so its result is a constructor parameter.
- initializeLogo, handleResize, render, the loading screen and showError only touch the page, so they are left out.
- Web Audio synthesis, buffers and gain ramps are floating-point signal work and are not modelled. The model keeps which sounds play, the gates and the volumes.
- Math.round and Math.sin/Math.cos: positions are exact reals, Math.round is floor(x + 0.5), and sin/cos are function-valued parameters. The clock's delta time is read by the source but never used in a movement, so it is left out.
- Boats.StrokesToFinish: the count 375 holds for exact reals only. The program adds BOAT_SPEED = 0.4 to z = -75 as IEEE doubles, and after 375 strokes z is 74.99999999999999, just below FINISH_LINE_Z. So the program's boat crosses at its 376th stroke, and checkWinCondition (`z >= FINISH_LINE_Z`) declares the winner one stroke later than the model does. The winner can differ too: a boat that reaches 375 strokes first wins in the model, but in the program it must row once more, and the other boat may reach 376 strokes in the meantime.
- DOM styling, CSS classes, fades and transitions are reduced to the visible flags and texts they end in.
- The FileReader that previews a chosen logo or music is taken to finish at once.
- Page unloading after a navigation is not modelled: a page object keeps its state after it assigns window.location.href.
- UIManager's onGameStart only logs, and the audio manager's onGameReady only resumes a suspended context. Both are left out.
- The `typeof THREE` check in GameManager.init cannot fail once the module is loaded, so it is left out.
- The UI's pause button calls an onPauseButtonClick handler that the UI manager does not define. That click is left out.
- Session.GameManager.HandleGameRestart: the source calls audioManager.pauseMusic, which AudioManager.js does not define. The call would throw, so the model answers ok = false in place of the exception.
- CSV quoting and escaping in utils/helpers.py are not modelled: a row is the list of its fields.
- Util.LowerAscii: Python's str.lower and JavaScript's toLowerCase fold all of Unicode, but the model folds only A-Z.
- url_for and percent-encoding of query strings are not modelled: a query is a list of decoded pairs.
- Flask's request.files is reduced to the uploaded filename. werkzeug's secure_filename is a function-valued parameter.
- Failures of os.makedirs, file.save, os.listdir and os.path.getmtime are not modelled: the filesystem is a map that always answers.
- JSON numbers are not among the payload values, since no event carries one. Parsing stored JSON is taken to succeed.
- Login: the form's four inputs are taken to be present on the page.
- Socket connection handling is left out, because it only logs or updates status text. This covers connect, disconnect and players_registered in socketClient.js, checkSocketStatus, updateSocketStatus, displayWaitingMessage, hideWaitingMessage, and login.js's testSocketConnection and logging listeners (login.js:165-183).
- The connect and disconnect handlers of utils/socket_events.py only log and are left out.
- routes/api_routes.py, app.py, static/javaScript/Exportpage.js and the template-only routes "/", "/login" and "/admin" are not part of this model.
- Login.LoginPage.CloseCustomAlert: the 2 s and 3 s timers of login.js (lines 94-99 and 157-160) reset the form and close the alert. The model keeps only the closing, because the form's contents are inputs and hold no state of their own.
- Scenery.Environment.Init: createOptimizedRiverBanks places grass only when a grass model path (`MODELS.GROUND_GRASS`) is configured, and trees unless neither tree model path (`MODELS.PALM_TREES`, `MODELS.OAK_TREES`) is configured. The model has no model-path configuration, so the bank pieces are placed by separate methods and Init does not choose between them.
- The Environment constructor's maxTrees, maxGrassPatches and enableShadows options are never read by the source, so they are left out.
- Fixed timer delays become step methods that the caller invokes. This covers showGameReady's 1000 ms delay, the 800 ms "GO!" display, the audio manager's 500 ms music delay and the admin page's redirect delay; the lengths themselves are not modelled.
