# WILFORD site scripts, modelled in Dafny

This project models the browser scripts of the WILFORD. music site in Dafny:

- **the terminal music player**: track loading, play and pause, next and previous, shuffle and repeat, seeking, skipping, volume, the media element's events and the keyboard shortcuts of the listen screen;
- **the PC-98 frequency visualizer**: run state, the averaging of analyser bins into 32 bars, the grid overlay and the colour settings;
- **the JRPG menu**: screens, the cursor, the intro, delayed screen changes and the Konami code;
- **the bio dialogue**: a five-page typewriter pager;
- **the hidden secrets**: typed code words, the hidden corner, double-clicks and the idle message;
- **the GeoCities "chaos" dressing**: the visitor counter, the chaos toggle, the mouse trail and the seven-click title secret.

Each script becomes one module:

| module | file | script |
|---|---|---|
| `MusicPlayer` | `player.dfy` | `scripts/music-player.js` |
| `Visualizer` | `visualizer.dfy` | `scripts/visualizer.js` |
| `Menu` | `menu.dfy` | `scripts/menu.js` |
| `Dialogue` | `dialogue.dfy` | `scripts/dialogue.js` |
| `Secrets` | `secrets.dfy` | `scripts/secrets.js` |
| `Chaos` | `chaos.dfy` | `scripts/chaos.js` |

Shared pieces have modules of their own:

- `Text`: `String(n)`, `padStart` and `parseInt` on decimal strings;
- `TimeFormat`: the player's "MM:SS" clock;
- `Counters`: the counter that fires every *n*-th event, used by the double-click secret and the title-click secret;
- `Wrappers`: `Option`.

Each script keeps its state in closure variables and updates it in event handlers. Each becomes a Dafny `class` with those variables as fields and one method per handler. Its `Valid()` invariant is preserved by every method.

The environment becomes explicit events or parameters:

- **Timers, animation frames and `play()` promises** are pending entries or counters, with one method for each way they can fire or settle.
- **`Math.random()` draws** are parameters in `[0, 1)`. The shuffle comparator becomes a free choice of permutation.
- **`Date.now()`** is a parameter in milliseconds.
- **`localStorage`** is a `map<string, string>`.
- **DOM writes and calls to other scripts** (status text, sound cues, visualizer start and stop, secret effects) are appended to an `effects` log, so each handler states what it sends outside and in which order.

Where the documented behaviour and the code differ, the model follows the code, with one exception. The bio dialogue's class models the corrected "next" indicator described under "## Findings", not the script's sticky "[ END ]"; the script's own behaviour is modelled beside it by `IndicatorAsWritten`, `EndMarkSticks` and `AsWrittenAgreesUntilEnd`. Elsewhere:

- `setVolume` does not clamp; only the slider's 0–100 range bounds it.
- A media error does not clear `isPlaying`.
- Two keyboard volume steps compose into one step only when both go the same way (`AdjustSameDirection`, `AdjustOppositeDirections`).

## Model

| member | source | states |
|---|---|---|
| Text.Decimal | scripts/music-player.js:669-674 | `String(n)` of a count: at least one character, all decimal digits, a single digit exactly below 10, no leading zero |
| Text.ValueOfDecimal | scripts/chaos.js:24-29 | the digits printed for `n` denote `n` |
| Text.DecimalInjective | scripts/chaos.js:29 | two counts print the same only if they are equal |
| Text.PadStart | scripts/chaos.js:29 | `padStart` never cuts its argument: the result is `max(width, length)` long, ends with the argument and is fill characters in front of it |
| Text.PaddedValue | scripts/chaos.js:29 | a zero-padded decimal is still all digits and still denotes the number |
| Text.ParseInt | scripts/chaos.js:24-25 | `parseInt` yields a number exactly when an optional sign is followed by a digit, and `NaN` otherwise |
| Text.ParseDecimal | scripts/chaos.js:25-26 | `parseInt` reads the printed digits of a count back as that count |
| Text.ParseIntString | scripts/chaos.js:24-26 | what `String(k)` writes, `parseInt` reads back as `k`, for every integer including negative ones |
| Text.ClockZero | scripts/music-player.js:670 | the zero clock is "00:00" |
| Text.ClockRoundTrip | scripts/music-player.js:669-674 | a clock built from minutes and seconds below 60 reads back as `60 * minutes + seconds` |
| TimeFormat.FormatTime | scripts/music-player.js:669-674 | an unknown (`NaN`) position is shown as "00:00" |
| TimeFormat.FloorOfParts | scripts/music-player.js:671-672 | `Math.floor(s / 60)` and `Math.floor(s % 60)` are the quotient and the remainder of the whole seconds of `s` by 60 |
| TimeFormat.FormatTimeIsClock | scripts/music-player.js:669-674 | every position that is not negative is shown as its whole minutes and its seconds within the minute, each padded to two digits |
| TimeFormat.FormatTimeRoundTrip | scripts/music-player.js:669-674 | reading the shown clock back gives the whole seconds of the position |
| Counters.Step | scripts/secrets.js:355-362 | one event: the counter stays below its period, fires exactly when it reaches the period, and loses no event (new value plus one period if it fired equals old value plus one) |
| Counters.RunClosedForm | scripts/chaos.js:291-303 | over any run of events the counter fires once per full period: the fire count and the final value are the quotient and remainder of `count + events` |
| MusicPlayer.ModeIndex | scripts/music-player.js:490-491 | every repeat mode has its position in the `['none', 'all', 'one']` list |
| MusicPlayer.NextRepeat | scripts/music-player.js:489-492 | a press of the repeat button always changes the mode |
| MusicPlayer.RepeatCycle | scripts/music-player.js:489-492 | three presses come back to the starting mode and visit all three modes on the way |
| MusicPlayer.SequentialNext | scripts/music-player.js:427-437 | the next index without shuffle stays in the catalog; the playlist ends exactly after the last track when repeat is not "all" |
| MusicPlayer.PreviousIndex | scripts/music-player.js:458-461 | the previous index stays in the catalog |
| MusicPlayer.PreviousUndoesNext | scripts/music-player.js:422-461 | previous undoes next; next undoes previous, except on track 0 without repeat-all, where previous stays on track 0 |
| MusicPlayer.Walk | scripts/music-player.js:422-449 | any number of next presses keeps the index in the catalog |
| MusicPlayer.WalkInOrder | scripts/music-player.js:427-437 | without repeat-all, next plays the tracks once each in catalog order and then ends the playlist |
| MusicPlayer.WalkRepeatAll | scripts/music-player.js:428-431 | with repeat-all, `k` presses of next from `i` reach `(i + k) mod 9` |
| MusicPlayer.FilteredCount | scripts/music-player.js:682-686 | the filtered index list holds every index but the current one exactly once |
| MusicPlayer.FilteredLength | scripts/music-player.js:682-686 | the filtered list is one shorter than the catalog when the current index is in it |
| MusicPlayer.ShuffleQueueShape | scripts/music-player.js:682-686 | whatever order the random comparator gives, the shuffle queue has 8 entries: every track but the current one, each exactly once |
| MusicPlayer.PopKeepsQueueOk | scripts/music-player.js:688-697 | popping the queue keeps it duplicate-free and removes the popped track from it |
| MusicPlayer.Clamp01 | scripts/music-player.js:573-574 | `Math.max(0, Math.min(1, x))` lies in [0, 1], is `x` inside it and the nearer bound outside |
| MusicPlayer.AdjustSameDirection | scripts/music-player.js:573-574 | two volume steps in the same direction equal one step by their sum |
| MusicPlayer.AdjustOppositeDirections | scripts/music-player.js:573-574 | steps in opposite directions do not compose (0.9 + 0.2 − 0.2 gives 0.8, not 0.9) |
| MusicPlayer.SeekTarget | scripts/music-player.js:526-532 | a seek lands inside [0, duration], at `ratio * duration` when the click is on the bar |
| MusicPlayer.SeekThenProgress | scripts/music-player.js:517-532 | after a seek the progress bar is filled exactly up to the clamped click position |
| MusicPlayer.SkipForwardTime | scripts/music-player.js:550-553 | a forward skip goes ten seconds on or to the end, never past the end |
| MusicPlayer.SkipBackwardTime | scripts/music-player.js:555-557 | a backward skip goes ten seconds back or to the start, never before 0 |
| MusicPlayer.SkipsUndoEachOther | scripts/music-player.js:550-557 | away from both ends of the track, a skip back undoes a skip forward and the other way round |
| MusicPlayer.KeyAction | scripts/music-player.js:265-304 | exactly the seven keys of the listen screen act; Shift turns left and right into previous and next |
| MusicPlayer.Player.ElapsedText | scripts/music-player.js:517-524 | the elapsed-time label reads back as the whole seconds it was formatted from |
| MusicPlayer.Player.DurationText | scripts/music-player.js:638-639 | the duration label reads back as the whole seconds of the duration |
| MusicPlayer.Player.constructor | scripts/music-player.js:105-153 | the initial state: track 0, stopped, no shuffle, repeat off, volume 0.8, no audio context, nothing loaded, status "READY. SELECT A TRACK.", both labels "00:00" |
| MusicPlayer.Player.SetStatus | scripts/music-player.js:676-680 | the status line shows the new text, and the write is logged |
| MusicPlayer.Player.InitAudioContext | scripts/music-player.js:183-208 | creates the audio context at most once; the gain starts at the volume; the visualizer is initialised; the status reports success or failure |
| MusicPlayer.Player.ConnectAudioNodes | scripts/music-player.js:210-223 | the element is wired into the graph only once a context exists, and never twice |
| MusicPlayer.Player.LoadTrack | scripts/music-player.js:308-341 | an index outside the catalog changes nothing; otherwise the track becomes current, the element is reloaded at position 0 with its duration unknown, "LOADING" is shown and the move cue played |
| MusicPlayer.Player.StartPlayback | scripts/music-player.js:372-402 | asks the element to play and plays the select cue; `isPlaying` waits for the promise |
| MusicPlayer.Player.PlayResolved | scripts/music-player.js:378-391 | a resolved `play()` sets `isPlaying`, shows "PLAYING." and starts the visualizer |
| MusicPlayer.Player.PlayRejected | scripts/music-player.js:392-395 | a rejected `play()` only shows "ERROR: PLAYBACK FAILED" |
| MusicPlayer.Player.PausePlayback | scripts/music-player.js:404-420 | pauses the element, clears `isPlaying`, shows "PAUSED.", stops the visualizer and plays the back cue |
| MusicPlayer.Player.PrepareAudio | scripts/music-player.js:343-352 | after the first steps of `togglePlay`, a context exists exactly when one existed or could be created, and the element is connected exactly once |
| MusicPlayer.Player.TogglePlay | scripts/music-player.js:343-370 | with nothing loaded, loads track 0 and waits for `canplay`; otherwise pauses a playing player or starts a stopped one; all effects are in order |
| MusicPlayer.Player.GenerateShuffleQueue | scripts/music-player.js:682-686 | the queue is a permutation of every track but the current one |
| MusicPlayer.Player.GetNextShuffleIndex | scripts/music-player.js:688-697 | pops the back of the queue; regenerates an empty queue under repeat-all (never yielding the current track); otherwise yields the current track again; a popped track leaves the queue |
| MusicPlayer.Player.ArmAutoplay | scripts/music-player.js:442-448 | a `playOnce` listener is added exactly when the player was playing |
| MusicPlayer.Player.PlayNext | scripts/music-player.js:422-449 | the next track as sequential order or the shuffle queue gives it, with autoplay when playing; at the end of the playlist it shows "END OF PLAYLIST." and then pauses |
| MusicPlayer.Player.PlayPrevious | scripts/music-player.js:451-471 | past three seconds it rewinds the current track; otherwise it loads the previous track with autoplay when playing |
| MusicPlayer.Player.ToggleShuffle | scripts/music-player.js:473-487 | flips shuffle; turning it on rebuilds the queue as a permutation of the other tracks; shows the new state and plays the select cue |
| MusicPlayer.Player.ToggleRepeat | scripts/music-player.js:489-514 | moves to the next repeat mode, shows it and plays the select cue |
| MusicPlayer.Player.TrackClicked | scripts/music-player.js:606-608 | a click on a row loads that track and sets the 100 ms start timer |
| MusicPlayer.Player.ClickTimerFires | scripts/music-player.js:609-618 | the start timer starts a stopped player through `togglePlay` and arms `playOnce` on a playing one |
| MusicPlayer.Player.OnCanPlay | scripts/music-player.js:247-249 | `canplay` shows "PLAYING." while playing; every waiting `playOnce` listener starts playback once and is removed |
| MusicPlayer.Player.OnTrackEnded | scripts/music-player.js:650-657 | repeat-one rewinds and replays the same track; every other mode behaves as `playNext` |
| MusicPlayer.Player.OnTrackLoaded | scripts/music-player.js:638-648 | the duration becomes known (a zero duration counts as unknown) and is shown; "READY." is shown only when not playing |
| MusicPlayer.Player.OnWaiting | scripts/music-player.js:246 | shows "BUFFERING..." |
| MusicPlayer.Player.OnAudioError | scripts/music-player.js:659-666 | shows "ERROR: FAILED TO LOAD" and changes nothing else |
| MusicPlayer.Player.OnTimeUpdate | scripts/music-player.js:517-524 | while the duration is unknown only the position moves; otherwise the bar shows the percentage and the label the position |
| MusicPlayer.Player.Seek | scripts/music-player.js:526-532 | ignored while the duration is unknown; otherwise the position lands in [0, duration] at the clamped click position |
| MusicPlayer.Player.SkipForward | scripts/music-player.js:550-553 | ignored while the duration is unknown; otherwise ten seconds on, capped at the end |
| MusicPlayer.Player.SkipBackward | scripts/music-player.js:555-557 | ten seconds back, floored at 0 |
| MusicPlayer.Player.SetVolume | scripts/music-player.js:560-571 | the volume is the slider value over 100; the gain node (when there is one) and the element follow |
| MusicPlayer.Player.AdjustVolume | scripts/music-player.js:573-584 | the volume moves by the step, clamped to [0, 1]; the gain node and the element follow |
| MusicPlayer.Player.HandleKeyboard | scripts/music-player.js:257-305 | keys act only on the active listen screen outside text fields; each key does what its handler does |
| Visualizer.BinSumBounds | scripts/visualizer.js:109-112 | a sum of `n` bins lies between 0 and `255 * n` |
| Visualizer.BarInBounds | scripts/visualizer.js:104-112 | every bin the averaging loop reads is inside the buffer |
| Visualizer.BarAverage | scripts/visualizer.js:105-113 | a bar's average lies in [0, 255], and is `NaN` exactly when there are fewer bins than bars |
| Visualizer.Averages | scripts/visualizer.js:96-113 | the nested averaging loop yields the 32 bar averages |
| Visualizer.Lines | scripts/visualizer.js:171-189 | the interior grid lines are the `k / parts` points of the extent, strictly inside it and strictly increasing |
| Visualizer.LineInside | scripts/visualizer.js:172-189 | an interior grid line lies strictly inside the canvas |
| Visualizer.LineOrder | scripts/visualizer.js:172-189 | grid lines are drawn in strictly increasing position |
| Visualizer.DrawGrid | scripts/visualizer.js:165-190 | three horizontal lines at the quarters of the height and seven vertical lines at the eighths of the width |
| Visualizer.Slice | scripts/visualizer.js:199-201 | `slice` never returns more than the requested width |
| Visualizer.ParseHex2 | scripts/visualizer.js:199-201 | `parseInt(s, 16)` on a two-character slice of a hex colour: a number below 256, and `NaN` exactly when the first character is not a hex digit |
| Visualizer.HexPairValue | scripts/visualizer.js:199-201 | two hex digits read back as the byte they were written from |
| Visualizer.Channel | scripts/visualizer.js:199-201 | a channel read from the colour is below 256 |
| Visualizer.Dim | scripts/visualizer.js:202 | the dimmed channel is `Math.floor(c / 3)`, and `NaN` stays `NaN` |
| Visualizer.DimChannel | scripts/visualizer.js:199-202 | a dimmed channel is never above 85 and is a third of the channel, rounded down |
| Visualizer.ChannelsOfHex | scripts/visualizer.js:196-204 | a `#rrggbb` colour yields exactly its three channels |
| Visualizer.Visualizer.constructor | scripts/visualizer.js:9-22 | before `init`: no canvas, no analyser, not running, default colours |
| Visualizer.Visualizer.DrawIdle | scripts/visualizer.js:143-160 | without a canvas nothing is drawn; otherwise one idle frame is added after the earlier ones, under the canvas's grid (rows and columns) |
| Visualizer.Visualizer.DrawBars | scripts/visualizer.js:93-138 | without an analyser or a canvas nothing is drawn; otherwise one frame whose 32 bars are the averages of the reading |
| Visualizer.Visualizer.Draw | scripts/visualizer.js:83-88 | only while running: a new frame is requested and, with an analyser and a canvas, one frame is added after the earlier ones whose 32 bars are the averages of the reading |
| Visualizer.Visualizer.Start | scripts/visualizer.js:61-65 | a no-op when already running or without an analyser; otherwise running with a frame pending, and with a canvas the first frame of bars drawn after the earlier frames |
| Visualizer.Visualizer.Stop | scripts/visualizer.js:70-78 | stopped with no frame pending, whatever the state before; one idle redraw queued |
| Visualizer.Visualizer.FrameFires | scripts/visualizer.js:83-88 | a cancelled frame never fires; a pending one requests the next and, with an analyser and a canvas, adds the bars of the reading after the earlier frames |
| Visualizer.Visualizer.IdleTimerFires | scripts/visualizer.js:77 | the queued idle redraw adds an idle frame under the canvas's grid, even if the visualizer has been restarted meanwhile |
| Visualizer.Visualizer.ResizeCanvas | scripts/visualizer.js:45-56 | without a canvas or a parent, nothing; otherwise the canvas takes the parent's size, and an idle frame under the new grid is added exactly when not running |
| Visualizer.Visualizer.Init | scripts/visualizer.js:29-40 | binds the canvas and the analyser, keeps the earlier frames and ends with an idle frame under the canvas's grid |
| Visualizer.Visualizer.SetColor | scripts/visualizer.js:196-204 | the bright colour as given, the dim one at a third of each channel, the glow at half opacity |
| Menu.NavigateTarget | scripts/menu.js:149-156 | the cursor moves by the direction only when it stays in the list |
| Menu.NavigateStopsAtEnds | scripts/menu.js:149-156 | no wrap-around at either end; up undoes down inside the list |
| Menu.KonamiStep | scripts/menu.js:226-236 | a right key advances the progress; the tenth fires the easter egg and resets; a wrong key resets to 0 without being tried as the first key |
| Menu.KonamiRun | scripts/menu.js:226-237 | over any key sequence the progress stays below the code's length |
| Menu.KonamiRunSnoc | scripts/menu.js:226-237 | one more key is one more step of the matcher |
| Menu.KonamiPrefix | scripts/menu.js:226-236 | each prefix of the code typed from a fresh start is tracked key by key |
| Menu.KonamiFires | scripts/menu.js:226-236 | the full code from a fresh start fires once and starts over |
| Menu.KonamiExtraUp | scripts/menu.js:226-236 | one Up too many in front of the code spoils it: it does not fire |
| Menu.KonamiNeverLeavesZero | scripts/menu.js:226-236 | from 0, keys that are never Up keep the progress at 0 |
| Menu.Menu.constructor | scripts/menu.js:7-47 | after `init`: the intro screen with its 4 s timer when present, otherwise the title screen |
| Menu.Menu.CompleteIntro | scripts/menu.js:66-83 | only the first call acts; it schedules the switch to the title screen |
| Menu.Menu.TransitionToScreen | scripts/menu.js:204-222 | a switch is scheduled only when both screens exist |
| Menu.Menu.SetActiveMenuItem | scripts/menu.js:158-163 | exactly the chosen item is active and becomes the cursor |
| Menu.Menu.NavigateMenu | scripts/menu.js:149-156 | a move that would leave the list changes nothing; otherwise the cursor moves, only the new item is active and the move cue plays |
| Menu.Menu.SelectMenuItem | scripts/menu.js:165-182 | an item with a target plays the select cue and schedules the flash timer; one without changes nothing |
| Menu.Menu.StartGame | scripts/menu.js:89-94 | only on the title screen: the start cue, then a switch to the main menu |
| Menu.Menu.SkipIntro | scripts/menu.js:50-63 | only during an unfinished intro: completes it |
| Menu.Menu.BackButton | scripts/menu.js:186-192 | the back cue, then a switch to the button's target |
| Menu.Menu.ItemHovered | scripts/menu.js:114-119 | on the main menu only: the hovered item becomes the cursor and the move cue plays |
| Menu.Menu.ItemClicked | scripts/menu.js:121-125 | on the main menu, a click selects the item under the cursor, which need not be the clicked one |
| Menu.Menu.HandleKeyNavigation | scripts/menu.js:129-147 | arrows and Enter or Space act only on the main menu; the arrows move the cursor as `NavigateTarget` says |
| Menu.Menu.EscapeKey | scripts/menu.js:195-200 | Escape goes back to the main menu from any screen but the title and the menu themselves |
| Menu.Menu.KonamiKey | scripts/menu.js:226-237 | the progress follows `KonamiStep`; firing plays the secret cue and shows the overlay |
| Menu.Menu.KeyDown | scripts/menu.js:22-26 | all keydown listeners run in registration order against the same screen; the Konami progress advances as one step |
| Menu.Menu.FireTimer | scripts/menu.js:172-221 | a fired timer leaves the pending list: screen swaps and the intro's end change the screen; the selection flash schedules the swap and starts the bio dialogue; the 4 s intro timer completes the intro (lines 43-47 and 74-82) |
| Dialogue.Delay | scripts/dialogue.js:47-49 | 300 ms after a full stop, 150 ms after a comma, between 30 and 50 ms otherwise |
| Dialogue.EndMarkSticks | scripts/dialogue.js:52-61 | as written, after the last page "[ END ]" stays in the indicator, not blinking, on every page of a later reading, so the first page no longer shows the markup's own indicator |
| Dialogue.IndicatorFor | scripts/dialogue.js:55-61 | the indicator a completed page should show: the markup's own on every page but the last, "[ END ]" without blinking on the last, whatever was completed before |
| Dialogue.CompletedAsWrittenState | scripts/dialogue.js:52-61 | as written, after any sequence of completed pages the indicator is the markup's own while the last page has never been completed, and "[ END ]" for good once it has |
| Dialogue.AsWrittenAgreesUntilEnd | scripts/dialogue.js:52-61 | the script shows the indicator a completed page should show exactly when that page is the last or the last page has not been completed before: on a first reading it agrees, on every later one it does not |
| Dialogue.Dialogue.constructor | scripts/dialogue.js:15-17 | page 0, not typing, no timeout |
| Dialogue.Dialogue.Finish | scripts/dialogue.js:52-61 | typing stops and the indicator for the page appears |
| Dialogue.Dialogue.TypeChar | scripts/dialogue.js:41-63 | the next character appears and the next timeout is set with its delay; once the text is complete the indicator appears |
| Dialogue.Dialogue.ShowDialoguePage | scripts/dialogue.js:25-66 | an index past the last page is ignored; otherwise the page starts typing afresh with its first character shown |
| Dialogue.Dialogue.TimerFires | scripts/dialogue.js:51 | the pending timeout types the next character, or completes the page |
| Dialogue.Dialogue.InitBioDialogue | scripts/dialogue.js:20-23 | back to page 0, typed afresh |
| Dialogue.Dialogue.AdvanceDialogue | scripts/dialogue.js:87-115 | while typing, completes the page at once; otherwise moves to the next page with the move cue; on the last page it does nothing |
| Dialogue.Dialogue.KeyDown | scripts/dialogue.js:76-84 | only Enter or Space on the active bio screen advance the dialogue |
| Secrets.Lower | scripts/secrets.js:26 | `toLowerCase` of a letter is the lower-case letter |
| Secrets.IncludesOccurs | scripts/secrets.js:36 | `includes` finds a code word exactly when it occurs at some position |
| Secrets.FirstMatch | scripts/secrets.js:35-41 | the code word that fires is the first, in declaration order, that the buffer contains |
| Secrets.EmptyHasNoCode | scripts/secrets.js:10-18 | the empty buffer holds no code word |
| Secrets.IdleMessage | scripts/secrets.js:376-386 | the idle message is one of the five texts |
| Secrets.IdleMessageOnce | scripts/secrets.js:365-371 | without activity the idle message appears exactly once, on the tick that reaches 60 seconds |
| Secrets.Secrets.constructor | scripts/secrets.js:20-21 | an empty buffer with no timeout, all counters 0 |
| Secrets.Secrets.KeyDown | scripts/secrets.js:23-43 | a letter is added in lower case and restarts the 2 s timeout; the first code word contained fires and empties the buffer; every key resets the idle time (line 374) |
| Secrets.Secrets.BufferTimeout | scripts/secrets.js:29-32 | the timeout, firing no earlier than two seconds after the last letter, empties the buffer |
| Secrets.Secrets.Click | scripts/secrets.js:346-352 | a click in the bottom-left 50-pixel corner shows the message and stores the corner as found; any other click changes nothing |
| Secrets.Secrets.DoubleClick | scripts/secrets.js:355-362 | every fifth double-click shows "Double-click master!" and starts the count over |
| Secrets.Secrets.IdleTick | scripts/secrets.js:366-371 | each tick counts one second; the message shows on reaching exactly 60 |
| Secrets.Secrets.MouseMove | scripts/secrets.js:373 | mouse movement resets the idle time |
| Chaos.CountString | scripts/chaos.js:25-26 | the written count is never empty |
| Chaos.InitHitCounter | scripts/chaos.js:23-29 | the counter text is at least six characters: zeros in front of the count that is stored back |
| Chaos.HitsWrittenBack | scripts/chaos.js:24-26 | what the counter stores reads back as one more than it read; an unreadable entry stays unreadable |
| Chaos.CounterShowsCount | scripts/chaos.js:24-29 | for a stored count that is not negative, the counter shows all digits and reads as the new count |
| Chaos.DigitSpan | scripts/chaos.js:37 | one digit's markup has a fixed width and holds the digit |
| Chaos.DigitSpans | scripts/chaos.js:37 | one span per character of the counter text |
| Chaos.DigitSpanAt | scripts/chaos.js:37 | the `i`-th span holds the `i`-th character, so the spans show the counter in order |
| Chaos.TrailSymbol | scripts/chaos.js:174-176 | a trail particle shows one of the five symbols |
| Chaos.Page.constructor | scripts/chaos.js:342-344 | the body classes and the label follow the stored chaos flag; the visit is counted and stored; the counter markup shows the padded count |
| Chaos.Page.ToggleClick | scripts/chaos.js:265-278 | flips chaos and stores the new state, so a reload comes back the same |
| Chaos.Page.MouseMove | scripts/chaos.js:165-184 | a particle is spawned and `lastTime` moved only when at least 50 ms have passed; particles are at least 50 ms apart |
| Chaos.Page.Click | scripts/chaos.js:292-303 | clicks on the title or the intro text count towards the secret, which unlocks on the seventh and starts over |

## Left out

- `scripts/audio.js` (the menu sound synthesiser) is not part of this model. Its `playMenuSound` is a sound cue in the effects logs.
- Rendering is not modelled: pixels, canvas gradients, glow, bar widths, CSS classes and animations, and element text other than what the contracts name. The random heights of idle bars are left out too.
- The Web Audio graph is reduced to whether a context exists, the gain value and a connected flag. `audioContext.resume()` is not modelled.
- Floating-point numbers are exact reals. The float rounding of positions, volumes and averages is not modelled.
- Timers, animation frames and `play()` promises fire as explicit events in any order. Their real delays (100 ms, 200 ms, 400 ms, 4 s, …), which order timers of different lengths, are not modelled.
- Track titles, artists and artwork, the track counter text and `updateTrackListUI` are left out. A loading status carries the track index, not its upper-cased title.
- The player's DOM elements, the visualizer's canvas and the bio dialogue's elements are assumed present. The null checks that guard them are not modelled.
- `init` of the player is modelled for a page that has the listen screen; without it the script does nothing.
- `startDrag` is not modelled as its own handler: a drag is a series of `Seek` calls.
- Rounding in the volume display (`updateVolumeUI`) is not modelled.
- `audio.load()` rejecting a `play()` promise that is still pending is not modelled.
- MusicPlayer.Player.ConnectAudioNodes: the `try`/`catch` around the wiring is not modelled. If `createMediaElementSource` or a `connect` throws, the script leaves `isAudioConnected` false and retries on the next `togglePlay`; the model always connects once a context exists.
- MusicPlayer.Player.PlayResolved: a pending `play()` promise may resolve after `pausePlayback`. A browser rejects a `play()` that `pause()` interrupts; the model does not tie the two.
- MusicPlayer.Player.SetVolume: requires a slider value in 0–100, the bounds the slider enforces. The function itself does not clamp.
- MusicPlayer.Player.OnTrackLoaded: requires a duration that is not negative. `NaN` durations are the `None` of the media record.
- MusicPlayer.Player.HandleKeyboard: does not restate the audio-context and effect details of each action. Those are in the contract of the method the key runs.
- Visualizer.ParseHex2: models `parseInt(s, 16)` only for the two hex digits of a `#rrggbb` colour, which is what `setColor` takes (scripts/visualizer.js:194-196). A sign or leading whitespace ("+f" and " f" read as 15, "-f" as -15) and a `0x` prefix ("0x" reads as `NaN`, here as 0) are not modelled.
- Text.ParseInt: models `parseInt` for the strings the page stores. Leading whitespace, a `0x` prefix and numbers above 2^53 (which lose precision) are not modelled.
- Chaos.InitHitCounter: a stored value that `parseInt` cannot read gives `NaN`. "NaN" is then stored and shown, and it stays that way on every later visit (`HitsWrittenBack`). No lemma states the count over several visits at once.
- The chaos dressing's floating elements, marquee, badges, webring and haunted effects are left out. So are the secret overlay's markup and the console messages. An unlock of the seven-click secret is a count.
- The 1 s removal of trail particles is not modelled. The trail keeps every particle spawned.
- The effects of the secret code words are recorded only as a `Secret` entry naming the code: the WILFORD popup, the melody, the zone redirect, ghost mode and party mode. Messages are recorded with their text and duration, not their markup.
- The menu's title screen is assumed present, since the script registers a listener on it unconditionally. A transition away from a missing current screen throws in the script; here it does nothing.
- The 300 ms removal of the `screen-enter` class, the `skipped` class, the Konami overlay's close button and the initial focus are left out.
- Dialogue: showing a page again while a page is still typing can start a second typewriter chain in the script. The model keeps a single chain.
- What the dialogue box holds before the first page is shown is not modelled.
- Dialogue.Dialogue.Finish: shows the corrected indicator (`IndicatorFor`) on completion. After the last page has been completed once, the script instead keeps "[ END ]", not blinking, on every page (see "## Findings").
- Dialogue.Dialogue.TypeChar: completes a page with the corrected indicator, as `Finish` does, not the script's sticky "[ END ]".
- Dialogue.Dialogue.TimerFires: completes a page with the corrected indicator, as `Finish` does, not the script's sticky "[ END ]".
- Dialogue.Dialogue.AdvanceDialogue: skipping to the end of a page shows the corrected indicator, as `Finish` does, not the script's sticky "[ END ]".
- Dialogue.Dialogue.KeyDown: states only when a key is ignored and that the page stays in range. The effect of a key that acts is `AdvanceDialogue`'s contract.
- Menu.Menu.KeyDown: states only that the screen is unchanged and how the Konami progress moves. The other listeners' effects are in their own contracts.

## Findings

| source | as written | input that shows it | evidently intended | confidence | as-written member | corrected member |
|---|---|---|---|---|---|---|
| scripts/dialogue.js:58 | completing the last page sets the indicator's text to "[ END ]" and removes its blinking; nothing ever sets them back | read all five pages to the end, leave the bio screen and enter it again: the first page completes with "[ END ]", not blinking | the indicator keeps its own text and blinking on every page but the last | not executed | Dialogue.EndMarkSticks | Dialogue.IndicatorFor |
