# Rikka-tree player core, modelled in Dafny

Rikka-tree is a single-page "link in bio" card with a small music player.
Its script renders a profile and links from a JSON document, plays one song
and shows its lyrics in time with the audio. This project models the parts
of `script.js` that carry logic:

- **Lyric cue selection** (`Lyrics`): on every `timeupdate` the page scans
  the song's `timeSync` cues from the front, keeps the last cue whose time is
  at most the playback time, stops at the first later cue, and re-renders the
  lyrics element only when a cue was found whose index differs from the
  module-level `currentLyricIndex`. The scan is a method with a loop and
  `break` (`ScanCues`); the lyrics element and the index live in the class
  `LyricsDisplay`. The scan is tied to a recursive specification
  (`StartedPrefix`) and, on lists sorted by time, to an independent reference
  definition (`LastStarted`, the greatest started index).
- **Text formatting** (`Format`): a lyric's line feeds become `<br>`, and
  `formatTime` writes seconds as `m:ss`. The clock is proved lossless by a
  parser that reads it back; the `<br>` replacement is proved lossless on text
  without `<` by the reverse replacement.
- **Play/pause state** (`Playback`): the class `Player` holds `isPlaying`,
  the icon class, the album-art animation, the audio element's `src` and the
  `play()`/`pause()` calls made on it. Its methods are the play/pause button,
  the autoplay attempt and its two outcomes, and the `ended` event. Its
  invariant says the icon and the spin follow `isPlaying` and the `src`
  follows the audio-file rule.
- **Placeholder rules** (`Sentinels`): the template placeholders
  `YOUR_AUDIO_FILE_URL.mp3` and `YOUR_ALBUM_ART_URL_HERE` disable audio and
  select the stock album picture.
- **Welcome panel** (`Welcome`): shown when no visit is stored or more than
  3,600,000 ms have passed, and only then is the new time stored.

An absent value (`undefined`, an empty string, or no data loaded yet) is
written `""` for the audio file: every guard in the script treats those the
same way. Cue times are `real`; the clock is modelled on whole seconds, and
`Format.FloorOfRealTime` shows that flooring a non-negative time first gives
the same minutes and seconds that `formatTime` computes from the real value.

In a few places the code behaves in ways a reader might not expect; the
model follows the code:

- When no cue has started (for instance after seeking back before the first
  cue), `currentLyricIndex` keeps its old value; it is not set back to -1.
- Nothing resets `currentLyricIndex` when data loads (`LyricsDisplay.Load`).
- The play/pause button is blocked only by the placeholder audio file. With
  no audio file at all it still flips `isPlaying`, the icon and the spin,
  without any audio call (`Player.TogglePlayPause`).
- A successful autoplay sets `isPlaying` without checking what the user did
  meanwhile (`Player.AutoPlaySucceeded`).

## Model

| member | source | states |
|---|---|---|
| `Lyrics.StartedPrefix` | script.js:214-221 | the scan's stopping point: every cue before it has time <= t, and the cue at it (if any) has time > t |
| `Lyrics.LastStarted` | script.js:214-221 | reference definition: the greatest index whose cue has time <= t, or -1; every later cue has time > t |
| `Lyrics.SelectedIndex` | script.js:211-221 | the index the loop settles on: -1 or a valid index whose cue has started (with `StartedPrefix`, every earlier cue has started and the next has not) |
| `Lyrics.SortedScanFindsLastStarted` | script.js:214-224 | on a list sorted by time the scan selects the greatest index with time <= t; with equal times the later cue wins |
| `Lyrics.ScanSelectsNoneIff` | script.js:214-223 | the scan finds no cue exactly when the list is empty or its first cue starts after t; in particular when no cue has started |
| `Lyrics.SelectionFollowsTime` | script.js:214-221 | a later time never selects an earlier cue; a time before the selected cue's start selects a lower index, so seeking back moves the selection down |
| `Lyrics.DuplicateTimesLaterWins` | script.js:215-217 | on cues at 0, 5, 5 the time 5 selects the third cue |
| `Lyrics.ScanCues` | script.js:211-221 | the loop returns an index in [-1, n), every cue up to it has started, the next one has not, and the cue returned is the one at that index (none for -1), on any list |
| `Lyrics.PrefixIsStartedPrefix` | script.js:214-221 | a prefix of started cues followed by an unstarted cue or the end is exactly where the scan stops |
| `Lyrics.LyricsDisplay.constructor` | script.js:2 | the shown index starts at -1 with no data loaded |
| `Lyrics.LyricsDisplay.Load` | script.js:169-172 | the first cue's formatted text is shown when the list has one; the shown index is not reset |
| `Lyrics.LyricsDisplay.Update` | script.js:207-228 | without a cue list nothing changes; otherwise it re-renders iff a cue was found and its index differs from the stored one, and then stores that index and shows that cue's formatted text; else index and text are unchanged |
| `Lyrics.UpdateTwiceSameTime` | script.js:223-224 | a second update at the same time reports no change; after both, the index is the started cue's (or the old one if none has started) and the HTML changed only if that index differs from the old one, exactly as after one update |
| `LyricsScenario.ThreeCueSong` | script.js:207-228 | on cues at 0, 30 and 90 s, updates at 0, 15, 30, 45 and 90 s re-render at 0, 30 and 90 s only |
| `Format.FormatLyric` | script.js:170 | the lyric's HTML: `text.replace(/\n/g, '<br>')`, never shorter than the text; the lemmas below fix its meaning (no line feed left, piecewise, reversible) |
| `Format.FormatLyricReplacesEveryNewline` | script.js:226 | the HTML has no line feed, text without line feeds is returned unchanged, and each line feed adds three characters (it became `<br>`) |
| `Format.FormatLyricAppend` | script.js:226 | formatting a concatenation is the concatenation of the formatted parts |
| `Format.UnformatFormatLyric` | script.js:226 | on text without '<', replacing `<br>` back by line feeds recovers the original text |
| `Format.Decimal` | script.js:240 | the decimal text is non-empty, and a single digit exactly for values below 10 |
| `Format.DecimalDigits` | script.js:240 | the decimal text is all digits, with no leading zero except for 0 |
| `Format.ParseDecimalOfDecimal` | script.js:240 | reading the decimal text back gives the number |
| `Format.PadStart` | script.js:240 | the result has the requested width (or the input's, if longer), ends with the input and is filled in front |
| `Format.SecondsField` | script.js:240 | `secs.toString().padStart(2, '0')` for secs < 60: always two characters (`SecondsFieldValue`: two digits reading back as secs) |
| `Format.SecondsFieldValue` | script.js:239-240 | the padded seconds field is exactly two digits and reads back as the seconds |
| `Format.FormatTime` | script.js:237-241 | `formatTime`: the clock is at least four characters with the colon third from the end (`FormatTimeFields` and `FormatTimeRoundTrip` give the fields and the round trip) |
| `Format.FormatTimeFields` | script.js:237-240 | the clock is the digits of seconds / 60, a colon, and two digits reading seconds % 60 |
| `Format.FormatTimeRoundTrip` | script.js:237-240 | reading the clock back, minutes * 60 plus the seconds field (below 60) gives the input again |
| `Format.FormatTimeInjective` | script.js:237-240 | different second counts give different clocks |
| `Format.FloorOfRealTime` | script.js:238-239 | for t >= 0, floor(t / 60) and floor(t % 60) are the minutes and seconds of floor(t) |
| `Sentinels.AudioEnabled` | script.js:174 | the audio file is usable iff it is non-empty and not `YOUR_AUDIO_FILE_URL.mp3`; the guards at :174, :266 and :293 reduce to it (`AudioSource`, `Player.AutoPlayAllowed`, `Player.SeekAllowed`) |
| `Sentinels.AudioSource` | script.js:174-175 | the audio element gets a src iff the file is non-empty and not the placeholder, and then the src is the file |
| `Sentinels.AlbumArt` | script.js:162-167 | the configured picture is used iff it is non-empty and not the placeholder; otherwise the stock Unsplash picture, dimmed; the placeholder is never shown |
| `Playback.IconFor` | script.js:250-257 | the icon is the pause icon iff playing |
| `Playback.AnimationFor` | script.js:255-261 | the album art rotates iff playing |
| `Playback.Player.constructor` | script.js:3 | not playing, no src, the play icon, no audio calls |
| `Playback.Player.Load` | script.js:174-176 | the src is set only for a usable audio file; the play state is untouched |
| `Playback.Player.ToggleBlocked` | script.js:244-246 | the button is blocked by the placeholder file and not by an absent one; a blocked file is never usable audio |
| `Playback.Player.TogglePlayPause` | script.js:243-263 | blocked: nothing changes; otherwise isPlaying flips, icon and spin follow, and a play or pause call is made iff a src is set |
| `Playback.Player.AutoPlayAllowed` | script.js:266 | autoplay is attempted iff not playing and the audio file is usable |
| `Playback.Player.TryAutoPlay` | script.js:265-269 | when allowed, one play call is made; the play state is untouched until the outcome |
| `Playback.Player.AutoPlaySucceeded` | script.js:270-273 | the player is playing, with the pause icon and the rotation |
| `Playback.Player.AutoPlayRejected` | script.js:274-276 | a refused autoplay changes no state |
| `Playback.Player.Ended` | script.js:194-198 | not playing, the play icon, no rotation |
| `Playback.Player.SeekAllowed` | script.js:293 | click-to-seek acts iff the audio file is usable |
| `Playback.ToggleTwiceRestores` | script.js:248 | two presses restore isPlaying, the icon and the rotation |
| `Playback.AutoPlayOnUsableAudio` | script.js:265-273 | with usable audio and nothing playing, an attempt that succeeds leaves the player playing after one play call |
| `Welcome.CheckWelcomePanel` | script.js:96-104 | show iff no visit is stored or more than 3,600,000 ms have passed; the stored time becomes now only then |
| `Welcome.StoredOnlyWhenShown` | script.js:100-102 | the stored time changes exactly when the panel is shown |
| `Welcome.ShownAtMostOncePerHour` | script.js:100-102 | after a showing, a visit within the hour neither shows nor restores; a visit after it shows again |

## Left out

- The particle background (script.js:25-94): random, floating-point canvas animation.
- Fetching `data.json` and the built-in fallback document (script.js:106-130): network I/O. `LyricsDisplay.Load` and `Player.Load` take the loaded values as parameters.
- Playback.Player.Load: requires that no src is set yet. The page loads its data once; a second `initializeFromJSON` after the first threw past line 175 would leave a stale src, which the model does not cover.
- The profile and link elements, the year, opacity and fade styling and its `setTimeout` (script.js:133-160, 201, 204, 229-233, 318-325): rendering only.
- The total-time and current-time displays' duration fallbacks (script.js:179-180, 185, 200) and the progress-bar percentage and seek position (script.js:188-189, 294-297): floating-point values and element geometry. The seek target is not clamped in the code; only the seek guard is modelled.
- `localStorage` and `Date` (script.js:97-98, 102): the welcome rule takes the stored time and the current time as integers; a stored value that is not a number is not modelled.
- The promise of `audioPlayer.play()`: its two outcomes are separate methods; their interleaving with other events is not modelled, nor an old browser where `play()` returns no promise (script.js:269).
- Format.FormatTime: works on whole non-negative seconds; NaN, infinite and negative times, and `toString`'s exponent form for numbers of 10^21 and above, are not modelled.
- Format.FormatLyric: replaces line feeds only, as the regular expression does; cue text is otherwise inserted as HTML unchanged.
- Cue entries are assumed to be objects with a numeric `time` and a string `text`. Otherwise the script behaves as follows, and the model does not cover it. A cue whose `text` is missing or not a string throws at script.js:226 after :224 has already stored its index, so that cue is never rendered and no later update at it retries. If the first cue is like that, script.js:170 throws inside `initializeFromJSON` and `loadData` (script.js:111-128) replaces all the data with the fallback document. At script.js:215 a cue's `time` is converted to a number before the comparison. `null` counts as 0, `true` as 1 and a numeric string as its number. An `undefined` time or a non-numeric string becomes NaN, compares false and ends the scan there.
- The welcome panel's close handlers (script.js:282-288, 301-309) are modelled only through the autoplay attempt they schedule.
