/**
 * The play/pause state of the page: the module-level flag isPlaying, the
 * play/pause icon and the spinning of the album art that follow it, and the
 * play()/pause() requests sent to the audio element. The transitions are
 * the play/pause button, the two outcomes of an autoplay attempt made when
 * the welcome panel is closed, and the audio element's `ended` event.
 */
module Playback {
  import opened Sentinels

  const PlayIcon: string := "fas fa-play"
  const PauseIcon: string := "fas fa-pause"
  const RotateAnimation: string := "rotate 20s linear infinite"
  const NoAnimation: string := "none"

  /** The icon class shown for a playing state: pause while playing, play otherwise. */
  function IconFor(playing: bool): (icon: string)
    ensures icon == PauseIcon <==> playing
  {
    if playing then PauseIcon else PlayIcon
  }

  /** The album art spins exactly while playing. */
  function AnimationFor(playing: bool): (animation: string)
    ensures animation == RotateAnimation <==> playing
  {
    if playing then RotateAnimation else NoAnimation
  }

  /** A call made on the audio element. */
  datatype AudioRequest = Play | Pause

  class Player {
    /** userData?.music?.audioFile, "" while absent. */
    var audioFile: string
    /** The audio element's src, "" while unset. */
    var src: string
    var isPlaying: bool
    /** The class of the play/pause icon. */
    var playPauseIcon: string
    /** The CSS animation of the album art. */
    var albumAnimation: string
    /** play() and pause() calls made on the audio element, oldest first. */
    var requests: seq<AudioRequest>

    /** The src follows the audio rule, and the icon and spin follow isPlaying. */
    ghost predicate Valid()
      reads this
    {
      && src == AudioSource(audioFile)
      && playPauseIcon == IconFor(isPlaying)
      && albumAnimation == AnimationFor(isPlaying)
    }

    /** Page load: no data yet, not playing, the play icon and a still album art. */
    constructor ()
      ensures Valid()
      ensures audioFile == "" && src == "" && !isPlaying && requests == []
    {
      audioFile := "";
      src := "";
      isPlaying := false;
      playPauseIcon := PlayIcon;
      albumAnimation := NoAnimation;
      requests := [];
    }

    /**
     * initializeFromJSON, audio part: the element gets a src only for a
     * usable file. The data is loaded once per page, so no src is set yet.
     */
    method Load(file: string)
      requires Valid() && src == ""
      modifies this
      ensures Valid()
      ensures audioFile == file && src == AudioSource(file)
      ensures isPlaying == old(isPlaying) && requests == old(requests)
    {
      audioFile := file;
      if AudioEnabled(file) {
        src := file;
      }
    }

    /** The play/pause button does nothing while the audio file is the placeholder. */
    function ToggleBlocked(): (blocked: bool)
      reads this
      ensures blocked ==> !AudioEnabled(audioFile)
      ensures !blocked && Valid() && src == "" ==> audioFile == ""
      ensures audioFile == "" ==> !blocked
      ensures audioFile == AudioPlaceholder ==> blocked
    {
      audioFile != "" && audioFile == AudioPlaceholder
    }

    /**
     * togglePlayPause: unless blocked, flip isPlaying, set the icon and the
     * spin to match and, if the element has a src, ask it to play or pause.
     * An absent audio file does not block: the state flips with no audio.
     */
    method TogglePlayPause()
      requires Valid()
      modifies this
      ensures Valid()
      ensures audioFile == old(audioFile) && src == old(src)
      ensures ToggleBlocked() ==> isPlaying == old(isPlaying) && requests == old(requests)
      ensures !ToggleBlocked() ==> isPlaying == !old(isPlaying)
      ensures !ToggleBlocked() ==>
                requests == old(requests) + if src == "" then [] else [if isPlaying then Play else Pause]
    {
      if ToggleBlocked() {
        return;
      }
      isPlaying := !isPlaying;
      if isPlaying {
        playPauseIcon := PauseIcon;
        if src != "" {
          requests := requests + [Play];
        }
        albumAnimation := RotateAnimation;
      } else {
        playPauseIcon := PlayIcon;
        if src != "" {
          requests := requests + [Pause];
        }
        albumAnimation := NoAnimation;
      }
    }

    /** The guard of tryAutoPlay: not playing, a src, and not the placeholder file. */
    function AutoPlayAllowed(): (allowed: bool)
      reads this
      ensures Valid() ==> (allowed <==> !isPlaying && AudioEnabled(audioFile))
    {
      !isPlaying && src != "" && audioFile != AudioPlaceholder
    }

    /** tryAutoPlay: when allowed, ask the element to play; the outcome arrives later. */
    method TryAutoPlay() returns (attempted: bool)
      requires Valid()
      modifies this
      ensures Valid()
      ensures attempted <==> old(AutoPlayAllowed())
      ensures requests == old(requests) + if attempted then [Play] else []
      ensures isPlaying == old(isPlaying) && audioFile == old(audioFile) && src == old(src)
    {
      attempted := AutoPlayAllowed();
      if attempted {
        requests := requests + [Play];
      }
    }

    /** The play request of an autoplay attempt was fulfilled. */
    method AutoPlaySucceeded()
      requires Valid()
      modifies this
      ensures Valid()
      ensures isPlaying
      ensures audioFile == old(audioFile) && src == old(src) && requests == old(requests)
    {
      isPlaying := true;
      playPauseIcon := PauseIcon;
      albumAnimation := RotateAnimation;
    }

    /** The play request of an autoplay attempt was refused: only a log line, no state change. */
    method AutoPlayRejected()
      requires Valid()
      modifies this
      ensures Valid()
      ensures unchanged(this)
    {
    }

    /** The audio element's `ended` event. */
    method Ended()
      requires Valid()
      modifies this
      ensures Valid()
      ensures !isPlaying && playPauseIcon == PlayIcon && albumAnimation == NoAnimation
      ensures audioFile == old(audioFile) && src == old(src) && requests == old(requests)
    {
      isPlaying := false;
      playPauseIcon := PlayIcon;
      albumAnimation := NoAnimation;
    }

    /** The guard of the progress bar's click-to-seek handler. */
    function SeekAllowed(): (allowed: bool)
      reads this
      ensures Valid() ==> (allowed <==> AudioEnabled(audioFile))
    {
      src != "" && audioFile != AudioPlaceholder
    }
  }

  /** Two presses of the play/pause button bring back the state they started from. */
  method ToggleTwiceRestores(player: Player)
    requires player.Valid()
    modifies player
    ensures player.Valid()
    ensures player.isPlaying == old(player.isPlaying)
    ensures player.playPauseIcon == old(player.playPauseIcon)
    ensures player.albumAnimation == old(player.albumAnimation)
  {
    player.TogglePlayPause();
    player.TogglePlayPause();
  }

  /**
   * Closing the welcome panel on a page with a usable audio file and
   * nothing playing asks for playback; when it succeeds the pause icon shows.
   */
  method AutoPlayOnUsableAudio(player: Player)
    requires player.Valid() && !player.isPlaying && AudioEnabled(player.audioFile)
    modifies player
    ensures player.isPlaying && player.playPauseIcon == PauseIcon
    ensures player.requests == old(player.requests) + [Play]
  {
    var attempted := player.TryAutoPlay();
    assert attempted;
    player.AutoPlaySucceeded();
  }
}
