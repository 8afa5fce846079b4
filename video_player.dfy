/**
 * The lightbox's custom video player: play/pause, seek, volume, mute and
 * fullscreen state.  A clip flagged as having no audio is locked muted at
 * volume 0, and asking it to unmute only raises a transient notice.
 * Volume is kept in hundredths (the slider's 0.01 step), so 1 is 100 and
 * the restore value 0.5 is 50.
 */
module VideoPlayer {
  import opened Types

  type Volume = v: int | 0 <= v <= 100

  const FullVolume: Volume := 100
  const RestoreVolume: Volume := 50

  /** A missing hasAudio prop defaults to true. */
  function HasAudio(flag: Option<bool>): (r: bool)
    ensures r <==> flag != Some(false)
  {
    match flag
    case None => true
    case Some(b) => b
  }

  /** Width of the progress bar in percent; 0 until a duration is known. */
  function ProgressPercent(currentTime: real, duration: real): (r: real)
    ensures duration <= 0.0 ==> r == 0.0
    ensures 0.0 <= currentTime <= duration ==> 0.0 <= r <= 100.0
  {
    if duration > 0.0 then
      var ratio := currentTime / duration;
      if 0.0 <= currentTime <= duration then
        RatioWithinUnit(currentTime, duration);
        ratio * 100.0
      else ratio * 100.0
    else 0.0
  }

  /** A time within the duration is a fraction of it between 0 and 1. */
  lemma RatioWithinUnit(part: real, whole: real)
    requires whole > 0.0 && 0.0 <= part <= whole
    ensures 0.0 <= part / whole <= 1.0
  {
    var q := part / whole;
    assert q * whole == part;
    assert (1.0 - q) * whole == whole - part;
  }

  class Player {
    const hasAudio: bool
    var isPlaying: bool
    var currentTime: real
    var duration: real
    var volume: Volume
    var isMuted: bool
    var isFullscreen: bool
    var showNoSoundMsg: bool

    /**
     * A clip without audio stays muted at volume 0, and a clip that is not
     * muted never sits at volume 0.
     */
    ghost predicate Valid()
      reads this
    {
      && (!hasAudio ==> isMuted && volume == 0)
      && (!isMuted ==> volume > 0)
    }

    /** The state after the first render and the mount effect. */
    constructor (hasAudioProp: Option<bool>)
      ensures Valid()
      ensures hasAudio == HasAudio(hasAudioProp)
      ensures isMuted <==> !hasAudio
      ensures volume == (if hasAudio then FullVolume else 0)
      ensures !isPlaying && currentTime == 0.0 && duration == 0.0
      ensures !isFullscreen && !showNoSoundMsg
    {
      hasAudio := HasAudio(hasAudioProp);
      isPlaying := false;
      currentTime := 0.0;
      duration := 0.0;
      volume := FullVolume;
      isMuted := !HasAudio(hasAudioProp);
      isFullscreen := false;
      showNoSoundMsg := false;
      new;
      if !hasAudio {
        volume := 0;
        isMuted := true;
      }
    }

    /** A click on the picture or the play button. */
    method TogglePlay()
      requires Valid()
      modifies this
      ensures Valid()
      ensures isPlaying == !old(isPlaying)
      ensures volume == old(volume) && isMuted == old(isMuted) && currentTime == old(currentTime)
      ensures duration == old(duration) && isFullscreen == old(isFullscreen) && showNoSoundMsg == old(showNoSoundMsg)
    {
      isPlaying := !isPlaying;
    }

    method Ended()
      modifies this
      ensures !isPlaying
      ensures volume == old(volume) && isMuted == old(isMuted) && currentTime == old(currentTime)
      ensures duration == old(duration) && isFullscreen == old(isFullscreen) && showNoSoundMsg == old(showNoSoundMsg)
    {
      isPlaying := false;
    }

    /** timeupdate from the element, and a drag of the seek slider: both set the position. */
    method SetTime(t: real)
      modifies this
      ensures currentTime == t
      ensures isPlaying == old(isPlaying) && volume == old(volume) && isMuted == old(isMuted)
      ensures duration == old(duration) && isFullscreen == old(isFullscreen) && showNoSoundMsg == old(showNoSoundMsg)
    {
      currentTime := t;
    }

    method LoadedMetadata(d: real)
      modifies this
      ensures duration == d
      ensures isPlaying == old(isPlaying) && volume == old(volume) && isMuted == old(isMuted)
      ensures currentTime == old(currentTime) && isFullscreen == old(isFullscreen) && showNoSoundMsg == old(showNoSoundMsg)
    {
      duration := d;
    }

    /** The volume slider: muted exactly when the new volume is 0; locked without audio. */
    method VolumeChange(v: Volume)
      requires Valid()
      modifies this
      ensures Valid()
      ensures !hasAudio ==> volume == old(volume) && isMuted == old(isMuted)
      ensures hasAudio ==> volume == v && (isMuted <==> v == 0)
      ensures isPlaying == old(isPlaying) && currentTime == old(currentTime) && duration == old(duration)
      ensures isFullscreen == old(isFullscreen) && showNoSoundMsg == old(showNoSoundMsg)
    {
      if !hasAudio {
        return;
      }
      volume := v;
      isMuted := v == 0;
    }

    /**
     * The mute button.  Without audio it only raises the "no sound" notice.
     * With audio it flips mute, and unmuting at volume 0 restores 0.5.
     */
    method ToggleMute()
      requires Valid()
      modifies this
      ensures Valid()
      ensures !hasAudio ==> showNoSoundMsg && volume == old(volume) && isMuted == old(isMuted)
      ensures hasAudio ==> isMuted == !old(isMuted) && showNoSoundMsg == old(showNoSoundMsg)
      ensures hasAudio && !isMuted && old(volume) == 0 ==> volume == RestoreVolume
      ensures hasAudio && (isMuted || old(volume) != 0) ==> volume == old(volume)
      ensures isPlaying == old(isPlaying) && currentTime == old(currentTime) && duration == old(duration)
      ensures isFullscreen == old(isFullscreen)
    {
      if !hasAudio {
        showNoSoundMsg := true;
        return;
      }
      isMuted := !isMuted;
      if !isMuted && volume == 0 {
        volume := RestoreVolume;
      }
    }

    /** The notice's 2-second timer. */
    method NoSoundTimerFired()
      requires Valid()
      modifies this
      ensures Valid()
      ensures !showNoSoundMsg
      ensures isPlaying == old(isPlaying) && volume == old(volume) && isMuted == old(isMuted)
      ensures currentTime == old(currentTime) && duration == old(duration) && isFullscreen == old(isFullscreen)
    {
      showNoSoundMsg := false;
    }

    /** Enter fullscreen unless the document already has a fullscreen element, else leave it. */
    method ToggleFullscreen(documentIsFullscreen: bool)
      modifies this
      ensures isFullscreen == !documentIsFullscreen
      ensures isPlaying == old(isPlaying) && volume == old(volume) && isMuted == old(isMuted)
      ensures currentTime == old(currentTime) && duration == old(duration) && showNoSoundMsg == old(showNoSoundMsg)
    {
      isFullscreen := !documentIsFullscreen;
    }
  }
}
