/**
 * The site-wide radio player: the provider's state (playing, volume, mute,
 * loading, station) and the single audio element it drives. The element is an
 * object whose `play()` may fail, so a method over it may end either way.
 */
module Player {
  import opened Records

  const HermosilloStream := "https://stream4.305stream.com:9675/stream"
  const ObregonStream := "https://stream1.305stream.com/proxy/client362?mp=/stream"

  /** The stream each station plays. */
  function StreamUrl(c: City): string {
    match c
    case Hermosillo => HermosilloStream
    case Obregon => ObregonStream
  }

  /** Different stations never share a stream. */
  lemma StreamUrlInjective(a: City, b: City)
    ensures StreamUrl(a) == StreamUrl(b) <==> a == b
  {
    assert |HermosilloStream| == 41;
  }

  /** The audio element's volume, as a percentage of full volume: silent when
      muted, the chosen volume otherwise. */
  function AppliedVolume(isMuted: bool, volume: int): (r: int)
    ensures isMuted ==> r == 0
    ensures !isMuted ==> r == volume
  {
    if isMuted then 0 else volume
  }

  /** `new Audio(url)`: an element that may play one stream. */
  class Audio {
    var src: string
    var volumePercent: int
    var playing: bool
    var preloadNone: bool
    /** The source of every `play()` call made on the element, in order. */
    var plays: seq<string>

    constructor (src: string)
      ensures this.src == src && volumePercent == 100 && !playing && !preloadNone
      ensures plays == []
    {
      this.src := src;
      volumePercent := 100;
      playing := false;
      preloadNone := false;
      plays := [];
    }

    /** `play()` on the current source: it may be refused (autoplay policy,
        network), and then the element's state is what it was. */
    method Play() returns (ok: bool)
      modifies this`playing, this`plays
      ensures plays == old(plays) + [src]
      ensures ok ==> playing
      ensures !ok ==> playing == old(playing)
    {
      plays := plays + [src];
      ok := *;
      if ok {
        playing := true;
      }
    }

    method Pause()
      modifies this`playing
      ensures !playing
    {
      playing := false;
    }

    /** `load()` restarts the element on its current source, stopped. */
    method Load()
      modifies this`playing
      ensures !playing
    {
      playing := false;
    }
  }

  class PlayerProvider {
    var isPlaying: bool
    var volume: int
    var isMuted: bool
    var isLoading: bool
    var city: City
    /** `audioRef.current`; `null` once the provider unmounts. */
    var audio: Audio?

    /** The element plays the chosen station at the applied volume, and never
        plays while the player shows itself paused. */
    ghost predicate Valid()
      reads this, audio
    {
      0 <= volume <= 100 &&
      (audio != null ==>
        audio.src == StreamUrl(city) &&
        audio.volumePercent == AppliedVolume(isMuted, volume) &&
        (audio.playing ==> isPlaying))
    }

    /** The initial state followed by the three mount effects: the element is
        created on the Hermosillo stream, the station effect reloads it, and the
        volume effect applies 80 %. */
    constructor ()
      ensures Valid()
      ensures !isPlaying && volume == 80 && !isMuted && !isLoading && city == Hermosillo
      ensures audio != null && fresh(audio)
      ensures audio.src == StreamUrl(Hermosillo) && audio.volumePercent == 80 && !audio.playing
      ensures audio.preloadNone && audio.plays == []
    {
      isPlaying := false;
      volume := 80;
      isMuted := false;
      isLoading := false;
      city := Hermosillo;
      var a := new Audio(StreamUrl(Hermosillo));
      a.preloadNone := true;
      a.src := StreamUrl(Hermosillo);
      a.Load();
      a.volumePercent := AppliedVolume(false, 80);
      audio := a;
    }

    /** The play button. Pausing always succeeds; playing succeeds only if the
        element accepts `play()`. Without an element nothing happens. */
    method TogglePlay()
      requires Valid()
      modifies this`isPlaying, this`isLoading, audio
      ensures Valid()
      ensures old(audio) == null ==> isPlaying == old(isPlaying) && isLoading == old(isLoading)
      ensures audio != null ==> !isLoading
      ensures audio != null && old(isPlaying) ==> !isPlaying && !audio.playing
      ensures audio != null && !old(isPlaying) ==> isPlaying == audio.playing
      ensures volume == old(volume) && isMuted == old(isMuted) && city == old(city)
      ensures audio != null ==> audio.src == old(audio.src) && audio.volumePercent == old(audio.volumePercent)
      ensures audio != null ==> audio.plays == old(audio.plays) + (if old(isPlaying) then [] else [audio.src])
    {
      var a := audio;
      if a == null {
        return;
      }
      isLoading := true;
      if isPlaying {
        a.Pause();
        isPlaying := false;
      } else {
        var ok := a.Play();
        if ok {
          isPlaying := true;
        }
      }
      isLoading := false;
    }

    /** The mute button, followed by the volume effect. */
    method ToggleMute()
      requires Valid()
      modifies this`isMuted, audio
      ensures Valid()
      ensures isMuted == !old(isMuted)
      ensures audio != null ==> audio.volumePercent == AppliedVolume(isMuted, volume)
      ensures audio != null ==> audio.src == old(audio.src) && audio.playing == old(audio.playing)
      ensures audio != null ==> audio.plays == old(audio.plays)
    {
      isMuted := !isMuted;
      if audio != null {
        audio.volumePercent := AppliedVolume(isMuted, volume);
      }
    }

    /** `setVolume`, followed by the volume effect. The element refuses a
        volume outside its range, so callers pass 0..100. */
    method SetVolume(v: int)
      requires Valid() && 0 <= v <= 100
      modifies this`volume, audio
      ensures Valid()
      ensures volume == v
      ensures audio != null ==> audio.volumePercent == AppliedVolume(isMuted, v)
      ensures audio != null ==> audio.src == old(audio.src) && audio.playing == old(audio.playing)
      ensures audio != null ==> audio.plays == old(audio.plays)
    {
      volume := v;
      if audio != null {
        audio.volumePercent := AppliedVolume(isMuted, volume);
      }
    }

    /** `setCity`, followed by the station effect, which runs only when the
        station changes. A playing element is paused, pointed at the new
        stream, reloaded and asked to play again, so exactly one `play()` of
        the new stream is made; a paused one is not restarted. `isPlaying` is
        left as it was even when that `play()` is refused. */
    method SetCity(c: City)
      requires Valid()
      modifies this`city, audio
      ensures Valid()
      ensures city == c && isPlaying == old(isPlaying)
      ensures audio != null ==> audio.src == StreamUrl(c) && audio.volumePercent == old(audio.volumePercent)
      ensures audio != null && !isPlaying ==> !audio.playing
      ensures audio != null ==>
        audio.plays == old(audio.plays) + (if old(isPlaying) && c != old(city) then [StreamUrl(c)] else [])
    {
      if c == city {
        return;
      }
      city := c;
      if audio == null {
        return;
      }
      var wasPlaying := isPlaying;
      if wasPlaying {
        audio.Pause();
      }
      audio.src := StreamUrl(city);
      audio.Load();
      if wasPlaying {
        var _ := audio.Play();
      }
    }

    /** The init effect's cleanup. */
    method Unmount()
      requires Valid()
      modifies this`audio, audio
      ensures Valid()
      ensures audio == null
      ensures old(audio) != null ==> !old(audio).playing
    {
      if audio != null {
        audio.Pause();
      }
      audio := null;
    }
  }

  /** Two presses of the mute button restore the mute state, and neither
      touches the chosen volume. */
  method ToggleMuteTwice(p: PlayerProvider)
    requires p.Valid()
    modifies p, p.audio
    ensures p.Valid()
    ensures p.isMuted == old(p.isMuted) && p.volume == old(p.volume)
    ensures p.audio == old(p.audio)
    ensures p.audio != null ==> p.audio.volumePercent == old(p.audio.volumePercent)
  {
    p.ToggleMute();
    p.ToggleMute();
  }
}
