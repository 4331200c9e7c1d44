/**
 * The fixed player bar: what it shows is derived from the player's state, and
 * its slider is the only caller of `setVolume`.
 */
module RadioPlayer {
  import Player

  datatype ButtonGlyph = Spinner | PauseGlyph | PlayGlyph
  datatype VolumeGlyph = VolumeX | Volume2

  /** What the bar renders for one player state. */
  datatype View = View(
    button: ButtonGlyph, buttonDisabled: bool, volumeGlyph: VolumeGlyph, slider: int,
    liveDot: bool, logoPulses: bool)

  const SliderMin: int := 0
  const SliderMax: int := 100
  const SliderStep: int := 1

  /** The spinner while loading, else pause while playing, else play. */
  function ButtonGlyphOf(isLoading: bool, isPlaying: bool): (g: ButtonGlyph)
    ensures g == Spinner <==> isLoading
    ensures g == PauseGlyph <==> !isLoading && isPlaying
    ensures g == PlayGlyph <==> !isLoading && !isPlaying
  {
    if isLoading then Spinner else if isPlaying then PauseGlyph else PlayGlyph
  }

  function VolumeGlyphOf(isMuted: bool, volume: int): (g: VolumeGlyph)
    ensures g == VolumeX <==> isMuted || volume == 0
  {
    if isMuted || volume == 0 then VolumeX else Volume2
  }

  function ViewOf(isPlaying: bool, isLoading: bool, isMuted: bool, volume: int): (r: View)
    ensures r.button == ButtonGlyphOf(isLoading, isPlaying)
    ensures r.buttonDisabled <==> isLoading
    ensures r.volumeGlyph == VolumeGlyphOf(isMuted, volume)
    ensures isMuted ==> r.slider == 0
    ensures !isMuted ==> r.slider == volume
    ensures r.liveDot <==> isPlaying
    ensures r.logoPulses <==> isPlaying
  {
    View(ButtonGlyphOf(isLoading, isPlaying), isLoading, VolumeGlyphOf(isMuted, volume),
      Player.AppliedVolume(isMuted, volume), isPlaying, isPlaying)
  }

  /** The button is disabled exactly while it shows the spinner. */
  lemma DisabledIffSpinner(isPlaying: bool, isLoading: bool, isMuted: bool, volume: int)
    ensures var r := ViewOf(isPlaying, isLoading, isMuted, volume);
      r.buttonDisabled <==> r.button == Spinner
  {
  }

  /** The slider shows the volume the audio element plays at, and the muted
      glyph appears exactly when that volume is 0. */
  lemma SliderShowsAppliedVolume(isMuted: bool, volume: int)
    ensures ViewOf(false, false, isMuted, volume).slider == Player.AppliedVolume(isMuted, volume)
    ensures VolumeGlyphOf(isMuted, volume) == VolumeX <==> Player.AppliedVolume(isMuted, volume) == 0
  {
  }

  /** A value the slider can report: in its range and on its step. */
  predicate SliderEmits(v: int) {
    SliderMin <= v <= SliderMax && (v - SliderMin) % SliderStep == 0
  }

  /** The bar reads the provider's current state. */
  function ViewOfProvider(p: Player.PlayerProvider): (r: View)
    reads p
    ensures r.liveDot <==> p.isPlaying
    ensures r.buttonDisabled <==> p.isLoading
  {
    ViewOf(p.isPlaying, p.isLoading, p.isMuted, p.volume)
  }

  /** The slider's change handler: every value it reports is one the audio
      element accepts, so `setVolume` is always called within its range. */
  method OnSliderChange(p: Player.PlayerProvider, v: int)
    requires p.Valid() && SliderEmits(v)
    modifies p`volume, p.audio
    ensures p.Valid() && p.volume == v
    ensures ViewOfProvider(p).slider == Player.AppliedVolume(p.isMuted, v)
  {
    p.SetVolume(v);
  }
}
