/**
 * The configuration may leave the audio file and the album art as template
 * placeholders. Those placeholder strings, like an absent or empty value,
 * mean "not configured": the player is then disabled and a stock picture is
 * shown. An absent value (undefined, or no data loaded yet) is written "".
 */
module Sentinels {

  const AudioPlaceholder: string := "YOUR_AUDIO_FILE_URL.mp3"
  const AlbumArtPlaceholder: string := "YOUR_ALBUM_ART_URL_HERE"
  const StockAlbumArt: string :=
    "https://images.unsplash.com/photo-1511379938547-c1f69419868d?w=300&h=300&fit=crop"

  /** The audio file is usable: present, non-empty and not the placeholder. */
  predicate AudioEnabled(audioFile: string) {
    audioFile != "" && audioFile != AudioPlaceholder
  }

  /** The src given to the audio element at load: the file when usable, else none. */
  function AudioSource(audioFile: string): (src: string)
    ensures src != "" <==> AudioEnabled(audioFile)
    ensures src != AudioPlaceholder
    ensures src == "" || src == audioFile
  {
    if AudioEnabled(audioFile) then audioFile else ""
  }

  /** How the album art is shown: its src, and whether it is dimmed (opacity 0.8). */
  datatype AlbumArtView = AlbumArtView(src: string, dimmed: bool)

  /** The configured album art when usable, otherwise the stock picture, dimmed. */
  function AlbumArt(albumArt: string): (view: AlbumArtView)
    ensures view.src != "" && view.src != AlbumArtPlaceholder
    ensures view.dimmed <==> view.src != albumArt
    ensures !view.dimmed <==> albumArt != "" && albumArt != AlbumArtPlaceholder
    ensures view.dimmed ==> view.src == StockAlbumArt
  {
    if albumArt != "" && albumArt != AlbumArtPlaceholder then AlbumArtView(albumArt, false)
    else AlbumArtView(StockAlbumArt, true)
  }
}
