/** The cut record shared by every part of the playout system, as the cut
    list generator writes it to `cuts.json` and as the players read it back. */
module Catalog {

  import opened Wrappers

  /** Millisecond marker offsets into the audio (the `timers` object). */
  datatype Timers = Timers(
    trackBegin: int,   // "_track_begin"
    trackEnd: int,     // "_track_end"
    introBegin: int,
    introEnd: int,
    segueBegin: int,
    segueEnd: int)

  datatype Meta = Meta(album: string, artist: string, title: string)

  /** The `_links` object: the audio file and the (never filled) album art. */
  datatype Links = Links(audio: string, albumart: Option<string>)

  /** One catalogued cut. `textColor` is `_ui.text_color`; `None` stands for
      a record in which that key is missing. */
  datatype Cut = Cut(
    category: string,
    cut: int,
    duration: int,
    meta: Meta,
    timers: Timers,
    topplay: bool,
    links: Links,
    textColor: Option<string>)

  /** The playlist's `eof_code`: the stripped text of the second playlist
      field, or the integer default 2 ("segue"). */
  datatype EofCode = EofText(text: string) | EofNumber(code: int)

  const DefaultEofCode: EofCode := EofNumber(2)

  /** The `playlist` sub-record attached to a cut when it is scheduled. */
  datatype PlaylistInfo = PlaylistInfo(trackId: string, index: int, eofCode: EofCode)

  /** A scheduled occurrence of a cut: the cut record plus its `playlist` key. */
  datatype Track = Track(cut: Cut, playlist: PlaylistInfo)

  /** The displayed length of a cut: from the track-begin marker to the segue point. */
  function Length(c: Cut): int
  {
    c.timers.segueBegin - c.timers.trackBegin
  }

  /** How long the cut's intro runs before its hot point. */
  function Ramp(c: Cut): int
  {
    c.timers.introEnd - c.timers.introBegin
  }
}
