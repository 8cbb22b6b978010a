/** How the cached title and artist are shortened before they are drawn. */
module Display {
  import opened Types

  const TitleLimit: nat := 30
  const TitleCutoff: nat := 27
  const ArtistLimit: nat := 35
  const ArtistCutoff: nat := 32

  /** The bytes of "...". */
  const Ellipsis: Bytes := [0x2E, 0x2E, 0x2E]

  /** `s` when it is at most `limit` bytes long, otherwise its first `cutoff` bytes and "...". */
  function Truncate(s: Bytes, limit: nat, cutoff: nat): (r: Bytes)
    requires cutoff + |Ellipsis| <= limit
    ensures r == s <==> |s| <= limit
    ensures |s| > limit ==> |r| == cutoff + |Ellipsis| && r[..cutoff] == s[..cutoff] && r[cutoff..] == Ellipsis
  {
    if |s| > limit then s[..cutoff] + Ellipsis else s
  }

  /** The title as drawn: verbatim up to 30 bytes, else 27 bytes and "..." (exactly 30 bytes). */
  function DisplayTitle(title: Bytes): (r: Bytes)
    ensures r == title <==> |title| <= TitleLimit
    ensures |r| == if |title| <= TitleLimit then |title| else TitleLimit
    ensures |title| > TitleLimit ==> r[..TitleCutoff] == title[..TitleCutoff] && r[TitleCutoff..] == Ellipsis
  {
    Truncate(title, TitleLimit, TitleCutoff)
  }

  /** The artist as drawn: verbatim up to 35 bytes, else 32 bytes and "..." (exactly 35 bytes). */
  function DisplayArtist(artist: Bytes): (r: Bytes)
    ensures r == artist <==> |artist| <= ArtistLimit
    ensures |r| == if |artist| <= ArtistLimit then |artist| else ArtistLimit
    ensures |artist| > ArtistLimit ==> r[..ArtistCutoff] == artist[..ArtistCutoff] && r[ArtistCutoff..] == Ellipsis
  {
    Truncate(artist, ArtistLimit, ArtistCutoff)
  }

  /** What is drawn already fits, so shortening it again changes nothing. */
  lemma DisplayIsIdempotent(title: Bytes, artist: Bytes)
    ensures DisplayTitle(DisplayTitle(title)) == DisplayTitle(title)
    ensures DisplayArtist(DisplayArtist(artist)) == DisplayArtist(artist)
  {
  }
}
