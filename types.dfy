/** Values shared by every part of the overlay. */
module Types {
  /** A Rust `String` seen as its UTF-8 bytes: `len()` and `&s[..n]` count bytes. */
  type Bytes = seq<bv8>

  /** The file-system path of a downloaded album-art file. */
  type Path = Bytes

  /** The art URL reported by the media player (empty when it advertises none). */
  type Url = Bytes

  datatype Option<+T> = None | Some(value: T)

  /** A texture handle built by the graphics library; only its identity matters here. */
  datatype Texture = Texture(handle: nat)
}
