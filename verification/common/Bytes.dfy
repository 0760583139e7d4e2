/** The bytes of the streams, keys and references. */
module Bytes {
  type Byte = x: nat | x < 256

  function Joined(pieces: seq<seq<Byte>>): seq<Byte> {
    if pieces == [] then [] else pieces[0] + Joined(pieces[1..])
  }
}
