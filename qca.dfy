/** The few types of the host framework (QCA) that the provider's contexts use. */
module Qca {
  import opened Gcrypt

  /** QCA::Direction: which way a cipher context transforms. */
  datatype Direction = Encode | Decode

  /** QCA::KeyLength: accepted key sizes in bytes, as (minimum, maximum, multiple). */
  datatype KeyLength = KeyLength(min: nat, max: nat, step: nat)

  /**
   * The contents of a zero-filled `QSecureArray` of `size` bytes after a
   * library call wrote `written` into it: bytes past `size` are dropped, bytes
   * the call did not reach stay zero.
   */
  function Filled(size: nat, written: seq<byte>): (buf: seq<byte>)
    ensures |buf| == size
    ensures forall i :: 0 <= i < size && i < |written| ==> buf[i] == written[i]
    ensures forall i :: |written| <= i < size ==> buf[i] == 0
  {
    seq(size, i requires 0 <= i < size => if i < |written| then written[i] else 0)
  }
}
