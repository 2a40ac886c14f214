/**
 * The libgcrypt interface the provider calls into.
 *
 * libgcrypt is a foreign library whose code is not part of this model.  Each
 * call whose result the provider uses is a field of `Library`, a record of
 * total functions with no further constraint.  `gcry_md_write` and
 * `gcry_md_reset` have no field: a digest handle is modelled as the bytes
 * written since the last reset (see `HashContexts`).  Only the numeric
 * constants and the layout of an error status are fixed here, as libgcrypt
 * defines them.
 */
module Gcrypt {

  newtype byte = x: int | 0 <= x < 0x100

  /** `unsigned int` / `gcry_error_t`: 32 bits wide. */
  type uint32 = x: nat | x < 0x1_0000_0000

  /** A `gcry_error_t`: error source in bits 24..30, error code in bits 0..15. */
  type Status = uint32

  const NO_ERROR: Status := 0
  /** GPG_ERR_WEAK_KEY, the code `gcry_cipher_setkey` gives for a weak DES key. */
  const WEAK_KEY: nat := 43

  /** `gpg_err_code`: the low 16 bits of a status. */
  function Code(err: Status): (code: nat)
    ensures code < 0x1_0000
    ensures err < 0x1_0000 ==> code == err
  {
    err % 0x1_0000
  }

  /** `gpg_err_make`: a status built from a source and a code; code 0 always gives NO_ERROR. */
  function MakeError(source: nat, code: nat): Status
    requires source < 0x80 && code < 0x1_0000
  {
    if code == 0 then NO_ERROR else source * 0x100_0000 + code
  }

  // Digest algorithm ids (enum gcry_md_algos).
  const MD_MD5: int := 1
  const MD_SHA1: int := 2
  const MD_RMD160: int := 3
  const MD_SHA256: int := 8
  const MD_SHA384: int := 9
  const MD_SHA512: int := 10
  const MD_MD4: int := 301

  // Cipher algorithm ids (enum gcry_cipher_algos).
  const CIPHER_3DES: int := 2
  const CIPHER_BLOWFISH: int := 4
  const CIPHER_AES128: int := 7
  const CIPHER_AES192: int := 8
  const CIPHER_AES256: int := 9
  const CIPHER_DES: int := 302

  // Cipher modes (enum gcry_cipher_modes).
  const MODE_ECB: int := 1
  const MODE_CFB: int := 2
  const MODE_CBC: int := 3

  /** One call of `gcry_cipher_encrypt` (encrypting) or `gcry_cipher_decrypt` on a handle. */
  datatype Chunk = Chunk(encrypting: bool, input: seq<byte>)

  /**
   * What a `gcry_cipher_hd_t` has been given since `gcry_cipher_open`: its
   * algorithm and mode, the key and IV installed, and every chunk transformed
   * so far, in order.  The library's internal state (chaining value, CFB
   * position) is a function of this history.
   */
  datatype CipherHandle = CipherHandle(
    algorithm: int, mode: int, key: seq<byte>, iv: seq<byte>, fed: seq<Chunk>)

  /** Status and bytes written by one transform call. */
  datatype Transformed = Transformed(status: Status, output: seq<byte>)

  /** Return value and bytes written by one `gcry_pbkdf2` call. */
  datatype Derived = Derived(retval: int, output: seq<byte>)

  /**
   * The library's primitives, each as a total function of everything the call
   * passes to it.
   */
  datatype Library = Library(
    // gcry_check_version(GCRYPT_VERSION) accepts the linked library
    versionOk: bool,
    // gcry_md_open(&h, algorithm, 0)
    mdOpen: int -> Status,
    // gcry_md_get_algo_dlen(algorithm)
    mdAlgoLen: int -> nat,
    // gcry_md_read(h, algorithm) on a handle that absorbed these bytes
    mdRead: (int, seq<byte>) -> seq<byte>,
    // gcry_cipher_open(&h, algorithm, mode, 0)
    cipherOpen: (int, int) -> Status,
    // gcry_cipher_setkey(h, key, |key|)
    cipherSetKey: (CipherHandle, seq<byte>) -> Status,
    // gcry_cipher_setiv(h, iv, |iv|)
    cipherSetIv: (CipherHandle, seq<byte>) -> Status,
    // gcry_cipher_encrypt(h, out, outsize, in, |in|)
    cipherEncrypt: (CipherHandle, seq<byte>, nat) -> Transformed,
    // gcry_cipher_decrypt(h, out, outsize, in, |in|)
    cipherDecrypt: (CipherHandle, seq<byte>, nat) -> Transformed,
    // gcry_cipher_algo_info(algorithm, GCRYCTL_GET_BLKLEN, ...)
    cipherBlockLen: int -> nat,
    // gcry_pbkdf2(md, secret, salt, iterations, keyLength, out)
    pbkdf2: (int, seq<byte>, seq<byte>, uint32, uint32) -> Derived)
}
