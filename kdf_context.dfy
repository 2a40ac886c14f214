/** `pbkdf2Context`: password-based key derivation with a digest as its pseudorandom function. */
module KdfContexts {
  import opened Wrappers
  import opened Gcrypt
  import opened Qca
  import opened Errors

  /**
   * What `makeKey` returns: the `keyLength` bytes `gcry_pbkdf2` wrote when it
   * returns GPG_ERR_NO_ERROR, and an empty key on any other return value.
   */
  function DerivedKey(lib: Library, algorithm: int, secret: seq<byte>, salt: seq<byte>,
                      keyLength: uint32, iterationCount: uint32): (key: seq<byte>)
    ensures var d := lib.pbkdf2(algorithm, secret, salt, iterationCount, keyLength);
            (d.retval == 0 ==> |key| == keyLength && key == Filled(keyLength, d.output))
            && (d.retval != 0 ==> key == [])
  {
    var d := lib.pbkdf2(algorithm, secret, salt, iterationCount, keyLength);
    if d.retval == 0 then Filled(keyLength, d.output) else []
  }

  /**
   * An empty key is returned exactly when derivation failed or a zero-length
   * key was asked for, so a caller cannot tell these two apart.
   */
  lemma EmptyKeyIsAmbiguous(lib: Library, algorithm: int, secret: seq<byte>, salt: seq<byte>,
                            keyLength: uint32, iterationCount: uint32)
    ensures DerivedKey(lib, algorithm, secret, salt, keyLength, iterationCount) == []
            <==> lib.pbkdf2(algorithm, secret, salt, iterationCount, keyLength).retval != 0 || keyLength == 0
  {
  }

  /** The line `makeKey` prints for a return value. */
  function KdfReport(retval: int): (lines: seq<Diagnostic>)
    ensures |lines| == 1 <==> retval != 0
    ensures |lines| <= 1
  {
    if retval != 0 then [KdfFailure(retval)] else []
  }

  class KdfContext {
    const lib: Library
    const process: Process
    /** The digest used as pseudorandom function. */
    const algorithm: int

    constructor (lib: Library, process: Process, algorithm: int)
      ensures this.lib == lib && this.process == process && this.algorithm == algorithm
    {
      this.lib := lib;
      this.process := process;
      this.algorithm := algorithm;
    }

    /** `makeKey`: derives a key of `keyLength` bytes, or an empty key when the library fails. */
    method MakeKey(secret: seq<byte>, salt: seq<byte>, keyLength: uint32, iterationCount: uint32)
      returns (key: seq<byte>)
      modifies process
      ensures key == DerivedKey(lib, algorithm, secret, salt, keyLength, iterationCount)
      ensures key == [] || |key| == keyLength
      ensures process.stdout == old(process.stdout)
                + KdfReport(lib.pbkdf2(algorithm, secret, salt, iterationCount, keyLength).retval)
      ensures process.libraryInitialized == old(process.libraryInitialized)
    {
      var d := lib.pbkdf2(algorithm, secret, salt, iterationCount, keyLength);
      if d.retval == 0 {
        key := Filled(keyLength, d.output);
      } else {
        process.Print(Some(KdfFailure(d.retval)));
        key := [];
      }
    }
  }
}
