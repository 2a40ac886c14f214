/** `gcryHashContext`: a message digest streamed through a libgcrypt digest handle. */
module HashContexts {
  import opened Wrappers
  import opened Gcrypt
  import opened Qca
  import opened Errors

  /**
   * The digest `final` returns for a handle that absorbed `data`: exactly
   * `gcry_md_get_algo_dlen` bytes, copied from what `gcry_md_read` returns.
   */
  function Digest(lib: Library, algorithm: int, data: seq<byte>): (d: seq<byte>)
    ensures |d| == lib.mdAlgoLen(algorithm)
    ensures |lib.mdRead(algorithm, data)| == |d| ==> d == lib.mdRead(algorithm, data)
  {
    Filled(lib.mdAlgoLen(algorithm), lib.mdRead(algorithm, data))
  }

  /**
   * The constructor's diagnostic: unlike `check_error`, it prints any status
   * other than GPG_ERR_NO_ERROR, a weak-key advisory included.
   */
  function OpenReport(err: Status): (lines: seq<Diagnostic>)
    ensures |lines| == 1 <==> err != NO_ERROR
    ensures |lines| <= 1
  {
    if err != NO_ERROR then [OpenFailure(err)] else []
  }

  class HashContext {
    const lib: Library
    const process: Process
    const algorithm: int
    /** The status of `gcry_md_open`. */
    var err: Status
    /** The bytes written to the handle since it was opened or last reset, in order. */
    var absorbed: seq<byte>

    /** Opens a digest handle for `algorithm` at once, printing a failure. */
    constructor (lib: Library, process: Process, algorithm: int)
      modifies process
      ensures this.lib == lib && this.process == process && this.algorithm == algorithm
      ensures absorbed == []
      ensures err == lib.mdOpen(algorithm)
      ensures process.stdout == old(process.stdout) + OpenReport(err)
      ensures process.libraryInitialized == old(process.libraryInitialized)
    {
      this.lib := lib;
      this.process := process;
      this.algorithm := algorithm;
      absorbed := [];
      err := lib.mdOpen(algorithm);
      new;
      if err != NO_ERROR {
        process.Print(Some(OpenFailure(err)));
      }
    }

    /** `clear` (`gcry_md_reset`): forgets everything absorbed. */
    method Clear()
      modifies this
      ensures absorbed == [] && err == old(err)
    {
      absorbed := [];
    }

    /** `update` (`gcry_md_write`): absorbs `a` after what came before. */
    method Update(a: seq<byte>)
      modifies this
      ensures absorbed == old(absorbed) + a && err == old(err)
    {
      absorbed := absorbed + a;
    }

    /** `final`: the digest of everything absorbed, of the algorithm's fixed length. */
    method Final() returns (digest: seq<byte>)
      ensures |digest| == lib.mdAlgoLen(algorithm)
      ensures digest == Digest(lib, algorithm, absorbed)
    {
      var len := lib.mdAlgoLen(algorithm);
      var md := lib.mdRead(algorithm, absorbed);
      digest := Filled(len, md);
    }
  }

  /**
   * Streaming is order-preserving concatenation: after `clear`, writing `a`
   * then `b` yields the digest of `a + b`.
   */
  method DigestOfTwoWrites(h: HashContext, a: seq<byte>, b: seq<byte>) returns (digest: seq<byte>)
    modifies h
    ensures digest == Digest(h.lib, h.algorithm, a + b)
    ensures h.absorbed == a + b
  {
    h.Clear();
    h.Update(a);
    h.Update(b);
    assert h.absorbed == [] + a + b == a + b;
    digest := h.Final();
  }
}
