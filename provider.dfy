/**
 * `gcryptProvider`: one-time library initialisation and the factory that
 * turns an algorithm name into a context.
 */
module GcryptProvider {
  import opened Wrappers
  import opened Gcrypt
  import opened Errors
  import opened Catalogue
  import opened HashContexts
  import opened CipherContexts
  import opened KdfContexts

  /** A context the factory returns, of one of the three kinds. */
  datatype Context =
    | HashCtx(hash: HashContext)
    | CipherCtx(cipher: CipherContext)
    | KdfCtx(kdf: KdfContext)

  /** `ctx` was built from descriptor `d`: the right kind, with the descriptor's parameters. */
  predicate BuiltFrom(ctx: Context, d: Descriptor)
  {
    match d
    case Hash(md) => ctx.HashCtx? && ctx.hash.algorithm == md
    case Cipher(algorithm, mode, pad) =>
      ctx.CipherCtx? && ctx.cipher.algorithm == algorithm && ctx.cipher.mode == mode && ctx.cipher.pad == pad
    case Kdf(md) => ctx.KdfCtx? && ctx.kdf.algorithm == md
  }

  /**
   * The diagnostics printed while building the context for `d`: at most one
   * line, printed only for a digest whose handle failed to open, and
   * carrying that status.
   */
  function CreationReport(lib: Library, d: Descriptor): (lines: seq<Diagnostic>)
    ensures |lines| <= 1
    ensures |lines| == 1 <==> d.Hash? && lib.mdOpen(d.md) != NO_ERROR
    ensures lines != [] ==> lines == [OpenFailure(lib.mdOpen(d.md))]
  {
    if d.Hash? then OpenReport(lib.mdOpen(d.md)) else []
  }

  /**
   * Of the advertised names, only the seven digest names can print anything
   * while their context is built.
   */
  lemma OnlyDigestNamesReportCreation(lib: Library, name: string)
    requires Lookup(name).Some?
    requires CreationReport(lib, Lookup(name).value) != []
    ensures name in ["sha1", "md4", "md5", "ripemd160", "sha256", "sha384", "sha512"]
    ensures lib.mdOpen(Lookup(name).value.md) != NO_ERROR
  {
    DigestNamesListed(name);
  }

  class Provider {
    const lib: Library
    const process: Process

    constructor (lib: Library, process: Process)
      ensures this.lib == lib && this.process == process
    {
      this.lib := lib;
      this.process := process;
    }

    /**
     * `init`: initialises libgcrypt unless something in the process already
     * has; a failed version check is printed and does not stop it.
     */
    method Init()
      modifies process
      ensures process.libraryInitialized
      ensures old(process.libraryInitialized) ==> process.stdout == old(process.stdout)
      ensures !old(process.libraryInitialized) ==>
                process.stdout == old(process.stdout) + (if lib.versionOk then [] else [LibraryTooOld])
    {
      if !process.libraryInitialized {
        if !lib.versionOk {
          process.Print(Some(LibraryTooOld));
        }
        process.libraryInitialized := true;
      }
    }

    /**
     * `createContext`: a fresh context built from the name's descriptor for
     * every advertised name, and None (null) for every other name.  Every
     * context built uses the provider's library and process.
     */
    method CreateContext(name: string) returns (ctx: Option<Context>)
      modifies process
      ensures ctx.Some? <==> name in Features()
      ensures ctx.Some? <==> Lookup(name).Some?
      ensures ctx.Some? ==> BuiltFrom(ctx.value, Lookup(name).value)
      ensures ctx.Some? && ctx.value.HashCtx? ==>
                fresh(ctx.value.hash) && ctx.value.hash.absorbed == []
                && ctx.value.hash.lib == lib && ctx.value.hash.process == process
                && ctx.value.hash.err == lib.mdOpen(ctx.value.hash.algorithm)
      ensures ctx.Some? && ctx.value.CipherCtx? ==>
                fresh(ctx.value.cipher) && ctx.value.cipher.handle == None
                && ctx.value.cipher.lib == lib && ctx.value.cipher.process == process
      ensures ctx.Some? && ctx.value.KdfCtx? ==>
                fresh(ctx.value.kdf) && ctx.value.kdf.lib == lib && ctx.value.kdf.process == process
      ensures process.stdout == old(process.stdout) + (if ctx.Some? then CreationReport(lib, Lookup(name).value) else [])
      ensures process.libraryInitialized == old(process.libraryInitialized)
    {
      FactoryAgreesWithFeatures(name);
      match Lookup(name)
      case None =>
        ctx := None;
      case Some(Hash(md)) =>
        var h := new HashContext(lib, process, md);
        ctx := Some(HashCtx(h));
      case Some(Cipher(algorithm, mode, pad)) =>
        var c := new CipherContext(lib, process, algorithm, mode, pad);
        ctx := Some(CipherCtx(c));
      case Some(Kdf(md)) =>
        var k := new KdfContext(lib, process, md);
        ctx := Some(KdfCtx(k));
    }
  }

  /**
   * A client of the factory: every cipher context it builds yields an empty
   * `final` output, with or without a `setup` first, whatever the direction
   * and the library.
   */
  method CipherFinalFromFactory(p: Provider, name: string, setupFirst: bool,
                                dir: Qca.Direction, key: seq<byte>, iv: seq<byte>)
    returns (output: Option<seq<byte>>)
    modifies p.process
    ensures (output.Some? && output.value == []) <==> Lookup(name).Some? && Lookup(name).value.Cipher?
  {
    var ctx := p.CreateContext(name);
    if ctx.Some? && ctx.value.CipherCtx? {
      var c := ctx.value.cipher;
      if setupFirst {
        c.Setup(dir, key, iv);
      }
      var ok, out := c.Final();
      output := Some(out);
    } else {
      output := None;
    }
  }

  /**
   * A client of the factory: a digest context built for an advertised digest
   * name computes that digest with the provider's library.
   */
  method DigestFromFactory(p: Provider, name: string, data: seq<byte>) returns (digest: Option<seq<byte>>)
    modifies p.process
    ensures digest.Some? <==> Lookup(name).Some? && Lookup(name).value.Hash?
    ensures digest.Some? ==> digest.value == Digest(p.lib, Lookup(name).value.md, data)
  {
    var ctx := p.CreateContext(name);
    if ctx.Some? && ctx.value.HashCtx? {
      var h := ctx.value.hash;
      h.Update(data);
      assert h.absorbed == data;
      var d := h.Final();
      digest := Some(d);
    } else {
      digest := None;
    }
  }
}
