/**
 * `gcryCipherContext`: a block cipher in ECB, CBC or CFB mode over a
 * libgcrypt cipher handle, and its key-length policy.
 */
module CipherContexts {
  import opened Wrappers
  import opened Gcrypt
  import opened Qca
  import opened Errors
  import opened Catalogue

  /** The cipher algorithms `keyLength` has an entry for. */
  const KeyLengthTable: set<int> :=
    {CIPHER_DES, CIPHER_AES128, CIPHER_AES192, CIPHER_3DES, CIPHER_AES256, CIPHER_BLOWFISH}

  /**
   * `keyLength`: the key sizes accepted for a cipher algorithm.  Every entry is
   * a non-empty range of whole bytes; a minimum of 0 marks exactly the
   * algorithms the table does not know.
   */
  function KeyLengthOf(algorithm: int): (k: KeyLength)
    ensures k.min <= k.max && k.step == 1
    ensures k.min == 0 <==> algorithm !in KeyLengthTable
    ensures algorithm in KeyLengthTable ==> k.max <= 32
    ensures algorithm !in KeyLengthTable ==> k == KeyLength(0, 1, 1)
  {
    if algorithm == CIPHER_DES then KeyLength(8, 8, 1)
    else if algorithm == CIPHER_AES128 then KeyLength(16, 16, 1)
    else if algorithm == CIPHER_AES192 || algorithm == CIPHER_3DES then KeyLength(24, 24, 1)
    else if algorithm == CIPHER_AES256 then KeyLength(32, 32, 1)
    else if algorithm == CIPHER_BLOWFISH then KeyLength(1, 32, 1)
    else KeyLength(0, 1, 1)
  }

  /**
   * The key length of an algorithm named by a cipher-name prefix is the
   * algorithm's own key size, fixed except for Blowfish, which accepts any
   * whole number of bytes from 1 to 32.
   */
  lemma KeyLengthMatchesName(prefix: string)
    requires CipherOfPrefix(prefix).Some?
    ensures var k := KeyLengthOf(CipherOfPrefix(prefix).value);
            match NominalKeyBits(prefix)
            case Some(bits) => k.min == k.max == bits / 8
            case None => k == KeyLength(1, 32, 1)
  {
  }

  /** Every cipher the factory builds has a key length other than the "unknown" default. */
  lemma FactoryCiphersHaveKeyLengths(name: string)
    requires Lookup(name).Some? && Lookup(name).value.Cipher?
    ensures 1 <= KeyLengthOf(Lookup(name).value.algorithm).min
  {
  }

  /** The handle `gcry_cipher_open` gives, with `key` and `iv` installed and nothing transformed yet. */
  function Opened(algorithm: int, mode: int, key: seq<byte>, iv: seq<byte>): (h: CipherHandle)
    ensures h.fed == []
  {
    CipherHandle(algorithm, mode, key, iv, [])
  }

  /** The diagnostics `setup` prints: one per step whose status `check_error` reports. */
  function SetupReports(lib: Library, algorithm: int, mode: int, key: seq<byte>, iv: seq<byte>): (lines: seq<Diagnostic>)
    ensures |lines| <= 3
    ensures forall i :: 0 <= i < |lines| ==> lines[i].Failure? && Classify(lines[i].status) == OtherError
    ensures lines == [] <==>
              Classify(lib.cipherOpen(algorithm, mode)) != OtherError
              && Classify(lib.cipherSetKey(Opened(algorithm, mode, [], []), key)) != OtherError
              && Classify(lib.cipherSetIv(Opened(algorithm, mode, key, []), iv)) != OtherError
  {
    Printed(CheckError("gcry_cipher_open", lib.cipherOpen(algorithm, mode)))
    + Printed(CheckError("gcry_cipher_setkey", lib.cipherSetKey(Opened(algorithm, mode, [], []), key)))
    + Printed(CheckError("gcry_cipher_setiv", lib.cipherSetIv(Opened(algorithm, mode, key, []), iv)))
  }

  /** The library call for one transform: `gcry_cipher_encrypt` when encrypting, else `gcry_cipher_decrypt`. */
  function Transform(lib: Library, h: CipherHandle, encrypting: bool, input: seq<byte>, size: nat): Transformed
  {
    if encrypting then lib.cipherEncrypt(h, input, size) else lib.cipherDecrypt(h, input, size)
  }

  /** The handle after it transformed `input`. */
  function Fed(h: CipherHandle, encrypting: bool, input: seq<byte>): (h': CipherHandle)
    ensures h'.algorithm == h.algorithm && h'.mode == h.mode && h'.key == h.key && h'.iv == h.iv
    ensures h'.fed == h.fed + [Chunk(encrypting, input)]
  {
    h.(fed := h.fed + [Chunk(encrypting, input)])
  }

  /**
   * What `update` writes to `*out`: a buffer as long as the input, filled by
   * the encryption of the input when the direction is Encode and by its
   * decryption otherwise.
   */
  function UpdateOutput(lib: Library, h: CipherHandle, dir: Direction, input: seq<byte>): (out: seq<byte>)
    ensures |out| == |input|
    ensures dir == Encode ==> out == Filled(|input|, lib.cipherEncrypt(h, input, |input|).output)
    ensures dir == Decode ==> out == Filled(|input|, lib.cipherDecrypt(h, input, |input|).output)
  {
    Filled(|input|, Transform(lib, h, dir == Encode, input, |input|).output)
  }

  /** The bytes of `parts`, one after the other. */
  function Joined(parts: seq<seq<byte>>): seq<byte>
  {
    if parts == [] then [] else parts[0] + Joined(parts[1..])
  }

  /** The chunks a handle records for `inputs` transformed one call at a time. */
  function Chunks(encrypting: bool, inputs: seq<seq<byte>>): seq<Chunk>
  {
    if inputs == [] then [] else [Chunk(encrypting, inputs[0])] + Chunks(encrypting, inputs[1..])
  }

  /**
   * A run of `update` calls: the outputs, concatenated, and the handle
   * afterwards.  No call buffers anything, so the output is exactly as long as
   * the whole input, and the handle has seen every input in order.
   */
  function UpdateRun(lib: Library, h: CipherHandle, dir: Direction, inputs: seq<seq<byte>>)
    : (r: (seq<byte>, CipherHandle))
    ensures |r.0| == |Joined(inputs)|
    ensures r.1.fed == h.fed + Chunks(dir == Encode, inputs)
    ensures r.1.algorithm == h.algorithm && r.1.mode == h.mode && r.1.key == h.key && r.1.iv == h.iv
    decreases |inputs|
  {
    if inputs == [] then ([], h)
    else
      var encrypting := dir == Encode;
      var run := UpdateRun(lib, Fed(h, encrypting, inputs[0]), dir, inputs[1..]);
      var out := UpdateOutput(lib, h, dir, inputs[0]);
      assert Joined(inputs) == inputs[0] + Joined(inputs[1..]);
      assert Chunks(encrypting, inputs) == [Chunk(encrypting, inputs[0])] + Chunks(encrypting, inputs[1..]);
      assert h.fed + [Chunk(encrypting, inputs[0])] + Chunks(encrypting, inputs[1..])
          == h.fed + Chunks(encrypting, inputs);
      (out + run.0, run.1)
  }

  /** Concatenating byte strings is associative. */
  lemma ConcatAssociative(a: seq<byte>, b: seq<byte>, c: seq<byte>)
    ensures a + (b + c) == (a + b) + c
  {
  }

  /** A run extended by one more input adds that input's `update` output and feeds it to the handle. */
  lemma {:induction false} UpdateRunSnoc(lib: Library, h: CipherHandle, dir: Direction,
                                         inputs: seq<seq<byte>>, input: seq<byte>)
    ensures UpdateRun(lib, h, dir, inputs + [input]).0
              == UpdateRun(lib, h, dir, inputs).0 + UpdateOutput(lib, UpdateRun(lib, h, dir, inputs).1, dir, input)
    ensures UpdateRun(lib, h, dir, inputs + [input]).1 == Fed(UpdateRun(lib, h, dir, inputs).1, dir == Encode, input)
    decreases |inputs|
  {
    if inputs == [] {
      assert inputs + [input] == [input];
      assert [input][1..] == [];
    } else {
      var encrypting := dir == Encode;
      assert (inputs + [input])[0] == inputs[0];
      assert (inputs + [input])[1..] == inputs[1..] + [input];
      var h1 := Fed(h, encrypting, inputs[0]);
      var first := UpdateOutput(lib, h, dir, inputs[0]);
      var rest := UpdateRun(lib, h1, dir, inputs[1..]);
      UpdateRunSnoc(lib, h1, dir, inputs[1..], input);
      var last := UpdateOutput(lib, rest.1, dir, input);
      assert UpdateRun(lib, h, dir, inputs).0 == first + rest.0;
      assert UpdateRun(lib, h, dir, inputs).1 == rest.1;
      assert UpdateRun(lib, h, dir, inputs + [input]).0 == first + (rest.0 + last);
      ConcatAssociative(first, rest.0, last);
    }
  }

  /** A zero-filled buffer of `n` bytes. */
  function Zeros(n: nat): (z: seq<byte>)
    ensures |z| == n && forall i :: 0 <= i < n ==> z[i] == 0
  {
    Filled(n, [])
  }

  /**
   * What `final` writes to `*out`: with padding, one block transformed in
   * place from zeros in the context's direction; without, nothing.
   */
  function FinalOutput(lib: Library, h: CipherHandle, dir: Direction, pad: bool, blockSize: nat): (out: seq<byte>)
    ensures |out| == if pad then blockSize else 0
    ensures pad ==> out == Filled(blockSize, Transform(lib, h, dir == Encode, Zeros(blockSize), blockSize).output)
  {
    if pad then Filled(blockSize, Transform(lib, h, dir == Encode, Zeros(blockSize), blockSize).output) else []
  }

  /** Every cipher context the factory builds is unpadded, so its `final` output is empty. */
  lemma FactoryCipherFinalIsEmpty(name: string, lib: Library, h: CipherHandle, dir: Direction, blockSize: nat)
    requires Lookup(name).Some? && Lookup(name).value.Cipher?
    ensures FinalOutput(lib, h, dir, Lookup(name).value.pad, blockSize) == []
  {
  }

  class CipherContext {
    const lib: Library
    const process: Process
    const algorithm: int
    const mode: int
    const pad: bool
    /** The direction given to the most recent `setup`. */
    var direction: Direction
    /** The cipher handle; None until `setup` opens it. */
    var handle: Option<CipherHandle>
    /** The status of the most recent library call. */
    var err: Status

    /** Records the descriptor; no handle is opened until `setup`. */
    constructor (lib: Library, process: Process, algorithm: int, mode: int, pad: bool)
      ensures this.lib == lib && this.process == process
      ensures this.algorithm == algorithm && this.mode == mode && this.pad == pad
      ensures handle == None
    {
      this.lib := lib;
      this.process := process;
      this.algorithm := algorithm;
      this.mode := mode;
      this.pad := pad;
      direction := Encode;
      handle := None;
      err := NO_ERROR;
    }

    /**
     * `setup`: records the direction, opens a handle for the algorithm and
     * mode, installs key and IV, and reports each failing step through
     * `check_error`; a failure does not stop the later steps.
     */
    method Setup(dir: Direction, key: seq<byte>, iv: seq<byte>)
      modifies this, process
      ensures direction == dir
      ensures handle == Some(Opened(algorithm, mode, key, iv))
      ensures err == lib.cipherSetIv(Opened(algorithm, mode, key, []), iv)
      ensures process.stdout == old(process.stdout) + SetupReports(lib, algorithm, mode, key, iv)
      ensures process.libraryInitialized == old(process.libraryInitialized)
    {
      direction := dir;
      var h := Opened(algorithm, mode, [], []);
      err := lib.cipherOpen(algorithm, mode);
      process.Print(CheckError("gcry_cipher_open", err));
      err := lib.cipherSetKey(h, key);
      h := h.(key := key);
      process.Print(CheckError("gcry_cipher_setkey", err));
      err := lib.cipherSetIv(h, iv);
      h := h.(iv := iv);
      process.Print(CheckError("gcry_cipher_setiv", err));
      handle := Some(h);
    }

    /** `blockSize`: the algorithm's block length, as libgcrypt reports it. */
    function BlockSize(): nat
    {
      lib.cipherBlockLen(algorithm)
    }

    /**
     * `update`: always succeeds, and its output is as long as its input,
     * encrypted or decrypted as the last `setup` chose; a library failure is
     * only printed.
     */
    method Update(input: seq<byte>) returns (ok: bool, output: seq<byte>)
      requires handle.Some?
      modifies this, process
      ensures ok
      ensures |output| == |input|
      ensures output == UpdateOutput(lib, old(handle).value, direction, input)
      ensures handle == Some(Fed(old(handle).value, direction == Encode, input))
      ensures err == Transform(lib, old(handle).value, direction == Encode, input, |input|).status
      ensures direction == old(direction)
      ensures process.stdout == old(process.stdout) + Printed(CheckError("update cipher encrypt/decrypt", err))
      ensures process.libraryInitialized == old(process.libraryInitialized)
    {
      var h := handle.value;
      var t: Transformed;
      if direction == Encode {
        t := lib.cipherEncrypt(h, input, |input|);
      } else {
        t := lib.cipherDecrypt(h, input, |input|);
      }
      err := t.status;
      handle := Some(Fed(h, direction == Encode, input));
      process.Print(CheckError("update cipher encrypt/decrypt", err));
      output := Filled(|input|, t.output);
      ok := true;
    }

    /**
     * `final`: always succeeds; with padding it flushes one block of
     * `BlockSize()` bytes, without padding it returns nothing and leaves the
     * context untouched, so it needs no handle then.
     */
    method Final() returns (ok: bool, output: seq<byte>)
      requires pad ==> handle.Some?
      modifies this, process
      ensures ok
      ensures |output| == if pad then BlockSize() else 0
      ensures !pad ==> output == []
      ensures pad ==> output == FinalOutput(lib, old(handle).value, direction, pad, BlockSize())
      ensures direction == old(direction)
      ensures !pad ==> handle == old(handle) && err == old(err) && process.stdout == old(process.stdout)
      ensures pad ==> handle == Some(Fed(old(handle).value, direction == Encode, Zeros(BlockSize())))
      ensures pad ==> err == Transform(lib, old(handle).value, direction == Encode, Zeros(BlockSize()), BlockSize()).status
      ensures pad ==> process.stdout == old(process.stdout) + Printed(CheckError("final cipher encrypt/decrypt", err))
      ensures process.libraryInitialized == old(process.libraryInitialized)
    {
      output := [];
      if pad {
        var size := BlockSize();
        var h := handle.value;
        var t: Transformed;
        if direction == Encode {
          t := lib.cipherEncrypt(h, Zeros(size), size);
        } else {
          t := lib.cipherDecrypt(h, Zeros(size), size);
        }
        err := t.status;
        handle := Some(Fed(h, direction == Encode, Zeros(size)));
        process.Print(CheckError("final cipher encrypt/decrypt", err));
        output := Filled(size, t.output);
      }
      ok := true;
    }
  }

  /**
   * A client that calls `update` once per input: what it collects, and the
   * handle it leaves, are exactly those of `UpdateRun`.
   */
  method UpdateCalls(c: CipherContext, inputs: seq<seq<byte>>) returns (ok: bool, output: seq<byte>)
    requires c.handle.Some?
    modifies c, c.process
    ensures ok
    ensures c.handle.Some? && c.direction == old(c.direction)
    ensures (output, c.handle.value) == UpdateRun(c.lib, old(c.handle).value, c.direction, inputs)
  {
    var h0 := c.handle.value;
    ok := true;
    output := [];
    var i := 0;
    while i < |inputs|
      invariant 0 <= i <= |inputs|
      invariant ok
      invariant c.handle.Some? && c.direction == old(c.direction)
      invariant (output, c.handle.value) == UpdateRun(c.lib, h0, c.direction, inputs[..i])
    {
      UpdateRunSnoc(c.lib, h0, c.direction, inputs[..i], inputs[i]);
      assert inputs[..i + 1] == inputs[..i] + [inputs[i]];
      var stepOk, out := c.Update(inputs[i]);
      output := output + out;
      ok := ok && stepOk;
      i := i + 1;
    }
    assert inputs[..i] == inputs;
  }
}
