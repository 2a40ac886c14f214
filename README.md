# qca-gcrypt provider: dispatch and context lifecycle

This project models the libgcrypt provider plugin of QCA (`plugins/qca-gcrypt/qca-gcrypt.cpp`):

- the provider's closed catalogue of 22 algorithm names (`features`) and the factory that turns a name into a context (`createContext`);
- the three context kinds: hash, cipher and PBKDF2 key derivation;
- the cipher key-length policy (`keyLength`);
- the error bridge (`check_error`), which prints a failure and never reports it to the caller;
- the one-time library initialisation (`init`).

libgcrypt is an opaque backend. `Gcrypt.Library` is a record of total functions, one for each library call whose result the plugin uses: opening handles, setting keys and IVs, the transforms, `gcry_md_read`, `gcry_md_get_algo_dlen`, the block-length query, `gcry_pbkdf2` and the version check. Nothing constrains these functions, so every property proved here holds whatever they compute.

Two calls have no field: `gcry_md_write` and `gcry_md_reset`. A digest handle is modelled as the bytes written to it since it was opened or last reset, joined in order. `HashContext.Update` appends to them, `HashContext.Clear` empties them, and `gcry_md_read` is a function of them. This builds in libgcrypt's documented meaning of those two calls: the digest depends only on the bytes written since the last reset, not on how they were split across writes. The hash properties (`DigestOfTwoWrites`, `Clear`, `Update`) rest on that assumption. A cipher handle, by contrast, records every call made on it.

The numeric constants are libgcrypt's own: algorithm and mode ids, `GPG_ERR_WEAK_KEY` = 43 and the 16-bit error-code field of a `gcry_error_t`.

State the plugin changes in place is held in classes:

- `HashContext`: the bytes absorbed since the last reset.
- `CipherContext`: the direction, the handle and the last status.
- `Process`: state shared by the whole process, namely the lines printed to standard output and whether libgcrypt is initialised to any extent (the flag `GCRYCTL_ANY_INITIALIZATION_P` queries).

A cipher handle is a value recording everything given to it since `gcry_cipher_open`: algorithm, mode, key, IV and every chunk transformed, in order. The library's transforms are functions of that record.

A `QSecureArray` of `n` bytes is zero-filled, and a library call writes into it. `Qca.Filled(n, written)` models that buffer. This is why the lengths of `update`, `final` and the digest are fixed by the plugin, whatever the library writes. The derived key's buffer is a `QCA::SymmetricKey`, not a zero-filled array; see "Left out".

Modules: `Wrappers` (Option), `Gcrypt` (library interface), `Qca` (host types), `Errors` (`check_error`, diagnostics, process state), `Catalogue` (`features`, `createContext`'s name chain), `HashContexts`, `CipherContexts`, `KdfContexts`, `GcryptProvider`.

Some behaviours of the code worth knowing:

- `clone()` copies the object and so shares the live library handle with the original (qca-gcrypt.cpp:61-64, 115-118). `clone()` is left out; see below.
- `setup` may be called again. Each call opens a new handle without closing the old one (qca-gcrypt.cpp:107). The model's `Setup` replaces the handle.
- `final` on an unpadded cipher context touches neither the handle nor the direction (qca-gcrypt.cpp:143-156), so it is well defined before any `setup`.
- The hash constructor tests only for `GPG_ERR_NO_ERROR`, so it prints a weak-key status too, unlike `check_error` (`HashContexts.OpenReport`).

## Model

| member | source | states |
|---|---|---|
| Errors.CheckError | plugins/qca-gcrypt/qca-gcrypt.cpp:31-40 | `check_error` prints a line exactly when the status classifies as an error other than a weak-key advisory; the line carries the status |
| Errors.CheckErrorByCode | plugins/qca-gcrypt/qca-gcrypt.cpp:31-40 | for every error source, `check_error` is silent iff the code is GPG_ERR_NO_ERROR or GPG_ERR_WEAK_KEY; the three-way classification follows the code |
| Errors.Process.Print | plugins/qca-gcrypt/qca-gcrypt.cpp:36-38 | printing appends the report, if any, to standard output and changes nothing else |
| Catalogue.Features | plugins/qca-gcrypt/qca-gcrypt.cpp:299-325 | `features` lists exactly 22 names, pairwise distinct |
| Catalogue.Lookup | plugins/qca-gcrypt/qca-gcrypt.cpp:327-376 | every cipher descriptor the factory builds has padding off |
| Catalogue.FactoryAgreesWithFeatures | plugins/qca-gcrypt/qca-gcrypt.cpp:299-376 | the factory builds a context for a name iff `features` lists it, and returns null for every other string |
| Catalogue.CipherNamesListed | plugins/qca-gcrypt/qca-gcrypt.cpp:344-371 | the factory builds a cipher context only for the 14 cipher names |
| Catalogue.CiphersFollowNamingConvention | plugins/qca-gcrypt/qca-gcrypt.cpp:344-371 | every cipher descriptor is unpadded, its algorithm is the one the name's prefix names (aes128/192/256, blowfish, tripledes, des) and its mode the one the suffix names (-ecb, -cbc, -cfb) |
| CipherContexts.KeyLengthOf | plugins/qca-gcrypt/qca-gcrypt.cpp:159-177 | `keyLength` always gives min <= max and step 1, at most 32 bytes for a known algorithm; min is 0 exactly for algorithms outside the table, which all get exactly (0, 1, 1) |
| CipherContexts.KeyLengthMatchesName | plugins/qca-gcrypt/qca-gcrypt.cpp:159-177 | for each cipher-name prefix the key length is fixed at the algorithm's nominal key size (DES 8, AES-128 16, AES-192 and 3DES 24, AES-256 32 bytes), and for Blowfish it is exactly (1, 32, 1) |
| CipherContexts.FactoryCiphersHaveKeyLengths | plugins/qca-gcrypt/qca-gcrypt.cpp:159-177 | no cipher the factory builds falls into the (0,1,1) "unknown algorithm" default |
| CipherContexts.SetupReports | plugins/qca-gcrypt/qca-gcrypt.cpp:102-113 | `setup` prints at most three lines, each a `check_error` failure report of a status classified as an error; it prints nothing exactly when none of the open, setkey and setiv statuses is such an error |
| CipherContexts.UpdateOutput | plugins/qca-gcrypt/qca-gcrypt.cpp:127-139 | update output is exactly as long as the input; it is filled by `gcry_cipher_encrypt` when the direction is Encode and by `gcry_cipher_decrypt` when it is Decode |
| CipherContexts.UpdateRun | plugins/qca-gcrypt/qca-gcrypt.cpp:127-139 | over any run of `update` calls, the outputs together are exactly as long as all inputs together (nothing is buffered between calls), and the handle has been fed every input in order, in one direction, with algorithm, mode, key and IV untouched |
| CipherContexts.UpdateRunSnoc | plugins/qca-gcrypt/qca-gcrypt.cpp:127-139 | one more `update` call extends a run by exactly that call's output and feeds its input to the handle the run left |
| CipherContexts.UpdateCalls | plugins/qca-gcrypt/qca-gcrypt.cpp:127-139 | calling `CipherContext.Update` once per input collects exactly `UpdateRun`'s output and leaves exactly `UpdateRun`'s handle |
| CipherContexts.FinalOutput | plugins/qca-gcrypt/qca-gcrypt.cpp:141-157 | final output is `blockSize()` bytes when padding is set, transformed in place from a zero buffer in the context's direction, and empty otherwise |
| CipherContexts.FactoryCipherFinalIsEmpty | plugins/qca-gcrypt/qca-gcrypt.cpp:141-157 | every cipher context the factory builds has an empty final output |
| CipherContexts.CipherContext.constructor | plugins/qca-gcrypt/qca-gcrypt.cpp:95-100 | the constructor records algorithm, mode and pad flag and opens no handle |
| CipherContexts.CipherContext.Setup | plugins/qca-gcrypt/qca-gcrypt.cpp:102-113 | `setup` records the direction, installs a fresh handle with the key and IV, keeps the setiv status, and prints each failed step; a failure does not stop the later steps |
| CipherContexts.CipherContext.Update | plugins/qca-gcrypt/qca-gcrypt.cpp:127-139 | `update` always returns true, with output as long as its input; it feeds the input to the handle in the recorded direction, keeps the status, and only prints a failure |
| CipherContexts.CipherContext.Final | plugins/qca-gcrypt/qca-gcrypt.cpp:141-157 | `final` always returns true; with padding it yields `blockSize()` bytes and feeds one zero block, and without padding it yields nothing, changes nothing and needs no prior `setup` |
| HashContexts.Digest | plugins/qca-gcrypt/qca-gcrypt.cpp:76-83 | the digest is exactly `gcry_md_get_algo_dlen` bytes long, and is what `gcry_md_read` returns whenever that has the right length |
| HashContexts.OpenReport | plugins/qca-gcrypt/qca-gcrypt.cpp:48-53 | the hash constructor prints one line exactly when `gcry_md_open` returns a status other than NO_ERROR |
| HashContexts.HashContext.constructor | plugins/qca-gcrypt/qca-gcrypt.cpp:45-54 | the constructor opens the digest handle at once with nothing absorbed, and keeps and prints its status |
| HashContexts.HashContext.Clear | plugins/qca-gcrypt/qca-gcrypt.cpp:66-69 | `clear` empties the absorbed bytes |
| HashContexts.HashContext.Update | plugins/qca-gcrypt/qca-gcrypt.cpp:71-74 | `update` appends its bytes after those absorbed before |
| HashContexts.HashContext.Final | plugins/qca-gcrypt/qca-gcrypt.cpp:76-83 | `final` returns the digest of everything absorbed, of the algorithm's fixed digest length |
| HashContexts.DigestOfTwoWrites | plugins/qca-gcrypt/qca-gcrypt.cpp:66-83 | after `clear`, writing a then b gives the digest of a + b |
| KdfContexts.DerivedKey | plugins/qca-gcrypt/qca-gcrypt.cpp:204-217 | `makeKey` gives exactly `keyLength` bytes written by `gcry_pbkdf2` when it returns NO_ERROR, and an empty key for any other return value |
| KdfContexts.EmptyKeyIsAmbiguous | plugins/qca-gcrypt/qca-gcrypt.cpp:204-217 | the key is empty iff derivation failed or a zero-length key was asked for, so a caller cannot tell the two apart |
| KdfContexts.KdfReport | plugins/qca-gcrypt/qca-gcrypt.cpp:211-216 | `makeKey` prints one line exactly when `gcry_pbkdf2` returns non-zero |
| KdfContexts.KdfContext.constructor | plugins/qca-gcrypt/qca-gcrypt.cpp:193-197 | the constructor records the digest used as the pseudorandom function |
| KdfContexts.KdfContext.MakeKey | plugins/qca-gcrypt/qca-gcrypt.cpp:204-217 | `makeKey` returns the derived key (empty or `keyLength` bytes) and prints only on failure |
| GcryptProvider.CreationReport | plugins/qca-gcrypt/qca-gcrypt.cpp:327-376 | building a context prints at most one line, and one exactly when it is a digest context whose `gcry_md_open` failed; that line carries the open status |
| GcryptProvider.OnlyDigestNamesReportCreation | plugins/qca-gcrypt/qca-gcrypt.cpp:327-343 | of all names the factory accepts, only the seven digest names can print while their context is built, and only when `gcry_md_open` fails |
| GcryptProvider.Provider.Init | plugins/qca-gcrypt/qca-gcrypt.cpp:273-292 | `init` leaves libgcrypt initialised; if it was already initialised it does nothing else, and otherwise it prints only when the version check fails |
| GcryptProvider.Provider.CreateContext | plugins/qca-gcrypt/qca-gcrypt.cpp:327-376 | `createContext` returns a fresh context iff the name is advertised, of the kind and with the parameters of the name's descriptor, using the provider's library and process (a digest context holding its open status), and None (null) for every other name |
| GcryptProvider.CipherFinalFromFactory | plugins/qca-gcrypt/qca-gcrypt.cpp:344-371 | any cipher context from the factory gives an empty `final` output, with or without a `setup` first, whatever the direction, key, IV and library |
| GcryptProvider.DigestFromFactory | plugins/qca-gcrypt/qca-gcrypt.cpp:327-343 | a context the factory builds for a digest name, fed some data, returns the digest of that data computed with the provider's library |
| Catalogue.DigestNamesListed | plugins/qca-gcrypt/qca-gcrypt.cpp:330-343 | the factory builds a digest context only for the seven digest names |

## Left out

- The libgcrypt primitives are not modelled: digests, block transforms, PBKDF2, the block-length query and the version check. They are foreign code, so each is an unconstrained field of `Gcrypt.Library`. No test vector or round trip is claimed.
- `pkcs5.c` (included at line 29) is not part of this model. `gcry_pbkdf2` is a field of `Gcrypt.Library`.
- The allocator hooks under `I_WANT_TO_CRASH` (lines 225-268) are disabled code and are not modelled.
- The secure-memory setup in the KDF constructor (line 195) is not modelled. It only configures the library.
- The text of diagnostics is not modelled: the version strings and `gcry_strsource`/`gcry_strerror` messages. A `Diagnostic` records which line was printed and the status it carries.
- `name()`, the plugin class and the moc/export glue (lines 294-297, 379-389) are not modelled. They hold no logic.
- `clone()` and the destructors are not modelled. `clone()` shares the live library handle with its original, and the destructor closes it. Modelling that needs handle identity and lifetime, which a value handle cannot express.
- `CipherContext.BlockSize` has no contract of its own: it is the library's block length. `blockSize()` passes `(size_t*)&blockSize` for an `unsigned int`, which can write past the variable. The model takes the reported value as the result.
- A failed `gcry_cipher_open` or `gcry_md_open` leaves the source's handle unusable. The model carries on with a handle value, and later results are whatever the library functions give.
- CipherContexts.CipherContext.Update: requires a prior `Setup`. Without one, the source uses an uninitialised handle and direction.
- CipherContexts.CipherContext.Final: requires a prior `Setup` only when padding is on. The padded branch uses the handle and direction, which are uninitialised without one.
- HashContexts.HashContext: does not model `gcry_md_write` and `gcry_md_reset` as library calls. The handle is the joined bytes written since the last reset, which assumes libgcrypt's documented semantics for those calls (see above).
- HashContexts.HashContext.Final: does not model libgcrypt finalising the handle on its first read. The model treats the digest as a function of the bytes absorbed since the last reset. Whether a later `final`, or an `update` after `final`, behaves the same depends on the library, and the source does not say.
- Zero-filled buffers: newly sized `QSecureArray` buffers are taken as zero-filled. This includes the block `final` transforms in place.
- KdfContexts.DerivedKey: assumes a successful `gcry_pbkdf2` writes all `keyLength` bytes. `makeKey`'s buffer is a `QCA::SymmetricKey(keyLength)`, whose initial contents are random, not zero. Any byte the library leaves unwritten is therefore not modelled; the model takes it as zero.
- Errors.Process.libraryInitialized: only `init` sets it. libgcrypt also initialises itself implicitly on other calls, such as `gcry_check_version`, `gcry_md_open`, `gcry_cipher_open` and `gcry_control(GCRYCTL_INIT_SECMEM)`. The model does not capture this. It assumes the host calls `init` before any other libgcrypt call, so the context operations keep the flag unchanged.
- unittest/cms/cms.h is not modelled. It declares test slots with no logic.
- Concurrency is not modelled. The plugin is single-threaded, and `init`'s check-then-set is modelled as one step.
