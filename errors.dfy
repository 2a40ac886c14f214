/**
 * The error-reporting bridge (`check_error`) and the process-wide state the
 * provider touches: the diagnostic lines it prints and whether libgcrypt
 * has been initialised at all (GCRYCTL_ANY_INITIALIZATION_P).
 */
module Errors {
  import opened Wrappers
  import opened Gcrypt

  /** The three classes a library status falls into. */
  datatype Outcome = NoError | WeakKeyAdvisory | OtherError

  /** The three-way classification of a status. */
  function Classify(err: Status): Outcome
  {
    if err == NO_ERROR then NoError
    else if Code(err) == WEAK_KEY then WeakKeyAdvisory
    else OtherError
  }

  /** A line the provider writes to standard output. */
  datatype Diagnostic =
    | Failure(call: string, status: Status)   // check_error: "Failure (call): source/message"
    | OpenFailure(status: Status)              // hash constructor: "Failure: source/message"
    | KdfFailure(retval: int)                  // makeKey: "got: retval"
    | LibraryTooOld                            // init: "libgcrypt is too old ..."

  /**
   * `check_error`: the line it prints for `err`, if any.  It stays silent on
   * success and on a weak-key advisory, and reports every other status.
   */
  function CheckError(call: string, err: Status): (report: Option<Diagnostic>)
    ensures report.Some? <==> Classify(err) == OtherError
    ensures report.Some? ==> report.value.Failure? && report.value.status == err
  {
    if err != NO_ERROR && Code(err) != WEAK_KEY then Some(Failure(call, err)) else None
  }

  /** The lines `check_error` appends to standard output. */
  function Printed(report: Option<Diagnostic>): (lines: seq<Diagnostic>)
    ensures |lines| <= 1
  {
    if report.Some? then [report.value] else []
  }

  /**
   * For a status made from any error source, `check_error` reports exactly the
   * codes other than GPG_ERR_NO_ERROR and GPG_ERR_WEAK_KEY.
   */
  lemma CheckErrorByCode(call: string, source: nat, code: nat)
    requires source < 0x80 && code < 0x1_0000
    ensures CheckError(call, MakeError(source, code)).None? <==> code == 0 || code == WEAK_KEY
    ensures Classify(MakeError(source, code)) ==
              if code == 0 then NoError else if code == WEAK_KEY then WeakKeyAdvisory else OtherError
  {
  }

  /** Process-wide state shared by the provider and every context it creates. */
  class Process {
    /** Diagnostic lines written to standard output, oldest first. */
    var stdout: seq<Diagnostic>
    /**
     * Whether libgcrypt is initialised to any extent (GCRYCTL_ANY_INITIALIZATION_P).
     * Only `init` sets it here; libgcrypt's implicit initialisation by other calls
     * is not modelled.
     */
    var libraryInitialized: bool

    constructor (initialized: bool)
      ensures stdout == [] && libraryInitialized == initialized
    {
      stdout := [];
      libraryInitialized := initialized;
    }

    /** Appends `report`, when there is one, to standard output. */
    method Print(report: Option<Diagnostic>)
      modifies this
      ensures stdout == old(stdout) + Printed(report)
      ensures libraryInitialized == old(libraryInitialized)
    {
      if report.Some? {
        stdout := stdout + [report.value];
      }
    }
  }
}
