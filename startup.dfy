/**
 * The start-up gate of BAROQUE's main: the compare-backend fallback, the
 * checks that decide whether metrics can run, and the check that the
 * requested backends are offered by the account.
 */
module Startup {
  import opened References

  // ---------------------------------------------------------------------
  // no_valid_backend_check

  const BackendsUnavailableError :=
    "ERROR: One or both of your selected backends are not available on the active IBMQ API token.\n"

  /** A backend counts as requested unless it is None or "". */
  predicate Requested(b: Value)
  {
    !IsBlank(b)
  }

  /** A requested backend must equal one of the offered names exactly. */
  predicate Covered(available: seq<string>, b: Value)
  {
    !Requested(b) || (b.Str? && b.s in available)
  }

  /** The verdict of the check: both backends are covered. */
  predicate BackendsAvailable(available: seq<string>, backend1: Value, backend2: Value)
  {
    Covered(available, backend1) && Covered(available, backend2)
  }

  /**
   * no_valid_backend_check: one pass over the offered names, raising a
   * flag per backend on an exact match; the error line is printed when
   * either flag stays down. The copy of the names it builds is never used.
   */
  method NoValidBackendCheck(available: seq<string>, backend1: Value, backend2: Value)
    returns (ok: bool, printed: seq<string>)
    ensures ok <==> BackendsAvailable(available, backend1, backend2)
    ensures printed == if ok then [] else [BackendsUnavailableError]
  {
    var oneIsAvailable := if backend1 != PyNone && backend1 != Str("") then false else true;
    var twoIsAvailable := if backend2 != PyNone && backend2 != Str("") then false else true;
    var allAvailable: seq<string> := [];
    for i := 0 to |available|
      invariant allAvailable == available[..i]
      invariant oneIsAvailable <==> !Requested(backend1) || (backend1.Str? && backend1.s in available[..i])
      invariant twoIsAvailable <==> !Requested(backend2) || (backend2.Str? && backend2.s in available[..i])
    {
      var name := available[i];
      assert available[..i + 1] == available[..i] + [name];
      allAvailable := allAvailable + [name];
      if backend1 == Str(name) {
        oneIsAvailable := true;
      }
      if backend2 == Str(name) {
        twoIsAvailable := true;
      }
    }
    assert available[..|available|] == available;
    if !(oneIsAvailable && twoIsAvailable) {
      return false, [BackendsUnavailableError];
    }
    return true, [];
  }

  /** The order of the two backends does not matter. */
  lemma BackendCheckSymmetric(available: seq<string>, backend1: Value, backend2: Value)
    ensures BackendsAvailable(available, backend1, backend2) <==> BackendsAvailable(available, backend2, backend1)
  {
  }

  /**
   * Matching is exact: a requested name passes only when it is offered,
   * and adding offered names never turns a pass into a failure.
   */
  lemma BackendCheckMonotone(available: seq<string>, more: seq<string>, backend1: Value, backend2: Value)
    requires BackendsAvailable(available, backend1, backend2)
    ensures BackendsAvailable(available + more, backend1, backend2)
    ensures BackendsAvailable(more + available, backend1, backend2)
  {
  }

  /**
   * With the names "sim_a" and "sim_b" offered, "sim_a" beside an unset
   * backend passes, and "sim_x" fails.
   */
  lemma BackendCheckScenario()
    ensures BackendsAvailable(["sim_a", "sim_b"], Str(""), Str("sim_a"))
    ensures BackendsAvailable(["sim_a", "sim_b"], PyNone, Str("sim_a"))
    ensures !BackendsAvailable(["sim_a", "sim_b"], Str(""), Str("sim_x"))
  {
  }

  // ---------------------------------------------------------------------
  // The gate in main

  const CompareFallbackWarning :=
    "WARNING: You've specified a compare file but no compare backend. Using input backend... \n"
  const NoInputFileWarning := "WARNING: No input file has been set.\n"
  const NoBackendWarning := "WARNING: No backend has been set.\n"
  const ApiKeyError := "ERROR: Your IBMQ API Key has not been set.\n"

  /**
   * Where main stops: before any backend work when the API key is "";
   * after the optional backend listing when the input file or backend is
   * ""; after listing the backends when one is not offered; otherwise it
   * goes on to build the interface containers, the compare one only when
   * a compare file is set.
   */
  datatype Outcome = ApiKeyMissing | NoMetrics | BackendsUnavailable | Proceed(compareExists: bool)

  /**
   * Everything the gate decides: where main stops, the slots afterwards,
   * the lines printed, and how many times the backend list is shown.
   */
  datatype Gate = Gate(outcome: Outcome, slots: map<Slot, Cell>, printed: seq<string>, listings: nat)

  /** Python's `v != ""`: None and every non-string value count as set. */
  predicate NotEmptyString(v: Value)
  {
    v != Str("")
  }

  /** A compare file is set while the compare backend is "". */
  predicate NeedsFallback(s: map<Slot, Cell>)
    requires forall k: Slot :: k in s
  {
    NotEmptyString(s[CompareFile].val) && !NotEmptyString(s[BackendStrCompare].val)
  }

  /** The slots after the compare-backend fallback. */
  function Fallback(s: map<Slot, Cell>): map<Slot, Cell>
    requires forall k: Slot :: k in s
  {
    if NeedsFallback(s) then s[BackendStrCompare := Cell(s[BackendStrInput].val, "")] else s
  }

  /** The input file and the input backend are both set. */
  predicate ContMetrics(s: map<Slot, Cell>)
    requires forall k: Slot :: k in s
  {
    NotEmptyString(s[InputFile].val) && NotEmptyString(s[BackendStrInput].val)
  }

  /** The warnings printed before the API key check. */
  function Warnings(s: map<Slot, Cell>): seq<string>
    requires forall k: Slot :: k in s
  {
    var s1 := Fallback(s);
    (if NeedsFallback(s) then [CompareFallbackWarning] else [])
    + (if !NotEmptyString(s1[InputFile].val) then [NoInputFileWarning] else [])
    + (if !NotEmptyString(s1[BackendStrInput].val) then [NoBackendWarning] else [])
  }

  /** The slots after the show-backends flag is served and lowered. */
  function ClearShow(s: map<Slot, Cell>): map<Slot, Cell>
    requires forall k: Slot :: k in s
  {
    if Truthy(s[ShowBackends].val) then s[ShowBackends := Cell(Bool(false), "")] else s
  }

  /**
   * The gate from the API key check on, given the slots after the
   * fallback, the warnings printed so far and whether a compare file is set.
   */
  function GateFrom(s1: map<Slot, Cell>, warnings: seq<string>, compareExists: bool, available: seq<string>): Gate
    requires forall k: Slot :: k in s1
  {
    if !NotEmptyString(s1[ApiKey].val) then
      Gate(ApiKeyMissing, s1, warnings + [ApiKeyError], 0)
    else
      var s2 := ClearShow(s1);
      var shown := if Truthy(s1[ShowBackends].val) then 1 else 0;
      if !ContMetrics(s1) then
        Gate(NoMetrics, s2, warnings, shown)
      else if !BackendsAvailable(available, s2[BackendStrCompare].val, s2[BackendStrInput].val) then
        Gate(BackendsUnavailable, s2, warnings + [BackendsUnavailableError], shown + 1)
      else
        Gate(Proceed(compareExists), s2, warnings, shown)
  }

  /** The gate as a function of the slots and the names the account offers. */
  function Gating(s: map<Slot, Cell>, available: seq<string>): Gate
    requires forall k: Slot :: k in s
  {
    GateFrom(Fallback(s), Warnings(s), NotEmptyString(s[CompareFile].val), available)
  }

  /** The compare check at the top of the gate. */
  method ApplyCompareFallback(settings: Settings) returns (compareExists: bool, printed: seq<string>)
    requires settings.Valid()
    modifies settings.cells[BackendStrCompare]
    ensures settings.Snapshot() == Fallback(old(settings.Snapshot()))
    ensures compareExists == NotEmptyString(old(settings.Snapshot())[CompareFile].val)
    ensures printed == if NeedsFallback(old(settings.Snapshot())) then [CompareFallbackWarning] else []
  {
    printed := [];
    compareExists := false;
    if settings.Get(CompareFile) != Str("") {
      if settings.Get(BackendStrCompare) == Str("") {
        printed := printed + [CompareFallbackWarning];
        settings.Assign(BackendStrCompare, settings.Get(BackendStrInput));
      }
      compareExists := true;
    }
  }

  /** The input-file and input-backend checks: two warnings and the flag they lower. */
  method CheckInputs(settings: Settings, printed: seq<string>) returns (contMetrics: bool, printed': seq<string>)
    requires settings.Valid()
    ensures contMetrics == ContMetrics(settings.Snapshot())
    ensures printed' == printed
      + (if !NotEmptyString(settings.Snapshot()[InputFile].val) then [NoInputFileWarning] else [])
      + (if !NotEmptyString(settings.Snapshot()[BackendStrInput].val) then [NoBackendWarning] else [])
  {
    printed' := printed;
    contMetrics := true;
    if settings.Get(InputFile) == Str("") {
      printed' := printed' + [NoInputFileWarning];
      contMetrics := false;
    }
    if settings.Get(BackendStrInput) == Str("") {
      printed' := printed' + [NoBackendWarning];
      contMetrics := false;
    }
  }

  /** Lists the backends when asked to, then lowers the request. */
  method ServeShowBackends(settings: Settings) returns (listings: nat)
    requires settings.Valid()
    modifies settings.cells[ShowBackends]
    ensures settings.Snapshot() == ClearShow(old(settings.Snapshot()))
    ensures listings == if Truthy(old(settings.Snapshot())[ShowBackends].val) then 1 else 0
  {
    listings := 0;
    if Truthy(settings.Get(ShowBackends)) {
      listings := listings + 1;
      settings.Assign(ShowBackends, Bool(false));
    }
  }

  /** main from the API key check to the backend check. */
  method FinishGate(settings: Settings, available: seq<string>, printed: seq<string>,
                    compareExists: bool, contMetrics: bool)
    returns (outcome: Outcome, printed': seq<string>, listings: nat)
    requires settings.Valid() && contMetrics == ContMetrics(settings.Snapshot())
    modifies settings.cells[ShowBackends]
    ensures Gate(outcome, settings.Snapshot(), printed', listings)
      == GateFrom(old(settings.Snapshot()), printed, compareExists, available)
  {
    printed' := printed;
    if settings.Get(ApiKey) == Str("") {
      printed' := printed' + [ApiKeyError];
      return ApiKeyMissing, printed', 0;
    }

    listings := ServeShowBackends(settings);
    if !contMetrics {
      return NoMetrics, printed', listings;
    }

    var ok, errors := NoValidBackendCheck(available, settings.Get(BackendStrCompare), settings.Get(BackendStrInput));
    if !ok {
      printed' := printed' + errors;
      listings := listings + 1;
      return BackendsUnavailable, printed', listings;
    }
    return Proceed(compareExists), printed', listings;
  }

  /**
   * main from the compare check to the backend check, step by step on the
   * slots. `available` is the list of backend names the account offers.
   */
  method StartupGate(settings: Settings, available: seq<string>)
    returns (outcome: Outcome, printed: seq<string>, listings: nat)
    requires settings.Valid()
    modifies settings.cells[BackendStrCompare], settings.cells[ShowBackends]
    ensures Gate(outcome, settings.Snapshot(), printed, listings) == Gating(old(settings.Snapshot()), available)
  {
    var compareExists, contMetrics;
    compareExists, printed := ApplyCompareFallback(settings);
    contMetrics, printed := CheckInputs(settings, printed);
    outcome, printed, listings := FinishGate(settings, available, printed, compareExists, contMetrics);
  }

  // ---------------------------------------------------------------------
  // Properties of the gate

  /**
   * A compare file with no compare backend borrows the input backend,
   * whatever else the gate decides; a compare backend that is set is kept.
   */
  lemma CompareBackendFallback(s: map<Slot, Cell>, available: seq<string>)
    requires forall k: Slot :: k in s
    ensures var g := Gating(s, available);
      && (NotEmptyString(s[CompareFile].val) && !NotEmptyString(s[BackendStrCompare].val)
          ==> g.slots[BackendStrCompare].val == s[BackendStrInput].val
              && CompareFallbackWarning in g.printed)
      && (NotEmptyString(s[BackendStrCompare].val) || !NotEmptyString(s[CompareFile].val)
          ==> g.slots[BackendStrCompare] == s[BackendStrCompare])
  {
  }

  /**
   * An empty API key stops main before the backend list is fetched or
   * shown: the verdict and the slots do not depend on what is offered.
   */
  lemma ApiKeyCheckedFirst(s: map<Slot, Cell>, available: seq<string>, other: seq<string>)
    requires forall k: Slot :: k in s
    requires s[ApiKey].val == Str("")
    ensures Gating(s, available).outcome == ApiKeyMissing
    ensures Gating(s, available).listings == 0
    ensures Gating(s, available) == Gating(s, other)
  {
  }

  /**
   * With an API key set, metrics are abandoned exactly when the input file
   * or the input backend is "".
   */
  lemma NoMetricsExactly(s: map<Slot, Cell>, available: seq<string>)
    requires forall k: Slot :: k in s
    requires NotEmptyString(s[ApiKey].val)
    ensures Gating(s, available).outcome == NoMetrics
        <==> s[InputFile].val == Str("") || s[BackendStrInput].val == Str("")
  {
  }

  /**
   * The emptiness tests of the gate compare with "" only: a file slot
   * still holding None passes as set.
   */
  lemma NoneFilePassesGate(s: map<Slot, Cell>, available: seq<string>)
    requires forall k: Slot :: k in s
    requires s[InputFile].val == PyNone && NotEmptyString(s[ApiKey].val) && NotEmptyString(s[BackendStrInput].val)
    ensures Gating(s, available).outcome != NoMetrics
    ensures NoInputFileWarning !in Gating(s, available).printed
  {
  }

  /**
   * main goes on only when the API key, the input file and the input
   * backend are set and both backends the slots name are offered; the
   * compare container is built exactly when a compare file is set.
   */
  lemma ProceedRequires(s: map<Slot, Cell>, available: seq<string>)
    requires forall k: Slot :: k in s
    ensures var g := Gating(s, available);
      g.outcome.Proceed? <==>
        && NotEmptyString(s[ApiKey].val) && NotEmptyString(s[InputFile].val) && NotEmptyString(s[BackendStrInput].val)
        && BackendsAvailable(available, g.slots[BackendStrCompare].val, s[BackendStrInput].val)
    ensures var g := Gating(s, available);
      g.outcome.Proceed? ==> (g.outcome.compareExists <==> NotEmptyString(s[CompareFile].val))
  {
  }

  /** Once past the API key check, the show-backends flag is always cleared. */
  lemma ShowBackendsCleared(s: map<Slot, Cell>, available: seq<string>)
    requires forall k: Slot :: k in s
    requires NotEmptyString(s[ApiKey].val)
    ensures !Truthy(Gating(s, available).slots[ShowBackends].val)
    ensures Gating(s, available).listings >= (if Truthy(s[ShowBackends].val) then 1 else 0)
  {
  }
}
