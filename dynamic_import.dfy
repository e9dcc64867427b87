/** `useDynamicImport`: a single loading slot that its effect resets, marks
    loading, and fills with the import's outcome. */
module DynamicImport {
  import opened Types

  datatype ImportState = ImportState(isLoading: bool, error: Option<string>, component: Option<ComponentRef>)

  /** The state every run of the effect starts from (and the hook's initial state). */
  const Reset: ImportState := ImportState(false, None, None)

  /** `error.message || 'Failed to load micro-frontend'`: a non-empty message, else the default. */
  function ImportErrorMessage(t: Thrown): (m: string)
    ensures m != ""
    ensures t.ErrorInstance? && t.message != "" ==> m == t.message
    ensures t.NonError? && t.messageProperty.Some? && t.messageProperty.value != "" ==> m == t.messageProperty.value
    ensures m != DefaultLoadError ==>
              (t.ErrorInstance? && m == t.message) || (t.NonError? && t.messageProperty == Some(m))
  {
    match t
    case ErrorInstance(msg) => if msg != "" then msg else DefaultLoadError
    case NonError(Some(msg)) => if msg != "" then msg else DefaultLoadError
    case NonError(None) => DefaultLoadError
  }

  /** The state one run of the effect leaves: reset, and loading only when
      loading is wanted and an import function is present. */
  function EffectState(hasImportFunc: bool, shouldLoad: bool): (r: ImportState)
    ensures r.error.None? && r.component.None?
    ensures r.isLoading <==> shouldLoad && hasImportFunc
  {
    if !shouldLoad || !hasImportFunc then Reset else Reset.(isLoading := true, error := None)
  }

  /** The state the import's `then` or `catch` writes: no longer loading, and
      exactly one of the factory and the error message present. */
  function SettledImport(o: LoadOutcome): (r: ImportState)
    ensures !r.isLoading
    ensures r.component.Some? <==> r.error.None?
    ensures o.Success? ==> r.component == Some(o.component)
    ensures o.Failure? ==> r.error == Some(ImportErrorMessage(o.thrown)) && r.error.value != ""
  {
    match o
    case Success(c) => ImportState(false, None, Some(c))
    case Failure(t) => ImportState(false, Some(ImportErrorMessage(t)), None)
  }

  class DynamicImportHook {
    var state: ImportState
    /** Imports started by the effect and not yet settled; none is ever cancelled. */
    ghost var pending: nat

    constructor ()
      ensures state == Reset && pending == 0
    {
      state := Reset;
      pending := 0;
    }

    /** One run of the effect after `importFunc` or `shouldLoad` changed;
        `started` says whether it called the import function. */
    method RunEffect(hasImportFunc: bool, shouldLoad: bool) returns (started: bool)
      modifies this
      ensures started <==> shouldLoad && hasImportFunc
      ensures state == EffectState(hasImportFunc, shouldLoad)
      ensures pending == old(pending) + if started then 1 else 0
    {
      state := Reset;
      if !shouldLoad || !hasImportFunc {
        return false;
      }
      state := state.(isLoading := true, error := None);
      pending := pending + 1;
      started := true;
    }

    /** One started import settling; a stale one from an earlier run still
        overwrites the state, since the effect has no cleanup. */
    method Settle(outcome: LoadOutcome)
      requires pending > 0
      modifies this
      ensures state == SettledImport(outcome)
      ensures pending == old(pending) - 1
    {
      match outcome {
        case Success(c) =>
          state := ImportState(false, None, Some(c));
        case Failure(t) =>
          state := ImportState(false, Some(ImportErrorMessage(t)), None);
      }
      pending := pending - 1;
    }
  }
}
