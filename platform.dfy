/** The platform objects the scenario page mutates: the protocol filter beneath its HttpClient and
    the cancellation token source of the current request. Only the parts the page touches are
    modelled. */
module Platform {

  /** Chain-validation errors. The page names only Untrusted and InvalidName; the platform's other
      results are folded into one. */
  datatype ChainValidationResult = Untrusted | InvalidName | OtherChainError

  datatype HttpCacheReadBehavior = Default | MostRecent | OnlyFromCache | NoCache

  datatype HttpCacheWriteBehavior = Default | NoCache

  /** A snapshot of what the page can observe of a filter. */
  datatype FilterState = FilterState(
    validationHandlers: nat,
    ignorableErrors: seq<ChainValidationResult>,
    readBehavior: HttpCacheReadBehavior,
    writeBehavior: HttpCacheWriteBehavior)

  /** HttpBaseProtocolFilter. `validationHandlers` counts how many times the page's validator is
      subscribed to ServerCustomValidationRequested; the ignorable-error list is the filter's
      IgnorableServerCertificateErrors; the two cache behaviours are its CacheControl. */
  class HttpBaseProtocolFilter {
    var validationHandlers: nat
    var ignorableServerCertificateErrors: seq<ChainValidationResult>
    var cacheReadBehavior: HttpCacheReadBehavior
    var cacheWriteBehavior: HttpCacheWriteBehavior

    function State(): FilterState
      reads this
    {
      FilterState(validationHandlers, ignorableServerCertificateErrors, cacheReadBehavior, cacheWriteBehavior)
    }

    constructor ()
      ensures State() == FilterState(0, [], HttpCacheReadBehavior.Default, HttpCacheWriteBehavior.Default)
    {
      validationHandlers := 0;
      ignorableServerCertificateErrors := [];
      cacheReadBehavior := HttpCacheReadBehavior.Default;
      cacheWriteBehavior := HttpCacheWriteBehavior.Default;
    }

    /** `ServerCustomValidationRequested += handler`. */
    method AddServerCustomValidationHandler()
      modifies this
      ensures State() == old(State()).(validationHandlers := old(validationHandlers) + 1)
    {
      validationHandlers := validationHandlers + 1;
    }

    /** `ServerCustomValidationRequested -= handler`: removes one subscription, and does nothing
      when the handler is not subscribed. */
    method RemoveServerCustomValidationHandler()
      modifies this
      ensures old(validationHandlers) > 0 ==>
                State() == old(State()).(validationHandlers := old(validationHandlers) - 1)
      ensures old(validationHandlers) == 0 ==> State() == old(State())
    {
      if validationHandlers > 0 {
        validationHandlers := validationHandlers - 1;
      }
    }

    /** `IgnorableServerCertificateErrors.Add(error)`: appends to the list. */
    method AddIgnorableServerCertificateError(error: ChainValidationResult)
      modifies this
      ensures State() == old(State()).(ignorableErrors := old(ignorableServerCertificateErrors) + [error])
    {
      ignorableServerCertificateErrors := ignorableServerCertificateErrors + [error];
    }
  }

  /** CancellationTokenSource, reduced to whether cancellation was requested and whether it has
      been disposed. */
  class CancellationTokenSource {
    var isCancellationRequested: bool
    var isDisposed: bool

    constructor ()
      ensures !isCancellationRequested && !isDisposed
    {
      isCancellationRequested := false;
      isDisposed := false;
    }

    /** Cancel on a disposed source throws, so callers must not dispose first. */
    method Cancel()
      requires !isDisposed
      modifies this
      ensures isCancellationRequested && !isDisposed
    {
      isCancellationRequested := true;
    }

    method Dispose()
      modifies this
      ensures isDisposed && isCancellationRequested == old(isCancellationRequested)
    {
      isDisposed := true;
    }
  }
}
