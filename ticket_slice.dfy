/** The ticket slice (ever-greater-client/src/store/slices/ticketSlice.ts): the shared counter as
    the client last saw it, a loading flag and the last error. */
module TicketSlice {
  import opened Wrappers
  import AuthSlice

  /** The two thunks of the slice. */
  datatype TicketThunk = FetchCount | IncrementCount

  class TicketState {
    var count: int
    var isLoading: bool
    var error: Option<string>

    /** `initialState`: count 0, not loading, no error. */
    constructor ()
      ensures count == 0 && !isLoading && error == None
    {
      count := 0;
      isLoading := false;
      error := None;
    }

    /** `updateCount`: the payload becomes the count and the error is cleared; the loading flag
        is left alone. */
    method UpdateCount(payload: int)
      modifies this
      ensures count == payload && error == None
      ensures isLoading == old(isLoading)
    {
      count := payload;
      error := None;
    }

    /** `clearError`: only the error is reset. */
    method ClearError()
      modifies this
      ensures error == None
      ensures count == old(count) && isLoading == old(isLoading)
    {
      error := None;
    }

    /** The pending case of either thunk: loading starts, the error is cleared, the count kept. */
    method Pending(thunk: TicketThunk)
      modifies this
      ensures isLoading && error == None
      ensures count == old(count)
    {
      isLoading := true;
      error := None;
    }

    /** The fulfilled case of either thunk: the payload becomes the count. */
    method Fulfilled(thunk: TicketThunk, payload: int)
      modifies this
      ensures !isLoading && count == payload && error == None
    {
      isLoading := false;
      count := payload;
      error := None;
    }

    /** The rejected case of either thunk: the payload is recorded as the error and the count
        is never touched. */
    method Rejected(thunk: TicketThunk, payload: string)
      modifies this
      ensures !isLoading && error == Some(payload)
      ensures count == old(count)
    {
      isLoading := false;
      error := Some(payload);
    }
  }

  /** A successful incrementCount: the server's answer first updates the user's supplies in the
      auth slice (`updateSupplies(result.supplies)`), then fulfils with `result.count`. */
  method IncrementCountSucceeded(ticket: TicketState, auth: AuthSlice.AuthState, count: int, supplies: int)
    modifies ticket, auth
    ensures !ticket.isLoading && ticket.count == count && ticket.error == None
    ensures auth.user == if old(auth.user).Some?
      then Some(old(auth.user).value.(printerSupplies := supplies))
      else None
    ensures auth.isCheckingAuth == old(auth.isCheckingAuth)
    ensures auth.isLoading == old(auth.isLoading) && auth.error == old(auth.error)
  {
    auth.UpdateSupplies(supplies);
    ticket.Fulfilled(IncrementCount, count);
  }
}
