/** The auth slice (ever-greater-client/src/store/slices/authSlice.ts): the signed-in user, the
    two loading flags and the last error. Each reducer case assigns a fixed set of fields of
    the draft state in place; the thunks themselves (HTTP calls) are outside the model, so
    their outcomes arrive as pending / fulfilled / rejected actions with a payload. */
module AuthSlice {
  import opened Wrappers

  /** The user record the server returns (`User` in api/auth.ts). */
  datatype User = User(
    id: int,
    email: string,
    ticketsContributed: int,
    printerSupplies: int,
    money: int,
    gold: int,
    autoprinters: int)

  /** Payloads of the fulfilled buy actions. */
  datatype SuppliesPurchase = SuppliesPurchase(money: int, printerSupplies: int)
  datatype GoldPurchase = GoldPurchase(money: int, gold: int)
  datatype AutoprinterPurchase = AutoprinterPurchase(gold: int, autoprinters: int)

  /** The thunks whose pending and rejected cases drive `isLoading` (every thunk but checkAuth). */
  datatype LoadingThunk = Login | Signup | Logout | BuySupplies | BuyGold | BuyAutoprinter

  class AuthState {
    var user: Option<User>
    var isCheckingAuth: bool
    var isLoading: bool
    var error: Option<string>

    /** `initialState`: no user, authentication still being checked, nothing loading. */
    constructor ()
      ensures user == None && isCheckingAuth && !isLoading && error == None
    {
      user := None;
      isCheckingAuth := true;
      isLoading := false;
      error := None;
    }

    /** `clearError`: only the error is reset. */
    method ClearError()
      modifies this
      ensures error == None
      ensures user == old(user) && isCheckingAuth == old(isCheckingAuth) && isLoading == old(isLoading)
    {
      error := None;
    }

    /** `updateSupplies`: overwrites the user's supplies; a no-op without a user. */
    method UpdateSupplies(supplies: int)
      modifies this
      ensures user == if old(user).Some? then Some(old(user).value.(printerSupplies := supplies)) else None
      ensures isCheckingAuth == old(isCheckingAuth) && isLoading == old(isLoading) && error == old(error)
    {
      if user.Some? {
        user := Some(user.value.(printerSupplies := supplies));
      }
    }

    /** `updateMoney`: overwrites the user's money; a no-op without a user. */
    method UpdateMoney(money: int)
      modifies this
      ensures user == if old(user).Some? then Some(old(user).value.(money := money)) else None
      ensures isCheckingAuth == old(isCheckingAuth) && isLoading == old(isLoading) && error == old(error)
    {
      if user.Some? {
        user := Some(user.value.(money := money));
      }
    }

    /** checkAuth pending: authentication is being checked again and the error is cleared. */
    method CheckAuthPending()
      modifies this
      ensures isCheckingAuth && error == None
      ensures user == old(user) && isLoading == old(isLoading)
    {
      isCheckingAuth := true;
      error := None;
    }

    /** checkAuth fulfilled: the payload, possibly null, becomes the user. */
    method CheckAuthFulfilled(payload: Option<User>)
      modifies this
      ensures !isCheckingAuth && user == payload && error == None
      ensures isLoading == old(isLoading)
    {
      isCheckingAuth := false;
      user := payload;
      error := None;
    }

    /** checkAuth rejected: the user is dropped and the payload recorded as the error. */
    method CheckAuthRejected(payload: string)
      modifies this
      ensures !isCheckingAuth && user == None && error == Some(payload)
      ensures isLoading == old(isLoading)
    {
      isCheckingAuth := false;
      user := None;
      error := Some(payload);
    }

    /** The pending case of login, signup, logout and the three buy thunks. */
    method Pending(thunk: LoadingThunk)
      modifies this
      ensures isLoading && error == None
      ensures user == old(user) && isCheckingAuth == old(isCheckingAuth)
    {
      isLoading := true;
      error := None;
    }

    /** The rejected case of login, signup, logout and the three buy thunks: the user is kept
        and the payload recorded as the error. */
    method Rejected(thunk: LoadingThunk, payload: string)
      modifies this
      ensures !isLoading && error == Some(payload)
      ensures user == old(user) && isCheckingAuth == old(isCheckingAuth)
    {
      isLoading := false;
      error := Some(payload);
    }

    /** login fulfilled: the payload becomes the user. */
    method LoginFulfilled(payload: User)
      modifies this
      ensures !isLoading && user == Some(payload) && error == None
      ensures isCheckingAuth == old(isCheckingAuth)
    {
      isLoading := false;
      user := Some(payload);
      error := None;
    }

    /** signup fulfilled: the payload becomes the user. */
    method SignupFulfilled(payload: User)
      modifies this
      ensures !isLoading && user == Some(payload) && error == None
      ensures isCheckingAuth == old(isCheckingAuth)
    {
      isLoading := false;
      user := Some(payload);
      error := None;
    }

    /** logout fulfilled: the user is gone. */
    method LogoutFulfilled()
      modifies this
      ensures !isLoading && user == None && error == None
      ensures isCheckingAuth == old(isCheckingAuth)
    {
      isLoading := false;
      user := None;
      error := None;
    }

    /** buySupplies fulfilled: money and supplies of an existing user are overwritten. */
    method BuySuppliesFulfilled(payload: SuppliesPurchase)
      modifies this
      ensures !isLoading && error == None
      ensures user == if old(user).Some?
        then Some(old(user).value.(money := payload.money, printerSupplies := payload.printerSupplies))
        else None
      ensures isCheckingAuth == old(isCheckingAuth)
    {
      isLoading := false;
      if user.Some? {
        user := Some(user.value.(money := payload.money));
        user := Some(user.value.(printerSupplies := payload.printerSupplies));
      }
      error := None;
    }

    /** buyGold fulfilled: money and gold of an existing user are overwritten. */
    method BuyGoldFulfilled(payload: GoldPurchase)
      modifies this
      ensures !isLoading && error == None
      ensures user == if old(user).Some?
        then Some(old(user).value.(money := payload.money, gold := payload.gold))
        else None
      ensures isCheckingAuth == old(isCheckingAuth)
    {
      isLoading := false;
      if user.Some? {
        user := Some(user.value.(money := payload.money));
        user := Some(user.value.(gold := payload.gold));
      }
      error := None;
    }

    /** buyAutoprinter fulfilled: gold and autoprinters of an existing user are overwritten. */
    method BuyAutoprinterFulfilled(payload: AutoprinterPurchase)
      modifies this
      ensures !isLoading && error == None
      ensures user == if old(user).Some?
        then Some(old(user).value.(gold := payload.gold, autoprinters := payload.autoprinters))
        else None
      ensures isCheckingAuth == old(isCheckingAuth)
    {
      isLoading := false;
      if user.Some? {
        user := Some(user.value.(gold := payload.gold));
        user := Some(user.value.(autoprinters := payload.autoprinters));
      }
      error := None;
    }
  }
}
