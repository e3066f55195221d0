/** The "Create account" button of pages/Register.py: the two typed
    passwords must match before `register_user` is called. */
module RegisterPage {
  import AuthStore

  /** What the page shows after the button: an error or a success line. */
  datatype Feedback = Error(message: string) | Success(message: string)

  method CreateAccount(store: AuthStore.UserStore, email: string, password: string, confirm: string,
                       salt: AuthStore.Salt, now: int) returns (feedback: Feedback)
    modifies store
    ensures password != confirm ==> store.users == old(store.users) && feedback == Error("Passwords do not match.")
    ensures password == confirm ==>
              var r := AuthStore.Register(old(store.users), store.kdf, email, password, salt, now);
              && store.users == r.users
              && feedback == (if r.error.None? then Success(AuthStore.RegisterMessage(r.error))
                              else Error(AuthStore.RegisterMessage(r.error)))
  {
    if password != confirm {
      return Error("Passwords do not match.");
    }
    var ok, msg := store.RegisterUser(email, password, salt, now);
    if ok {
      feedback := Success(msg);
    } else {
      feedback := Error(msg);
    }
  }
}
