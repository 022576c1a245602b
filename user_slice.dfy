// The global `auth` slice that holds the signed-in administrator. Its two
// reducers assign all three fields of a mutable draft of the state.

module UserSlice {
  import opened Wrappers

  /**
   * The profile fields the dashboard reads from the stored user. The slice's
   * `User` interface does not declare `birthdate` and `genre`; the settings
   * page reads them from the stored object all the same, so they are kept.
   */
  datatype User = User(
    idUser: string,
    email: string,
    firstname: string,
    lastname: string,
    birthdate: string,
    genre: string,
    avatar: string)

  /** A snapshot of the slice: `{ user, loading, error }`. */
  datatype SliceState = SliceState(user: Option<User>, loading: bool, error: Option<string>)

  datatype Action = UserLogout | SetUser(payload: User)

  /** The slice's `initialState`. */
  const Initial: SliceState := SliceState(None, false, None)

  /** What one reducer call leaves behind, starting from `s`. */
  function Reduce(s: SliceState, a: Action): (r: SliceState)
    ensures !r.loading && r.error.None?
    ensures a.UserLogout? ==> r == Initial
    ensures a.SetUser? ==> r.user == Some(a.payload)
  {
    match a
    case UserLogout => SliceState(None, false, None)
    case SetUser(u) => SliceState(Some(u), false, None)
  }

  /** The state after dispatching `actions` in order. */
  function ReduceAll(s: SliceState, actions: seq<Action>): SliceState
    decreases |actions|
  {
    if actions == [] then s else ReduceAll(Reduce(s, actions[0]), actions[1..])
  }

  /** Both reducers overwrite every field, so after any non-empty run only the last action matters. */
  lemma {:induction false} LastActionDecides(s: SliceState, actions: seq<Action>)
    requires actions != []
    ensures ReduceAll(s, actions) == Reduce(Initial, actions[|actions| - 1])
    decreases |actions|
  {
    if |actions| > 1 {
      LastActionDecides(Reduce(s, actions[0]), actions[1..]);
    }
  }

  /** Logging out twice is the same as logging out once. */
  lemma LogoutIdempotent(s: SliceState)
    ensures Reduce(Reduce(s, UserLogout), UserLogout) == Reduce(s, UserLogout)
  {
  }

  /** Of two consecutive `setUser` calls the second payload wins; `setUser` then `userLogout` is the initial state. */
  lemma SetUserThenActions(s: SliceState, u: User, v: User)
    ensures ReduceAll(s, [SetUser(u), SetUser(v)]).user == Some(v)
    ensures ReduceAll(s, [SetUser(u), UserLogout]) == Initial
  {
    LastActionDecides(s, [SetUser(u), SetUser(v)]);
    LastActionDecides(s, [SetUser(u), UserLogout]);
  }

  /** The store object whose fields the reducers assign in place. */
  class UserStore {
    var user: Option<User>
    var loading: bool
    var error: Option<string>

    function State(): SliceState
      reads this
    {
      SliceState(user, loading, error)
    }

    constructor ()
      ensures State() == Initial
    {
      user, loading, error := None, false, None;
    }

    /** `userLogout`: back to the initial values. */
    method UserLogout()
      modifies this
      ensures State() == Reduce(old(State()), Action.UserLogout)
      ensures State() == Initial
    {
      user := None;
      loading := false;
      error := None;
    }

    /** `setUser`: store the payload, clear the loading flag and the error. */
    method SetUser(payload: User)
      modifies this
      ensures State() == Reduce(old(State()), Action.SetUser(payload))
      ensures user == Some(payload) && !loading && error.None?
    {
      user := Some(payload);
      loading := false;
      error := None;
    }
  }
}
