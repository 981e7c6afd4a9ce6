/**
 * The client-side auth store: the signed-in user, or none, and the flag
 * `isAuth` that the store keeps equal to "a user is signed in".
 */
module AuthStore {
  import opened Common

  datatype User = User(id: string, role: string, email: string, name: string)

  /** The store's state. */
  datatype AuthState = AuthState(user: Option<User>, isAuth: bool)

  /** The store's actions. */
  datatype Action = SetUser(user: Option<User>) | Logout

  /** The state the store is created with. */
  const Initial := AuthState(None, false)

  /** `isAuth` says whether a user is stored. */
  predicate Consistent(s: AuthState)
  {
    s.isAuth == s.user.Some?
  }

  /** The state after an action: `set({ user, isAuth: !!user })` or `set({ user: null, isAuth: false })`. */
  function Apply(s: AuthState, a: Action): (t: AuthState)
    ensures Consistent(t)
    ensures a.SetUser? ==> t.user == a.user
    ensures a.Logout? ==> t.user.None?
  {
    match a
    case SetUser(u) => AuthState(u, u.Some?)
    case Logout => AuthState(None, false)
  }

  /** The state after a run of actions from a given state. */
  function Run(s: AuthState, actions: seq<Action>): AuthState
    decreases |actions|
  {
    if actions == [] then s else Run(Apply(s, actions[0]), actions[1..])
  }

  /** Whatever actions run from a consistent state, `isAuth` keeps agreeing with the stored user. */
  lemma {:induction false} RunKeepsConsistent(s: AuthState, actions: seq<Action>)
    requires Consistent(s)
    ensures Consistent(Run(s, actions))
    ensures actions != [] ==> Run(s, actions) == Apply(s, actions[|actions| - 1])
    decreases |actions|
  {
    if actions != [] {
      RunKeepsConsistent(Apply(s, actions[0]), actions[1..]);
      if |actions| == 1 {
        assert Run(s, actions) == Run(Apply(s, actions[0]), []);
      } else {
        assert actions[1..][|actions[1..]| - 1] == actions[|actions| - 1];
      }
    }
  }

  /** Storing no user is the same as logging out. */
  lemma SetNullIsLogout(s: AuthState)
    ensures Apply(s, SetUser(None)) == Apply(s, Logout)
  {
  }

  /** Logging out twice is logging out once. */
  lemma LogoutIdempotent(s: AuthState)
    ensures Apply(Apply(s, Logout), Logout) == Apply(s, Logout)
  {
  }

  /** The zustand store. */
  class Store {
    var user: Option<User>
    var isAuth: bool

    function State(): AuthState
      reads this
    {
      AuthState(user, isAuth)
    }

    constructor ()
      ensures State() == Initial && Consistent(State())
    {
      user := None;
      isAuth := false;
    }

    /** `setUser` */
    method SetUser(u: Option<User>)
      modifies this
      ensures State() == Apply(old(State()), Action.SetUser(u))
      ensures user == u && (isAuth <==> u.Some?)
    {
      user := u;
      isAuth := u.Some?;
    }

    /** `logout` */
    method Logout()
      modifies this
      ensures State() == Apply(old(State()), Action.Logout)
      ensures user.None? && !isAuth
    {
      user := None;
      isAuth := false;
    }
  }
}
