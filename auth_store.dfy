/** The client's session store: the signed-in user, whether the session
    counts as authenticated, and whether the persisted state was read
    back. Persistence to local storage is not part of this model. */
module AuthStore {
  import opened Wrappers

  datatype SessionUser = SessionUser(id: string, username: string, role: string)

  class AuthState {
    var user: Option<SessionUser>
    var isAuthenticated: bool
    var isHydrated: bool

    /** The store is authenticated exactly when it holds a user. */
    ghost predicate Valid()
      reads this
    {
      isAuthenticated <==> user.Some?
    }

    /** The store's fields as a `Snapshot` value. */
    function Snap(): Snapshot
      reads this
    {
      Snapshot(user, isAuthenticated, isHydrated)
    }

    constructor ()
      ensures Valid()
      ensures user.None? && !isAuthenticated && !isHydrated
      ensures Snap() == INITIAL
    {
      user := None;
      isAuthenticated := false;
      isHydrated := false;
    }

    /** `login(user)`. */
    method Login(u: SessionUser)
      modifies this`user, this`isAuthenticated
      ensures Valid()
      ensures user == Some(u) && isAuthenticated
      ensures Snap() == Step(old(Snap()), LoginAs(u))
    {
      user := Some(u);
      isAuthenticated := true;
    }

    /** `logout()`. */
    method Logout()
      modifies this`user, this`isAuthenticated
      ensures Valid()
      ensures user.None? && !isAuthenticated
      ensures Snap() == Step(old(Snap()), LogoutAction)
    {
      user := None;
      isAuthenticated := false;
    }

    /** `setHydrated()`, which the store calls once it read its state back. */
    method SetHydrated()
      modifies this`isHydrated
      ensures isHydrated
      ensures Snap() == Step(old(Snap()), Hydrate)
    {
      isHydrated := true;
    }
  }

  datatype Action = LoginAs(u: SessionUser) | LogoutAction | Hydrate

  /** The store's state as a value, for reasoning about runs of actions. */
  datatype Snapshot = Snapshot(user: Option<SessionUser>, isAuthenticated: bool, isHydrated: bool)

  const INITIAL: Snapshot := Snapshot(None, false, false)

  function Step(s: Snapshot, a: Action): (t: Snapshot)
    ensures a.LoginAs? ==> t.user == Some(a.u) && t.isAuthenticated && t.isHydrated == s.isHydrated
    ensures a.LogoutAction? ==> t.user.None? && !t.isAuthenticated && t.isHydrated == s.isHydrated
    ensures a.Hydrate? ==> t == s.(isHydrated := true)
  {
    match a
    case LoginAs(u) => s.(user := Some(u), isAuthenticated := true)
    case LogoutAction => s.(user := None, isAuthenticated := false)
    case Hydrate => s.(isHydrated := true)
  }

  function Run(s: Snapshot, actions: seq<Action>): Snapshot
    decreases |actions|
  {
    if actions == [] then s else Run(Step(s, actions[0]), actions[1..])
  }

  /** Every run of actions keeps "authenticated iff a user is held", and
      once hydrated the store stays hydrated. */
  lemma {:induction false} RunKeepsSession(s: Snapshot, actions: seq<Action>)
    requires s.isAuthenticated <==> s.user.Some?
    ensures var t := Run(s, actions); t.isAuthenticated <==> t.user.Some?
    ensures (exists i :: 0 <= i < |actions| && actions[i].Hydrate?) ==> Run(s, actions).isHydrated
    ensures s.isHydrated ==> Run(s, actions).isHydrated
    decreases |actions|
  {
    if actions != [] {
      RunKeepsSession(Step(s, actions[0]), actions[1..]);
      if exists i :: 0 <= i < |actions| && actions[i].Hydrate? {
        var i :| 0 <= i < |actions| && actions[i].Hydrate?;
        if i > 0 {
          assert actions[1..][i - 1].Hydrate?;
        }
      }
    }
  }
}
