/** The authentication store: the signed-in user, a flag derived from it, and the role chosen before sign-in. */
module Auth {
  import opened Wrappers

  datatype Role = Student | Mentor {
    /** The string the API and the routes use for the role. */
    function Name(): string {
      match this
      case Student => "student"
      case Mentor => "mentor"
    }
  }

  datatype User = User(
    id: string,
    username: string,
    email: string,
    name: string,
    avatar: Option<string>,
    role: Role,
    bio: Option<string>,
    skills: Option<seq<string>>,
    socialLinks: Option<map<string, string>>)

  class AuthStore {
    var user: Option<User>
    var isAuthenticated: bool
    var pendingRole: Option<Role>

    /** The flag says whether a user is present. */
    ghost predicate Valid()
      reads this
    {
      isAuthenticated <==> user.Some?
    }

    constructor ()
      ensures user == None && !isAuthenticated && pendingRole == None
      ensures Valid()
    {
      user := None;
      isAuthenticated := false;
      pendingRole := None;
    }

    /** `set({ user, isAuthenticated: !!user })`. */
    method SetUser(u: Option<User>)
      modifies this`user, this`isAuthenticated
      ensures user == u && isAuthenticated == u.Some?
      ensures Valid()
    {
      user := u;
      isAuthenticated := u.Some?;
    }

    method SetPendingRole(role: Option<Role>)
      modifies this`pendingRole
      ensures pendingRole == role
      ensures Valid() == old(Valid())
    {
      pendingRole := role;
    }

    /** Clears all three fields in one update. */
    method Logout()
      modifies this
      ensures user == None && !isAuthenticated && pendingRole == None
      ensures Valid()
    {
      user, isAuthenticated, pendingRole := None, false, None;
    }
  }
}
