/** The client-side session (AuthContext.tsx): the logged-in user, the
    loading flag and the last error, with the mock login and register,
    logout, profile update and address book. */
module AuthContext {
  import opened Wrappers
  import opened Addresses

  datatype User = User(
    id: string,
    name: string,
    email: string,
    phone: Option<string>,
    role: string,
    token: string,
    addresses: Option<seq<Address>>)

  /** A `Partial<User>`: `Some` marks a field present in the object, and
      for the optional fields `Some(None)` one present as `undefined`. */
  datatype UserPatch = UserPatch(
    id: Option<string>,
    name: Option<string>,
    email: Option<string>,
    phone: Option<Option<string>>,
    role: Option<string>,
    token: Option<string>,
    addresses: Option<Option<seq<Address>>>)

  const EmptyPatch: UserPatch := UserPatch(None, None, None, None, None, None, None)

  /** The user `login` stores for any email and password. */
  function MockLoginUser(email: string): (u: User)
    ensures u.email == email && u.role == "user"
    ensures u.addresses.Some? && |u.addresses.value| == 1 && u.addresses.value[0].isDefault
    ensures AtMostOneDefault(u.addresses.value)
  {
    User("123456", "John Doe", email, Some("+1 (555) 123-4567"), "user", "mock-token-xyz",
         Some([Address("addr1", "123 Fashion Street", "New York", "NY", "10001", "USA", true)]))
  }

  /** The user `register` stores: the given name and email, no phone and
      an empty address book. */
  function MockRegisteredUser(name: string, email: string): (u: User)
    ensures u.name == name && u.email == email && u.role == "user"
    ensures u.phone.None? && u.addresses == Some([])
  {
    User("123456", name, email, None, "user", "mock-token-xyz", Some([]))
  }

  /** `{ ...user, ...userData }`: each field present in the patch wins. */
  function Patched(u: User, p: UserPatch): (r: User)
    ensures p == EmptyPatch ==> r == u
    ensures p.email.None? && p.role.None? ==> r.email == u.email && r.role == u.role
  {
    User(p.id.GetOr(u.id), p.name.GetOr(u.name), p.email.GetOr(u.email), p.phone.GetOr(u.phone),
         p.role.GetOr(u.role), p.token.GetOr(u.token), p.addresses.GetOr(u.addresses))
  }

  /** `{ ...p, ...q }` for two patches. */
  function Then(p: UserPatch, q: UserPatch): UserPatch
  {
    UserPatch(if q.id.Some? then q.id else p.id,
              if q.name.Some? then q.name else p.name,
              if q.email.Some? then q.email else p.email,
              if q.phone.Some? then q.phone else p.phone,
              if q.role.Some? then q.role else p.role,
              if q.token.Some? then q.token else p.token,
              if q.addresses.Some? then q.addresses else p.addresses)
  }

  /** Spreading a patch: a field present in the patch takes the patch's
      value and an absent one keeps its value, an empty patch changes
      nothing, the same patch twice is the same as once, and two successive
      patches are one patch in which the later fields win. */
  lemma PatchLaws(u: User, p: UserPatch, q: UserPatch)
    ensures p.id.Some? ==> Patched(u, p).id == p.id.value
    ensures p.id.None? ==> Patched(u, p).id == u.id
    ensures p.name.Some? ==> Patched(u, p).name == p.name.value
    ensures p.name.None? ==> Patched(u, p).name == u.name
    ensures p.email.Some? ==> Patched(u, p).email == p.email.value
    ensures p.email.None? ==> Patched(u, p).email == u.email
    ensures p.phone.Some? ==> Patched(u, p).phone == p.phone.value
    ensures p.phone.None? ==> Patched(u, p).phone == u.phone
    ensures p.role.Some? ==> Patched(u, p).role == p.role.value
    ensures p.role.None? ==> Patched(u, p).role == u.role
    ensures p.token.Some? ==> Patched(u, p).token == p.token.value
    ensures p.token.None? ==> Patched(u, p).token == u.token
    ensures p.addresses.Some? ==> Patched(u, p).addresses == p.addresses.value
    ensures p.addresses.None? ==> Patched(u, p).addresses == u.addresses
    ensures Patched(u, EmptyPatch) == u
    ensures Patched(Patched(u, p), p) == Patched(u, p)
    ensures Patched(Patched(u, p), q) == Patched(u, Then(p, q))
  {
  }

  /** The user after `addAddress`: an absent address book counts as empty. */
  function WithNewAddress(u: User, a: Address): (r: User)
    ensures r.addresses.Some? && r.addresses.value == WithAddress(u.addresses.GetOr([]), a)
    ensures r.(addresses := u.addresses) == u
  {
    u.(addresses := Some(WithAddress(u.addresses.GetOr([]), a)))
  }

  /** A user whose address book has at most one default keeps that after
      an address is added, and a new default address is the only one. */
  lemma NewAddressKeepsOneDefault(u: User, a: Address)
    requires u.addresses.None? || AtMostOneDefault(u.addresses.value)
    ensures AtMostOneDefault(WithNewAddress(u, a).addresses.value)
    ensures a.isDefault ==> DefaultCount(WithNewAddress(u, a).addresses.value) == 1
  {
    WithAddressKeepsOneDefault(u.addresses.GetOr([]), a);
  }

  class AuthSession {
    var user: Option<User>
    var loading: bool
    var error: Option<string>

    /** The provider after its mount effect: the stored user, if any, and
        `loading` cleared. */
    constructor(stored: Option<User>)
      ensures user == stored && !loading && error.None?
    {
      user, loading, error := stored, false, None;
    }

    /** `login`: the mock user carrying the given email; the password is not checked. */
    method Login(email: string, password: string)
      modifies this
      ensures user == Some(MockLoginUser(email)) && !loading && error.None?
    {
      loading, error := true, None;
      user := Some(MockLoginUser(email));
      loading := false;
    }

    /** `register`: the mock user with the given name and email. */
    method Register(name: string, email: string, password: string)
      modifies this
      ensures user == Some(MockRegisteredUser(name, email)) && !loading && error.None?
    {
      loading, error := true, None;
      user := Some(MockRegisteredUser(name, email));
      loading := false;
    }

    /** `logout`: no user; the other fields are left alone. */
    method Logout()
      modifies this`user
      ensures user.None?
    {
      user := None;
    }

    /** `updateUserProfile`: spreads the patch over the current user; with
        nobody logged in the user stays absent. */
    method UpdateUserProfile(patch: UserPatch)
      modifies this
      ensures old(user).None? ==> user.None?
      ensures old(user).Some? ==> user == Some(Patched(old(user).value, patch))
      ensures !loading && error.None?
    {
      loading, error := true, None;
      if user.Some? {
        user := Some(Patched(user.value, patch));
      }
      loading := false;
    }

    /** `addAddress`: `addressId` stands for the `addr<timestamp>` id the
        page derives from the clock. With nobody logged in nothing changes. */
    method AddAddress(addressId: string, street: string, city: string, state: string,
                      postalCode: string, country: string, isDefault: bool)
      modifies this
      ensures old(user).None? ==> user.None?
      ensures old(user).Some? ==>
                user == Some(WithNewAddress(old(user).value,
                               Address(addressId, street, city, state, postalCode, country, isDefault)))
      ensures !loading && error.None?
    {
      loading, error := true, None;
      if user.Some? {
        var newAddress := Address(addressId, street, city, state, postalCode, country, isDefault);
        var updated := user.value.addresses.GetOr([]);
        if isDefault {
          updated := UnsetDefaults(updated);
        }
        updated := updated + [newAddress];
        user := Some(user.value.(addresses := Some(updated)));
      }
      loading := false;
    }
  }
}
