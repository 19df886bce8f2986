/** The user endpoints (userController.js): registration, login, the
    profile, saved addresses and the wishlist of a user document. */
module UserController {
  import opened Wrappers
  import opened Http
  import opened Addresses
  import Seqs

  type UserId = string
  type ProductId = string

  /** The body of a successful `getUserProfile` response. */
  datatype Profile = Profile(
    id: UserId, name: string, email: string, phone: string,
    addresses: seq<Address>, wishlist: seq<ProductId>)

  /** A user document; `phone` is "" while the user has none. */
  class UserDocument {
    const id: UserId
    var name: string
    var email: string
    var phone: string
    var password: string
    var addresses: seq<Address>
    var wishlist: seq<ProductId>

    /** What every stored user keeps: at most one default address and a
        wishlist without repeats. */
    ghost predicate Stored()
      reads this
    {
      AtMostOneDefault(addresses) && Seqs.NoDuplicates(wishlist)
    }

    function ToProfile(): (p: Profile)
      reads this
      ensures p.id == id && p.email == email && p.addresses == addresses && p.wishlist == wishlist
    {
      Profile(id, name, email, phone, addresses, wishlist)
    }

    /** `User.create({ name, email, password })`: no addresses, an empty wishlist. */
    constructor(id: UserId, name: string, email: string, password: string)
      ensures Stored()
      ensures this.id == id && this.name == name && this.email == email && this.password == password
      ensures phone == "" && addresses == [] && wishlist == []
    {
      this.id, this.name, this.email, this.password := id, name, email, password;
      phone, addresses, wishlist := "", [], [];
    }

    /** The field assignments of `updateUserProfile`: falsy request fields
        keep the stored value, and the password changes only when one is given. */
    method UpdateProfile(name': Option<string>, email': Option<string>, phone': Option<string>,
                         password': Option<string>)
      requires Stored()
      modifies this
      ensures Stored()
      ensures name == TextOr(name', old(name)) && email == TextOr(email', old(email))
      ensures phone == TextOr(phone', old(phone)) && password == TextOr(password', old(password))
      ensures addresses == old(addresses) && wishlist == old(wishlist)
    {
      name := TextOr(name', name);
      email := TextOr(email', email);
      phone := TextOr(phone', phone);
      if password'.Some? && password'.value != "" {
        password := password'.value;
      }
    }

    /** The body of `addUserAddress`: an absent `isDefault` is false; a new
        default first unsets the mark on every stored address; the address
        is then pushed. */
    method AddAddress(addressId: string, street: string, city: string, state: string,
                      postalCode: string, country: string, isDefault: Option<bool>)
      returns (added: Address)
      requires Stored()
      modifies this
      ensures Stored()
      ensures added == Address(addressId, street, city, state, postalCode, country, isDefault.GetOr(false))
      ensures addresses == WithAddress(old(addresses), added)
      ensures name == old(name) && email == old(email) && phone == old(phone)
      ensures password == old(password) && wishlist == old(wishlist)
    {
      added := Address(addressId, street, city, state, postalCode, country, isDefault.GetOr(false));
      var updated := addresses;
      if added.isDefault {
        updated := UnsetDefaults(updated);
      }
      updated := updated + [added];
      WithAddressKeepsOneDefault(addresses, added);
      addresses := updated;
    }

    /** The body of `addToWishlist`: 400 when the product is already
        listed, otherwise it is appended. */
    method AddToWishlist(product: ProductId) returns (status: Status)
      requires Stored()
      modifies this`wishlist
      ensures Stored()
      ensures product in old(wishlist) ==> status == BadRequest && wishlist == old(wishlist)
      ensures product !in old(wishlist) ==> status == Created && wishlist == old(wishlist) + [product]
    {
      if product in wishlist {
        return BadRequest;
      }
      wishlist := wishlist + [product];
      status := Created;
    }

    /** The body of `removeFromWishlist`: every copy of the id is filtered out. */
    method RemoveFromWishlist(product: ProductId)
      requires Stored()
      modifies this`wishlist
      ensures Stored()
      ensures wishlist == Seqs.RemoveAll(old(wishlist), product)
    {
      Seqs.RemoveAllKeepsNoDuplicates(wishlist, product);
      wishlist := Seqs.RemoveAll(wishlist, product);
    }
  }

  /** The wishlist behaves as a set: adding a listed product or removing
      an absent one changes nothing, removal is idempotent, and an add
      followed by a remove restores the list. */
  lemma WishlistIsASet(wishlist: seq<ProductId>, product: ProductId)
    requires Seqs.NoDuplicates(wishlist)
    ensures product !in wishlist ==> Seqs.RemoveAll(wishlist, product) == wishlist
    ensures Seqs.RemoveAll(Seqs.RemoveAll(wishlist, product), product) == Seqs.RemoveAll(wishlist, product)
    ensures product !in wishlist ==> Seqs.RemoveAll(wishlist + [product], product) == wishlist
    ensures product !in wishlist ==> Seqs.NoDuplicates(wishlist + [product])
  {
    Seqs.RemoveAllIdempotent(wishlist, product);
    if product !in wishlist {
      Seqs.RemoveAllAbsent(wishlist, product);
      Seqs.RemoveAllUndoesAppend(wishlist, product);
      var s := wishlist + [product];
      forall i, j | 0 <= i < j < |s| ensures s[i] != s[j] {
        if j == |wishlist| {
          assert s[i] == wishlist[i];
        } else {
          assert s[i] == wishlist[i] && s[j] == wishlist[j];
        }
      }
    }
  }

  /** The user collection: `User.findById` is a lookup in `users`. */
  class UserStore {
    var users: map<UserId, UserDocument>

    ghost predicate Valid()
      reads this, users.Values
    {
      forall u :: u in users ==> users[u].id == u && users[u].Stored()
    }

    predicate EmailTaken(email: string)
      reads this, users.Values
    {
      exists u :: u in users && users[u].email == email
    }

    constructor()
      ensures Valid() && users == map[]
    {
      users := map[];
    }

    /** `registerUser`: 400 when some user already has the email, else a
        new user document under the id the database assigns. */
    method RegisterUser(id: UserId, name: string, email: string, password: string) returns (status: Status)
      requires Valid() && id !in users
      modifies this
      ensures Valid()
      ensures old(EmailTaken(email)) ==> status == BadRequest && users == old(users)
      ensures !old(EmailTaken(email)) ==>
                && status == Created
                && id in users && fresh(users[id])
                && users == old(users)[id := users[id]]
                && users[id].ToProfile() == Profile(id, name, email, "", [], [])
                && users[id].password == password
    {
      if EmailTaken(email) {
        return BadRequest;
      }
      var doc := new UserDocument(id, name, email, password);
      users := users[id := doc];
      status := Created;
    }

    /** `loginUser`: the user found by email, when `passwordMatches` (the
        stored hash check) accepts the password; otherwise 401. */
    method LoginUser(email: string, password: string, passwordMatches: (string, string) -> bool)
      returns (status: Status, user: Option<UserId>)
      requires Valid()
      ensures status == Ok || status == Unauthorized
      ensures status == Ok <==> user.Some?
      ensures user.Some? ==> user.value in users && users[user.value].email == email
                             && passwordMatches(users[user.value].password, password)
      ensures !EmailTaken(email) ==> status == Unauthorized
      ensures EmailTaken(email)
              && (forall u :: u in users && users[u].email == email ==> passwordMatches(users[u].password, password))
              ==> status == Ok
    {
      if !EmailTaken(email) {
        return Unauthorized, None;
      }
      var u :| u in users && users[u].email == email;
      if passwordMatches(users[u].password, password) {
        return Ok, Some(u);
      }
      return Unauthorized, None;
    }

    /** `getUserProfile`: 404 for a missing user. */
    method GetUserProfile(user: UserId) returns (status: Status, profile: Option<Profile>)
      requires Valid()
      ensures user in users ==> status == Ok && profile == Some(users[user].ToProfile())
      ensures user !in users ==> status == NotFound && profile == None
      ensures profile.Some? ==> AtMostOneDefault(profile.value.addresses) && profile.value.id == user
    {
      if user !in users {
        return NotFound, None;
      }
      return Ok, Some(users[user].ToProfile());
    }

    /** `updateUserProfile`: 404 for a missing user. */
    method UpdateUserProfile(user: UserId, name: Option<string>, email: Option<string>,
                             phone: Option<string>, password: Option<string>)
      returns (status: Status)
      requires Valid()
      modifies if user in users then {users[user]} else {}
      ensures Valid()
      ensures user !in users ==> status == NotFound
      ensures user in users ==>
                && status == Ok
                && users[user].name == TextOr(name, old(users[user].name))
                && users[user].email == TextOr(email, old(users[user].email))
                && users[user].phone == TextOr(phone, old(users[user].phone))
                && users[user].password == TextOr(password, old(users[user].password))
                && users[user].addresses == old(users[user].addresses)
                && users[user].wishlist == old(users[user].wishlist)
    {
      if user !in users {
        return NotFound;
      }
      users[user].UpdateProfile(name, email, phone, password);
      status := Ok;
    }

    /** `addUserAddress`: 404 for a missing user, 201 otherwise. */
    method AddUserAddress(user: UserId, addressId: string, street: string, city: string, state: string,
                          postalCode: string, country: string, isDefault: Option<bool>)
      returns (status: Status)
      requires Valid()
      modifies if user in users then {users[user]} else {}
      ensures Valid()
      ensures user !in users ==> status == NotFound
      ensures user in users ==>
                && status == Created
                && users[user].addresses == WithAddress(old(users[user].addresses),
                     Address(addressId, street, city, state, postalCode, country, isDefault.GetOr(false)))
                && users[user].wishlist == old(users[user].wishlist)
      ensures user in users ==>
                && users[user].name == old(users[user].name) && users[user].email == old(users[user].email)
                && users[user].phone == old(users[user].phone) && users[user].password == old(users[user].password)
    {
      if user !in users {
        return NotFound;
      }
      var _ := users[user].AddAddress(addressId, street, city, state, postalCode, country, isDefault);
      status := Created;
    }

    /** `addToWishlist`: 404 for a missing user. */
    method AddToWishlist(user: UserId, product: ProductId) returns (status: Status)
      requires Valid()
      modifies if user in users then {users[user]} else {}
      ensures Valid()
      ensures user !in users ==> status == NotFound
      ensures user in users && product in old(users[user].wishlist) ==>
                status == BadRequest && users[user].wishlist == old(users[user].wishlist)
      ensures user in users && product !in old(users[user].wishlist) ==>
                status == Created && users[user].wishlist == old(users[user].wishlist) + [product]
      ensures user in users ==>
                && users[user].name == old(users[user].name) && users[user].email == old(users[user].email)
                && users[user].phone == old(users[user].phone) && users[user].password == old(users[user].password)
                && users[user].addresses == old(users[user].addresses)
    {
      if user !in users {
        return NotFound;
      }
      status := users[user].AddToWishlist(product);
    }

    /** `removeFromWishlist`: 404 for a missing user, 200 otherwise, also
        when the product was not listed. */
    method RemoveFromWishlist(user: UserId, product: ProductId) returns (status: Status)
      requires Valid()
      modifies if user in users then {users[user]} else {}
      ensures Valid()
      ensures user !in users ==> status == NotFound
      ensures user in users ==>
                status == Ok && users[user].wishlist == Seqs.RemoveAll(old(users[user].wishlist), product)
      ensures user in users ==>
                && users[user].name == old(users[user].name) && users[user].email == old(users[user].email)
                && users[user].phone == old(users[user].phone) && users[user].password == old(users[user].password)
                && users[user].addresses == old(users[user].addresses)
    {
      if user !in users {
        return NotFound;
      }
      users[user].RemoveFromWishlist(product);
      status := Ok;
    }
  }
}
