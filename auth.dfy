/** The session: the signed-in user (kept without a password), login and
    registration against the user table, and logout, which also empties the cart
    and the wishlist. With the chaos setting on, a call may fail before it reaches
    the table; `fails` stands for that simulated failure. */
module Auth {
  import opened Common
  import opened Users
  import Cart
  import Wishlist

  const LoginServerError := "Server error. Please try again later."
  const RegisterServerError := "Registration failed. Please try again later."

  /** The copy of an account that the session keeps. */
  function WithoutPassword(u: User): (r: User)
    ensures r.password == "" && r.(password := u.password) == u
  {
    u.(password := "")
  }

  /** The `{ success, error }` a call returns, from the table's result. */
  function Outcome(r: Result<User>): Result<()> {
    match r
    case Ok(_) => Ok(())
    case Err(e) => Err(e)
  }

  class Session {
    var user: Option<User>
    var isLoading: bool
    /** `VITE_ENABLE_AUTH_CHAOS`. */
    const chaos: bool
    const users: UserStore
    const cart: Cart.CartStore
    const wishlist: Wishlist.WishlistStore

    constructor (chaos: bool, users: UserStore, cart: Cart.CartStore, wishlist: Wishlist.WishlistStore)
      ensures user == None && !isLoading && this.chaos == chaos && NoPasswordKept()
      ensures this.users == users && this.cart == cart && this.wishlist == wishlist
    {
      user := None;
      isLoading := false;
      this.chaos := chaos;
      this.users := users;
      this.cart := cart;
      this.wishlist := wishlist;
    }

    /** The session never holds a password. */
    predicate NoPasswordKept()
      reads this
    {
      user.Some? ==> user.value.password == ""
    }

    predicate IsAuthenticated()
      reads this
      ensures IsAuthenticated() <==> user != None
    {
      user.Some?
    }

    /** `login`. */
    method Login(email: string, password: string, fails: bool) returns (r: Result<()>)
      requires NoPasswordKept()
      modifies this
      ensures !isLoading && NoPasswordKept()
      ensures chaos && fails ==> r == Err(LoginServerError) && user == old(user)
      ensures !(chaos && fails) ==>
                var v := ValidateLogin(users.users, email, password);
                && r == Outcome(v)
                && (v.Ok? ==> user == Some(WithoutPassword(v.value)))
                && (v.Err? ==> user == old(user))
    {
      isLoading := true;
      if chaos && fails {
        isLoading := false;
        return Err(LoginServerError);
      }
      var v := users.Login(email, password);
      if v.Ok? {
        user := Some(WithoutPassword(v.value));
      }
      isLoading := false;
      return Outcome(v);
    }

    /** `register`. The new account's id and timestamp are supplied. */
    method Register(email: string, password: string, name: string, id: string, now: int, fails: bool)
      returns (r: Result<()>)
      requires users.Valid() && NoPasswordKept()
      modifies this, users
      ensures !isLoading && users.Valid() && NoPasswordKept()
      ensures chaos && fails ==>
                r == Err(RegisterServerError) && user == old(user) && users.users == old(users.users)
      ensures !(chaos && fails) ==>
              var (after, v) := Users.Register(old(users.users), email, password, name, id, now);
              && users.users == after
              && r == Outcome(v)
              && (v.Ok? ==> user == Some(WithoutPassword(v.value)))
              && (v.Err? ==> user == old(user))
    {
      isLoading := true;
      if chaos && fails {
        isLoading := false;
        return Err(RegisterServerError);
      }
      var v := users.RegisterUser(email, password, name, id, now);
      if v.Ok? {
        user := Some(WithoutPassword(v.value));
      }
      isLoading := false;
      return Outcome(v);
    }

    method Logout()
      modifies this, cart, wishlist
      ensures user == None && !IsAuthenticated() && NoPasswordKept()
      ensures cart.items == [] && wishlist.items == []
      ensures isLoading == old(isLoading) && cart.isLoading == old(cart.isLoading)
    {
      user := None;
      cart.ClearCart();
      wishlist.ClearWishlist();
    }
  }
}
