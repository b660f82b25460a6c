/** The auth store of `src/store/authStore.js`: the signed-in user and token, sign-in
    with reconciliation of the guest cart against the server cart, registration, and
    sign-out with best-effort remote clearing and unconditional local cleanup. */
module AuthStore {
  import opened Js
  import Api
  import CartStore
  import Debounce

  const AUTH_STORAGE_KEY: string := "auth-storage"
  const CART_STORAGE_KEY: string := "cart-storage"
  const CLEAR_ERROR_PREFIX: string := "Gagal membersihkan keranjang server: "

  /** The profile record the server returns; the client never looks inside it. */
  datatype User = User(id: string, username: string)

  /** The body of a `POST /auth/login` reply, with the fields the clients read. */
  datatype LoginData = LoginData(userData: Option<User>, token: Option<string>, message: Option<string>)

  /** The body of a `POST /auth/register` reply. */
  datatype RegisterData = RegisterData(message: Option<string>)

  type Request = Api.Request<CartStore.LineItem>

  /** The reconciliation call made right after the token is stored: the guest cart is
      pushed for merging when it has items, otherwise the server cart is fetched. */
  function ReconcileRequest(guest: seq<CartStore.LineItem>, token: Option<string>): (r: Request)
    ensures |guest| > 0 ==> r.path == "/pembeli/cart/sync" && r.payload == Api.CartPayload(guest)
    ensures |guest| == 0 ==> r.verb == Api.Get && r.path == "/pembeli/cart"
    ensures r.authorization == Api.AuthHeader(token)
  {
    if |guest| > 0 then Api.SyncMyCartRequest(guest, token) else Api.GetMyCartRequest(token)
  }

  /** `window.localStorage`, as far as sign-out uses it. */
  class LocalStorage {
    var entries: map<string, string>

    constructor (entries: map<string, string>)
      ensures this.entries == entries
    {
      this.entries := entries;
    }

    method RemoveItem(key: string)
      modifies this
      ensures entries == old(entries) - {key}
    {
      entries := entries - {key};
    }
  }

  class Session {
    var user: Option<User>
    var token: Option<string>
    /** The requests this store made, oldest first, as the request interceptor sent them. */
    var requests: seq<Request>
    /** The error toasts this store showed. */
    var toasts: seq<string>

    constructor ()
      ensures user == None && token == None && requests == [] && toasts == []
    {
      user := None;
      token := None;
      requests := [];
      toasts := [];
    }

    /** `login(username, password)`. `loginReply` and `cartReply` are the settled
        outcomes of the login call and of the reconciliation call.

        A failed login changes nothing and rethrows. After a successful login the user
        and token are stored at once, so the reconciliation call already carries the
        new token; the cart is replaced by the server's answer (`|| []`), bypassing the
        cart actions, so no sync is scheduled. If the reconciliation call fails, the
        session stays signed in, the guest cart stays, and the error is rethrown. */
    method Login(store: CartStore.Store, username: string, password: string,
                 loginReply: Result<LoginData>, cartReply: Result<Option<seq<CartStore.LineItem>>>)
      returns (r: Result<LoginData>)
      modifies this`user, this`token, this`requests, store`cart
      ensures loginReply.Err? ==>
                && r == loginReply
                && user == old(user) && token == old(token) && store.cart == old(store.cart)
                && requests == old(requests) + [Api.LoginRequest(username, password, old(token))]
      ensures loginReply.Ok? ==>
                && user == loginReply.value.userData && token == loginReply.value.token
                && requests == old(requests) + [Api.LoginRequest(username, password, old(token)),
                                                ReconcileRequest(old(store.cart), token)]
                && (cartReply.Ok? ==> r == loginReply && store.cart == OrEmpty(cartReply.value))
                && (cartReply.Err? ==> r == Err(cartReply.message) && store.cart == old(store.cart))
    {
      requests := requests + [Api.LoginRequest(username, password, token)];
      if loginReply.Err? {
        return loginReply;
      }
      var data := loginReply.value;
      user, token := data.userData, data.token;
      var guestCart := store.cart;
      requests := requests + [ReconcileRequest(guestCart, token)];
      if cartReply.Err? {
        return Err(cartReply.message);
      }
      store.cart := OrEmpty(cartReply.value);
      r := loginReply;
    }

    /** `register(...)`: one request and the reply passed through; nothing is stored. */
    method Register(username: string, email: string, password: string, namaLengkap: string,
                    reply: Result<RegisterData>)
      returns (r: Result<RegisterData>)
      modifies this`requests
      ensures r == reply
      ensures requests == old(requests) + [Api.RegisterRequest(username, email, password, namaLengkap, token)]
    {
      requests := requests + [Api.RegisterRequest(username, email, password, namaLengkap, token)];
      r := reply;
    }

    /** `logout()`: the remote clear is attempted with the current token and a failure
        only shows a toast; then, whatever happened, the session and the cart are
        emptied and both persisted records are removed. */
    method Logout(store: CartStore.Store, storage: LocalStorage, clearReply: Outcome)
      modifies this, store`cart, storage
      ensures requests == old(requests) + [Api.ClearMyCartRequest(old(token))]
      ensures toasts == old(toasts) + (if clearReply.Failed? then [CLEAR_ERROR_PREFIX + clearReply.message] else [])
      ensures user == None && token == None && store.cart == []
      ensures storage.entries == old(storage.entries) - {CART_STORAGE_KEY, AUTH_STORAGE_KEY}
    {
      requests := requests + [Api.ClearMyCartRequest(token)];
      if clearReply.Failed? {
        toasts := toasts + [CLEAR_ERROR_PREFIX + clearReply.message];
      }
      user, token := None, None;
      store.cart := [];
      storage.RemoveItem(CART_STORAGE_KEY);
      storage.RemoveItem(AUTH_STORAGE_KEY);
    }
  }

  /** Sign-in merge: a guest cart handed to the merge endpoint is replaced by exactly the
      cart the server returns, and the merge request carries the new token. */
  method SignInAdoptsMergedCart(guest: seq<CartStore.LineItem>, merged: seq<CartStore.LineItem>,
                                data: LoginData)
    returns (cart: seq<CartStore.LineItem>, sent: seq<Request>)
    requires |guest| > 0
    ensures cart == merged
    ensures sent == [Api.LoginRequest("user", "secret", None), Api.SyncMyCartRequest(guest, data.token)]
  {
    var store := new CartStore.Store();
    store.cart := guest;
    var session := new Session();
    var r := session.Login(store, "user", "secret", Ok(data), Ok(Some(merged)));
    cart, sent := store.cart, session.requests;
  }

  /** Sign-out cleanup: even when the remote clear fails, the cart is empty, the
      session is signed out and neither persisted record is left. */
  method SignOutCleansUpOnFailure(cart: seq<CartStore.LineItem>, token: string, saved: map<string, string>)
    returns (after: seq<CartStore.LineItem>, user: Option<User>, tok: Option<string>,
             stored: map<string, string>, toasts: seq<string>)
    ensures after == [] && user == None && tok == None
    ensures CART_STORAGE_KEY !in stored && AUTH_STORAGE_KEY !in stored
    ensures forall k :: k in saved && k != CART_STORAGE_KEY && k != AUTH_STORAGE_KEY ==> k in stored && stored[k] == saved[k]
    ensures toasts == [CLEAR_ERROR_PREFIX + "Network Error"]
  {
    var store := new CartStore.Store();
    store.cart := cart;
    var session := new Session();
    session.token := Some(token);
    var storage := new LocalStorage(saved);
    session.Logout(store, storage, Failed("Network Error"));
    after, user, tok, stored, toasts := store.cart, session.user, session.token, storage.entries, session.toasts;
  }

  /** A guest edit made shortly before signing in is still pending when the session
      gets its token. When its timer expires it pushes the GUEST snapshot, now with the
      new token, to the full-replace sync endpoint, although the local cart already
      holds the merged cart the server returned. */
  method GuestEditSyncsAfterLogin(product: CartStore.Product, data: LoginData, merged: seq<CartStore.LineItem>)
    returns (cart: seq<CartStore.LineItem>, pushed: seq<CartStore.SyncEffect>)
    requires product.toko.Some? && Truthy(data.token)
    ensures cart == merged
    ensures pushed == [CartStore.SyncRequest(Api.SyncMyCartRequest([CartStore.NewItem(product, None, 1)], data.token))]
  {
    var store := new CartStore.Store();
    store.AddItem(product);
    var guest := store.cart;
    assert guest == [CartStore.NewItem(product, None, 1)];
    var session := new Session();
    var r := session.Login(store, "user", "secret", Ok(data), Ok(Some(merged)));
    var k: nat := 0;
    while k < CartStore.SYNC_WAIT
      invariant k <= CartStore.SYNC_WAIT
      invariant store.cart == merged && session.token == data.token
      invariant store.timer.now == k
      invariant store.timer.pending == if k < CartStore.SYNC_WAIT then Some(Debounce.Pending(guest, CartStore.SYNC_WAIT)) else None
      invariant store.effects == if k < CartStore.SYNC_WAIT then [] else [CartStore.SyncRequest(Api.SyncMyCartRequest(guest, data.token))]
    {
      store.Tick(session.token, Done);
      k := k + 1;
    }
    cart, pushed := store.cart, store.effects;
  }
}
