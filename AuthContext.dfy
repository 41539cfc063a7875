/** The session store, `contexts/AuthContext.tsx`: the current user, a loading
    flag, and the 'usuario' / 'token' slots of browser storage. Each handler is
    one atomic step; `response` stands for what its remote call returns if made. */
module AuthContext {
  import opened Wrappers
  import opened Types
  import opened Storage

  /** How an awaited handler settles: resolved, or rethrowing the call's failure. */
  datatype Settled = Resolved | Rejected(failure: Remote<Usuario>)

  class AuthProvider {
    var usuario: Option<Usuario>
    var loading: bool
    var storage: Store

    /** Once hydration is over, the in-memory user is the user the 'usuario' slot
        describes (none when the slot is absent, empty or unparseable). */
    ghost predicate Synced()
      reads this
    {
      !loading ==> usuario == StoredUser(storage)
    }

    /** Mounting: no user yet, loading. */
    constructor (store: Store)
      ensures usuario.None? && loading && storage == store
      ensures Synced()
    {
      usuario := None;
      loading := true;
      storage := store;
    }

    /** The mount effect: a parseable 'usuario' becomes the current user; an
        unparseable one is removed and the user stays none; loading always ends. */
    method Hydrate()
      requires loading && usuario.None?
      modifies this
      ensures !loading && Synced()
      ensures USER_KEY in old(storage) && Truthy(old(storage)[USER_KEY]) && ParseUser(old(storage)[USER_KEY]).Some? ==>
        usuario == ParseUser(old(storage)[USER_KEY]) && storage == old(storage)
      ensures USER_KEY in old(storage) && Truthy(old(storage)[USER_KEY]) && ParseUser(old(storage)[USER_KEY]).None? ==>
        usuario.None? && storage == old(storage) - {USER_KEY}
      ensures !(USER_KEY in old(storage) && Truthy(old(storage)[USER_KEY])) ==>
        usuario.None? && storage == old(storage)
    {
      if USER_KEY in storage && Truthy(storage[USER_KEY]) {
        var parsed := ParseUser(storage[USER_KEY]);
        match parsed {
          case Some(u) => usuario := Some(u);
          case None => storage := storage - {USER_KEY};
        }
      }
      loading := false;
    }

    /** `login(gmail, contraseña)`: the credentials go to the login call (`called`);
        on success the user and the slot both become the server's user; on failure
        nothing changes and the failure is rethrown. */
    method Login(gmail: string, contrasena: string, response: Remote<Usuario>)
      returns (called: (string, string), settled: Settled)
      requires Synced()
      modifies this
      ensures called == (gmail, contrasena)
      ensures Synced() && loading == old(loading)
      ensures response.Ok? ==>
        && usuario == Some(response.value)
        && storage == old(storage)[USER_KEY := StringifyUser(response.value)]
        && settled == Resolved
      ensures response.Failed? ==>
        usuario == old(usuario) && storage == old(storage) && settled == Rejected(response)
    {
      called := (gmail, contrasena);
      match response {
        case Ok(u) =>
          usuario := Some(u);
          storage := storage[USER_KEY := StringifyUser(u)];
          UserRoundTrip(u);
          settled := Resolved;
        case Failed(_, _) =>
          settled := Rejected(response);
      }
    }

    /** `registro(usuarioData)`: the data goes unchanged to the sign-up call
        (`called`); success logs the new user in exactly as `login` does; failure
        changes nothing and is rethrown. */
    method Registro(usuarioData: Usuario, response: Remote<Usuario>)
      returns (called: Usuario, settled: Settled)
      requires Synced()
      modifies this
      ensures called == usuarioData
      ensures Synced() && loading == old(loading)
      ensures response.Ok? ==>
        && usuario == Some(response.value)
        && storage == old(storage)[USER_KEY := StringifyUser(response.value)]
        && settled == Resolved
      ensures response.Failed? ==>
        usuario == old(usuario) && storage == old(storage) && settled == Rejected(response)
    {
      called := usuarioData;
      match response {
        case Ok(nuevo) =>
          usuario := Some(nuevo);
          storage := storage[USER_KEY := StringifyUser(nuevo)];
          UserRoundTrip(nuevo);
          settled := Resolved;
        case Failed(_, _) =>
          settled := Rejected(response);
      }
    }

    /** `logout()`: the invalidation call is made (with the user's id, reported in
        `called`) only when the cached user has a non-empty id; whatever it returns
        is ignored, and the user and the 'usuario' and 'token' slots are always cleared. */
    method Logout() returns (called: Option<string>)
      modifies this
      ensures called.Some? <==> old(usuario).Some? && HasId(old(usuario).value)
      ensures called.Some? ==> called == old(usuario).value.idUsuario
      ensures usuario.None?
      ensures storage == old(storage) - {USER_KEY, TOKEN_KEY}
      ensures loading == old(loading) && Synced()
    {
      called := None;
      if usuario.Some? && HasId(usuario.value) {
        called := usuario.value.idUsuario;
      }
      usuario := None;
      storage := storage - {USER_KEY};
      storage := storage - {TOKEN_KEY};
    }

    /** `updateUsuario(usuarioData)`: nothing at all without an id; otherwise the
        server's answer replaces the cached user and the slot, and a failure changes
        nothing and is rethrown. `called` is the (id, data) pair sent. */
    method UpdateUsuario(usuarioData: Usuario, response: Remote<Usuario>)
      returns (called: Option<(string, Usuario)>, settled: Settled)
      requires Synced()
      modifies this
      ensures Synced() && loading == old(loading)
      ensures !(old(usuario).Some? && HasId(old(usuario).value)) ==>
        called.None? && settled == Resolved && usuario == old(usuario) && storage == old(storage)
      ensures old(usuario).Some? && HasId(old(usuario).value) ==>
        called == Some((old(usuario).value.idUsuario.value, usuarioData))
      ensures old(usuario).Some? && HasId(old(usuario).value) && response.Ok? ==>
        && usuario == Some(response.value)
        && storage == old(storage)[USER_KEY := StringifyUser(response.value)]
        && settled == Resolved
      ensures old(usuario).Some? && HasId(old(usuario).value) && response.Failed? ==>
        usuario == old(usuario) && storage == old(storage) && settled == Rejected(response)
    {
      if !(usuario.Some? && HasId(usuario.value)) {
        return None, Resolved;
      }
      called := Some((usuario.value.idUsuario.value, usuarioData));
      match response {
        case Ok(actualizado) =>
          usuario := Some(actualizado);
          storage := storage[USER_KEY := StringifyUser(actualizado)];
          UserRoundTrip(actualizado);
          settled := Resolved;
        case Failed(_, _) =>
          settled := Rejected(response);
      }
    }
  }
}
