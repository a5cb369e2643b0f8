/**
 User accounts: the user record, the lookup by login name that registration
 and login both start with, the errors they raise, and the access token a
 successful login hands out.
 */
module Usuarios {
  import opened Domain

  /** A salesperson account. `password` holds whatever the store keeps for the credential. */
  datatype Usuario = Usuario(usuario: string, nombre: string, password: string, rol: string)

  /** The errors registration and login raise. */
  datatype ErrorAuth =
    | UsuarioYaExiste     // "El usuario ya existe"
    | UsuarioNoExiste     // "Ese usuario no existe"
    | PasswordIncorrecta  // "Password incorrecta"

  datatype Resultado<T> = Ok(value: T) | Err(error: ErrorAuth)

  /** How long a token stays valid. */
  const Expira: string := "1hr"

  /**
   A signed access token. Its only claim is the login name; the signature
   and the secret it is made with are not part of this model.
   */
  datatype Token = Token(usuario: string, expira: string)

  /** The token issued for a user: its login name, valid for `Expira`. */
  function CrearToken(u: Usuario): (t: Token)
    ensures t.usuario == u.usuario && t.expira == Expira
  {
    Token(u.usuario, Expira)
  }

  /** The login name is the token's only claim: name, password and role do not enter it. */
  lemma TokenSoloLogin(u: Usuario, v: Usuario)
    requires u.usuario == v.usuario
    ensures CrearToken(u) == CrearToken(v)
  {
  }

  /** No two accounts share a login name. */
  predicate LoginsUnicos(us: seq<Usuario>)
  {
    forall i, j :: 0 <= i < j < |us| ==> us[i].usuario != us[j].usuario
  }

  /**
   The lookup by login name: the position of the first account with that
   login name, or None when no account has it.
   */
  function Buscar(us: seq<Usuario>, login: string): (r: Option<nat>)
    ensures r.Some? ==> r.value < |us| && us[r.value].usuario == login
    ensures r.Some? ==> forall k :: 0 <= k < r.value ==> us[k].usuario != login
    ensures r.None? <==> forall k :: 0 <= k < |us| ==> us[k].usuario != login
    decreases |us|
  {
    if us == [] then None
    else if us[0].usuario == login then Some(0)
    else
      assert forall k :: 1 <= k < |us| ==> us[k] == us[1..][k - 1];
      match Buscar(us[1..], login)
      case None => None
      case Some(k) => Some(k + 1)
  }

  /** Registering a login name nobody has keeps login names unique. */
  lemma {:induction false} AltaConservaUnicos(us: seq<Usuario>, u: Usuario)
    requires LoginsUnicos(us) && Buscar(us, u.usuario).None?
    ensures LoginsUnicos(us + [u])
  {
    var us' := us + [u];
    forall i, j | 0 <= i < j < |us'|
      ensures us'[i].usuario != us'[j].usuario
    {
      assert us'[i] == us[i];
      if j < |us| {
        assert us'[j] == us[j];
      }
    }
  }
}
