/** `AuthenticationService.autenticar` and its brute-force protection:
    the per-user `LoginAttemptInfo` records of failed logins and the
    lock they trigger. The clock is a parameter (minutes as an integer),
    and so are the user query and the BCrypt password check. The
    configured maximum of attempts and the lock duration of
    `PasswordSecurityConfig` are constants of the service object. */
module AuthenticationService {
  import opened Wrappers
  import opened Text

  /** `LoginAttemptInfo`: failed attempts, the time of the last one, and
      the end of the lock if one was set. */
  datatype LoginAttemptInfo = LoginAttemptInfo(attempts: nat, lastAttempt: int, lockTime: Option<int>)

  datatype Usuario = Usuario(nombre: string, passwordHash: string)

  /** What the active-user query gives: the user, `NoResultException`, or
      any other failure. */
  datatype Busqueda = Encontrado(usuario: Usuario) | NoExiste | FallaConsulta

  /** Why a login fails: the three messages the service returns. */
  datatype Motivo = CredencialesInvalidas | CuentaBloqueada | ErrorInterno

  /** `AuthenticationResult`. */
  datatype AuthenticationResult = Exito(usuario: Usuario) | Fallo(motivo: Motivo)

  /** `isLocked`: a lock is set and has not been reached yet. */
  predicate IsLocked(info: LoginAttemptInfo, now: int) {
    info.lockTime.Some? && now < info.lockTime.value
  }

  /** `isLockExpired`: a lock is set and lies in the past. */
  predicate IsLockExpired(info: LoginAttemptInfo, now: int) {
    info.lockTime.Some? && now > info.lockTime.value
  }

  /** A lock is never both running and expired, and at the instant it ends
      it is neither. */
  lemma BloqueoExcluyente(info: LoginAttemptInfo, now: int)
    ensures !(IsLocked(info, now) && IsLockExpired(info, now))
    ensures info.lockTime == Some(now) ==> !IsLocked(info, now) && !IsLockExpired(info, now)
    ensures info.lockTime.None? ==> !IsLocked(info, now) && !IsLockExpired(info, now)
  {
  }

  /** `LoginAttemptInfo.recordFailedAttempt`: one more attempt, and a lock
      of `duracion` minutes from now once the maximum is reached. */
  function RecordFailedAttempt(info: LoginAttemptInfo, now: int, max: nat, duracion: int): (r: LoginAttemptInfo)
    ensures r.attempts == info.attempts + 1 && r.lastAttempt == now
    ensures (info.lockTime.Some? ==> info.attempts >= max) ==> (r.lockTime.Some? ==> r.attempts >= max)
    ensures r.attempts >= max ==> (IsLocked(r, now) <==> duracion > 0) && (IsLockExpired(r, now) <==> duracion < 0)
    ensures r.attempts < max ==> r.lockTime == info.lockTime
  {
    var attempts := info.attempts + 1;
    LoginAttemptInfo(attempts, now, if attempts >= max then Some(now + duracion) else info.lockTime)
  }

  /** `recordFailedAttempt` of the service as written: a user without a
      record gets a fresh one with zero attempts; otherwise the record
      counts one more. The rest of the model uses `RegistrarFalloCorregido`
      (see `MaxFallosNoBloquean`). */
  function RegistrarFallo(m: map<string, LoginAttemptInfo>, u: string, now: int, max: nat, duracion: int)
    : (r: map<string, LoginAttemptInfo>)
    ensures r.Keys == m.Keys + {u}
    ensures forall v :: v in m && v != u ==> r[v] == m[v]
    ensures r[u].attempts == if u in m then m[u].attempts + 1 else 0
    ensures u !in m ==> !IsLocked(r[u], now) && !IsLockExpired(r[u], now)
  {
    if u !in m then m[u := LoginAttemptInfo(0, now, None)]
    else m[u := RecordFailedAttempt(m[u], now, max, duracion)]
  }

  /** `isAccountLocked`: whether the user is locked, and the records after
      an expired lock has been removed. */
  function VerificarBloqueo(m: map<string, LoginAttemptInfo>, u: string, now: int): (p: (bool, map<string, LoginAttemptInfo>))
    ensures p.0 <==> u in m && IsLocked(m[u], now)
    ensures p.1 == if u in m && IsLockExpired(m[u], now) then m - {u} else m
  {
    if u !in m then (false, m)
    else if IsLockExpired(m[u], now) then (false, m - {u})
    else (IsLocked(m[u], now), m)
  }

  /** `autenticar` on the records `m`: the result and the records after,
      with every failed login counted (`RegistrarFalloCorregido`). */
  function Autenticacion(m: map<string, LoginAttemptInfo>, usuario: Option<string>, password: Option<string>, now: int,
                      buscar: string -> Busqueda, coincide: (string, string) -> bool, max: nat, duracion: int)
    : (p: (AuthenticationResult, map<string, LoginAttemptInfo>))
    ensures usuario.None? || Trim(usuario.value) == [] ==> p == (Fallo(CredencialesInvalidas), m)
    ensures password.None? || Trim(password.value) == [] ==> p == (Fallo(CredencialesInvalidas), m)
    ensures p.0.Exito? ==> usuario.Some? && Lower(Trim(usuario.value)) !in p.1
  {
    if usuario.None? || Trim(usuario.value) == [] then (Fallo(CredencialesInvalidas), m)
    else if password.None? || Trim(password.value) == [] then (Fallo(CredencialesInvalidas), m)
    else AutenticarUsuario(m, Lower(Trim(usuario.value)), password.value, now, buscar, coincide, max, duracion)
  }

  /** `autenticar` past its two guards, for the normalised user name `u`. */
  function AutenticarUsuario(m: map<string, LoginAttemptInfo>, u: string, password: string, now: int,
                             buscar: string -> Busqueda, coincide: (string, string) -> bool, max: nat, duracion: int)
    : (p: (AuthenticationResult, map<string, LoginAttemptInfo>))
    ensures p.0.Exito? ==> u !in p.1
  {
    var (bloqueada, m1) := VerificarBloqueo(m, u, now);
    if bloqueada then (Fallo(CuentaBloqueada), m1)
    else match buscar(u)
      case FallaConsulta => (Fallo(ErrorInterno), m1)
      case NoExiste => (Fallo(CredencialesInvalidas), RegistrarFalloCorregido(m1, u, now, max, duracion))
      case Encontrado(user) =>
        if coincide(password, user.passwordHash) then (Exito(user), m1 - {u})
        else (Fallo(CredencialesInvalidas), RegistrarFalloCorregido(m1, u, now, max, duracion))
  }

  // ---------------------------------------------------------------------
  // The service object
  // ---------------------------------------------------------------------

  class AuthenticationService {
    /** `PasswordSecurityConfig.MAX_LOGIN_ATTEMPTS`. */
    const maxIntentos: nat
    /** `PasswordSecurityConfig.LOCKOUT_DURATION_MINUTES`. */
    const duracionBloqueo: int
    /** `loginAttempts`, keyed by normalised user name. */
    var loginAttempts: map<string, LoginAttemptInfo>

    /** A record carries a lock only once it has reached the maximum. */
    ghost predicate Valid()
      reads this
    {
      forall u :: u in loginAttempts && loginAttempts[u].lockTime.Some? ==> loginAttempts[u].attempts >= maxIntentos
    }

    constructor (maxIntentos: nat, duracionBloqueo: int)
      ensures Valid() && loginAttempts == map[]
      ensures this.maxIntentos == maxIntentos && this.duracionBloqueo == duracionBloqueo
    {
      this.maxIntentos := maxIntentos;
      this.duracionBloqueo := duracionBloqueo;
      loginAttempts := map[];
    }

    method IsAccountLocked(u: string, now: int) returns (bloqueada: bool)
      requires Valid()
      modifies this
      ensures Valid()
      ensures (bloqueada, loginAttempts) == VerificarBloqueo(old(loginAttempts), u, now)
    {
      if u !in loginAttempts {
        return false;
      }
      var info := loginAttempts[u];
      if info.lockTime.Some? && now > info.lockTime.value {
        loginAttempts := loginAttempts - {u};
        return false;
      }
      bloqueada := info.lockTime.Some? && now < info.lockTime.value;
    }

  /** `recordFailedAttempt`, with the first failure counted as well. */
    method RecordFailedAttemptFor(u: string, now: int)
      requires Valid()
      modifies this
      ensures Valid()
      ensures loginAttempts == RegistrarFalloCorregido(old(loginAttempts), u, now, maxIntentos, duracionBloqueo)
    {
      var info := if u in loginAttempts then loginAttempts[u] else LoginAttemptInfo(0, now, None);
      var attempts := info.attempts + 1;
      var lockTime := if attempts >= maxIntentos then Some(now + duracionBloqueo) else info.lockTime;
      loginAttempts := loginAttempts[u := LoginAttemptInfo(attempts, now, lockTime)];
    }

    /** `autenticar`: the guards, the lock check, the query and the
        password check, updating the records in place. */
    method Autenticar(usuario: Option<string>, password: Option<string>, now: int,
                      buscar: string -> Busqueda, coincide: (string, string) -> bool)
      returns (r: AuthenticationResult)
      requires Valid()
      modifies this
      ensures Valid()
      ensures (r, loginAttempts)
           == Autenticacion(old(loginAttempts), usuario, password, now, buscar, coincide, maxIntentos, duracionBloqueo)
    {
      if usuario.None? || Trim(usuario.value) == [] {
        return Fallo(CredencialesInvalidas);
      }
      if password.None? || Trim(password.value) == [] {
        return Fallo(CredencialesInvalidas);
      }
      var normalizedUser := Lower(Trim(usuario.value));
      r := AutenticarNormalizado(normalizedUser, password.value, now, buscar, coincide);
    }

    /** `autenticar` past its guards: the lock check, the query and the
        password check for the normalised user name `u`. */
    method AutenticarNormalizado(u: string, password: string, now: int,
                                 buscar: string -> Busqueda, coincide: (string, string) -> bool)
      returns (r: AuthenticationResult)
      requires Valid()
      modifies this
      ensures Valid()
      ensures (r, loginAttempts)
           == AutenticarUsuario(old(loginAttempts), u, password, now, buscar, coincide, maxIntentos, duracionBloqueo)
    {
      var bloqueada := IsAccountLocked(u, now);
      if bloqueada {
        return Fallo(CuentaBloqueada);
      }
      match buscar(u)
      case FallaConsulta =>
        r := Fallo(ErrorInterno);
      case NoExiste =>
        RecordFailedAttemptFor(u, now);
        r := Fallo(CredencialesInvalidas);
      case Encontrado(user) =>
        if coincide(password, user.passwordHash) {
          loginAttempts := loginAttempts - {u};
          r := Exito(user);
        } else {
          RecordFailedAttemptFor(u, now);
          r := Fallo(CredencialesInvalidas);
        }
    }
  }

  // ---------------------------------------------------------------------
  // What the guards and the records promise
  // ---------------------------------------------------------------------

  /** A missing password, or one that `trim()` empties, fails without
      touching the records, whatever the user name. */
  lemma PasswordVacioNoRegistra(m: map<string, LoginAttemptInfo>, usuario: Option<string>, password: Option<string>, now: int,
                                buscar: string -> Busqueda, coincide: (string, string) -> bool, max: nat, duracion: int)
    requires password.None? || Trim(password.value) == []
    ensures Autenticacion(m, usuario, password, now, buscar, coincide, max, duracion) == (Fallo(CredencialesInvalidas), m)
  {
  }

  /** Blanks only, as a password, count as no password. */
  lemma PasswordEnBlanco(m: map<string, LoginAttemptInfo>, usuario: Option<string>, now: int,
                         buscar: string -> Busqueda, coincide: (string, string) -> bool, max: nat, duracion: int)
    ensures Autenticacion(m, usuario, Some("  "), now, buscar, coincide, max, duracion) == (Fallo(CredencialesInvalidas), m)
  {
    assert Trim("  ") == [];
    PasswordVacioNoRegistra(m, usuario, Some("  "), now, buscar, coincide, max, duracion);
  }

  /** A locked account is refused before its password is looked at, and
      its record stays as it was. */
  lemma BloqueadaAntesDelPassword(m: map<string, LoginAttemptInfo>, usuario: string, password: string, now: int,
                                  buscar: string -> Busqueda, coincide: (string, string) -> bool, max: nat, duracion: int)
    requires Trim(usuario) != [] && Trim(password) != []
    requires Lower(Trim(usuario)) in m && IsLocked(m[Lower(Trim(usuario))], now)
    ensures Autenticacion(m, Some(usuario), Some(password), now, buscar, coincide, max, duracion) == (Fallo(CuentaBloqueada), m)
  {
  }

  /** Two user names with the same normalised form (trimmed, lower case)
      have the same outcome and leave the same records: case and
      surrounding blanks do not matter (see `ClaveConEspacio` and
      `ClaveEnMayusculas`). */
  lemma UsuarioNormalizado(m: map<string, LoginAttemptInfo>, a: string, b: string, password: Option<string>, now: int,
                           buscar: string -> Busqueda, coincide: (string, string) -> bool, max: nat, duracion: int)
    requires Lower(Trim(a)) == Lower(Trim(b))
    ensures Autenticacion(m, Some(a), password, now, buscar, coincide, max, duracion)
         == Autenticacion(m, Some(b), password, now, buscar, coincide, max, duracion)
  {
    assert |Trim(a)| == |Lower(Trim(a))|;
  }

  lemma ClaveConEspacio(usuario: string)
    ensures Trim(" " + usuario) == Trim(usuario)
  {
    assert (" " + usuario)[1..] == usuario;
    assert TrimStart(" " + usuario) == TrimStart(usuario);
  }

  lemma ClaveEnMayusculas(usuario: string)
    ensures Trim(Upper(usuario)) == Upper(Trim(usuario))
    ensures Lower(Trim(Upper(usuario))) == Lower(Trim(usuario))
  {
    UpperTrim(usuario);
    LowerUpper(Trim(usuario));
  }

  lemma {:induction false} UpperTrimStart(s: string)
    ensures TrimStart(Upper(s)) == Upper(TrimStart(s))
  {
    if s != [] {
      assert Upper(s)[0] == UpperChar(s[0]);
      assert Upper(s)[1..] == Upper(s[1..]);
      UpperTrimStart(s[1..]);
    }
  }

  lemma {:induction false} UpperTrimEnd(s: string)
    ensures TrimEnd(Upper(s)) == Upper(TrimEnd(s))
  {
    if s != [] {
      assert Upper(s)[|s| - 1] == UpperChar(s[|s| - 1]);
      assert Upper(s)[..|s| - 1] == Upper(s[..|s| - 1]);
      UpperTrimEnd(s[..|s| - 1]);
    }
  }

  /** Upper-casing keeps the characters `trim` removes and those it keeps. */
  lemma UpperTrim(s: string)
    ensures Trim(Upper(s)) == Upper(Trim(s))
  {
    UpperTrimStart(s);
    UpperTrimEnd(TrimStart(s));
  }

  lemma LowerUpper(s: string)
    ensures Lower(Upper(s)) == Lower(s)
  {
  }

  /** A successful login removes the user's record. */
  lemma ExitoBorraRegistro(m: map<string, LoginAttemptInfo>, usuario: string, password: string, now: int,
                           buscar: string -> Busqueda, coincide: (string, string) -> bool, max: nat, duracion: int)
    requires Autenticacion(m, Some(usuario), Some(password), now, buscar, coincide, max, duracion).0.Exito?
    ensures var p := Autenticacion(m, Some(usuario), Some(password), now, buscar, coincide, max, duracion);
      p.1 == m - {Lower(Trim(usuario))}
  {
    ExitoBorraUsuario(m, Lower(Trim(usuario)), password, now, buscar, coincide, max, duracion);
  }

  lemma ExitoBorraUsuario(m: map<string, LoginAttemptInfo>, u: string, password: string, now: int,
                          buscar: string -> Busqueda, coincide: (string, string) -> bool, max: nat, duracion: int)
    requires AutenticarUsuario(m, u, password, now, buscar, coincide, max, duracion).0.Exito?
    ensures AutenticarUsuario(m, u, password, now, buscar, coincide, max, duracion).1 == m - {u}
  {
    var m1 := VerificarBloqueo(m, u, now).1;
    assert m1 - {u} == m - {u};
  }

  /** A wrong password on an account that is not locked records one
      failure, after dropping an expired lock. */
  lemma PasswordErroneoRegistra(m: map<string, LoginAttemptInfo>, usuario: string, password: string, now: int,
                                user: Usuario, coincide: (string, string) -> bool, max: nat, duracion: int)
    requires Trim(usuario) != [] && Trim(password) != []
    requires !coincide(password, user.passwordHash)
    requires var u := Lower(Trim(usuario)); !(u in m && IsLocked(m[u], now))
    ensures var u := Lower(Trim(usuario));
      Autenticacion(m, Some(usuario), Some(password), now, _ => Encontrado(user), coincide, max, duracion)
      == (Fallo(CredencialesInvalidas), RegistrarFalloCorregido(VerificarBloqueo(m, u, now).1, u, now, max, duracion))
  {
  }

  /** A failure that reaches the maximum locks the account for exactly
      `duracion` minutes: locked strictly before the end, expired strictly
      after it, and neither at the end itself. */
  lemma BloqueoDura(info: LoginAttemptInfo, now: int, max: nat, duracion: int, t: int)
    requires info.attempts + 1 >= max
    ensures var i := RecordFailedAttempt(info, now, max, duracion);
      i.attempts == info.attempts + 1
      && (IsLocked(i, t) <==> t < now + duracion)
      && (IsLockExpired(i, t) <==> t > now + duracion)
  {
  }

  // ---------------------------------------------------------------------
  // How many failures lock an account
  // ---------------------------------------------------------------------

  /** The record of a user after `k` failed logins at time `now`, starting
      from no record, as the service counts them. */
  function TrasFallos(k: nat, u: string, now: int, max: nat, duracion: int): (m: map<string, LoginAttemptInfo>)
    ensures m.Keys == if k == 0 then {} else {u}
  {
    if k == 0 then map[] else RegistrarFallo(TrasFallos(k - 1, u, now, max, duracion), u, now, max, duracion)
  }

  /** As written, the first failure creates a record with zero attempts:
      after `k` failures the record counts `k - 1`, so the account is
      still open after `max` failures and is locked by failure `max + 1`. */
  lemma {:induction false} TrasFallosComoEscrito(k: nat, u: string, now: int, max: nat, duracion: int)
    requires max >= 1 && duracion > 0 && 1 <= k <= max + 1
    ensures var m := TrasFallos(k, u, now, max, duracion);
      u in m && m[u].attempts == k - 1
      && (IsLocked(m[u], now) <==> k == max + 1)
  {
    if k > 1 {
      TrasFallosComoEscrito(k - 1, u, now, max, duracion);
    }
  }

  /** Failure number `max` leaves the account open as written. */
  lemma MaxFallosNoBloquean(u: string, now: int, max: nat, duracion: int)
    requires max >= 1 && duracion > 0
    ensures !IsLocked(TrasFallos(max, u, now, max, duracion)[u], now)
  {
    TrasFallosComoEscrito(max, u, now, max, duracion);
  }

  /** `recordFailedAttempt` as evidently intended: the record a first
      failure creates already counts that failure. */
  function RegistrarFalloCorregido(m: map<string, LoginAttemptInfo>, u: string, now: int, max: nat, duracion: int)
    : (r: map<string, LoginAttemptInfo>)
    ensures r.Keys == m.Keys + {u}
    ensures forall v :: v in m && v != u ==> r[v] == m[v]
    ensures r[u].attempts == (if u in m then m[u].attempts else 0) + 1
    ensures r[u].attempts >= max && duracion > 0 ==> IsLocked(r[u], now)
  {
    var info := if u in m then m[u] else LoginAttemptInfo(0, now, None);
    m[u := RecordFailedAttempt(info, now, max, duracion)]
  }

  /** The record of a user after `k` failed logins at time `now`, starting
      from no record, with every failure counted. */
  function TrasFallosCorregido(k: nat, u: string, now: int, max: nat, duracion: int): (m: map<string, LoginAttemptInfo>)
    ensures m.Keys == if k == 0 then {} else {u}
  {
    if k == 0 then map[] else RegistrarFalloCorregido(TrasFallosCorregido(k - 1, u, now, max, duracion), u, now, max, duracion)
  }

  /** With the correction, after `k` failures the record counts `k`, and
      the account is locked exactly from failure `max` on. */
  lemma {:induction false} TrasFallosCorregidoBloquea(k: nat, u: string, now: int, max: nat, duracion: int)
    requires max >= 1 && duracion > 0 && 1 <= k <= max
    ensures var m := TrasFallosCorregido(k, u, now, max, duracion);
      u in m && m[u].attempts == k
      && (IsLocked(m[u], now) <==> k == max)
  {
    if k > 1 {
      TrasFallosCorregidoBloquea(k - 1, u, now, max, duracion);
    }
  }
}
