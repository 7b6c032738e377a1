/**
 * The session: the user record every view reads, its normalisation on login,
 * and its persistence in `localStorage` (a string-to-string map here).
 */
module Auth {
  import opened Wrappers
  import opened Text
  import opened Socket

  /** The session record the context hands to every view. */
  datatype AuthUser = AuthUser(
    id: Option<string>, token: Option<string>, alias: Option<string>, role: Option<string>,
    warnCount: int, isMuted: bool, muteUntil: Option<string>, isBanned: bool)

  /** What `login` receives: a login response or a `userUpdated` payload; absent fields are `None`. */
  datatype LoginData = LoginData(
    id: Option<string>, mongoId: Option<string>, token: Option<string>, alias: Option<string>,
    role: Option<string>, warnCount: Option<int>, isMuted: Option<bool>, muteUntil: Option<string>,
    isBanned: Option<bool>)

  type Storage = map<string, string>

  /** `localStorage.getItem(k)` */
  function GetItem(st: Storage, k: string): Option<string> {
    if k in st then Some(st[k]) else None
  }

  /** `String(b)` */
  function BoolToString(b: bool): string {
    if b then "true" else "false"
  }

  /** The record `login` builds from its payload. */
  function Normalize(data: LoginData): (u: AuthUser)
    ensures u.id == if Truthy(data.id) then data.id else data.mongoId
    ensures u.token == data.token && u.alias == data.alias && u.role == data.role
    ensures u.warnCount == data.warnCount.GetOr(0)
    ensures u.isMuted <==> data.isMuted == Some(true)
    ensures u.isBanned <==> data.isBanned == Some(true)
    ensures u.muteUntil.Some? <==> Truthy(data.muteUntil)
    ensures u.muteUntil.Some? ==> u.muteUntil == data.muteUntil
  {
    AuthUser(
      if Truthy(data.id) then data.id else data.mongoId,
      data.token, data.alias, data.role,
      data.warnCount.GetOr(0),
      data.isMuted.GetOr(false),
      if Truthy(data.muteUntil) then data.muteUntil else None,
      data.isBanned.GetOr(false))
  }

  /** `Object.entries(userData)`, with each value as `setItem` would stringify it; `None` is null. */
  function Entries(u: AuthUser): seq<(string, Option<string>)> {
    [("id", u.id), ("token", u.token), ("alias", u.alias), ("role", u.role),
     ("warnCount", Some(IntToString(u.warnCount))), ("isMuted", Some(BoolToString(u.isMuted))),
     ("muteUntil", u.muteUntil), ("isBanned", Some(BoolToString(u.isBanned)))]
  }

  /** One iteration of the `forEach`: only non-null values are written. */
  function WriteEntry(st: Storage, e: (string, Option<string>)): Storage {
    if e.1.Some? then st[e.0 := e.1.value] else st
  }

  /** The whole `forEach` of `setItem` calls over the entries, in order. */
  function Store(st: Storage, es: seq<(string, Option<string>)>): Storage
    decreases |es|
  {
    if es == [] then st else Store(WriteEntry(st, es[0]), es[1..])
  }

  /** The value the last non-null entry for `k` writes, if any. */
  function LastWrite(es: seq<(string, Option<string>)>, k: string): Option<string>
    decreases |es|
  {
    if es == [] then None
    else match LastWrite(es[1..], k)
      case Some(v) => Some(v)
      case None => if es[0].0 == k && es[0].1.Some? then es[0].1 else None
  }

  lemma {:induction false} StoreSnoc(st: Storage, es: seq<(string, Option<string>)>, e: (string, Option<string>))
    ensures Store(st, es + [e]) == WriteEntry(Store(st, es), e)
    decreases |es|
  {
    if es == [] {
      assert es + [e] == [e];
    } else {
      assert (es + [e])[1..] == es[1..] + [e];
      StoreSnoc(WriteEntry(st, es[0]), es[1..], e);
    }
  }

  /** After the writes, a key holds the last non-null value written for it, or else what it held before. */
  lemma {:induction false} StoreLookup(st: Storage, es: seq<(string, Option<string>)>, k: string)
    ensures GetItem(Store(st, es), k) == match LastWrite(es, k)
      case Some(v) => Some(v)
      case None => GetItem(st, k)
    decreases |es|
  {
    if es != [] {
      StoreLookup(WriteEntry(st, es[0]), es[1..], k);
    }
  }

  lemma {:induction false} LastWriteAbsent(es: seq<(string, Option<string>)>, k: string)
    requires forall j :: 0 <= j < |es| ==> es[j].0 != k
    ensures LastWrite(es, k) == None
    decreases |es|
  {
    if es != [] {
      LastWriteAbsent(es[1..], k);
    }
  }

  /** With a single entry for `k`, that entry decides what is written. */
  lemma {:induction false} LastWriteAt(es: seq<(string, Option<string>)>, i: nat, k: string)
    requires i < |es| && es[i].0 == k
    requires forall j :: 0 <= j < |es| && j != i ==> es[j].0 != k
    ensures LastWrite(es, k) == es[i].1
    decreases |es|
  {
    if i == 0 {
      LastWriteAbsent(es[1..], k);
    } else {
      LastWriteAt(es[1..], i - 1, k);
    }
  }

  /**
   * What `login` does to storage, key by key: every field whose value is neither null nor
   * undefined is written; a null field leaves its key as it was; no other key is touched.
   */
  lemma LoginStorage(st: Storage, u: AuthUser, k: string)
    ensures k == "id" ==> GetItem(Store(st, Entries(u)), k) == (if u.id.Some? then u.id else GetItem(st, k))
    ensures k == "token" ==> GetItem(Store(st, Entries(u)), k) == (if u.token.Some? then u.token else GetItem(st, k))
    ensures k == "alias" ==> GetItem(Store(st, Entries(u)), k) == (if u.alias.Some? then u.alias else GetItem(st, k))
    ensures k == "role" ==> GetItem(Store(st, Entries(u)), k) == (if u.role.Some? then u.role else GetItem(st, k))
    ensures k == "muteUntil" ==>
      GetItem(Store(st, Entries(u)), k) == (if u.muteUntil.Some? then u.muteUntil else GetItem(st, k))
    ensures k == "warnCount" ==> GetItem(Store(st, Entries(u)), k) == Some(IntToString(u.warnCount))
    ensures k == "isMuted" ==> GetItem(Store(st, Entries(u)), k) == Some(BoolToString(u.isMuted))
    ensures k == "isBanned" ==> GetItem(Store(st, Entries(u)), k) == Some(BoolToString(u.isBanned))
    ensures k !in {"id", "token", "alias", "role", "warnCount", "isMuted", "muteUntil", "isBanned"} ==>
      GetItem(Store(st, Entries(u)), k) == GetItem(st, k)
  {
    var es := Entries(u);
    StoreLookup(st, es, k);
    if k == "id" { LastWriteAt(es, 0, k); }
    else if k == "token" { LastWriteAt(es, 1, k); }
    else if k == "alias" { LastWriteAt(es, 2, k); }
    else if k == "role" { LastWriteAt(es, 3, k); }
    else if k == "warnCount" { LastWriteAt(es, 4, k); }
    else if k == "isMuted" { LastWriteAt(es, 5, k); }
    else if k == "muteUntil" { LastWriteAt(es, 6, k); }
    else if k == "isBanned" { LastWriteAt(es, 7, k); }
    else { LastWriteAbsent(es, k); }
  }

  /** `parseInt(localStorage.getItem("warnCount"), 10) || 0`; `parseInt(null)` is NaN. */
  function RestoreWarnCount(stored: Option<string>): int {
    match stored
    case None => 0
    case Some(s) => ParseInt10(s).GetOr(0)
  }

  /** The record rebuilt from storage on start-up, if both a token and an id are stored. */
  function Restore(st: Storage): (r: Option<AuthUser>)
    ensures r.Some? <==> Truthy(GetItem(st, "token")) && Truthy(GetItem(st, "id"))
    ensures r.Some? ==> (r.value.isMuted <==> GetItem(st, "isMuted") == Some("true"))
    ensures r.Some? ==> (r.value.isBanned <==> GetItem(st, "isBanned") == Some("true"))
    ensures r.Some? && GetItem(st, "warnCount").Some? && ParseInt10(GetItem(st, "warnCount").value).None? ==>
      r.value.warnCount == 0
  {
    var stored := AuthUser(
      GetItem(st, "id"), GetItem(st, "token"), GetItem(st, "alias"), GetItem(st, "role"),
      RestoreWarnCount(GetItem(st, "warnCount")),
      GetItem(st, "isMuted") == Some("true"),
      GetItem(st, "muteUntil"),
      GetItem(st, "isBanned") == Some("true"));
    if Truthy(stored.token) && Truthy(stored.id) then Some(stored) else None
  }

  /**
   * A session written by `login` into cleared storage is restored unchanged on the next
   * start-up, provided it has a truthy id and token.
   */
  lemma LoginThenRestore(data: LoginData)
    requires Truthy(Normalize(data).id) && Truthy(Normalize(data).token)
    ensures Restore(Store(map[], Entries(Normalize(data)))) == Some(Normalize(data))
  {
    var u := Normalize(data);
    var st := Store(map[], Entries(u));
    LoginStorage(map[], u, "id");
    LoginStorage(map[], u, "token");
    LoginStorage(map[], u, "alias");
    LoginStorage(map[], u, "role");
    LoginStorage(map[], u, "warnCount");
    LoginStorage(map[], u, "isMuted");
    LoginStorage(map[], u, "muteUntil");
    LoginStorage(map[], u, "isBanned");
    RestoreOf(st, u);
  }

  /** Storage that holds every field of a session with a truthy id and token restores that session. */
  lemma RestoreOf(st: Storage, u: AuthUser)
    requires Truthy(u.id) && Truthy(u.token)
    requires GetItem(st, "id") == u.id && GetItem(st, "token") == u.token
    requires GetItem(st, "alias") == u.alias && GetItem(st, "role") == u.role
    requires GetItem(st, "muteUntil") == u.muteUntil
    requires GetItem(st, "warnCount") == Some(IntToString(u.warnCount))
    requires GetItem(st, "isMuted") == Some(BoolToString(u.isMuted))
    requires GetItem(st, "isBanned") == Some(BoolToString(u.isBanned))
    ensures Restore(st) == Some(u)
  {
    ParseIntOfIntToString(u.warnCount);
    assert RestoreWarnCount(GetItem(st, "warnCount")) == u.warnCount;
  }

  /** The provider: the current `user` state, the browser storage, and the socket output. */
  class AuthContext {
    var user: Option<AuthUser>
    var storage: Storage
    var emitted: seq<Emit>

    /** Mounting restores the stored session and registers its socket. */
    constructor (initial: Storage)
      ensures storage == initial
      ensures user == Restore(initial)
      ensures emitted == if user.Some? then [RegisterUserSocket(user.value.id.value)] else []
    {
      storage := initial;
      user := Restore(initial);
      emitted := if Restore(initial).Some? then [RegisterUserSocket(Restore(initial).value.id.value)] else [];
    }

    /** `login(data)` */
    method Login(data: LoginData)
      modifies this
      ensures user == Some(Normalize(data))
      ensures storage == Store(old(storage), Entries(Normalize(data)))
      ensures emitted == old(emitted) +
        if Truthy(Normalize(data).id) then [RegisterUserSocket(Normalize(data).id.value)] else []
    {
      var u := Normalize(data);
      user := Some(u);
      var es := Entries(u);
      var i := 0;
      while i < |es|
        invariant 0 <= i <= |es|
        invariant storage == Store(old(storage), es[..i])
        invariant user == Some(u) && emitted == old(emitted)
      {
        StoreSnoc(old(storage), es[..i], es[i]);
        assert es[..i + 1] == es[..i] + [es[i]];
        if es[i].1.Some? {
          storage := storage[es[i].0 := es[i].1.value];
        }
        i := i + 1;
      }
      assert es[..i] == es;
      if Truthy(u.id) {
        emitted := emitted + [RegisterUserSocket(u.id.value)];
      }
    }

    /** The `userUpdated` socket event runs `login` on its payload. */
    method OnUserUpdated(data: LoginData)
      modifies this
      ensures user == Some(Normalize(data))
      ensures storage == Store(old(storage), Entries(Normalize(data)))
      ensures emitted == old(emitted) +
        if Truthy(Normalize(data).id) then [RegisterUserSocket(Normalize(data).id.value)] else []
    {
      Login(data);
    }

    /** `logout()` */
    method Logout()
      modifies this`user, this`storage
      ensures user == None && storage == map[]
    {
      user := None;
      storage := map[];
    }
  }
}
