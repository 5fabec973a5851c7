/**
 * The pool of Telegram user clients, keyed by session name. Startup loads
 * every active AUTHENTICATED account; the authentication flow adds a
 * not-yet-authenticated client; senders take authenticated clients in
 * round-robin order; TDLib's authorization updates mark clients ready or
 * drop them; shutdown closes everything.
 *
 * The client factory is an oracle: each creation either yields a client
 * or throws with a message, given as an `Option<string>` (`Some` = threw).
 * The pool is a map plus the sequence of its keys in iteration order.
 */
module PoolManager {
  import opened Common
  import opened Domain
  import opened AccountPoolDb
  import opened DynamicClient
  import opened AuthService

  // ---------------------------------------------------------------------
  // Round robin
  // ---------------------------------------------------------------------

  /**
   * The position the counter selects among `n` ready clients. The counter
   * is unbounded here; see `AsWrittenIndex` for the 32-bit counter.
   */
  function RoundRobinIndex(counter: nat, n: nat): (i: nat)
    requires n > 0
    ensures i < n
  {
    counter % n
  }

  /** The positions chosen by `n` consecutive selections from counter `c`. */
  function Rotation(c: nat, n: nat): seq<int>
    requires n > 0
  {
    seq(n, k requires 0 <= k < n => RoundRobinIndex(c + k, n))
  }

  /** The clients returned by `|ready|` consecutive selections over an unchanged snapshot. */
  function Picks<T>(ready: seq<T>, c: nat): seq<T>
    requires |ready| > 0
  {
    seq(|ready|, k requires 0 <= k < |ready| => ready[RoundRobinIndex(c + k, |ready|)])
  }

  lemma {:induction false} MulAtLeast(a: int, n: int)
    requires a >= 1 && n > 0
    ensures a * n >= n
  {
    if a > 1 {
      MulAtLeast(a - 1, n);
      assert a * n == (a - 1) * n + n;
    }
  }

  /** Euclidean division has one quotient and one remainder. */
  lemma {:induction false} ModUnique(x: int, n: int, q: int, r: int)
    requires n > 0 && 0 <= r < n && x == q * n + r
    ensures x % n == r
  {
    var q0, r0 := x / n, x % n;
    assert x == q0 * n + r0;
    assert (q - q0) * n == r0 - r;
    if q - q0 >= 1 {
      MulAtLeast(q - q0, n);
    } else if q0 - q >= 1 {
      MulAtLeast(q0 - q, n);
    }
  }

  /** The k-th selection after counter c lands k places further round the ring. */
  lemma {:induction false} RotationStep(c: nat, n: nat, k: nat)
    requires n > 0 && k < n
    ensures RoundRobinIndex(c + k, n) == if c % n + k < n then c % n + k else c % n + k - n
  {
    var q, r := c / n, c % n;
    assert c == q * n + r;
    if r + k < n {
      ModUnique(c + k, n, q, r + k);
    } else {
      ModUnique(c + k, n, q + 1, r + k - n);
    }
  }

  /** n consecutive selections visit each of the n positions exactly once. */
  lemma {:induction false} RotationCoversOnce(c: nat, n: nat)
    requires n > 0
    ensures |Rotation(c, n)| == n
    ensures forall j :: 0 <= j < n ==> j in Rotation(c, n)
    ensures Distinct(Rotation(c, n))
  {
    var rot := Rotation(c, n);
    var r := c % n;
    forall k | 0 <= k < n
      ensures rot[k] == if r + k < n then r + k else r + k - n
    {
      RotationStep(c, n, k);
    }
    forall j | 0 <= j < n
      ensures j in rot
    {
      var k := if j >= r then j - r else j - r + n;
      assert rot[k] == j;
    }
  }

  /**
   * Fairness: over an unchanged snapshot of distinct ready clients,
   * |ready| consecutive selections return every ready client exactly once.
   */
  lemma {:induction false} RoundRobinFair<T>(ready: seq<T>, c: nat)
    requires |ready| > 0 && Distinct(ready)
    ensures |Picks(ready, c)| == |ready|
    ensures forall x :: x in ready <==> x in Picks(ready, c)
    ensures Distinct(Picks(ready, c))
  {
    var n := |ready|;
    var rot := Rotation(c, n);
    var picks := Picks(ready, c);
    RotationCoversOnce(c, n);
    forall k | 0 <= k < n
      ensures 0 <= rot[k] < n && picks[k] == ready[rot[k]]
    {
      assert rot[k] == RoundRobinIndex(c + k, n);
      assert picks[k] == ready[RoundRobinIndex(c + k, n)];
    }
    forall x | x in ready
      ensures x in picks
    {
      var j :| 0 <= j < n && ready[j] == x;
      assert j in rot;
      var k :| 0 <= k < n && rot[k] == j;
      assert picks[k] == x;
    }
    forall i, j | 0 <= i < j < n
      ensures picks[i] != picks[j]
    {
      assert rot[i] != rot[j];
    }
  }

  /** A Kotlin `Int` after two's-complement wrap-around. */
  function Int32(x: int): (r: int)
    ensures -0x8000_0000 <= r < 0x8000_0000
    ensures -0x8000_0000 <= x < 0x8000_0000 ==> r == x
  {
    var m := x % 0x1_0000_0000;
    if m >= 0x8000_0000 then m - 0x1_0000_0000 else m
  }

  /** The JVM's `%`: truncates toward zero, so the result takes the dividend's sign. */
  function JvmRem(a: int, b: int): (r: int)
    requires b > 0
    ensures a >= 0 ==> 0 <= r < b
    ensures a < 0 ==> -b < r <= 0
  {
    if a >= 0 then a % b else 0 - ((0 - a) % b)
  }

  /**
   * The index getNextAvailableClient computes as written, after `calls`
   * earlier selections: the AtomicInteger has wrapped to Int32(calls).
   */
  function AsWrittenIndex(calls: nat, n: nat): (i: int)
    requires n > 0
    ensures -(n as int) < i < n
    ensures calls < 0x8000_0000 ==> i == calls % n
  {
    JvmRem(Int32(calls), n)
  }

  /** While the counter has not wrapped, the written index is the intended one. */
  lemma {:induction false} AsWrittenAgreesBeforeWrap(calls: nat, n: nat)
    requires n > 0 && calls < 0x8000_0000
    ensures AsWrittenIndex(calls, n) == RoundRobinIndex(calls, n)
  {
  }

  /**
   * After 2^31 selections the counter is Int.MIN_VALUE and, for any pool
   * size that does not divide 2^31, the index is negative: `elementAt`
   * throws and no client is returned.
   */
  lemma {:induction false} CounterWrapGivesNegativeIndex(n: nat)
    requires n > 0 && 0x8000_0000 % n != 0
    ensures AsWrittenIndex(0x8000_0000, n) < 0
  {
  }

  /** With three ready clients the 2^31-th selection asks for position -2. */
  lemma {:induction false} CounterWrapWitness()
    ensures AsWrittenIndex(0x8000_0000, 3) == -2
  {
  }

  // ---------------------------------------------------------------------
  // Views of the pool
  // ---------------------------------------------------------------------

  /** Every listed name is a key of the pool. */
  predicate Covers(names: seq<string>, pool: map<string, DynamicTelegramClient>)
  {
    forall i :: 0 <= i < |names| ==> names[i] in pool
  }

  /** No two keys share a client. */
  predicate Injective(pool: map<string, DynamicTelegramClient>)
  {
    forall a, b :: a in pool && b in pool && a != b ==> pool[a] != pool[b]
  }

  /** The authenticated clients, in the pool's iteration order. */
  function ReadyFrom(names: seq<string>, pool: map<string, DynamicTelegramClient>): (r: seq<DynamicTelegramClient>)
    requires Covers(names, pool)
    reads pool.Values
    ensures |r| <= |names|
    ensures forall c :: c in r ==> exists i :: 0 <= i < |names| && pool[names[i]] == c && c.isAuthenticated
    ensures forall i :: 0 <= i < |names| && pool[names[i]].isAuthenticated ==> pool[names[i]] in r
  {
    if names == [] then []
    else
      var c := pool[names[0]];
      (if c.isAuthenticated then [c] else []) + ReadyFrom(names[1..], pool)
  }

  /** With no ready client, no pooled client is authenticated. */
  lemma {:induction false} NoneReady(names: seq<string>, pool: map<string, DynamicTelegramClient>)
    requires Covers(names, pool) && forall n :: n in pool ==> n in names
    requires |ReadyFrom(names, pool)| == 0
    ensures forall n :: n in pool ==> !pool[n].isAuthenticated
  {
    forall n | n in pool
      ensures !pool[n].isAuthenticated
    {
      var i :| 0 <= i < |names| && names[i] == n;
    }
  }

  /** Every ready client is a pooled, authenticated client. */
  lemma {:induction false} ReadyInPool(names: seq<string>, pool: map<string, DynamicTelegramClient>, index: nat)
    requires Covers(names, pool) && index < |ReadyFrom(names, pool)|
    ensures ReadyFrom(names, pool)[index] in pool.Values
    ensures ReadyFrom(names, pool)[index].isAuthenticated
  {
    var c := ReadyFrom(names, pool)[index];
    assert c in ReadyFrom(names, pool);
    var i :| 0 <= i < |names| && pool[names[i]] == c && c.isAuthenticated;
  }

  /** Over distinct names and an injective pool, no ready client is listed twice. */
  lemma {:induction false} ReadyDistinct(names: seq<string>, pool: map<string, DynamicTelegramClient>)
    requires Covers(names, pool) && Distinct(names) && Injective(pool)
    ensures Distinct(ReadyFrom(names, pool))
  {
    if names != [] {
      ReadyDistinct(names[1..], pool);
    }
  }

  /** One line of the pool status report. */
  datatype ClientInfo = ClientInfo(sessionName: string, isAuthenticated: bool, lastUsedAt: Minutes)

  /** getPoolStatus's report. */
  datatype PoolStatus = PoolStatus(totalClients: int, authenticatedClients: int,
                                   authenticatingClients: int, clients: seq<ClientInfo>)

  function Infos(names: seq<string>, pool: map<string, DynamicTelegramClient>): (r: seq<ClientInfo>)
    requires Covers(names, pool)
    reads pool.Values
    ensures |r| == |names|
    ensures forall i :: 0 <= i < |names| ==>
              r[i] == ClientInfo(pool[names[i]].sessionName, pool[names[i]].isAuthenticated, pool[names[i]].lastUsedAt)
  {
    if names == [] then []
    else
      var c := pool[names[0]];
      [ClientInfo(c.sessionName, c.isAuthenticated, c.lastUsedAt)] + Infos(names[1..], pool)
  }

  predicate InfoAuthenticated(e: ClientInfo)
  {
    e.isAuthenticated
  }

  /** The report's authenticated count is the number of clients round robin chooses from. */
  lemma {:induction false} ReportCountsReady(names: seq<string>, pool: map<string, DynamicTelegramClient>)
    requires Covers(names, pool)
    ensures Count(Infos(names, pool), InfoAuthenticated) == |ReadyFrom(names, pool)|
  {
    if names != [] {
      ReportCountsReady(names[1..], pool);
      assert Infos(names, pool)[1..] == Infos(names[1..], pool);
    }
  }

  /** The names left in iteration order once `name` is removed. */
  function Without(names: seq<string>, name: string): (r: seq<string>)
    ensures forall x :: x in r <==> x in names && x != name
    ensures Distinct(names) ==> Distinct(r)
  {
    FilterDistinct(names, (x: string) => x != name);
    Filter(names, (x: string) => x != name)
  }

  /** The account table after every account with this session name is given `status`. */
  function SetStatusByName(accounts: map<int, Account>, name: string, status: AccountStatus,
                           errorMessage: Option<string>, now: Minutes): (r: map<int, Account>)
    ensures r.Keys == accounts.Keys
    ensures forall k :: k in accounts && accounts[k].sessionName != name ==> r[k] == accounts[k]
    ensures forall k :: k in accounts && accounts[k].sessionName == name ==>
              r[k].status == status && r[k].errorMessage == errorMessage && r[k].sessionName == name
  {
    map k | k in accounts :: if accounts[k].sessionName == name
                             then WithStatus(accounts[k], status, None, errorMessage, now)
                             else accounts[k]
  }

  // ---------------------------------------------------------------------
  // Startup
  // ---------------------------------------------------------------------

  const LOAD_FAILURE_PREFIX: string := "Failed to load on startup: "

  /** The account table after a failed load marks the account ERROR (absent ids are skipped). */
  function LoadFailed(accounts: map<int, Account>, id: int, message: string, now: Minutes): map<int, Account>
  {
    if id in accounts
    then accounts[id := WithStatus(accounts[id], AccountStatus.ERROR, None, Some(LOAD_FAILURE_PREFIX + message), now)]
    else accounts
  }

  /**
   * One account of startup loading: the pool's names and the account table
   * afterwards. An account already pooled is skipped; a factory failure
   * marks it ERROR; otherwise its name joins the pool.
   */
  function LoadStep(account: Account, names: set<string>, accounts: map<int, Account>,
                    failure: string -> Option<string>, now: Minutes): (set<string>, map<int, Account>)
  {
    if account.sessionName in names then (names, accounts)
    else match failure(account.sessionName)
      case None => (names + {account.sessionName}, accounts)
      case Some(message) => (names, LoadFailed(accounts, account.id, message, now))
  }

  /** Startup loading over `accounts` in order. */
  function StartupFold(snapshot: seq<Account>, names: set<string>, accounts: map<int, Account>,
                       failure: string -> Option<string>, now: Minutes): (set<string>, map<int, Account>)
    decreases |snapshot|
  {
    if snapshot == [] then (names, accounts)
    else
      var prev := StartupFold(snapshot[..|snapshot| - 1], names, accounts, failure, now);
      LoadStep(snapshot[|snapshot| - 1], prev.0, prev.1, failure, now)
  }

  /**
   * What startup achieves: every account whose client could be created is
   * pooled, whatever failed before or after it; nothing else joins; each
   * account whose creation failed (and was not pooled already) ends ERROR;
   * no other account changes and no row appears or disappears.
   */
  lemma {:induction false} StartupOutcome(snapshot: seq<Account>, names: set<string>, accounts: map<int, Account>,
                                          failure: string -> Option<string>, now: Minutes)
    ensures var out := StartupFold(snapshot, names, accounts, failure, now);
            names <= out.0
            && (forall i :: 0 <= i < |snapshot| && failure(snapshot[i].sessionName).None? ==> snapshot[i].sessionName in out.0)
            && (forall x :: x in out.0 && x !in names ==>
                  exists i :: 0 <= i < |snapshot| && snapshot[i].sessionName == x && failure(x).None?)
            && out.1.Keys == accounts.Keys
            && (forall i :: (0 <= i < |snapshot| && snapshot[i].sessionName !in names && snapshot[i].id in accounts
                             && failure(snapshot[i].sessionName).Some?) ==> out.1[snapshot[i].id].status == AccountStatus.ERROR)
            && (forall k :: k in accounts && (forall i :: 0 <= i < |snapshot| ==> snapshot[i].id != k) ==> out.1[k] == accounts[k])
  {
    if snapshot != [] {
      var m := |snapshot| - 1;
      var init := snapshot[..m];
      StartupOutcome(init, names, accounts, failure, now);
      var prev := StartupFold(init, names, accounts, failure, now);
      var out := StartupFold(snapshot, names, accounts, failure, now);
      assert out == LoadStep(snapshot[m], prev.0, prev.1, failure, now);
      forall i | 0 <= i < m
        ensures init[i] == snapshot[i]
      {
      }
      // A name with a failing factory never joins, so its account is still unpooled at its own step.
      assert forall x :: x in prev.0 && failure(x).Some? ==> x in names;
      forall x | x in out.0 && x !in names
        ensures exists i :: 0 <= i < |snapshot| && snapshot[i].sessionName == x && failure(x).None?
      {
        if x in prev.0 {
          var i :| 0 <= i < |init| && init[i].sessionName == x && failure(x).None?;
          assert snapshot[i].sessionName == x;
        } else {
          assert snapshot[m].sessionName == x;
        }
      }
    }
  }

  // ---------------------------------------------------------------------
  // The pool manager
  // ---------------------------------------------------------------------

  /** TDLib's authorization state, as far as the pool reacts to it. */
  datatype AuthorizationState = StateReady | StateClosed | StateWaitCode | StateWaitPassword | StateOther

  const CONNECTION_CLOSED: string := "Connection closed"

  class TelegramClientPoolManager {
    const db: AccountPoolDbService
    const auth: TelegramAuthenticationService
    var pool: map<string, DynamicTelegramClient>
    /** The pool's keys in iteration order. */
    var order: seq<string>
    var roundRobinIndex: nat

    /**
     * The order lists every key once; each client is filed under its own
     * session name, reports to this account table, and is filed once.
     */
    ghost predicate Valid()
      reads this, db, auth
    {
      db.Valid() && auth.db == db && auth.Valid()
      && Distinct(order) && Covers(order, pool)
      && (forall n :: n in pool ==> n in order)
      && (forall n :: n in pool ==> pool[n].sessionName == n && pool[n].db == db)
      && Injective(pool)
    }

    constructor(db: AccountPoolDbService, auth: TelegramAuthenticationService)
      requires auth.db == db && auth.Valid()
      ensures Valid() && this.db == db && this.auth == auth
      ensures pool == map[] && order == [] && roundRobinIndex == 0
    {
      this.db := db;
      this.auth := auth;
      pool := map[];
      order := [];
      roundRobinIndex := 0;
    }

    /** The client filed under the account's session name, if the account and client exist. */
    ghost function ClientOf(accountId: int): set<DynamicTelegramClient>
      reads this, db
    {
      if accountId in db.accounts && db.accounts[accountId].sessionName in pool
      then {pool[db.accounts[accountId].sessionName]} else {}
    }

    /**
     * loadAuthenticatedAccount: an account already pooled is left alone;
     * otherwise a client is created, marked authenticated and pooled. A
     * factory failure is returned to the caller.
     */
    method LoadAuthenticatedAccount(account: Account, factoryFailure: Option<string>, now: Minutes)
      returns (thrown: Option<string>)
      requires Valid()
      modifies this
      ensures Valid()
      ensures roundRobinIndex == old(roundRobinIndex)
      ensures account.sessionName in old(pool) || factoryFailure.Some? ==>
                pool == old(pool) && order == old(order)
      ensures thrown == (if account.sessionName in old(pool) then None else factoryFailure)
      ensures account.sessionName !in old(pool) && factoryFailure.None? ==>
                account.sessionName in pool && fresh(pool[account.sessionName])
                && pool == old(pool)[account.sessionName := pool[account.sessionName]]
                && order == old(order) + [account.sessionName]
                && pool[account.sessionName].isAuthenticated && !pool[account.sessionName].closeCalled
                && pool[account.sessionName].accountId == Some(account.id)
    {
      if account.sessionName in pool {
        return None;
      }
      if factoryFailure.Some? {
        return factoryFailure;
      }
      var client := new DynamicTelegramClient(account.sessionName, Some(account.id), db, now);
      client.MarkAsAuthenticated();
      pool := pool[account.sessionName := client];
      order := order + [account.sessionName];
      thrown := None;
    }

    /**
     * One account of initialize: load it, and if its client cannot be
     * created mark it ERROR with the failure message.
     */
    method LoadOrMarkFailed(account: Account, failure: string -> Option<string>, now: Minutes)
      requires Valid()
      modifies this, db
      ensures Valid()
      ensures (pool.Keys, db.accounts) == LoadStep(account, old(pool.Keys), old(db.accounts), failure, now)
      ensures forall n :: n in old(pool) ==> n in pool && pool[n] == old(pool)[n]
      ensures forall n :: n in pool && n !in old(pool) ==>
                fresh(pool[n]) && pool[n].isAuthenticated && !pool[n].closeCalled
      ensures roundRobinIndex == old(roundRobinIndex) && db.sessions == old(db.sessions)
    {
      var thrown := LoadAuthenticatedAccount(account, failure(account.sessionName), now);
      if thrown.Some? {
        var _ := db.UpdateAccountStatus(account.id, AccountStatus.ERROR, None,
                                        Some(LOAD_FAILURE_PREFIX + thrown.value), now);
        assert db.accounts == LoadFailed(old(db.accounts), account.id, thrown.value, now);
      } else if account.sessionName !in old(pool) {
        assert pool.Keys == old(pool.Keys) + {account.sessionName};
      }
    }

    /**
     * initialize: loads every active AUTHENTICATED account; an account
     * whose client cannot be created is marked ERROR and the rest still load.
     */
    method Initialize(failure: string -> Option<string>, now: Minutes)
      requires Valid()
      modifies this, db
      ensures Valid()
      ensures var out := StartupFold(old(db.FindActiveAccountsByStatus(AccountStatus.AUTHENTICATED)),
                                     old(pool.Keys), old(db.accounts), failure, now);
              pool.Keys == out.0 && db.accounts == out.1
      ensures forall n :: n in old(pool) ==> n in pool && pool[n] == old(pool)[n]
      ensures forall n :: n in pool && n !in old(pool) ==>
                fresh(pool[n]) && pool[n].isAuthenticated && !pool[n].closeCalled
      ensures roundRobinIndex == old(roundRobinIndex)
      ensures db.sessions == old(db.sessions)
    {
      var snapshot := db.FindActiveAccountsByStatus(AccountStatus.AUTHENTICATED);
      LoadAll(snapshot, failure, now);
    }

    /** The loop of initialize over the queried accounts. */
    method LoadAll(snapshot: seq<Account>, failure: string -> Option<string>, now: Minutes)
      requires Valid()
      modifies this, db
      ensures Valid()
      ensures (pool.Keys, db.accounts) == StartupFold(snapshot, old(pool.Keys), old(db.accounts), failure, now)
      ensures forall n :: n in old(pool) ==> n in pool && pool[n] == old(pool)[n]
      ensures forall n :: n in pool && n !in old(pool) ==>
                fresh(pool[n]) && pool[n].isAuthenticated && !pool[n].closeCalled
      ensures roundRobinIndex == old(roundRobinIndex)
      ensures db.sessions == old(db.sessions)
    {
      var i := 0;
      while i < |snapshot|
        invariant 0 <= i <= |snapshot|
        invariant Valid()
        invariant (pool.Keys, db.accounts) == StartupFold(snapshot[..i], old(pool.Keys), old(db.accounts), failure, now)
        invariant forall n :: n in old(pool) ==> n in pool && pool[n] == old(pool)[n]
        invariant forall n :: n in pool && n !in old(pool) ==>
                    fresh(pool[n]) && pool[n].isAuthenticated && !pool[n].closeCalled
        invariant roundRobinIndex == old(roundRobinIndex)
        invariant db.sessions == old(db.sessions)
      {
        assert snapshot[..i + 1][..i] == snapshot[..i];
        LoadOrMarkFailed(snapshot[i], failure, now);
        i := i + 1;
      }
      assert snapshot[..i] == snapshot;
    }

    /**
     * startAuthentication: fails for an unknown account or one already
     * pooled; otherwise marks it AUTHENTICATING, then creates its client
     * (which may throw) and pools it unauthenticated.
     */
    method StartAuthentication(accountId: int, factoryFailure: Option<string>, now: Minutes)
      returns (r: Result<DynamicTelegramClient>)
      requires Valid()
      modifies this, db
      ensures Valid()
      ensures roundRobinIndex == old(roundRobinIndex) && db.sessions == old(db.sessions)
      ensures accountId !in old(db.accounts) ==>
                r.Fail? && pool == old(pool) && order == old(order) && db.accounts == old(db.accounts)
      ensures accountId in old(db.accounts) && old(db.accounts)[accountId].sessionName in old(pool) ==>
                r.Fail? && pool == old(pool) && order == old(order) && db.accounts == old(db.accounts)
      ensures accountId in old(db.accounts) && old(db.accounts)[accountId].sessionName !in old(pool) ==>
                db.accounts == old(db.accounts)[accountId :=
                  WithStatus(old(db.accounts)[accountId], AUTHENTICATING, None, None, now)]
      ensures accountId in old(db.accounts) && old(db.accounts)[accountId].sessionName !in old(pool)
              && factoryFailure.Some? ==>
                r == Fail(factoryFailure.value) && pool == old(pool) && order == old(order)
      ensures accountId in old(db.accounts) && old(db.accounts)[accountId].sessionName !in old(pool)
              && factoryFailure.None? ==>
                var name := old(db.accounts)[accountId].sessionName;
                r.Ok? && fresh(r.value) && pool == old(pool)[name := r.value]
                && order == old(order) + [name]
                && !r.value.isAuthenticated && r.value.accountId == Some(accountId)
    {
      var account := db.FindAccountById(accountId);
      if account.None? {
        return Fail("Account not found");
      }
      var name := account.value.sessionName;
      if name in pool {
        return Fail("Account already active");
      }
      var _ := db.UpdateAccountStatus(accountId, AUTHENTICATING, None, None, now);
      if factoryFailure.Some? {
        return Fail(factoryFailure.value);
      }
      var client := new DynamicTelegramClient(name, Some(accountId), db, now);
      pool := pool[name := client];
      order := order + [name];
      r := Ok(client);
    }

    /**
     * getNextAvailableClient: null when no pooled client is authenticated;
     * otherwise the counter picks among the authenticated clients and advances.
     */
    method GetNextAvailableClient() returns (c: DynamicTelegramClient?)
      requires Valid()
      modifies this
      ensures Valid()
      ensures pool == old(pool) && order == old(order)
      ensures c == null <==> forall n :: n in pool ==> !pool[n].isAuthenticated
      ensures c == null ==> roundRobinIndex == old(roundRobinIndex)
      ensures c != null ==>
                var ready := ReadyFrom(order, pool);
                |ready| > 0 && c == ready[RoundRobinIndex(old(roundRobinIndex), |ready|)]
                && roundRobinIndex == old(roundRobinIndex) + 1
      ensures c != null ==> c in pool.Values && c.isAuthenticated
    {
      var ready := ReadyFrom(order, pool);
      if |ready| == 0 {
        NoneReady(order, pool);
        return null;
      }
      var index := RoundRobinIndex(roundRobinIndex, |ready|);
      ReadyInPool(order, pool, index);
      roundRobinIndex := roundRobinIndex + 1;
      c := ready[index];
    }

    /** getClient: the client filed under the session name, if any. */
    function GetClient(sessionName: string): (c: DynamicTelegramClient?)
      reads this, db, auth
      requires Valid()
      ensures c != null <==> sessionName in pool
      ensures c != null ==> c.sessionName == sessionName && c.db == db
    {
      if sessionName in pool then pool[sessionName] else null
    }

    /** The account with this session name, if any, becomes INACTIVE with sub-state and error cleared. */
    method MarkInactive(sessionName: string, now: Minutes)
      requires db.Valid()
      modifies db
      ensures db.Valid()
      ensures db.sessions == old(db.sessions)
      ensures db.accounts == SetStatusByName(old(db.accounts), sessionName, INACTIVE, None, now)
    {
      var account := db.FindAccountBySessionName(sessionName);
      if account.Some? {
        var _ := db.UpdateAccountStatus(account.value.id, INACTIVE, None, None, now);
        forall k | k in old(db.accounts) && old(db.accounts)[k].sessionName == sessionName
          ensures k == account.value.id
        {
        }
      }
    }

    /**
     * removeClient: a pooled client is removed and closed, and the account
     * with that session name, if any, is marked INACTIVE with its sub-state
     * and error cleared. An unknown name changes nothing.
     */
    method RemoveClient(sessionName: string, now: Minutes)
      requires Valid()
      modifies this, db, if sessionName in pool then {pool[sessionName]} else {}
      ensures Valid()
      ensures roundRobinIndex == old(roundRobinIndex) && db.sessions == old(db.sessions)
      ensures sessionName !in old(pool) ==>
                pool == old(pool) && order == old(order) && db.accounts == old(db.accounts)
      ensures sessionName in old(pool) ==>
                pool == old(pool) - {sessionName} && order == Without(old(order), sessionName)
                && old(pool)[sessionName].closeCalled && !old(pool)[sessionName].isAuthenticated
                && db.accounts == SetStatusByName(old(db.accounts), sessionName, INACTIVE, None, now)
      ensures forall n :: n in pool ==> pool[n].isAuthenticated == old(pool[n].isAuthenticated)
    {
      if sessionName !in pool {
        return;
      }
      var client := pool[sessionName];
      assert forall n :: n in pool && n != sessionName ==> pool[n] != client;
      Unpool(sessionName);
      client.Close();
      MarkInactive(sessionName, now);
    }

    /** Drops a name from the pool and from the iteration order. */
    method Unpool(sessionName: string)
      requires Valid()
      modifies this
      ensures Valid()
      ensures pool == old(pool) - {sessionName} && order == Without(old(order), sessionName)
      ensures roundRobinIndex == old(roundRobinIndex)
    {
      pool := pool - {sessionName};
      order := Without(order, sessionName);
      forall i | 0 <= i < |order|
        ensures order[i] in pool
      {
        assert order[i] in order;
      }
    }

    /** getPoolStatus: counts and one line per pooled client, in iteration order. */
    function GetPoolStatus(): (s: PoolStatus)
      reads this, db, auth, pool.Values
      requires Valid()
      ensures s.totalClients == |order| == |s.clients|
      ensures s.authenticatedClients == |ReadyFrom(order, pool)|
      ensures s.authenticatingClients == s.totalClients - s.authenticatedClients
      ensures forall i :: 0 <= i < |order| ==>
                s.clients[i].sessionName == order[i] && s.clients[i].isAuthenticated == pool[order[i]].isAuthenticated
    {
      var clients := Infos(order, pool);
      var authenticated := Count(clients, InfoAuthenticated);
      ReportCountsReady(order, pool);
      PoolStatus(|order|, authenticated, |order| - authenticated, clients)
    }

    /**
     * handleAuthStateChange for a known account. Ready: the pooled client
     * is marked authenticated, the account AUTHENTICATED with sub-state and
     * error cleared, and the authentication service told of success.
     * Closed: the client leaves the pool without being closed and the
     * account is marked ERROR "Connection closed". Anything else, or an
     * unknown account, changes nothing.
     */
    method HandleAuthStateChange(accountId: int, state: AuthorizationState, now: Minutes)
      requires Valid()
      modifies this, db, auth, ClientOf(accountId)
      ensures Valid()
      ensures roundRobinIndex == old(roundRobinIndex) && db.sessions == old(db.sessions)
      ensures accountId !in old(db.accounts) || state.StateWaitCode? || state.StateWaitPassword? || state.StateOther? ==>
                pool == old(pool) && order == old(order) && db.accounts == old(db.accounts)
                && unchanged(auth) && unchanged(old(ClientOf(accountId)))
      ensures accountId in old(db.accounts) && state.StateReady? ==>
                var name := old(db.accounts)[accountId].sessionName;
                pool == old(pool) && order == old(order)
                && (name in pool ==> pool[name].isAuthenticated)
                && db.accounts == old(db.accounts)[accountId :=
                     WithStatus(old(db.accounts)[accountId], AccountStatus.AUTHENTICATED, None, None, now)]
                && auth.pendingCode == old(auth.pendingCode) - {accountId}
                && auth.pendingPassword == old(auth.pendingPassword) - {accountId}
                && auth.futures == Settle(Settle(old(auth.futures), old(auth.pendingCode), accountId, Cancelled),
                                          old(auth.pendingPassword), accountId, Cancelled)
                && auth.updates == old(auth.updates) + [AuthUpdate(accountId, AuthUpdateType.AUTHENTICATED, AUTH_SUCCESS, None)]
      ensures accountId in old(db.accounts) && state.StateClosed? ==>
                var name := old(db.accounts)[accountId].sessionName;
                pool == old(pool) - {name} && order == Without(old(order), name)
                && unchanged(old(ClientOf(accountId))) && unchanged(auth)
                && db.accounts == old(db.accounts)[accountId :=
                     WithStatus(old(db.accounts)[accountId], AccountStatus.ERROR, None, Some(CONNECTION_CLOSED), now)]
    {
      var account := db.FindAccountById(accountId);
      if account.None? {
        return;
      }
      var name := account.value.sessionName;
      match state {
        case StateReady =>
          if name in pool {
            pool[name].MarkAsAuthenticated();
          }
          var _ := db.UpdateAccountStatus(accountId, AccountStatus.AUTHENTICATED, None, None, now);
          auth.NotifyAuthenticationComplete(accountId, true, None);
        case StateClosed =>
          Unpool(name);
          var _ := db.UpdateAccountStatus(accountId, AccountStatus.ERROR, None, Some(CONNECTION_CLOSED), now);
        case _ =>
      }
    }

    /** shutdown: every pooled client is closed, then the pool is emptied. */
    method Shutdown()
      requires Valid()
      modifies this, pool.Values
      ensures Valid()
      ensures pool == map[] && order == []
      ensures forall c :: c in old(pool.Values) ==> c.closeCalled && !c.isAuthenticated
    {
      var i := 0;
      while i < |order|
        invariant 0 <= i <= |order|
        invariant pool == old(pool) && order == old(order)
        invariant Valid()
        invariant forall j :: 0 <= j < i ==> pool[order[j]].closeCalled && !pool[order[j]].isAuthenticated
      {
        pool[order[i]].Close();
        i := i + 1;
      }
      forall c | c in old(pool.Values)
        ensures c.closeCalled && !c.isAuthenticated
      {
        var n :| n in pool && pool[n] == c;
        var j :| 0 <= j < |order| && order[j] == n;
      }
      pool := map[];
      order := [];
    }
  }
}
