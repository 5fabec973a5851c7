/**
 * The pool's scheduled housekeeping: a probe of every pooled client of an
 * active AUTHENTICATED account (an unhealthy one is marked and dropped),
 * and the nightly removal of session directories of INACTIVE accounts
 * that have no client in the pool.
 *
 * Each probe's answer is an oracle indexed by session name; deleting a
 * session directory is file-system work that swallows its own errors, so
 * the model records the directories it was asked to delete.
 */
module HealthChecker {
  import opened Common
  import opened Domain
  import opened AccountPoolDb
  import opened DynamicClient
  import opened PoolManager

  const HEALTH_FAILURE_PREFIX: string := "Health check failed: "

  /** What one account's probe came to. */
  datatype Probe = Skipped | Healthy | Unhealthy(message: string)

  /**
   * The account table after handleUnhealthyAccount as written: ERROR with
   * the reason, then removeClient's INACTIVE write by session name, which
   * clears the error again.
   */
  function UnhealthyAsWritten(accounts: map<int, Account>, accountId: int, sessionName: string,
                              message: string, now: Minutes): (r: map<int, Account>)
    requires accountId in accounts
    ensures r.Keys == accounts.Keys
    ensures accounts[accountId].sessionName == sessionName ==>
              r[accountId].status == INACTIVE && r[accountId].errorMessage == None
  {
    var marked := accounts[accountId := WithStatus(accounts[accountId], AccountStatus.ERROR, None,
                                                   Some(HEALTH_FAILURE_PREFIX + message), now)];
    SetStatusByName(marked, sessionName, INACTIVE, None, now)
  }

  /**
   * The account table after an unhealthy account is handled as intended:
   * the client is removed first (INACTIVE by session name), then the
   * account is marked ERROR with the reason, which is what stays.
   */
  function UnhealthyCorrected(accounts: map<int, Account>, accountId: int, sessionName: string,
                              message: string, now: Minutes): (r: map<int, Account>)
    requires accountId in accounts
    ensures r.Keys == accounts.Keys
    ensures r[accountId].status == AccountStatus.ERROR
    ensures r[accountId].errorMessage == Some(HEALTH_FAILURE_PREFIX + message)
    ensures r[accountId].sessionName == accounts[accountId].sessionName
    ensures forall k :: k in accounts && k != accountId && accounts[k].sessionName != sessionName ==>
              r[k] == accounts[k]
  {
    var removed := SetStatusByName(accounts, sessionName, INACTIVE, None, now);
    removed[accountId := WithStatus(removed[accountId], AccountStatus.ERROR, None,
                                    Some(HEALTH_FAILURE_PREFIX + message), now)]
  }

  /** A concrete account that, as written, ends INACTIVE with no error after a failed probe. */
  lemma {:induction false} ErrorMarkLostWitness()
    ensures var before := map[1 := Account(1, Encrypt("+79001234567", 1), 1, Encrypt("h", 2), "s1",
                                           AccountStatus.AUTHENTICATED, None, None, None, true, 0, 0, None)];
            var after := UnhealthyAsWritten(before, 1, "s1", "timeout", 5);
            after[1].status == INACTIVE && after[1].errorMessage.None?
            && UnhealthyCorrected(before, 1, "s1", "timeout", 5)[1].errorMessage == Some("Health check failed: timeout")
  {
    var before := map[1 := Account(1, Encrypt("+79001234567", 1), 1, Encrypt("h", 2), "s1",
                                   AccountStatus.AUTHENTICATED, None, None, None, true, 0, 0, None)];
    assert before[1].sessionName == "s1";
    assert HEALTH_FAILURE_PREFIX + "timeout" == "Health check failed: timeout";
  }

  /** The names of the accounts whose session directory cleanup deletes, in query order. */
  function CleanupTargets(accounts: seq<Account>, pooled: set<string>): (r: seq<string>)
    ensures |r| <= |accounts|
    decreases |accounts|
  {
    if accounts == [] then []
    else
      var last := accounts[|accounts| - 1];
      CleanupTargets(accounts[..|accounts| - 1], pooled) + (if last.sessionName in pooled then [] else [last.sessionName])
  }

  /** One more account extends the targets by its name, unless it has a pooled client. */
  lemma {:induction false} CleanupTargetsStep(accounts: seq<Account>, i: nat, pooled: set<string>)
    requires i < |accounts|
    ensures CleanupTargets(accounts[..i + 1], pooled)
            == CleanupTargets(accounts[..i], pooled)
               + (if accounts[i].sessionName in pooled then [] else [accounts[i].sessionName])
  {
    assert accounts[..i + 1][..i] == accounts[..i];
  }

  /** Cleanup deletes exactly the directories of the listed accounts that have no pooled client. */
  lemma {:induction false} CleanupTargetsExactly(accounts: seq<Account>, pooled: set<string>)
    ensures forall n :: n in CleanupTargets(accounts, pooled) <==>
              n !in pooled && exists i :: 0 <= i < |accounts| && accounts[i].sessionName == n
    decreases |accounts|
  {
    if accounts != [] {
      var m := |accounts| - 1;
      var init := accounts[..m];
      CleanupTargetsExactly(init, pooled);
      forall n | n !in pooled && (exists i :: 0 <= i < |accounts| && accounts[i].sessionName == n)
        ensures n in CleanupTargets(accounts, pooled)
      {
        var i :| 0 <= i < |accounts| && accounts[i].sessionName == n;
        if i < m {
          assert init[i].sessionName == n;
        }
      }
      forall n | n in CleanupTargets(accounts, pooled)
        ensures n !in pooled && exists i :: 0 <= i < |accounts| && accounts[i].sessionName == n
      {
        if n in CleanupTargets(init, pooled) {
          var i :| 0 <= i < |init| && init[i].sessionName == n;
          assert accounts[i].sessionName == n;
        } else {
          assert accounts[m].sessionName == n;
        }
      }
    }
  }

  /** The probe of this account fails: it had a ready client and getMe threw. */
  predicate Fails(a: Account, ready: set<string>, probe: string -> Reply)
  {
    a.sessionName in ready && probe(a.sessionName).Thrown?
  }

  /** The probe of this account succeeds: it had a ready client and getMe answered. */
  predicate Passes(a: Account, ready: set<string>, probe: string -> Reply)
  {
    a.sessionName in ready && !probe(a.sessionName).Thrown?
  }

  /** Passes and Fails as values, so that every count names the same test. */
  function PassesOf(ready: set<string>, probe: string -> Reply): (p: Account -> bool)
    ensures forall a :: p(a) == Passes(a, ready, probe)
  {
    (a: Account) => Passes(a, ready, probe)
  }

  function FailsOf(ready: set<string>, probe: string -> Reply): (p: Account -> bool)
    ensures forall a :: p(a) == Fails(a, ready, probe)
  {
    (a: Account) => Fails(a, ready, probe)
  }

  /** What probing this account comes to, given the names with a ready client. */
  function Expected(a: Account, ready: set<string>, probe: string -> Reply): (o: Probe)
    ensures o.Healthy? <==> Passes(a, ready, probe)
    ensures o.Unhealthy? <==> Fails(a, ready, probe)
  {
    if a.sessionName !in ready then Skipped
    else if probe(a.sessionName).Thrown? then Unhealthy(probe(a.sessionName).message)
    else Healthy
  }

  /**
   * The effect of probing one account on the pool's entries and on the
   * account table: a skipped or healthy probe changes no entry and no
   * status or error, a failed one drops the entry and leaves the account
   * ERROR with the reason; no other account and no session name changes.
   */
  ghost predicate Stepped(a: Account, ready: set<string>, probe: string -> Reply,
                          pool1: map<string, DynamicTelegramClient>, accounts1: map<int, Account>,
                          pool2: map<string, DynamicTelegramClient>, accounts2: map<int, Account>)
  {
    var o := Expected(a, ready, probe);
    accounts2.Keys == accounts1.Keys
    && (forall k :: k in accounts1 ==> accounts2[k].sessionName == accounts1[k].sessionName)
    && (!o.Unhealthy? ==>
          pool2 == pool1
          && forall k :: k in accounts1 ==>
               accounts2[k].status == accounts1[k].status && accounts2[k].errorMessage == accounts1[k].errorMessage)
    && (o.Unhealthy? ==>
          pool2 == pool1 - {a.sessionName}
          && a.id in accounts2
          && accounts2[a.id].status == AccountStatus.ERROR
          && accounts2[a.id].errorMessage == Some(HEALTH_FAILURE_PREFIX + o.message)
          && forall k :: k in accounts1 && k != a.id && accounts1[k].sessionName != a.sessionName ==>
               accounts2[k] == accounts1[k])
  }

  /**
   * A health pass after its first i accounts: the counts so far, pool
   * entries removed exactly for the failed accounts, each failed account
   * ERROR with the reason, and every other status as it was.
   */
  ghost predicate Progress(snapshot: seq<Account>, i: nat, ready: set<string>, probe: string -> Reply,
                           healthyCount: nat, failedCount: nat,
                           pool0: map<string, DynamicTelegramClient>, accounts0: map<int, Account>,
                           pool1: map<string, DynamicTelegramClient>, accounts1: map<int, Account>)
    requires i <= |snapshot|
  {
    healthyCount == Count(snapshot[..i], PassesOf(ready, probe))
    && failedCount == Count(snapshot[..i], FailsOf(ready, probe))
    && accounts1.Keys == accounts0.Keys
    && (forall k :: k in accounts0 ==> accounts1[k].sessionName == accounts0[k].sessionName)
    && (forall n :: n in pool1 ==> n in pool0 && pool1[n] == pool0[n])
    && (forall n :: n in pool0 ==>
          (n in pool1 <==> !exists j :: 0 <= j < i && snapshot[j].sessionName == n && Fails(snapshot[j], ready, probe)))
    && (forall j :: 0 <= j < i && Fails(snapshot[j], ready, probe) ==>
          snapshot[j].id in accounts1
          && accounts1[snapshot[j].id].status == AccountStatus.ERROR
          && accounts1[snapshot[j].id].errorMessage == Some(HEALTH_FAILURE_PREFIX + probe(snapshot[j].sessionName).message))
    && (forall k :: k in accounts0 ==>
          accounts1[k].status == accounts0[k].status
          || exists j :: 0 <= j < i && snapshot[j].id == k && Fails(snapshot[j], ready, probe))
  }

  /**
   * What a whole health pass over `snapshot` achieves: the counts of
   * passing and failing probes, each failed account unpooled and ERROR
   * with the reason, every other pool entry kept as the same client, and
   * no other status changed.
   */
  ghost predicate Probed(snapshot: seq<Account>, ready: set<string>, probe: string -> Reply,
                         healthyCount: nat, failedCount: nat,
                         pool0: map<string, DynamicTelegramClient>, accounts0: map<int, Account>,
                         pool1: map<string, DynamicTelegramClient>, accounts1: map<int, Account>)
  {
    healthyCount == Count(snapshot, PassesOf(ready, probe))
    && failedCount == Count(snapshot, FailsOf(ready, probe))
    && healthyCount + failedCount <= |snapshot|
    && (forall j :: 0 <= j < |snapshot| && Fails(snapshot[j], ready, probe) ==>
          snapshot[j].sessionName !in pool1 && snapshot[j].id in accounts1
          && accounts1[snapshot[j].id].status == AccountStatus.ERROR
          && accounts1[snapshot[j].id].errorMessage == Some(HEALTH_FAILURE_PREFIX + probe(snapshot[j].sessionName).message))
    && (forall n :: n in pool1 <==>
          n in pool0 && !exists j :: 0 <= j < |snapshot| && snapshot[j].sessionName == n && Fails(snapshot[j], ready, probe))
    && (forall n :: n in pool1 ==> pool1[n] == pool0[n])
    && accounts1.Keys == accounts0.Keys
    && (forall k :: k in accounts0 ==>
          accounts1[k].status == accounts0[k].status
          || exists j :: 0 <= j < |snapshot| && snapshot[j].id == k && Fails(snapshot[j], ready, probe))
  }

  /** One more probed account extends the pass's progress by one. */
  lemma {:induction false} ProgressStep(snapshot: seq<Account>, i: nat, ready: set<string>, probe: string -> Reply,
                                        healthyCount: nat, failedCount: nat,
                                        pool0: map<string, DynamicTelegramClient>, accounts0: map<int, Account>,
                                        pool1: map<string, DynamicTelegramClient>, accounts1: map<int, Account>,
                                        pool2: map<string, DynamicTelegramClient>, accounts2: map<int, Account>)
    requires i < |snapshot|
    requires DistinctSessionNames(snapshot) && UniqueSessionNames(accounts0)
    requires forall j :: 0 <= j < |snapshot| ==> snapshot[j].id in accounts0 && accounts0[snapshot[j].id] == snapshot[j]
    requires Progress(snapshot, i, ready, probe, healthyCount, failedCount, pool0, accounts0, pool1, accounts1)
    requires Stepped(snapshot[i], ready, probe, pool1, accounts1, pool2, accounts2)
    ensures Progress(snapshot, i + 1, ready, probe,
                     healthyCount + (if Expected(snapshot[i], ready, probe).Healthy? then 1 else 0),
                     failedCount + (if Expected(snapshot[i], ready, probe).Unhealthy? then 1 else 0),
                     pool0, accounts0, pool2, accounts2)
  {
    StepCounts(snapshot, i, ready, probe);
    StepFailed(snapshot, i, ready, probe, healthyCount, failedCount, pool0, accounts0, pool1, accounts1, pool2, accounts2);
  }

  /** The counts grow by the outcome of the one more probe. */
  lemma {:induction false} StepCounts(snapshot: seq<Account>, i: nat, ready: set<string>, probe: string -> Reply)
    requires i < |snapshot|
    ensures Count(snapshot[..i + 1], PassesOf(ready, probe))
            == Count(snapshot[..i], PassesOf(ready, probe)) + (if Expected(snapshot[i], ready, probe).Healthy? then 1 else 0)
    ensures Count(snapshot[..i + 1], FailsOf(ready, probe))
            == Count(snapshot[..i], FailsOf(ready, probe)) + (if Expected(snapshot[i], ready, probe).Unhealthy? then 1 else 0)
  {
    assert snapshot[..i + 1] == snapshot[..i] + [snapshot[i]];
    FilterSnoc(snapshot[..i], snapshot[i], PassesOf(ready, probe));
    FilterSnoc(snapshot[..i], snapshot[i], FailsOf(ready, probe));
  }

  /** Accounts that failed earlier keep their ERROR status and reason. */
  lemma {:induction false} StepFailed(snapshot: seq<Account>, i: nat, ready: set<string>, probe: string -> Reply,
                                      healthyCount: nat, failedCount: nat,
                                      pool0: map<string, DynamicTelegramClient>, accounts0: map<int, Account>,
                                      pool1: map<string, DynamicTelegramClient>, accounts1: map<int, Account>,
                                      pool2: map<string, DynamicTelegramClient>, accounts2: map<int, Account>)
    requires i < |snapshot|
    requires DistinctSessionNames(snapshot) && UniqueSessionNames(accounts0)
    requires forall j :: 0 <= j < |snapshot| ==> snapshot[j].id in accounts0 && accounts0[snapshot[j].id] == snapshot[j]
    requires Progress(snapshot, i, ready, probe, healthyCount, failedCount, pool0, accounts0, pool1, accounts1)
    requires Stepped(snapshot[i], ready, probe, pool1, accounts1, pool2, accounts2)
    ensures forall j :: 0 <= j < i && Fails(snapshot[j], ready, probe) ==>
              snapshot[j].id in accounts2
              && accounts2[snapshot[j].id].status == AccountStatus.ERROR
              && accounts2[snapshot[j].id].errorMessage == Some(HEALTH_FAILURE_PREFIX + probe(snapshot[j].sessionName).message)
  {
    var a := snapshot[i];
    forall j | 0 <= j < i && Fails(snapshot[j], ready, probe)
      ensures snapshot[j].id in accounts2
              && accounts2[snapshot[j].id].status == AccountStatus.ERROR
              && accounts2[snapshot[j].id].errorMessage == Some(HEALTH_FAILURE_PREFIX + probe(snapshot[j].sessionName).message)
    {
      assert snapshot[j].sessionName != a.sessionName;
      assert snapshot[j].id != a.id;
    }
  }

  /** A pass that has probed every account has done what Probed says. */
  lemma {:induction false} ProgressDone(snapshot: seq<Account>, ready: set<string>, probe: string -> Reply,
                                        healthyCount: nat, failedCount: nat,
                                        pool0: map<string, DynamicTelegramClient>, accounts0: map<int, Account>,
                                        pool1: map<string, DynamicTelegramClient>, accounts1: map<int, Account>)
    requires Progress(snapshot, |snapshot|, ready, probe, healthyCount, failedCount, pool0, accounts0, pool1, accounts1)
    ensures Probed(snapshot, ready, probe, healthyCount, failedCount, pool0, accounts0, pool1, accounts1)
  {
    assert snapshot[..|snapshot|] == snapshot;
    CountDisjoint(snapshot, PassesOf(ready, probe), FailsOf(ready, probe));
  }

  class TelegramPoolHealthChecker {
    const pool: TelegramClientPoolManager
    const db: AccountPoolDbService
    /** Session directories the client factory has been asked to delete, in order. */
    var deletedDirectories: seq<string>

    ghost predicate Valid()
      reads this, pool, db, pool.auth
    {
      pool.db == db && pool.Valid()
    }

    constructor(pool: TelegramClientPoolManager, db: AccountPoolDbService)
      requires pool.db == db && pool.Valid()
      ensures Valid() && this.pool == pool && this.db == db && deletedDirectories == []
    {
      this.pool := pool;
      this.db := db;
      deletedDirectories := [];
    }

    /** The pooled client under this name, if any. */
    ghost function Named(sessionName: string): set<DynamicTelegramClient>
      reads pool
    {
      if sessionName in pool.pool then {pool.pool[sessionName]} else {}
    }

    /** There is a pooled, authenticated client under this name. */
    predicate Ready(sessionName: string)
      reads pool, pool.pool.Values
    {
      sessionName in pool.pool && pool.pool[sessionName].isAuthenticated
    }

    /**
     * handleUnhealthyAccount as written: ERROR with the reason, then
     * removeClient. For an unknown account the first write throws and
     * nothing happens.
     */
    method HandleUnhealthyAccountAsWritten(accountId: int, sessionName: string, message: string, now: Minutes)
      requires Valid()
      modifies pool, db, Named(sessionName)
      ensures Valid()
      ensures accountId !in old(db.accounts) ==>
                db.accounts == old(db.accounts) && pool.pool == old(pool.pool)
      ensures accountId in old(db.accounts) && sessionName in old(pool.pool) ==>
                pool.pool == old(pool.pool) - {sessionName}
                && db.accounts == UnhealthyAsWritten(old(db.accounts), accountId, sessionName, message, now)
    {
      var written := db.UpdateAccountStatus(accountId, AccountStatus.ERROR, None,
                                            Some(HEALTH_FAILURE_PREFIX + message), now);
      if written.Fail? {
        return;
      }
      pool.RemoveClient(sessionName, now);
    }

    /**
     * handleUnhealthyAccount as intended: the client leaves the pool (and
     * is closed) first, then the account is marked ERROR with the reason.
     */
    method HandleUnhealthyAccount(accountId: int, sessionName: string, message: string, now: Minutes)
      requires Valid()
      modifies pool, db, Named(sessionName)
      ensures Valid()
      ensures pool.roundRobinIndex == old(pool.roundRobinIndex)
      ensures db.accounts.Keys == old(db.accounts.Keys)
      ensures accountId !in old(db.accounts) ==>
                db.accounts == old(db.accounts) && pool.pool == old(pool.pool)
      ensures accountId in old(db.accounts) ==>
                pool.pool == old(pool.pool) - {sessionName}
                && (sessionName in old(pool.pool) ==>
                      db.accounts == UnhealthyCorrected(old(db.accounts), accountId, sessionName, message, now))
                && db.accounts[accountId].status == AccountStatus.ERROR
                && db.accounts[accountId].errorMessage == Some(HEALTH_FAILURE_PREFIX + message)
      ensures forall k :: k in old(db.accounts) ==> db.accounts[k].sessionName == old(db.accounts)[k].sessionName
      ensures forall k :: k in old(db.accounts) && k != accountId && old(db.accounts)[k].sessionName != sessionName ==>
                db.accounts[k] == old(db.accounts)[k]
      ensures forall n :: n != sessionName ==> (Ready(n) <==> old(Ready(n)))
    {
      if accountId !in db.accounts {
        return;
      }
      pool.RemoveClient(sessionName, now);
      var _ := db.UpdateAccountStatus(accountId, AccountStatus.ERROR, None,
                                      Some(HEALTH_FAILURE_PREFIX + message), now);
    }

    /**
     * One account of checkAccountHealth: no pooled client, or an
     * unauthenticated one, is skipped; otherwise the client is probed with
     * getMe, and a failed probe hands the account to the unhealthy path.
     */
    method ProbeAccount(account: Account, probe: string -> Reply, now: Minutes, ghost ready: set<string>)
      returns (outcome: Probe)
      requires Valid()
      requires account.id in db.accounts
      requires account.sessionName in ready <==> Ready(account.sessionName)
      modifies pool, db, Named(account.sessionName)
      ensures Valid()
      ensures db.accounts.Keys == old(db.accounts.Keys)
      ensures outcome == Expected(account, ready, probe)
      ensures !outcome.Unhealthy? ==> pool.pool == old(pool.pool)
      ensures outcome.Skipped? ==> db.accounts == old(db.accounts) && unchanged(old(Named(account.sessionName)))
      ensures outcome.Healthy? ==>
                var client := old(pool.pool[account.sessionName]);
                client.isAuthenticated && client.lastUsedAt == now
                && db.accounts == Touched(old(db.accounts), client.accountId, now)
      ensures outcome.Unhealthy? && account.id in old(db.accounts) ==>
                pool.pool == old(pool.pool) - {account.sessionName}
                && db.accounts[account.id].status == AccountStatus.ERROR
                && db.accounts[account.id].errorMessage == Some(HEALTH_FAILURE_PREFIX + outcome.message)
      ensures forall k :: k in old(db.accounts) ==> db.accounts[k].sessionName == old(db.accounts)[k].sessionName
      ensures outcome.Unhealthy? ==>
                forall k :: k in old(db.accounts) && k != account.id && old(db.accounts)[k].sessionName != account.sessionName
                  ==> db.accounts[k] == old(db.accounts)[k]
      ensures pool.roundRobinIndex == old(pool.roundRobinIndex)
      ensures !outcome.Unhealthy? ==>
                forall k :: k in old(db.accounts) ==>
                  db.accounts[k].status == old(db.accounts)[k].status
                  && db.accounts[k].errorMessage == old(db.accounts)[k].errorMessage
      ensures forall n :: n != account.sessionName ==> (Ready(n) <==> old(Ready(n)))
    {
      var client := pool.GetClient(account.sessionName);
      if client == null || !client.isAuthenticated {
        return Skipped;
      }
      var probed := client.GetMe(probe(account.sessionName), now);
      if probed.Ok? {
        return Healthy;
      }
      HandleUnhealthyAccount(account.id, account.sessionName, probed.error, now);
      outcome := Unhealthy(probed.error);
    }
  
    /** ProbeAccount, with its effect stated as one step of a health pass. */
    method ProbeStep(account: Account, probe: string -> Reply, now: Minutes, ghost ready: set<string>)
      returns (outcome: Probe)
      requires Valid()
      requires account.id in db.accounts
      requires account.sessionName in ready <==> Ready(account.sessionName)
      modifies pool, db, Named(account.sessionName)
      ensures Valid()
      ensures outcome == Expected(account, ready, probe)
      ensures Stepped(account, ready, probe, old(pool.pool), old(db.accounts), pool.pool, db.accounts)
      ensures forall n :: n != account.sessionName ==> (Ready(n) <==> old(Ready(n)))
    {
      outcome := ProbeAccount(account, probe, now, ready);
    }

    /** The names with a pooled, authenticated client. */
    ghost function ReadyNames(): set<string>
      reads pool, pool.pool.Values
    {
      set n | n in pool.pool && pool.pool[n].isAuthenticated
    }

    /**
     * checkAccountHealth: probes every active AUTHENTICATED account with a
     * ready client. Each failure is counted and handled (the client leaves
     * the pool, the account ends ERROR with the reason) and the pass goes
     * on; each success is counted and changes no status and no pool entry.
     */
    method CheckAccountHealth(probe: string -> Reply, now: Minutes) returns (healthyCount: nat, failedCount: nat)
      requires Valid()
      modifies pool, db, pool.pool.Values
      ensures Valid()
      ensures Probed(old(db.FindActiveAccountsByStatus(AccountStatus.AUTHENTICATED)), old(ReadyNames()), probe,
                     healthyCount, failedCount, old(pool.pool), old(db.accounts), pool.pool, db.accounts)
    {
      var snapshot := db.FindActiveAccountsByStatus(AccountStatus.AUTHENTICATED);
      forall j | 0 <= j < |snapshot|
        ensures snapshot[j].id in db.accounts && db.accounts[snapshot[j].id] == snapshot[j]
      {
        assert snapshot[j] in db.accounts.Values;
      }
      healthyCount, failedCount := ProbeAll(snapshot, probe, now);
    }

    /** The forEach of checkAccountHealth over the queried accounts. */
    method ProbeAll(snapshot: seq<Account>, probe: string -> Reply, now: Minutes)
      returns (healthyCount: nat, failedCount: nat)
      requires Valid()
      requires DistinctSessionNames(snapshot)
      requires forall j :: 0 <= j < |snapshot| ==> snapshot[j].id in db.accounts && db.accounts[snapshot[j].id] == snapshot[j]
      modifies pool, db, pool.pool.Values
      ensures Valid()
      ensures Probed(snapshot, old(ReadyNames()), probe, healthyCount, failedCount,
                     old(pool.pool), old(db.accounts), pool.pool, db.accounts)
    {
      ghost var ready := ReadyNames();
      healthyCount, failedCount := 0, 0;
      var i := 0;
      while i < |snapshot|
        invariant 0 <= i <= |snapshot|
        invariant Valid()
        invariant Progress(snapshot, i, ready, probe, healthyCount, failedCount,
                           old(pool.pool), old(db.accounts), pool.pool, db.accounts)
        invariant forall j :: i <= j < |snapshot| ==> (snapshot[j].sessionName in ready <==> Ready(snapshot[j].sessionName))
      {
        healthyCount, failedCount := ProbeNext(snapshot, i, probe, now, ready, healthyCount, failedCount,
                                               old(pool.pool), old(db.accounts));
        i := i + 1;
      }
      ProgressDone(snapshot, ready, probe, healthyCount, failedCount,
                   old(pool.pool), old(db.accounts), pool.pool, db.accounts);
    }

    /** The body of the forEach: probes snapshot[i] and counts its outcome. */
    method ProbeNext(snapshot: seq<Account>, i: nat, probe: string -> Reply, now: Minutes, ghost ready: set<string>,
                     healthyCount: nat, failedCount: nat,
                     ghost pool0: map<string, DynamicTelegramClient>, ghost accounts0: map<int, Account>)
      returns (healthy: nat, failed: nat)
      requires Valid()
      requires i < |snapshot|
      requires DistinctSessionNames(snapshot) && UniqueSessionNames(accounts0)
      requires forall j :: 0 <= j < |snapshot| ==> snapshot[j].id in accounts0 && accounts0[snapshot[j].id] == snapshot[j]
      requires Progress(snapshot, i, ready, probe, healthyCount, failedCount, pool0, accounts0, pool.pool, db.accounts)
      requires forall j :: i <= j < |snapshot| ==> (snapshot[j].sessionName in ready <==> Ready(snapshot[j].sessionName))
      modifies pool, db, Named(snapshot[i].sessionName)
      ensures Valid()
      ensures Progress(snapshot, i + 1, ready, probe, healthy, failed, pool0, accounts0, pool.pool, db.accounts)
      ensures forall j :: i < j < |snapshot| ==> (snapshot[j].sessionName in ready <==> Ready(snapshot[j].sessionName))
    {
      var account := snapshot[i];
      ghost var pool1, accounts1 := pool.pool, db.accounts;
      var outcome := ProbeStep(account, probe, now, ready);
      ProgressStep(snapshot, i, ready, probe, healthyCount, failedCount,
                   pool0, accounts0, pool1, accounts1, pool.pool, db.accounts);
      healthy, failed := healthyCount, failedCount;
      if outcome.Healthy? {
        healthy := healthy + 1;
      } else if outcome.Unhealthy? {
        failed := failed + 1;
      }
    }

    /**
     * cleanupOldSessions: asks for the session directory of every INACTIVE
     * account without a pooled client to be deleted; the count is of the
     * deletions asked for, since a failing deletion is swallowed.
     */
    method CleanupOldSessions() returns (deletedCount: nat)
      requires Valid()
      modifies this
      ensures Valid()
      ensures var targets := CleanupTargets(old(db.FindAccountsByStatus(INACTIVE)), pool.pool.Keys);
              deletedDirectories == old(deletedDirectories) + targets && deletedCount == |targets|
      ensures forall i :: |old(deletedDirectories)| <= i < |deletedDirectories| ==>
                deletedDirectories[i] !in pool.pool
                && exists k :: k in db.accounts && db.accounts[k].sessionName == deletedDirectories[i]
                               && db.accounts[k].status == INACTIVE
    {
      var inactive := db.FindAccountsByStatus(INACTIVE);
      deletedCount := RequestDeletions(inactive);
      ghost var targets := CleanupTargets(inactive, pool.pool.Keys);
      CleanupTargetsExactly(inactive, pool.pool.Keys);
      forall i | |old(deletedDirectories)| <= i < |deletedDirectories|
        ensures deletedDirectories[i] !in pool.pool
        ensures exists k :: k in db.accounts && db.accounts[k].sessionName == deletedDirectories[i]
                            && db.accounts[k].status == INACTIVE
      {
        var n := deletedDirectories[i];
        assert n == targets[i - |old(deletedDirectories)|];
        assert n in targets;
        var j :| 0 <= j < |inactive| && inactive[j].sessionName == n;
        assert inactive[j] in db.accounts.Values;
      }
    }

    /** The forEach of cleanupOldSessions over the queried accounts. */
    method RequestDeletions(accounts: seq<Account>) returns (deletedCount: nat)
      requires Valid()
      modifies this
      ensures Valid()
      ensures var targets := CleanupTargets(accounts, pool.pool.Keys);
              deletedDirectories == old(deletedDirectories) + targets && deletedCount == |targets|
    {
      deletedCount := 0;
      var i := 0;
      while i < |accounts|
        invariant 0 <= i <= |accounts|
        invariant Valid()
        invariant deletedDirectories == old(deletedDirectories) + CleanupTargets(accounts[..i], pool.pool.Keys)
        invariant deletedCount == |CleanupTargets(accounts[..i], pool.pool.Keys)|
      {
        var account := accounts[i];
        var client := pool.GetClient(account.sessionName);
        if client == null {
          deletedDirectories := deletedDirectories + [account.sessionName];
          deletedCount := deletedCount + 1;
        }
        CleanupTargetsStep(accounts, i, pool.pool.Keys);
        i := i + 1;
      }
      assert accounts[..i] == accounts;
    }
  }
}
