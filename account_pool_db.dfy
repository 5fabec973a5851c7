/**
 * The table of Telegram accounts of the sending pool and the table of
 * their authentication sessions, with the writes the pool and the
 * authentication broker perform on them.
 */
module AccountPoolDb {
  import opened Common
  import opened Domain

  // ---------------------------------------------------------------------
  // Table-level definitions
  // ---------------------------------------------------------------------

  /** Session names are unique (the column carries a unique constraint). */
  ghost predicate UniqueSessionNames(accounts: map<int, Account>)
  {
    forall a, b :: (a in accounts && b in accounts
      && accounts[a].sessionName == accounts[b].sessionName) ==> a == b
  }

  /** No session name occurs twice in a list of accounts. */
  predicate DistinctSessionNames(r: seq<Account>)
  {
    forall i, j :: 0 <= i < j < |r| ==> r[i].sessionName != r[j].sessionName
  }

  /** The duplicate test as written: some stored ciphertext equals the fresh one. */
  predicate CipherTaken(accounts: map<int, Account>, c: Cipher)
  {
    exists k :: k in accounts && accounts[k].phoneEncrypted == c
  }

  /** The duplicate test as intended: some stored phone decrypts to this phone. */
  predicate PhoneTaken(accounts: map<int, Account>, phone: string)
  {
    exists k :: k in accounts && Decrypt(accounts[k].phoneEncrypted) == phone
  }

  predicate SessionNameTaken(accounts: map<int, Account>, sessionName: string)
  {
    exists k :: k in accounts && accounts[k].sessionName == sessionName
  }

  /** No two accounts hold the same phone number. */
  ghost predicate UniquePhones(accounts: map<int, Account>)
  {
    forall a, b :: (a in accounts && b in accounts
      && Decrypt(accounts[a].phoneEncrypted) == Decrypt(accounts[b].phoneEncrypted)) ==> a == b
  }

  /**
   * A status write: status, sub-state and error text are written together,
   * so an omitted sub-state or error clears the stored one.
   */
  function WithStatus(a: Account, status: AccountStatus, authState: Option<AuthState>,
                      errorMessage: Option<string>, now: Minutes): (r: Account)
    ensures r.status == status && r.authState == authState && r.errorMessage == errorMessage
    ensures r.updatedAt == now
    ensures r.(status := a.status, authState := a.authState, errorMessage := a.errorMessage,
               updatedAt := a.updatedAt) == a
  {
    a.(status := status, authState := authState, errorMessage := errorMessage, updatedAt := now)
  }

  /** The sessions an expiry sweep at `now` keeps: those not expired before `now`. */
  function Unexpired(sessions: map<int, AuthSession>, now: Minutes): (r: map<int, AuthSession>)
    ensures forall k :: k in r <==> k in sessions && sessions[k].expiresAt >= now
    ensures forall k :: k in r ==> r[k] == sessions[k]
  {
    map k | k in sessions && sessions[k].expiresAt >= now :: sessions[k]
  }

  /** A second sweep at the same instant deletes nothing. */
  lemma {:induction false} SweepIdempotent(sessions: map<int, AuthSession>, now: Minutes)
    ensures Unexpired(Unexpired(sessions, now), now) == Unexpired(sessions, now)
  {
  }

  /** The greatest key below `n` of a session of `accountId`. */
  function LatestBelow(sessions: map<int, AuthSession>, accountId: int, n: int): (r: Option<int>)
    ensures r.Some? ==> r.value in sessions && r.value < n && sessions[r.value].accountId == accountId
    ensures r.Some? ==> forall k :: k in sessions && r.value < k < n ==> sessions[k].accountId != accountId
    ensures r.None? ==> forall k :: k in sessions && 1 <= k < n ==> sessions[k].accountId != accountId
    decreases n
  {
    if n <= 1 then None
    else if n - 1 in sessions && sessions[n - 1].accountId == accountId then Some(n - 1)
    else LatestBelow(sessions, accountId, n - 1)
  }

  // ---------------------------------------------------------------------
  // The service
  // ---------------------------------------------------------------------

  class AccountPoolDbService {
    var accounts: map<int, Account>
    var nextAccountId: int
    var sessions: map<int, AuthSession>
    var nextSessionId: int

    ghost predicate Valid()
      reads this
    {
      1 <= nextAccountId && 1 <= nextSessionId
      && IdsBelow(accounts, nextAccountId) && IdsBelow(sessions, nextSessionId)
      && (forall k :: k in accounts ==> accounts[k].id == k)
      && (forall k :: k in sessions ==> sessions[k].id == k)
      && UniqueSessionNames(accounts)
    }

    constructor()
      ensures Valid()
      ensures accounts == map[] && sessions == map[]
    {
      accounts := map[];
      nextAccountId := 1;
      sessions := map[];
      nextSessionId := 1;
    }

    /** The account with this id, if any. */
    function FindAccountById(id: int): (r: Option<Account>)
      reads this
      ensures r.Some? <==> id in accounts
      ensures r.Some? ==> r.value == accounts[id]
    {
      if id in accounts then Some(accounts[id]) else None
    }

    /** The account with this session name, if any (at most one exists). */
    function FindAccountBySessionName(sessionName: string): (r: Option<Account>)
      reads this
      requires Valid()
      ensures r.Some? ==> r.value.id in accounts && accounts[r.value.id] == r.value
                          && r.value.sessionName == sessionName
      ensures r.None? <==> !SessionNameTaken(accounts, sessionName)
    {
      RowsAreValues(accounts, nextAccountId);
      var hits := Filter(Rows(accounts, nextAccountId), (a: Account) => a.sessionName == sessionName);
      if hits == [] then
        assert forall k :: k in accounts ==> accounts[k] in accounts.Values;
        None
      else
        assert hits[0] in hits;
        Some(hits[0])
    }

    /** findAccountsByStatus: every account with that status, active or not. */
    function FindAccountsByStatus(status: AccountStatus): (r: seq<Account>)
      reads this
      requires Valid()
      ensures forall a :: a in r <==> a in accounts.Values && a.status == status
      ensures DistinctSessionNames(r)
    {
      RowsAreValues(accounts, nextAccountId);
      var keep := (a: Account) => a.status == status;
      var r := Filter(Rows(accounts, nextAccountId), keep);
      DistinctNames(r, keep);
      r
    }

    /** findActiveAccountsByStatus: the accounts with that status and isActive. */
    function FindActiveAccountsByStatus(status: AccountStatus): (r: seq<Account>)
      reads this
      requires Valid()
      ensures forall a :: a in r <==> a in accounts.Values && a.status == status && a.isActive
      ensures DistinctSessionNames(r)
    {
      RowsAreValues(accounts, nextAccountId);
      var keep := (a: Account) => a.status == status && a.isActive;
      var r := Filter(Rows(accounts, nextAccountId), keep);
      DistinctNames(r, keep);
      r
    }

    /**
     * A query that filters the rows lists each account once, so no
     * session name occurs twice in its result.
     */
    lemma {:induction false} DistinctNames(r: seq<Account>, p: Account -> bool)
      requires Valid()
      requires r == Filter(Rows(accounts, nextAccountId), p)
      ensures DistinctSessionNames(r)
    {
      RowsAreValues(accounts, nextAccountId);
      RowsDistinct(accounts, nextAccountId);
      FilterDistinct(Rows(accounts, nextAccountId), p);
      forall i, j | 0 <= i < j < |r|
        ensures r[i].sessionName != r[j].sessionName
      {
        assert r[i] in accounts.Values && r[j] in accounts.Values;
        var a :| a in accounts && accounts[a] == r[i];
        var b :| b in accounts && accounts[b] == r[j];
      }
    }

    /** The new row createAccount would insert. */
    function NewAccount(phoneEncrypted: Cipher, apiId: int, apiHashEncrypted: Cipher,
                        sessionName: string, createdByUser: Option<int>, now: Minutes): Account
      reads this
    {
      Account(nextAccountId, phoneEncrypted, apiId, apiHashEncrypted, sessionName,
              INACTIVE, None, None, None, true, now, now, createdByUser)
    }

    /**
     * createAccount as written: the phone is encrypted under a fresh IV and
     * that ciphertext is looked up, then the session name; a new account is
     * INACTIVE, active, and stores only ciphertexts of phone and API hash.
     */
    method CreateAccount(phone: string, apiId: int, apiHash: string, sessionName: string,
                         createdByUser: Option<int>, phoneIv: nat, hashIv: nat, now: Minutes)
      returns (r: Result<Account>)
      requires Valid()
      modifies this
      ensures Valid()
      ensures sessions == old(sessions) && nextSessionId == old(nextSessionId)
      ensures CipherTaken(old(accounts), Encrypt(phone, phoneIv))
              ==> r == Fail("Account with this phone number already exists") && accounts == old(accounts)
      ensures !CipherTaken(old(accounts), Encrypt(phone, phoneIv)) && SessionNameTaken(old(accounts), sessionName)
              ==> r == Fail("Account with this session name already exists") && accounts == old(accounts)
      ensures !CipherTaken(old(accounts), Encrypt(phone, phoneIv)) && !SessionNameTaken(old(accounts), sessionName)
              ==> r == Ok(old(NewAccount(Encrypt(phone, phoneIv), apiId, Encrypt(apiHash, hashIv),
                                         sessionName, createdByUser, now)))
                  && accounts == old(accounts)[old(nextAccountId) := r.value]
                  && nextAccountId == old(nextAccountId) + 1
    {
      var encryptedPhone := Encrypt(phone, phoneIv);
      if CipherTaken(accounts, encryptedPhone) {
        return Fail("Account with this phone number already exists");
      }
      if SessionNameTaken(accounts, sessionName) {
        return Fail("Account with this session name already exists");
      }
      r := Insert(encryptedPhone, apiId, Encrypt(apiHash, hashIv), sessionName, createdByUser, now);
    }

    /**
     * createAccount with the duplicate test the code evidently intends: a
     * stored account whose phone decrypts to the same number is a
     * duplicate. Creating accounts only this way keeps phones unique.
     */
    method CreateAccountUniquePhone(phone: string, apiId: int, apiHash: string, sessionName: string,
                                    createdByUser: Option<int>, phoneIv: nat, hashIv: nat, now: Minutes)
      returns (r: Result<Account>)
      requires Valid()
      modifies this
      ensures Valid()
      ensures sessions == old(sessions) && nextSessionId == old(nextSessionId)
      ensures PhoneTaken(old(accounts), phone)
              ==> r == Fail("Account with this phone number already exists") && accounts == old(accounts)
      ensures !PhoneTaken(old(accounts), phone) && SessionNameTaken(old(accounts), sessionName)
              ==> r == Fail("Account with this session name already exists") && accounts == old(accounts)
      ensures r.Ok? ==> Decrypt(r.value.phoneEncrypted) == phone && r.value.status == INACTIVE
                        && accounts == old(accounts)[old(nextAccountId) := r.value]
      ensures UniquePhones(old(accounts)) ==> UniquePhones(accounts)
    {
      if PhoneTaken(accounts, phone) {
        return Fail("Account with this phone number already exists");
      }
      if SessionNameTaken(accounts, sessionName) {
        return Fail("Account with this session name already exists");
      }
      r := Insert(Encrypt(phone, phoneIv), apiId, Encrypt(apiHash, hashIv), sessionName, createdByUser, now);
    }

    method Insert(phoneEncrypted: Cipher, apiId: int, apiHashEncrypted: Cipher, sessionName: string,
                  createdByUser: Option<int>, now: Minutes)
      returns (r: Result<Account>)
      requires Valid()
      requires !SessionNameTaken(accounts, sessionName)
      modifies this
      ensures Valid()
      ensures sessions == old(sessions) && nextSessionId == old(nextSessionId)
      ensures r == Ok(old(NewAccount(phoneEncrypted, apiId, apiHashEncrypted, sessionName, createdByUser, now)))
      ensures accounts == old(accounts)[old(nextAccountId) := r.value]
      ensures nextAccountId == old(nextAccountId) + 1
    {
      var account := NewAccount(phoneEncrypted, apiId, apiHashEncrypted, sessionName, createdByUser, now);
      accounts := accounts[nextAccountId := account];
      nextAccountId := nextAccountId + 1;
      r := Ok(account);
    }

    /**
     * updateAccountStatus: fails for an unknown id; otherwise overwrites
     * status, sub-state and error text (absent arguments clear them).
     */
    method UpdateAccountStatus(id: int, status: AccountStatus, authState: Option<AuthState>,
                               errorMessage: Option<string>, now: Minutes)
      returns (r: Result<Account>)
      requires Valid()
      modifies this
      ensures Valid()
      ensures sessions == old(sessions) && nextSessionId == old(nextSessionId)
      ensures nextAccountId == old(nextAccountId)
      ensures id !in old(accounts) ==> r.Fail? && accounts == old(accounts)
      ensures id in old(accounts) ==>
                r == Ok(WithStatus(old(accounts)[id], status, authState, errorMessage, now))
                && accounts == old(accounts)[id := r.value]
    {
      if id !in accounts {
        return Fail("Account not found");
      }
      var account := WithStatus(accounts[id], status, authState, errorMessage, now);
      accounts := accounts[id := account];
      r := Ok(account);
    }

    /** updateAccountLastUsedAt: fails for an unknown id; stamps lastUsedAt and updatedAt. */
    method UpdateAccountLastUsedAt(id: int, now: Minutes) returns (r: Result<Account>)
      requires Valid()
      modifies this
      ensures Valid()
      ensures sessions == old(sessions) && nextSessionId == old(nextSessionId)
      ensures nextAccountId == old(nextAccountId)
      ensures id !in old(accounts) ==> r.Fail? && accounts == old(accounts)
      ensures id in old(accounts) ==>
                r == Ok(old(accounts)[id].(lastUsedAt := Some(now), updatedAt := now))
                && accounts == old(accounts)[id := r.value]
    {
      if id !in accounts {
        return Fail("Account not found");
      }
      var account := accounts[id].(lastUsedAt := Some(now), updatedAt := now);
      accounts := accounts[id := account];
      r := Ok(account);
    }

    /** deactivateAccount: isActive false and status INACTIVE; sub-state and error are kept. */
    method DeactivateAccount(id: int, now: Minutes) returns (r: Result<Account>)
      requires Valid()
      modifies this
      ensures Valid()
      ensures sessions == old(sessions) && nextSessionId == old(nextSessionId)
      ensures nextAccountId == old(nextAccountId)
      ensures id !in old(accounts) ==> r.Fail? && accounts == old(accounts)
      ensures id in old(accounts) ==>
                r == Ok(old(accounts)[id].(isActive := false, status := INACTIVE, updatedAt := now))
                && accounts == old(accounts)[id := r.value]
    {
      if id !in accounts {
        return Fail("Account not found");
      }
      var account := accounts[id].(isActive := false, status := INACTIVE, updatedAt := now);
      accounts := accounts[id := account];
      r := Ok(account);
    }

    /** deleteAccount: deleting an absent id is silently ignored. */
    method DeleteAccount(id: int)
      requires Valid()
      modifies this
      ensures Valid()
      ensures sessions == old(sessions) && nextSessionId == old(nextSessionId)
      ensures nextAccountId == old(nextAccountId)
      ensures accounts == old(accounts) - {id}
    {
      accounts := accounts - {id};
    }

    /**
     * createAuthSession: fails for an unknown account; the new session
     * expires `expirationMinutes` after `now` (10 when the caller omits it).
     */
    method CreateAuthSession(accountId: int, state: SessionState, expirationMinutes: int, now: Minutes)
      returns (r: Result<AuthSession>)
      requires Valid()
      modifies this
      ensures Valid()
      ensures accounts == old(accounts) && nextAccountId == old(nextAccountId)
      ensures accountId !in old(accounts) ==>
                r.Fail? && sessions == old(sessions) && nextSessionId == old(nextSessionId)
      ensures accountId in old(accounts) ==>
                r == Ok(AuthSession(old(nextSessionId), accountId, state, None, now + expirationMinutes, now))
                && sessions == old(sessions)[old(nextSessionId) := r.value]
                && nextSessionId == old(nextSessionId) + 1
      ensures r.Ok? && expirationMinutes > 0 ==> r.value.expiresAt > now
    {
      if accountId !in accounts {
        return Fail("Account not found");
      }
      var session := AuthSession(nextSessionId, accountId, state, None, now + expirationMinutes, now);
      sessions := sessions[nextSessionId := session];
      nextSessionId := nextSessionId + 1;
      r := Ok(session);
    }

    /**
     * findLatestAuthSession: the most recently created session of the
     * account (identity ids grow with creation time).
     */
    function FindLatestAuthSession(accountId: int): (r: Option<AuthSession>)
      reads this
      requires Valid()
      ensures r.Some? ==> r.value.id in sessions && sessions[r.value.id] == r.value
                          && r.value.accountId == accountId
      ensures r.Some? ==> forall k :: k in sessions && sessions[k].accountId == accountId ==> k <= r.value.id
      ensures r.None? <==> forall k :: k in sessions ==> sessions[k].accountId != accountId
    {
      match LatestBelow(sessions, accountId, nextSessionId)
        case None => None
        case Some(k) => Some(sessions[k])
    }

    /**
     * updateAuthSessionState: fails for an unknown session; sets the state,
     * and the code hash only when one is given.
     */
    method UpdateAuthSessionState(sessionId: int, state: SessionState, codeHash: Option<string>)
      returns (r: Result<AuthSession>)
      requires Valid()
      modifies this
      ensures Valid()
      ensures accounts == old(accounts) && nextAccountId == old(nextAccountId)
      ensures nextSessionId == old(nextSessionId)
      ensures sessionId !in old(sessions) ==> r.Fail? && sessions == old(sessions)
      ensures sessionId in old(sessions) ==>
                r.Ok? && sessions == old(sessions)[sessionId := r.value]
                && r.value.state == state
                && r.value.codeHash == (if codeHash.Some? then codeHash else old(sessions)[sessionId].codeHash)
                && r.value.(state := old(sessions)[sessionId].state,
                            codeHash := old(sessions)[sessionId].codeHash) == old(sessions)[sessionId]
    {
      if sessionId !in sessions {
        return Fail("Auth session not found");
      }
      var session := sessions[sessionId].(state := state);
      if codeHash.Some? {
        session := session.(codeHash := codeHash);
      }
      sessions := sessions[sessionId := session];
      r := Ok(session);
    }

    /** cleanupExpiredAuthSessions: deletes exactly the sessions that expired before `now`. */
    method CleanupExpiredAuthSessions(now: Minutes)
      requires Valid()
      modifies this
      ensures Valid()
      ensures accounts == old(accounts) && nextAccountId == old(nextAccountId)
      ensures nextSessionId == old(nextSessionId)
      ensures sessions == Unexpired(old(sessions), now)
    {
      sessions := Unexpired(sessions, now);
    }
  }

  /**
   * The duplicate-phone test as written misses a re-registration: a phone
   * already stored, encrypted again under a different IV, is not found.
   */
  lemma {:induction false} CipherTestMissesStoredPhone(accounts: map<int, Account>, phone: string, iv: nat)
    requires PhoneTaken(accounts, phone)
    requires forall k :: k in accounts ==> accounts[k].phoneEncrypted.iv != iv
    ensures !CipherTaken(accounts, Encrypt(phone, iv))
  {
  }

  /** A concrete table in which the test as written lets a duplicate phone through. */
  lemma {:induction false} DuplicatePhoneWitness()
    ensures var stored := Account(1, Encrypt("+79001234567", 7), 1, Encrypt("h", 8), "s1",
                                  INACTIVE, None, None, None, true, 0, 0, None);
            var accounts := map[1 := stored];
            PhoneTaken(accounts, "+79001234567") && !CipherTaken(accounts, Encrypt("+79001234567", 9))
  {
    var stored := Account(1, Encrypt("+79001234567", 7), 1, Encrypt("h", 8), "s1",
                          INACTIVE, None, None, None, true, 0, 0, None);
    var accounts := map[1 := stored];
    assert Decrypt(accounts[1].phoneEncrypted) == "+79001234567";
    CipherTestMissesStoredPhone(accounts, "+79001234567", 9);
  }
}
