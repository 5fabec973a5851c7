/**
 * The authentication broker between TDLight and the administrator: TDLight
 * asks for a login code or a 2FA password and receives a future; the
 * administrator's submission completes it. Pending requests are kept per
 * account in two independent maps, one for codes and one for passwords.
 *
 * Futures are modelled as entries of `futures`, addressed by handle; the
 * pending maps hold handles. Notifications pushed to the administrator's
 * WebSocket topic are appended to `updates`.
 */
module AuthService {
  import opened Common
  import opened Domain
  import opened AccountPoolDb

  datatype Future = Pending | Completed(value: string) | Failed(error: string) | Cancelled

  datatype AuthUpdateType = WAITING_CODE | WAITING_PASSWORD | AUTHENTICATED | ERROR | STATUS_CHANGED

  /** An AuthUpdate pushed to the account's topic; the timestamp is not modelled. */
  datatype AuthUpdate = AuthUpdate(accountId: int, kind: AuthUpdateType, message: string,
                                   context: Option<map<string, string>>)

  /** getAuthenticationState's answer. */
  datatype AuthView = AuthView(accountId: int, waitingForCode: bool, waitingForPassword: bool, isPending: bool)

  const CODE_PROMPT: string := "Введите код подтверждения из Telegram"
  const AUTH_SUCCESS: string := "Аутентификация успешно завершена!"
  const AUTH_ERROR_DEFAULT: string := "Ошибка аутентификации"
  const CANCELED: string := "Authentication canceled"
  /** The error a submitted code's future fails with when the session table cannot be read or written. */
  const STORE_FAILURE: string := "Database failure"
  /** Auth sessions opened by the broker expire after five minutes. */
  const PROMPT_EXPIRY_MINUTES: int := 5

  /** The notification text of a password prompt. */
  function PasswordPrompt(hint: Option<string>): string
  {
    if hint.Some? then "Введите 2FA пароль (подсказка: " + hint.value + ")" else "Введите 2FA пароль"
  }

  /** The password prompt's notification: it carries a hint context exactly when a hint is given. */
  function PasswordUpdate(accountId: int, hint: Option<string>): (u: AuthUpdate)
    ensures u.kind == WAITING_PASSWORD && u.accountId == accountId
    ensures u.context.Some? <==> hint.Some?
    ensures hint.Some? ==> u.context.value == map["hint" := hint.value]
  {
    AuthUpdate(accountId, WAITING_PASSWORD, PasswordPrompt(hint),
               if hint.Some? then Some(map["hint" := hint.value]) else None)
  }

  /** The session table after marking the account's latest session COMPLETED, if it has one. */
  function WithLatestCompleted(sessions: map<int, AuthSession>, accountId: int, n: int): map<int, AuthSession>
  {
    match LatestBelow(sessions, accountId, n)
      case None => sessions
      case Some(k) => sessions[k := sessions[k].(state := SessionCompleted)]
  }

  /** The future table after settling the pending request of `accountId` in `pending`, if any. */
  function Settle(futures: seq<Future>, pending: map<int, nat>, accountId: int, outcome: Future): seq<Future>
  {
    if accountId in pending && pending[accountId] < |futures|
    then futures[pending[accountId] := outcome] else futures
  }

  class TelegramAuthenticationService {
    const db: AccountPoolDbService
    var pendingCode: map<int, nat>
    var pendingPassword: map<int, nat>
    var futures: seq<Future>
    var updates: seq<AuthUpdate>

    /**
     * Every pending handle names a future that is still pending, and no
     * future is pending twice, in one map or across the two.
     */
    ghost predicate Valid()
      reads this, db
    {
      db.Valid()
      && (forall a :: a in pendingCode ==> pendingCode[a] < |futures| && futures[pendingCode[a]] == Pending)
      && (forall a :: a in pendingPassword ==> pendingPassword[a] < |futures| && futures[pendingPassword[a]] == Pending)
      && (forall a, b :: a in pendingCode && b in pendingPassword ==> pendingCode[a] != pendingPassword[b])
      && (forall a, b :: a in pendingCode && b in pendingCode && a != b ==> pendingCode[a] != pendingCode[b])
      && (forall a, b :: a in pendingPassword && b in pendingPassword && a != b
            ==> pendingPassword[a] != pendingPassword[b])
    }

    constructor(db: AccountPoolDbService)
      requires db.Valid()
      ensures Valid() && this.db == db
      ensures pendingCode == map[] && pendingPassword == map[] && futures == [] && updates == []
    {
      this.db := db;
      pendingCode := map[];
      pendingPassword := map[];
      futures := [];
      updates := [];
    }

    /**
     * requestCode: stores a fresh future for the account, replacing any
     * earlier one (which stays pending, unreachable); marks the account
     * AUTHENTICATING/WAITING_CODE and opens a five-minute auth session.
     * For an unknown account the writes fail, the future fails and no
     * code request of that account remains.
     */
    method RequestCode(accountId: int, now: Minutes) returns (h: nat)
      requires Valid()
      modifies this, db
      ensures Valid()
      ensures h == old(|futures|) && |futures| == h + 1 && futures[..h] == old(futures)
      ensures pendingPassword == old(pendingPassword)
      ensures db.nextAccountId == old(db.nextAccountId)
      ensures accountId in old(db.accounts) ==>
                futures[h] == Pending
                && pendingCode == old(pendingCode)[accountId := h]
                && db.accounts == old(db.accounts)[accountId :=
                     WithStatus(old(db.accounts)[accountId], AUTHENTICATING, Some(WaitingCode), None, now)]
                && db.sessions == old(db.sessions)[old(db.nextSessionId) :=
                     AuthSession(old(db.nextSessionId), accountId, SessionWaitingCode, None,
                                 now + PROMPT_EXPIRY_MINUTES, now)]
                && updates == old(updates) + [AuthUpdate(accountId, WAITING_CODE, CODE_PROMPT, None)]
      ensures accountId !in old(db.accounts) ==>
                futures[h].Failed? && pendingCode == old(pendingCode) - {accountId}
                && db.accounts == old(db.accounts) && db.sessions == old(db.sessions)
                && updates == old(updates)
    {
      h := |futures|;
      futures := futures + [Pending];
      pendingCode := pendingCode[accountId := h];
      var written := db.UpdateAccountStatus(accountId, AUTHENTICATING, Some(WaitingCode), None, now);
      if written.Fail? {
        futures := futures[h := Failed(written.error)];
        pendingCode := pendingCode - {accountId};
        return;
      }
      var _ := db.CreateAuthSession(accountId, SessionWaitingCode, PROMPT_EXPIRY_MINUTES, now);
      updates := updates + [AuthUpdate(accountId, WAITING_CODE, CODE_PROMPT, None)];
    }

    /**
     * requestPassword: as requestCode for the password map; the
     * notification carries the hint as context when there is one.
     */
    method RequestPassword(accountId: int, hint: Option<string>, now: Minutes) returns (h: nat)
      requires Valid()
      modifies this, db
      ensures Valid()
      ensures h == old(|futures|) && |futures| == h + 1 && futures[..h] == old(futures)
      ensures pendingCode == old(pendingCode)
      ensures db.nextAccountId == old(db.nextAccountId)
      ensures accountId in old(db.accounts) ==>
                futures[h] == Pending
                && pendingPassword == old(pendingPassword)[accountId := h]
                && db.accounts == old(db.accounts)[accountId :=
                     WithStatus(old(db.accounts)[accountId], AUTHENTICATING, Some(WaitingPassword), None, now)]
                && db.sessions == old(db.sessions)[old(db.nextSessionId) :=
                     AuthSession(old(db.nextSessionId), accountId, SessionWaitingPassword, None,
                                 now + PROMPT_EXPIRY_MINUTES, now)]
                && updates == old(updates) + [PasswordUpdate(accountId, hint)]
      ensures accountId !in old(db.accounts) ==>
                futures[h].Failed? && pendingPassword == old(pendingPassword) - {accountId}
                && db.accounts == old(db.accounts) && db.sessions == old(db.sessions)
                && updates == old(updates)
    {
      h := |futures|;
      futures := futures + [Pending];
      pendingPassword := pendingPassword[accountId := h];
      var written := db.UpdateAccountStatus(accountId, AUTHENTICATING, Some(WaitingPassword), None, now);
      if written.Fail? {
        futures := futures[h := Failed(written.error)];
        pendingPassword := pendingPassword - {accountId};
        return;
      }
      var _ := db.CreateAuthSession(accountId, SessionWaitingPassword, PROMPT_EXPIRY_MINUTES, now);
      updates := updates + [PasswordUpdate(accountId, hint)];
    }

    /**
     * submitCode: without a pending code request, false and no change.
     * Otherwise the request is removed, the latest auth session of the
     * account is marked COMPLETED, and the future completes with exactly
     * the submitted code; the password side is untouched. When the
     * session table fails (`storeFails`), the request is still removed,
     * its future fails with the error and the answer is false.
     */
    method SubmitCode(accountId: int, code: string, storeFails: bool) returns (accepted: bool)
      requires Valid()
      modifies this, db
      ensures Valid()
      ensures accepted <==> accountId in old(pendingCode) && !storeFails
      ensures pendingPassword == old(pendingPassword) && updates == old(updates)
      ensures db.accounts == old(db.accounts) && db.nextSessionId == old(db.nextSessionId)
      ensures accountId !in old(pendingCode) ==>
                pendingCode == old(pendingCode) && futures == old(futures) && db.sessions == old(db.sessions)
      ensures accountId in old(pendingCode) && storeFails ==>
                pendingCode == old(pendingCode) - {accountId}
                && futures == old(futures)[old(pendingCode)[accountId] := Failed(STORE_FAILURE)]
                && db.sessions == old(db.sessions)
      ensures accepted ==>
                pendingCode == old(pendingCode) - {accountId}
                && futures == old(futures)[old(pendingCode)[accountId] := Completed(code)]
                && db.sessions == WithLatestCompleted(old(db.sessions), accountId, old(db.nextSessionId))
    {
      if accountId !in pendingCode {
        return false;
      }
      var h := pendingCode[accountId];
      pendingCode := pendingCode - {accountId};
      if storeFails {
        futures := futures[h := Failed(STORE_FAILURE)];
        return false;
      }
      var session := db.FindLatestAuthSession(accountId);
      if session.Some? {
        var _ := db.UpdateAuthSessionState(session.value.id, SessionCompleted, None);
      }
      futures := futures[h := Completed(code)];
      accepted := true;
    }

    /** submitPassword: the same protocol over the password map. */
    method SubmitPassword(accountId: int, password: string, storeFails: bool) returns (accepted: bool)
      requires Valid()
      modifies this, db
      ensures Valid()
      ensures accepted <==> accountId in old(pendingPassword) && !storeFails
      ensures pendingCode == old(pendingCode) && updates == old(updates)
      ensures db.accounts == old(db.accounts) && db.nextSessionId == old(db.nextSessionId)
      ensures accountId !in old(pendingPassword) ==>
                pendingPassword == old(pendingPassword) && futures == old(futures) && db.sessions == old(db.sessions)
      ensures accountId in old(pendingPassword) && storeFails ==>
                pendingPassword == old(pendingPassword) - {accountId}
                && futures == old(futures)[old(pendingPassword)[accountId] := Failed(STORE_FAILURE)]
                && db.sessions == old(db.sessions)
      ensures accepted ==>
                pendingPassword == old(pendingPassword) - {accountId}
                && futures == old(futures)[old(pendingPassword)[accountId] := Completed(password)]
                && db.sessions == WithLatestCompleted(old(db.sessions), accountId, old(db.nextSessionId))
    {
      if accountId !in pendingPassword {
        return false;
      }
      var h := pendingPassword[accountId];
      pendingPassword := pendingPassword - {accountId};
      if storeFails {
        futures := futures[h := Failed(STORE_FAILURE)];
        return false;
      }
      var session := db.FindLatestAuthSession(accountId);
      if session.Some? {
        var _ := db.UpdateAuthSessionState(session.value.id, SessionCompleted, None);
      }
      futures := futures[h := Completed(password)];
      accepted := true;
    }

    /**
     * notifyAuthenticationComplete: both pending requests of the account
     * are removed and cancelled, then AUTHENTICATED or ERROR is pushed.
     */
    method NotifyAuthenticationComplete(accountId: int, success: bool, errorMessage: Option<string>)
      requires Valid()
      modifies this
      ensures Valid()
      ensures accountId !in pendingCode && accountId !in pendingPassword
      ensures pendingCode == old(pendingCode) - {accountId}
      ensures pendingPassword == old(pendingPassword) - {accountId}
      ensures futures == Settle(Settle(old(futures), old(pendingCode), accountId, Cancelled),
                                old(pendingPassword), accountId, Cancelled)
      ensures success ==> updates == old(updates) + [AuthUpdate(accountId, AuthUpdateType.AUTHENTICATED, AUTH_SUCCESS, None)]
      ensures !success ==>
                updates == old(updates) + [AuthUpdate(accountId, AuthUpdateType.ERROR,
                  if errorMessage.Some? then errorMessage.value else AUTH_ERROR_DEFAULT, None)]
    {
      futures := Settle(futures, pendingCode, accountId, Cancelled);
      pendingCode := pendingCode - {accountId};
      futures := Settle(futures, pendingPassword, accountId, Cancelled);
      pendingPassword := pendingPassword - {accountId};
      if success {
        updates := updates + [AuthUpdate(accountId, AuthUpdateType.AUTHENTICATED, AUTH_SUCCESS, None)];
      } else {
        var message := if errorMessage.Some? then errorMessage.value else AUTH_ERROR_DEFAULT;
        updates := updates + [AuthUpdate(accountId, AuthUpdateType.ERROR, message, None)];
      }
    }

    /** cancelAuthentication: both pending requests fail with "Authentication canceled". */
    method CancelAuthentication(accountId: int)
      requires Valid()
      modifies this
      ensures Valid()
      ensures accountId !in pendingCode && accountId !in pendingPassword
      ensures pendingCode == old(pendingCode) - {accountId}
      ensures pendingPassword == old(pendingPassword) - {accountId}
      ensures futures == Settle(Settle(old(futures), old(pendingCode), accountId, Failed(CANCELED)),
                                old(pendingPassword), accountId, Failed(CANCELED))
      ensures updates == old(updates)
    {
      futures := Settle(futures, pendingCode, accountId, Failed(CANCELED));
      pendingCode := pendingCode - {accountId};
      futures := Settle(futures, pendingPassword, accountId, Failed(CANCELED));
      pendingPassword := pendingPassword - {accountId};
    }

    /** getAuthenticationState: each flag mirrors its map; pending means either. */
    function GetAuthenticationState(accountId: int): (v: AuthView)
      reads this
      ensures v.accountId == accountId
      ensures v.waitingForCode <==> accountId in pendingCode
      ensures v.waitingForPassword <==> accountId in pendingPassword
      ensures v.isPending <==> accountId in pendingCode || accountId in pendingPassword
    {
      var code := accountId in pendingCode;
      var password := accountId in pendingPassword;
      AuthView(accountId, code, password, code || password)
    }
  }
}
