/**
 * The superadmin's business operations: activating a business for a
 * Telegram user (finding or creating the user and linking them as ADMIN),
 * listing every business with its owner, blocking and unblocking.
 */
module SuperAdmin {
  import opened Common
  import opened Domain
  import opened UserDb

  datatype ActivationResult =
    | Success(businessId: int, userId: int, businessName: string)
    | BusinessAlreadyExists

  datatype BusinessInfo = BusinessInfo(
    id: int,
    name: string,
    ownerUsername: Option<string>,
    ownerTelegramId: Option<int>,
    isActive: bool,
    createdAt: Minutes)

  /** Whether some business was activated for this Telegram chat (a unique column). */
  ghost predicate ChatTaken(businesses: map<int, Business>, telegramChatId: int)
  {
    exists k :: k in businesses && businesses[k].telegramChatId == telegramChatId
  }

  ghost predicate UniqueChats(businesses: map<int, Business>)
  {
    forall k1, k2 ::
      (k1 in businesses && k2 in businesses && businesses[k1].telegramChatId == businesses[k2].telegramChatId)
      ==> k1 == k2
  }

  class SuperAdminService {
    const userDb: UserDbService
    var businesses: map<int, Business>
    var nextBusinessId: int

    ghost predicate Valid()
      reads this, userDb
    {
      userDb.Valid()
      && 1 <= nextBusinessId && IdsBelow(businesses, nextBusinessId)
      && (forall k :: k in businesses ==> businesses[k].id == k)
      && UniqueChats(businesses)
      && (forall l :: l in userDb.businessUsers ==> userDb.businessUsers[l].businessId < nextBusinessId)
    }

    /** A new business under the next id, on a chat no business has, keeps the table's invariants. */
    static lemma {:induction false} AddedBusinessKeepsTable(businesses: map<int, Business>, next: int, business: Business,
                                                            after: map<int, Business>)
      requires 1 <= next && IdsBelow(businesses, next) && UniqueChats(businesses)
      requires forall k :: k in businesses ==> businesses[k].id == k
      requires business.id == next && !ChatTaken(businesses, business.telegramChatId)
      requires after == businesses[next := business]
      ensures IdsBelow(after, next + 1) && UniqueChats(after)
      ensures forall k :: k in after ==> after[k].id == k
    {
    }

    constructor(userDb: UserDbService)
      requires userDb.Valid() && userDb.businessUsers == map[]
      ensures Valid() && this.userDb == userDb && businesses == map[]
    {
      this.userDb := userDb;
      businesses := map[];
      nextBusinessId := 1;
    }

    /** existsByTelegramChatId. */
    function ExistsByTelegramChatId(telegramChatId: int): (b: bool)
      reads this, userDb
      requires Valid()
      ensures b <==> ChatTaken(businesses, telegramChatId)
    {
      RowsAreValues(businesses, nextBusinessId);
      var hits := Filter(Rows(businesses, nextBusinessId), (b: Business) => b.telegramChatId == telegramChatId);
      if hits == [] then
        assert forall k :: k in businesses ==> businesses[k] in businesses.Values;
        false
      else
        assert hits[0] in hits;
        true
    }

    /**
     * activateBusiness: refused, with nothing written, when the owner's
     * Telegram id already has a business. Otherwise the owner's user is
     * found or created with role USER, an active business with that chat
     * id is created, and the owner is linked to it as ADMIN.
     */
    method ActivateBusiness(ownerTelegramId: int, businessName: string, description: Option<string>,
                            ownerUsername: Option<string>, ownerFirstName: Option<string>,
                            ownerLastName: Option<string>, now: Minutes)
      returns (r: ActivationResult)
      requires Valid()
      modifies this, userDb
      ensures Valid()
      ensures r.BusinessAlreadyExists? <==> old(ChatTaken(businesses, ownerTelegramId))
      ensures r.BusinessAlreadyExists? ==>
                businesses == old(businesses) && userDb.users == old(userDb.users)
                && userDb.businessUsers == old(userDb.businessUsers)
      ensures r.Success? ==>
                r.businessId == old(nextBusinessId) && r.businessName == businessName
                && businesses == old(businesses)[r.businessId :=
                     Business(r.businessId, businessName, ownerTelegramId, description, true, now, now)]
                && userDb.FindByTelegramId(ownerTelegramId).Some?
                && userDb.FindByTelegramId(ownerTelegramId).value.id == r.userId
                && (old(userDb.FindByTelegramId(ownerTelegramId)).Some? ==>
                      userDb.users == old(userDb.users) && old(userDb.FindByTelegramId(ownerTelegramId)).value.id == r.userId)
                && (old(userDb.FindByTelegramId(ownerTelegramId)).None? ==>
                      userDb.users[r.userId].role == USER && r.userId !in old(userDb.users))
                && (exists l :: l in userDb.businessUsers && userDb.businessUsers[l].businessId == r.businessId
                                && userDb.businessUsers[l].userId == r.userId && userDb.businessUsers[l].role == ADMIN)
                && userDb.IsBusinessRepresentative(ownerTelegramId)
    {
      if ExistsByTelegramChatId(ownerTelegramId) {
        return BusinessAlreadyExists;
      }
      var user := FindOrCreateOwner(ownerTelegramId, ownerUsername, ownerFirstName, ownerLastName, now);
      var business := Business(nextBusinessId, businessName, ownerTelegramId, description, true, now, now);
      AddedBusinessKeepsTable(businesses, nextBusinessId, business, businesses[nextBusinessId := business]);
      businesses := businesses[nextBusinessId := business];
      nextBusinessId := nextBusinessId + 1;
      LinkOwner(business.id, user, now);
      r := Success(business.id, user.id, businessName);
    }

    /** The owner's user: the existing one with this Telegram id, or a new one with role USER. */
    method FindOrCreateOwner(ownerTelegramId: int, ownerUsername: Option<string>, ownerFirstName: Option<string>,
                             ownerLastName: Option<string>, now: Minutes)
      returns (user: User)
      requires userDb.Valid()
      modifies userDb
      ensures userDb.Valid() && userDb.businessUsers == old(userDb.businessUsers)
      ensures userDb.FindByTelegramId(ownerTelegramId) == Some(user)
      ensures old(userDb.FindByTelegramId(ownerTelegramId)).Some? ==>
                userDb.users == old(userDb.users) && old(userDb.FindByTelegramId(ownerTelegramId)).value == user
      ensures old(userDb.FindByTelegramId(ownerTelegramId)).None? ==>
                user.role == USER && user.id !in old(userDb.users)
    {
      var found := userDb.FindByTelegramId(ownerTelegramId);
      if found.Some? {
        return found.value;
      }
      var created := userDb.CreateUser(ownerTelegramId, ownerFirstName, ownerLastName, ownerUsername, USER, now);
      user := created.value;
    }

    /** Links the owner to a business that has no links yet, as ADMIN. */
    method LinkOwner(businessId: int, user: User, now: Minutes)
      requires userDb.Valid()
      requires user.id in userDb.users && userDb.users[user.id] == user
      requires forall l :: l in userDb.businessUsers ==> userDb.businessUsers[l].businessId < businessId
      modifies userDb
      ensures userDb.Valid() && userDb.users == old(userDb.users)
      ensures forall l :: l in userDb.businessUsers ==> userDb.businessUsers[l].businessId <= businessId
      ensures exists l :: l in userDb.businessUsers && userDb.businessUsers[l].businessId == businessId
                          && userDb.businessUsers[l].userId == user.id && userDb.businessUsers[l].role == ADMIN
      ensures userDb.IsBusinessRepresentative(user.telegramId)
    {
      var link := userDb.CreateBusinessUser(businessId, user.id, ADMIN, now);
      if link.Fail? {
        assert false;
      }
      assert userDb.businessUsers[link.value.id] == link.value;
    }

    /**
     * The owner shown for a business: the user of an ADMIN link of the
     * business, nothing when it has no ADMIN link.
     */
    function Owner(businessId: int): (owner: Option<User>)
      reads this, userDb
      requires Valid()
      ensures (forall l :: l in userDb.businessUsers && userDb.businessUsers[l].businessId == businessId
                           ==> userDb.businessUsers[l].role != ADMIN) ==> owner.None?
      ensures owner.Some? ==>
                owner.value.id in userDb.users && userDb.users[owner.value.id] == owner.value
                && exists l :: l in userDb.businessUsers && userDb.businessUsers[l].businessId == businessId
                               && userDb.businessUsers[l].role == ADMIN && userDb.businessUsers[l].userId == owner.value.id
    {
      var admins := Filter(userDb.FindByBusinessId(businessId), (b: BusinessUser) => b.role == ADMIN);
      if admins == [] then
        assert forall l :: l in userDb.businessUsers ==> userDb.businessUsers[l] in userDb.businessUsers.Values;
        None
      else
        assert admins[0] in admins;
        userDb.FindById(admins[0].userId)
    }

    function Info(b: Business): (info: BusinessInfo)
      reads this, userDb
      requires Valid()
      ensures info.id == b.id && info.name == b.name && info.isActive == b.isActive && info.createdAt == b.createdAt
      ensures info.ownerTelegramId.Some? <==> Owner(b.id).Some?
      ensures info.ownerTelegramId.Some? ==>
                info.ownerTelegramId.value == Owner(b.id).value.telegramId && info.ownerUsername == Owner(b.id).value.username
    {
      var owner := Owner(b.id);
      BusinessInfo(b.id, b.name,
                   if owner.Some? then owner.value.username else None,
                   if owner.Some? then Some(owner.value.telegramId) else None,
                   b.isActive, b.createdAt)
    }

    function Infos(bs: seq<Business>): (r: seq<BusinessInfo>)
      reads this, userDb
      requires Valid()
      ensures |r| == |bs|
      ensures forall i :: 0 <= i < |bs| ==> r[i] == Info(bs[i])
    {
      if bs == [] then [] else [Info(bs[0])] + Infos(bs[1..])
    }

    /** The businesses in id order are the table's rows, each under its own id. */
    static lemma BusinessRows(businesses: map<int, Business>, n: int)
      requires IdsBelow(businesses, n) && forall k :: k in businesses ==> businesses[k].id == k
      ensures |Rows(businesses, n)| == |businesses|
      ensures forall i :: 0 <= i < |Rows(businesses, n)| ==>
                Rows(businesses, n)[i].id in businesses && businesses[Rows(businesses, n)[i].id] == Rows(businesses, n)[i]
      ensures forall k :: k in businesses ==> exists i :: 0 <= i < |Rows(businesses, n)| && Rows(businesses, n)[i].id == k
    {
      RowsCoverKeys(businesses, n, (b: Business) => b.id);
    }

    /** listAllBusinesses: one entry per business, in id order, each with its owner. */
    function ListAllBusinesses(): (r: seq<BusinessInfo>)
      reads this, userDb
      requires Valid()
      ensures |r| == |businesses|
      ensures forall k :: k in businesses <==> exists i :: 0 <= i < |r| && r[i].id == k
      ensures forall i :: 0 <= i < |r| ==> r[i].id in businesses && r[i] == Info(businesses[r[i].id])
    {
      InfosCoverBusinesses();
      Infos(Rows(businesses, nextBusinessId))
    }

    /** The entries of the list are those of the businesses, one each. */
    lemma {:induction false} InfosCoverBusinesses()
      requires Valid()
      ensures var r := Infos(Rows(businesses, nextBusinessId));
              |r| == |businesses|
              && (forall k :: k in businesses <==> exists i :: 0 <= i < |r| && r[i].id == k)
              && (forall i :: 0 <= i < |r| ==> r[i].id in businesses && r[i] == Info(businesses[r[i].id]))
    {
      var rows := Rows(businesses, nextBusinessId);
      BusinessRows(businesses, nextBusinessId);
      var r := Infos(rows);
      forall i | 0 <= i < |r|
        ensures r[i].id == rows[i].id && r[i].id in businesses && r[i] == Info(businesses[r[i].id])
      {
      }
      forall k | k in businesses
        ensures exists i :: 0 <= i < |r| && r[i].id == k
      {
        var i :| 0 <= i < |rows| && rows[i].id == k;
        assert r[i].id == k;
      }
    }

    /** blockBusiness: false for an unknown id; otherwise the business is inactive. The reason is not kept. */
    method BlockBusiness(businessId: int, reason: Option<string>, now: Minutes) returns (ok: bool)
      requires Valid()
      modifies this
      ensures Valid() && nextBusinessId == old(nextBusinessId)
      ensures ok <==> businessId in old(businesses)
      ensures !ok ==> businesses == old(businesses)
      ensures ok ==> businesses == old(businesses)[businessId :=
                                     old(businesses)[businessId].(isActive := false, updatedAt := now)]
    {
      if businessId !in businesses {
        return false;
      }
      businesses := businesses[businessId := businesses[businessId].(isActive := false, updatedAt := now)];
      ok := true;
    }

    /** unblockBusiness: false for an unknown id; otherwise the business is active again. */
    method UnblockBusiness(businessId: int, now: Minutes) returns (ok: bool)
      requires Valid()
      modifies this
      ensures Valid() && nextBusinessId == old(nextBusinessId)
      ensures ok <==> businessId in old(businesses)
      ensures !ok ==> businesses == old(businesses)
      ensures ok ==> businesses == old(businesses)[businessId :=
                                     old(businesses)[businessId].(isActive := true, updatedAt := now)]
    {
      if businessId !in businesses {
        return false;
      }
      businesses := businesses[businessId := businesses[businessId].(isActive := true, updatedAt := now)];
      ok := true;
    }

    /** isSuperAdmin: false for an unknown Telegram id, otherwise whether the user's role is SUPERADMIN. */
    function IsSuperAdmin(telegramId: int): (b: bool)
      reads this, userDb
      requires Valid()
      ensures !Known(userDb.users, telegramId) ==> !b
      ensures b <==> exists k :: k in userDb.users && userDb.users[k].telegramId == telegramId
                                 && userDb.users[k].role == SUPERADMIN
    {
      match userDb.FindByTelegramId(telegramId)
      case None => false
      case Some(user) => user.role == SUPERADMIN
    }
  }
}
