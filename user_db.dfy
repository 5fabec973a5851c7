/**
 * The user table and the table linking users to the businesses they
 * represent. A Telegram id belongs to at most one user (unique column) and
 * a user is linked to a business at most once (unique on business and
 * user).
 */
module UserDb {
  import opened Common
  import opened Domain

  const DUPLICATE_TELEGRAM_ID: string := "users_telegram_id_key"
  const DUPLICATE_LINK: string := "uk_business_user"

  ghost predicate UniqueTelegramIds(users: map<int, User>)
  {
    forall k1, k2 :: (k1 in users && k2 in users && users[k1].telegramId == users[k2].telegramId) ==> k1 == k2
  }

  ghost predicate UniqueLinks(links: map<int, BusinessUser>)
  {
    forall k1, k2 ::
      (k1 in links && k2 in links
       && links[k1].businessId == links[k2].businessId && links[k1].userId == links[k2].userId) ==> k1 == k2
  }

  /** Whether some user has this Telegram id. */
  ghost predicate Known(users: map<int, User>, telegramId: int)
  {
    exists k :: k in users && users[k].telegramId == telegramId
  }

  /** Whether the user with this Telegram id is linked to some business. */
  ghost predicate Represents(users: map<int, User>, links: map<int, BusinessUser>, telegramId: int)
  {
    exists k, l :: k in users && users[k].telegramId == telegramId && l in links && links[l].userId == k
  }

  class UserDbService {
    var users: map<int, User>
    var nextUserId: int
    var businessUsers: map<int, BusinessUser>
    var nextBusinessUserId: int

    ghost predicate Valid()
      reads this
    {
      1 <= nextUserId && IdsBelow(users, nextUserId)
      && (forall k :: k in users ==> users[k].id == k)
      && UniqueTelegramIds(users)
      && 1 <= nextBusinessUserId && IdsBelow(businessUsers, nextBusinessUserId)
      && (forall k :: k in businessUsers ==> businessUsers[k].id == k)
      && UniqueLinks(businessUsers)
    }

    constructor()
      ensures Valid() && users == map[] && businessUsers == map[]
    {
      users := map[];
      nextUserId := 1;
      businessUsers := map[];
      nextBusinessUserId := 1;
    }

    function FindById(id: int): (r: Option<User>)
      reads this
      ensures r.Some? <==> id in users
      ensures r.Some? ==> r.value == users[id]
    {
      if id in users then Some(users[id]) else None
    }

    /** findByTelegramId: the one user with this Telegram id, if any. */
    function FindByTelegramId(telegramId: int): (r: Option<User>)
      reads this
      requires Valid()
      ensures r.None? <==> !Known(users, telegramId)
      ensures r.Some? ==> r.value.id in users && users[r.value.id] == r.value && r.value.telegramId == telegramId
    {
      RowsAreValues(users, nextUserId);
      var hits := Filter(Rows(users, nextUserId), (u: User) => u.telegramId == telegramId);
      if hits == [] then
        assert forall k :: k in users ==> users[k] in users.Values;
        None
      else
        assert hits[0] in hits;
        Some(hits[0])
    }

    /**
     * createUser: a new active user; the role is USER unless the caller
     * names another. A Telegram id that already has a user violates the
     * unique column and nothing is written.
     */
    method CreateUser(telegramId: int, firstName: Option<string>, lastName: Option<string>,
                      username: Option<string>, role: UserRole, now: Minutes)
      returns (r: Result<User>)
      requires Valid()
      modifies this
      ensures Valid() && businessUsers == old(businessUsers) && nextBusinessUserId == old(nextBusinessUserId)
      ensures r.Ok? <==> !Known(old(users), telegramId)
      ensures r.Fail? ==> r.error == DUPLICATE_TELEGRAM_ID && users == old(users) && nextUserId == old(nextUserId)
      ensures r.Ok? ==> r.value == User(old(nextUserId), telegramId, firstName, lastName, username, None,
                                        role, true, now, now)
                        && old(nextUserId) !in old(users)
                        && users == old(users)[old(nextUserId) := r.value] && nextUserId == old(nextUserId) + 1
      ensures r.Ok? ==> FindByTelegramId(telegramId) == Some(r.value)
    {
      if FindByTelegramId(telegramId).Some? {
        return Fail(DUPLICATE_TELEGRAM_ID);
      }
      var u := User(nextUserId, telegramId, firstName, lastName, username, None, role, true, now, now);
      users := users[nextUserId := u];
      nextUserId := nextUserId + 1;
      assert UniqueTelegramIds(users);
      FindsStoredUser(u);
      r := Ok(u);
    }

    /** A stored user is the one its Telegram id finds. */
    lemma {:induction false} FindsStoredUser(u: User)
      requires Valid() && u.id in users && users[u.id] == u
      ensures FindByTelegramId(u.telegramId) == Some(u)
    {
      assert Known(users, u.telegramId);
    }

    /** The links of this business, in id order. */
    function FindByBusinessId(businessId: int): (r: seq<BusinessUser>)
      reads this
      requires Valid()
      ensures forall b :: b in r <==> b in businessUsers.Values && b.businessId == businessId
    {
      RowsAreValues(businessUsers, nextBusinessUserId);
      Filter(Rows(businessUsers, nextBusinessUserId), (b: BusinessUser) => b.businessId == businessId)
    }

    /** findByUserId: the links of this user, in id order. */
    function FindLinksByUserId(userId: int): (r: seq<BusinessUser>)
      reads this
      requires Valid()
      ensures forall b :: b in r <==> b in businessUsers.Values && b.userId == userId
    {
      RowsAreValues(businessUsers, nextBusinessUserId);
      Filter(Rows(businessUsers, nextBusinessUserId), (b: BusinessUser) => b.userId == userId)
    }

    /** existsByUserId: whether this user is linked to any business. */
    function ExistsByUserId(userId: int): (b: bool)
      reads this
      requires Valid()
      ensures b <==> exists l :: l in businessUsers && businessUsers[l].userId == userId
    {
      RowsAreValues(businessUsers, nextBusinessUserId);
      var hits := Filter(Rows(businessUsers, nextBusinessUserId), (b: BusinessUser) => b.userId == userId);
      if hits == [] then
        assert forall l :: l in businessUsers ==> businessUsers[l] in businessUsers.Values;
        false
      else
        assert hits[0] in hits;
        true
    }

    /**
     * createBusinessUser: links the user to the business in the given
     * role. A second link of the same pair violates the unique constraint.
     */
    method CreateBusinessUser(businessId: int, userId: int, role: BusinessRole, now: Minutes)
      returns (r: Result<BusinessUser>)
      requires Valid()
      modifies this
      ensures Valid() && users == old(users) && nextUserId == old(nextUserId)
      ensures r.Ok? <==> forall l :: l in old(businessUsers) ==>
                           old(businessUsers)[l].businessId != businessId || old(businessUsers)[l].userId != userId
      ensures r.Fail? ==> r.error == DUPLICATE_LINK
                          && businessUsers == old(businessUsers) && nextBusinessUserId == old(nextBusinessUserId)
      ensures r.Ok? ==> r.value == BusinessUser(old(nextBusinessUserId), businessId, userId, role, now)
                        && old(nextBusinessUserId) !in old(businessUsers)
                        && businessUsers == old(businessUsers)[old(nextBusinessUserId) := r.value]
                        && nextBusinessUserId == old(nextBusinessUserId) + 1
    {
      RowsAreValues(businessUsers, nextBusinessUserId);
      var hits := Filter(Rows(businessUsers, nextBusinessUserId),
                         (b: BusinessUser) => b.businessId == businessId && b.userId == userId);
      if hits != [] {
        assert hits[0] in hits;
        return Fail(DUPLICATE_LINK);
      }
      assert forall l :: l in businessUsers ==> businessUsers[l] in businessUsers.Values;
      var link := BusinessUser(nextBusinessUserId, businessId, userId, role, now);
      businessUsers := businessUsers[nextBusinessUserId := link];
      nextBusinessUserId := nextBusinessUserId + 1;
      r := Ok(link);
    }

    /**
     * isBusinessRepresentative: false for an unknown Telegram id, otherwise
     * whether the user is linked to some business (blocked or not).
     */
    function IsBusinessRepresentative(telegramId: int): (b: bool)
      reads this
      requires Valid()
      ensures !Known(users, telegramId) ==> !b
      ensures b <==> Represents(users, businessUsers, telegramId)
    {
      match FindByTelegramId(telegramId)
      case None => false
      case Some(user) => ExistsByUserId(user.id)
    }

    /** isSuperAdmin: false for an unknown Telegram id, otherwise whether the user's role is SUPERADMIN. */
    function IsSuperAdmin(telegramId: int): (b: bool)
      reads this
      requires Valid()
      ensures !Known(users, telegramId) ==> !b
      ensures b <==> exists k :: k in users && users[k].telegramId == telegramId && users[k].role == SUPERADMIN
    {
      match FindByTelegramId(telegramId)
      case None => false
      case Some(user) => user.role == SUPERADMIN
    }
  }
}
