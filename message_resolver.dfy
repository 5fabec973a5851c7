/**
 * Routing of an incoming message to exactly one of the three bot
 * handlers, by what the user table says about the sender.
 */
module MessageResolver {
  import opened Common
  import opened Domain
  import opened UserDb

  datatype Handler = ApplicantHandler | BusinessHandler | SuperAdminHandler

  /**
   * resolve: an unknown sender is an applicant; a superadmin goes to the
   * superadmin handler before the business check is made; a business
   * representative to the business handler; everyone else is an applicant.
   */
  function Resolve(db: UserDbService, telegramId: int): (h: Handler)
    reads db
    requires db.Valid()
    ensures !Known(db.users, telegramId) ==> h == ApplicantHandler
    ensures h == SuperAdminHandler <==> db.IsSuperAdmin(telegramId)
    ensures h == BusinessHandler <==> !db.IsSuperAdmin(telegramId) && db.IsBusinessRepresentative(telegramId)
    ensures h == ApplicantHandler <==> !db.IsSuperAdmin(telegramId) && !db.IsBusinessRepresentative(telegramId)
  {
    match db.FindByTelegramId(telegramId)
    case None => ApplicantHandler
    case Some(user) =>
      if user.role == SUPERADMIN then SuperAdminHandler
      else if db.IsBusinessRepresentative(telegramId) then BusinessHandler
      else ApplicantHandler
  }
}
