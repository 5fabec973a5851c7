/**
 * The persistent records of Jobzi and the enums they use. Instants are
 * whole minutes on the server's fixed UTC offset; every nullable column is
 * an `Option`; identity ids are plain integers and each table is keyed by
 * them.
 */
module Domain {
  import opened Common

  /** An instant, in minutes since the epoch, on a fixed offset. */
  type Minutes = int

  const MINUTES_PER_HOUR: int := 60
  const MINUTES_PER_DAY: int := 1440

  // ---------------------------------------------------------------------
  // Encryption (AES-256-CBC with a random IV per call)
  // ---------------------------------------------------------------------

  /**
   * A ciphertext as stored in the account table. Each encryption draws a
   * fresh IV, so the same plaintext encrypted twice normally yields two
   * different ciphertexts; decryption recovers the plaintext.
   */
  datatype Cipher = Cipher(iv: nat, hidden: string)

  function Encrypt(plain: string, iv: nat): (c: Cipher)
    ensures Decrypt(c) == plain && c.iv == iv
  {
    Cipher(iv, plain)
  }

  function Decrypt(c: Cipher): string
  {
    c.hidden
  }

  // ---------------------------------------------------------------------
  // Telegram account pool
  // ---------------------------------------------------------------------

  datatype AccountStatus = INACTIVE | AUTHENTICATING | AUTHENTICATED | ERROR

  /** TelegramAuthState: the sub-state of an account that is authenticating. */
  datatype AuthState = WaitingCode | WaitingPassword

  /** TelegramAuthSessionState. */
  datatype SessionState = SessionWaitingCode | SessionWaitingPassword | SessionCompleted | SessionFailed

  datatype Account = Account(
    id: int,
    phoneEncrypted: Cipher,
    apiId: int,
    apiHashEncrypted: Cipher,
    sessionName: string,
    status: AccountStatus,
    authState: Option<AuthState>,
    lastUsedAt: Option<Minutes>,
    errorMessage: Option<string>,
    isActive: bool,
    createdAt: Minutes,
    updatedAt: Minutes,
    createdByUser: Option<int>)

  datatype AuthSession = AuthSession(
    id: int,
    accountId: int,
    state: SessionState,
    codeHash: Option<string>,
    expiresAt: Minutes,
    createdAt: Minutes)

  // ---------------------------------------------------------------------
  // Broadcasts
  // ---------------------------------------------------------------------

  /** status: DRAFT, READY, SENDING, SENT or FAILED; scheduleType: ONCE, HOURLY, ... */
  datatype Campaign = Campaign(
    id: int,
    businessId: int,
    title: string,
    messageText: string,
    status: string,
    createdByUserId: int,
    scheduleEnabled: bool,
    scheduleType: string,
    scheduleIntervalHours: Option<int>,
    scheduledAt: Option<Minutes>,
    lastSentAt: Option<Minutes>,
    nextSendAt: Option<Minutes>,
    createdAt: Minutes,
    updatedAt: Minutes)

  datatype Channel = Channel(
    id: int,
    businessId: int,
    channelId: string,
    channelName: Option<string>,
    channelType: string,
    isActive: bool,
    isBotAdmin: bool,
    lastValidationAt: Option<Minutes>,
    validationError: Option<string>,
    createdAt: Minutes,
    updatedAt: Minutes)

  // ---------------------------------------------------------------------
  // Vacancies, questions, applications
  // ---------------------------------------------------------------------

  datatype VacancyStatus = DRAFT | ACTIVE | PAUSED | CLOSED

  datatype Vacancy = Vacancy(
    id: int,
    businessId: int,
    code: string,
    title: string,
    description: string,
    location: Option<string>,
    salary: Option<string>,
    status: VacancyStatus,
    createdAt: Minutes,
    updatedAt: Minutes,
    publishedAt: Option<Minutes>)

  datatype QuestionType = TEXT | NUMBER | PHONE | YES_NO | CHOICE | DATE

  /** The enum constant's `name`, as snapshotted into an answer. */
  function TypeName(t: QuestionType): string
  {
    match t
      case TEXT => "TEXT"
      case NUMBER => "NUMBER"
      case PHONE => "PHONE"
      case YES_NO => "YES_NO"
      case CHOICE => "CHOICE"
      case DATE => "DATE"
  }

  datatype Question = Question(
    id: int,
    vacancyId: int,
    text: string,
    qtype: QuestionType,
    isRequired: bool,
    orderIndex: int,
    options: Option<string>,
    createdAt: Minutes)

  datatype ApplicationStatus = NEW | VIEWED | CONTACTED | ACCEPTED | REJECTED

  datatype Application = Application(
    id: int,
    vacancyId: int,
    userId: int,
    status: ApplicationStatus,
    notes: Option<string>,
    createdAt: Minutes,
    updatedAt: Minutes)

  datatype Answer = Answer(
    id: int,
    applicationId: int,
    questionId: int,
    answerText: string,
    questionText: string,
    questionType: string,
    questionOrder: int,
    createdAt: Minutes)

  // ---------------------------------------------------------------------
  // Users and businesses
  // ---------------------------------------------------------------------

  datatype UserRole = USER | SUPERADMIN

  datatype BusinessRole = ADMIN | MANAGER

  datatype User = User(
    id: int,
    telegramId: int,
    firstName: Option<string>,
    lastName: Option<string>,
    username: Option<string>,
    phoneNumber: Option<string>,
    role: UserRole,
    isActive: bool,
    createdAt: Minutes,
    updatedAt: Minutes)

  datatype Business = Business(
    id: int,
    name: string,
    telegramChatId: int,
    description: Option<string>,
    isActive: bool,
    createdAt: Minutes,
    updatedAt: Minutes)

  datatype BusinessUser = BusinessUser(
    id: int,
    businessId: int,
    userId: int,
    role: BusinessRole,
    createdAt: Minutes)
}
