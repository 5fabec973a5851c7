# Jobzi, modelled in Dafny

Jobzi is a Telegram recruiting bot. Three kinds of people talk to it:

- **Applicants** send a vacancy code, then answer the vacancy's questionnaire.
- **Business representatives** create vacancies and their questionnaires, review applications, change the status of vacancies and applications, and schedule broadcast campaigns.
- **Super-admins** activate, block and unblock businesses.

The message resolver routes each incoming message to one of these dialogs by the sender's role. Per-user dialog state and context live in a conversation state manager.

Behind the bot runs a pool of Telegram user accounts ("userbots"):

- Accounts are registered with an encrypted phone number and API hash.
- An authentication broker hands login codes and 2FA passwords to the pending login of an account.
- The pool manager keeps one live client per authenticated account and picks clients by round robin.
- A health checker probes pooled clients, evicts the failing ones and cleans up old session directories.
- The broadcast scheduler sends due campaigns to a business's active channels through the Bot API (an oracle here), marks each campaign SENT or FAILED, and advances its schedule.

This project models that core.

- Every repository table is a `map<int, Record>` keyed by id, with the next free id. Query results are rows in id order.
- Every service whose fields or tables change is a `class` with `modifies` clauses. Loops over accounts, campaigns and channels are `while` loops proved against a specification function.
- Replies are the data each reply renders, not its text.
- Time is a whole number of minutes.
- Telegram, the probe `getMe`, the cipher's random IV, the random code generator and database failures are parameters or oracles.

One module per source file:

- `common.dfy`: Kotlin string and number helpers (`trim`, `lowercase`, `toIntOrNull`, `split`, UTF-16 length) and table queries.
- `domain.dfy`: the entities.
- `messages.dfy`: incoming messages.
- Table services: `user_db.dfy`, `vacancy_db.dfy`, `question_db.dfy`, `application_db.dfy`, `account_pool_db.dfy` and `broadcast_db.dfy`.
- `json_strings.dfy`: the JSON string-array format of a CHOICE question's options.
- Account pool: `dynamic_client.dfy`, `pool_manager.dfy`, `auth_service.dfy` and `health_checker.dfy`.
- Broadcasts: `broadcast_service.dfy` and `broadcast_scheduler.dfy`.
- Dialog state: `conversation_state.dfy` and `message_resolver.dfy`.
- Super-admin: `superadmin_service.dfy` and `superadmin_dialog.dfy`.
- Applicant: `applicant_dialog.dfy`.
- Business: `business_inputs.dfy` (the pure input parsers) and `business_dialog.dfy` (the business dialog steps).

Where the design notes and the code disagree, the model follows the code:

- A second `requestCode` (or `requestPassword`) for an account replaces the pending request rather than being ignored (`AuthService.TelegramAuthenticationService.RequestCode`).
- A failed health probe, as written, leaves the account INACTIVE with no error message, not ERROR. `HandleUnhealthyAccountAsWritten` and `UnhealthyAsWritten` model that path; the health pass (`ProbeAccount` up to `CheckAccountHealth`) uses the corrected `HandleUnhealthyAccount`, which ends the account ERROR with the reason (see Findings and Left out).
- The duplicate-account check on the phone number compares a fresh ciphertext, so it does not detect a phone already registered (see Findings).

## Model

| member | source | states |
|---|---|---|
| ConversationStore.ConversationStateManager.GetState | src/main/kotlin/dev/weuizx/jobzi/telegram/state/ConversationStateManager.kt:19-21 | a user with no entry is in NONE; otherwise the stored state |
| ConversationStore.ConversationStateManager.SetState | src/main/kotlin/dev/weuizx/jobzi/telegram/state/ConversationStateManager.kt:26-28 | the user's state becomes the given one; every other user's state and every context is unchanged |
| ConversationStore.ConversationStateManager.ClearState | src/main/kotlin/dev/weuizx/jobzi/telegram/state/ConversationStateManager.kt:33-36 | both the state (back to NONE) and the whole context of that user are removed, nothing else |
| ConversationStore.ConversationStateManager.SetContextValue | src/main/kotlin/dev/weuizx/jobzi/telegram/state/ConversationStateManager.kt:41-44 | the key now reads back the value; the user's other keys, other users' contexts and all states are unchanged |
| ConversationStore.ConversationStateManager.GetContextValue | src/main/kotlin/dev/weuizx/jobzi/telegram/state/ConversationStateManager.kt:49-52 | present exactly when the user has a context holding the key, and then it is the stored value |
| ConversationStore.NumValue | src/main/kotlin/dev/weuizx/jobzi/telegram/state/ConversationStateManager.kt:49-52 | the typed read (`as? T`) yields a number exactly when the stored value is one; a value of another kind reads as absent |
| ConversationStore.TextValue | src/main/kotlin/dev/weuizx/jobzi/telegram/state/ConversationStateManager.kt:49-52 | the typed read yields a text exactly when the stored value is a text |
| ConversationStore.FlagValue | src/main/kotlin/dev/weuizx/jobzi/telegram/state/ConversationStateManager.kt:49-52 | the typed read yields a boolean exactly when the stored value is a boolean |
| ConversationStore.TextsValue | src/main/kotlin/dev/weuizx/jobzi/telegram/state/ConversationStateManager.kt:49-52 | the typed read yields a list of strings exactly when the stored value is one |
| ConversationStore.QuestionsValue | src/main/kotlin/dev/weuizx/jobzi/telegram/state/ConversationStateManager.kt:49-52 | the typed read yields a list of questions exactly when the stored value is one |
| ConversationStore.PendingValue | src/main/kotlin/dev/weuizx/jobzi/telegram/state/ConversationStateManager.kt:49-52 | the typed read yields the list of pending custom questions exactly when the stored value is one |
| ConversationStore.ConversationStateManager.GetContext | src/main/kotlin/dev/weuizx/jobzi/telegram/state/ConversationStateManager.kt:57-59 | empty for a user without context; otherwise holds exactly the keys GetContextValue finds, with the same values |
| ConversationStore.ConversationStateManager.ClearContextValue | src/main/kotlin/dev/weuizx/jobzi/telegram/state/ConversationStateManager.kt:64-66 | the key is gone and the rest of that context, other users and all states are unchanged; no context is created for a user who had none |
| ConversationStore.ConversationStateManager.ClearContext | src/main/kotlin/dev/weuizx/jobzi/telegram/state/ConversationStateManager.kt:71-73 | the user's context is empty and the state is kept |
| MessageResolver.Resolve | src/main/kotlin/dev/weuizx/jobzi/telegram/resolver/MessageResolver.kt:28-58 | an unknown Telegram id goes to the applicant handler; the super-admin handler is chosen iff the user is a SUPERADMIN, the business handler iff not and the user represents a business, the applicant handler otherwise |
| Domain.Encrypt | src/main/kotlin/dev/weuizx/jobzi/service/EncryptionService.kt:45-88 | decrypting the ciphertext gives the plaintext back, whatever the random IV |
| UserDb.UserDbService.FindById | src/main/kotlin/dev/weuizx/jobzi/service/db/UserDbService.kt:16 | found iff the id is a row, and then that row |
| UserDb.UserDbService.FindByTelegramId | src/main/kotlin/dev/weuizx/jobzi/service/db/UserDbService.kt:18 | absent iff no user has the Telegram id; otherwise the stored user with that id |
| UserDb.UserDbService.CreateUser | src/main/kotlin/dev/weuizx/jobzi/service/db/UserDbService.kt:26-41 | fails with a duplicate error iff the Telegram id is taken (the unique column); otherwise adds exactly one active user with the given names and role, under a fresh id, findable by Telegram id |
| UserDb.UserDbService.FindByBusinessId | src/main/kotlin/dev/weuizx/jobzi/service/db/BusinessUserDbService.kt:20-21 | exactly the business-user links of that business |
| UserDb.UserDbService.FindLinksByUserId | src/main/kotlin/dev/weuizx/jobzi/service/db/BusinessUserDbService.kt:17-18 | exactly the business-user links of that user |
| UserDb.UserDbService.ExistsByUserId | src/main/kotlin/dev/weuizx/jobzi/service/db/UserDbService.kt:46-49 | true iff some business-user link names the user |
| UserDb.UserDbService.CreateBusinessUser | src/main/kotlin/dev/weuizx/jobzi/service/db/BusinessUserDbService.kt:25-36 | fails iff the (business, user) pair is already linked (the unique constraint); otherwise adds exactly that link with the given role under a fresh id |
| UserDb.UserDbService.IsBusinessRepresentative | src/main/kotlin/dev/weuizx/jobzi/service/db/UserDbService.kt:46-49 | false for an unknown Telegram id; true iff the user with that id has some business link |
| UserDb.UserDbService.IsSuperAdmin | src/main/kotlin/dev/weuizx/jobzi/service/db/UserDbService.kt:54-57 | false for an unknown Telegram id; true iff the user with that id has role SUPERADMIN |
| VacancyDb.Candidate | src/main/kotlin/dev/weuizx/jobzi/service/db/VacancyDbService.kt:138-158 | every drawn candidate is a well-formed vacancy code: three Latin capitals followed by three digits |
| VacancyDb.VacancyDbService.GenerateUniqueCode | src/main/kotlin/dev/weuizx/jobzi/service/db/VacancyDbService.kt:138-158 | returns the first drawn candidate not yet taken; fails iff all 99 attempts before the hundredth collide (the hundredth attempt throws even when free) |
| VacancyDb.StatusChanged | src/main/kotlin/dev/weuizx/jobzi/service/db/VacancyDbService.kt:70-82 | sets status and update time; the publication time is set to now only on a first switch to ACTIVE and never overwritten; no other field changes |
| VacancyDb.StatusChangeKeepsFirstPublication | src/main/kotlin/dev/weuizx/jobzi/service/db/VacancyDbService.kt:70-82 | repeating a status change keeps the first publication time |
| VacancyDb.VacancyDbService.FindById | src/main/kotlin/dev/weuizx/jobzi/service/db/VacancyDbService.kt:15 | found iff the id is a row, and then that row |
| VacancyDb.VacancyDbService.FindByCode | src/main/kotlin/dev/weuizx/jobzi/service/db/VacancyDbService.kt:23 | absent iff no vacancy has the code; otherwise the stored vacancy with that code |
| VacancyDb.VacancyDbService.CreateVacancy | src/main/kotlin/dev/weuizx/jobzi/service/db/VacancyDbService.kt:30-52 | on success adds exactly one vacancy with the given fields and a fresh code not used before, published now iff created ACTIVE; on failure the table is unchanged |
| VacancyDb.VacancyDbService.PublishVacancy | src/main/kotlin/dev/weuizx/jobzi/service/db/VacancyDbService.kt:57-65 | a missing id changes nothing; otherwise the vacancy becomes ACTIVE with publication and update time now, nothing else changes |
| VacancyDb.VacancyDbService.ChangeStatus | src/main/kotlin/dev/weuizx/jobzi/service/db/VacancyDbService.kt:70-82 | a missing id changes nothing; otherwise the row becomes StatusChanged of the old one |
| VacancyDb.VacancyDbService.UpdateTitle | src/main/kotlin/dev/weuizx/jobzi/service/db/VacancyDbService.kt:87-92 | a missing id changes nothing; otherwise only the title and update time of that row change |
| VacancyDb.VacancyDbService.UpdateDescription | src/main/kotlin/dev/weuizx/jobzi/service/db/VacancyDbService.kt:97-102 | a missing id changes nothing; otherwise only the description and update time of that row change |
| VacancyDb.VacancyDbService.UpdateLocation | src/main/kotlin/dev/weuizx/jobzi/service/db/VacancyDbService.kt:107-112 | a missing id changes nothing; otherwise only the location and update time of that row change |
| VacancyDb.VacancyDbService.UpdateSalary | src/main/kotlin/dev/weuizx/jobzi/service/db/VacancyDbService.kt:117-122 | a missing id changes nothing; otherwise only the salary and update time of that row change |
| VacancyDb.VacancyDbService.DeleteVacancy | src/main/kotlin/dev/weuizx/jobzi/service/db/VacancyDbService.kt:128-132 | reports true iff the vacancy existed, and afterwards it is gone |
| QuestionDb.MaxOrderIndex | src/main/kotlin/dev/weuizx/jobzi/service/db/QuestionDbService.kt:65-67 | the largest order index of the list (0 for none): an upper bound that is attained |
| QuestionDb.NextOrderIndex | src/main/kotlin/dev/weuizx/jobzi/service/db/QuestionDbService.kt:65-67 | greater than every existing order index; 1 for a vacancy without questions |
| QuestionDb.InsertByOrderElements | src/main/kotlin/dev/weuizx/jobzi/repository/QuestionRepository.kt:9 | insertion into the ordered list keeps every element and adds only the new one |
| QuestionDb.InsertByOrderSorted | src/main/kotlin/dev/weuizx/jobzi/repository/QuestionRepository.kt:9 | insertion keeps the list ordered by order index |
| QuestionDb.SortByOrder | src/main/kotlin/dev/weuizx/jobzi/repository/QuestionRepository.kt:9 | the result is ordered by order index and a permutation of the input |
| QuestionDb.OptionsColumn | src/main/kotlin/dev/weuizx/jobzi/service/db/QuestionDbService.kt:69-71 | the options column is filled iff the question is a CHOICE question with options, and then holds their JSON array |
| QuestionDb.ParseOptions | src/main/kotlin/dev/weuizx/jobzi/service/db/QuestionDbService.kt:89-96 | an absent or blank column gives no options |
| QuestionDb.OptionsRoundTrip | src/main/kotlin/dev/weuizx/jobzi/service/db/QuestionDbService.kt:69-96 | parsing the stored column of a CHOICE question gives back exactly the options that were stored |
| QuestionDb.QuestionDbService.FindById | src/main/kotlin/dev/weuizx/jobzi/service/db/QuestionDbService.kt:101 | found iff the id is a row, and then that row |
| QuestionDb.QuestionDbService.Unordered | src/main/kotlin/dev/weuizx/jobzi/repository/QuestionRepository.kt:10 | exactly the questions of the vacancy, in table order |
| QuestionDb.QuestionDbService.FindByVacancyId | src/main/kotlin/dev/weuizx/jobzi/service/db/QuestionDbService.kt:17-18 | exactly the questions of the vacancy, ordered by order index (a permutation of the table's rows) |
| QuestionDb.QuestionDbService.CountByVacancyId | src/main/kotlin/dev/weuizx/jobzi/service/db/QuestionDbService.kt:143-145 | the number of question rows of the vacancy |
| QuestionDb.QuestionDbService.Insert | src/main/kotlin/dev/weuizx/jobzi/service/db/QuestionDbService.kt:20 | saving adds exactly one row with the given fields under a fresh id |
| QuestionDb.QuestionDbService.CreateDefaultQuestions | src/main/kotlin/dev/weuizx/jobzi/service/db/QuestionDbService.kt:27-53 | the table becomes exactly DefaultsAdded: name (TEXT, required), phone (PHONE, required), age (NUMBER, optional) with order indexes 1..3, no options, under the next three ids; no other row changes |
| QuestionDb.QuestionDbService.CreateCustomQuestion | src/main/kotlin/dev/weuizx/jobzi/service/db/QuestionDbService.kt:58-84 | adds exactly one question with the given text, type and required flag, ordered after every existing question of the vacancy (1 if none); its options read back as given for a CHOICE question |
| QuestionDb.QuestionDbService.DeleteByVacancyId | src/main/kotlin/dev/weuizx/jobzi/service/db/QuestionDbService.kt:22 | removes exactly the questions of that vacancy; all others are unchanged |
| QuestionDb.QuestionDbService.DeleteById | src/main/kotlin/dev/weuizx/jobzi/service/db/QuestionDbService.kt:106-108 | removes exactly that row |
| QuestionDb.QuestionDbService.UpdateQuestionText | src/main/kotlin/dev/weuizx/jobzi/service/db/QuestionDbService.kt:113-117 | a missing id changes nothing; otherwise only that question's text changes |
| QuestionDb.QuestionDbService.UpdateQuestionRequired | src/main/kotlin/dev/weuizx/jobzi/service/db/QuestionDbService.kt:122-126 | a missing id changes nothing; otherwise only that question's required flag changes |
| QuestionDb.QuestionDbService.UpdateQuestionOptions | src/main/kotlin/dev/weuizx/jobzi/service/db/QuestionDbService.kt:131-138 | changes nothing unless the question exists and is a CHOICE question; then only its options change and they read back as given |
| ApplicationDb.ApplicationDbService.FindById | src/main/kotlin/dev/weuizx/jobzi/service/db/ApplicationDbService.kt:19 | found iff the id is a row, and then that row |
| ApplicationDb.ApplicationDbService.FindByVacancyId | src/main/kotlin/dev/weuizx/jobzi/service/db/ApplicationDbService.kt:21-22 | exactly the applications to the vacancy |
| ApplicationDb.ApplicationDbService.FindByVacancyIdAndStatus | src/main/kotlin/dev/weuizx/jobzi/service/db/ApplicationDbService.kt:24-25 | exactly the applications to the vacancy in that status |
| ApplicationDb.ApplicationDbService.FindByVacancyIdAndUserId | src/main/kotlin/dev/weuizx/jobzi/service/db/ApplicationDbService.kt:30-31 | absent iff the user has not applied to the vacancy; otherwise the one stored application of that pair |
| ApplicationDb.ApplicationDbService.ExistsByVacancyIdAndUserId | src/main/kotlin/dev/weuizx/jobzi/service/db/ApplicationDbService.kt:33-34 | true iff some application has that vacancy and user |
| ApplicationDb.ApplicationDbService.CreateApplication | src/main/kotlin/dev/weuizx/jobzi/service/db/ApplicationDbService.kt:41-51 | fails iff the user already applied to the vacancy (the unique constraint); otherwise adds exactly one NEW application without notes; either way the pair exists afterwards |
| ApplicationDb.ApplicationDbService.AnswerFor | src/main/kotlin/dev/weuizx/jobzi/repository/AnswerRepository.kt:10 | absent iff the application has no answer to the question; otherwise that stored answer |
| ApplicationDb.ApplicationDbService.SaveAnswer | src/main/kotlin/dev/weuizx/jobzi/service/db/ApplicationDbService.kt:57-74 | fails iff the question is already answered for the application; otherwise adds exactly one answer carrying the question's text, type and order |
| ApplicationDb.ApplicationDbService.GetAnswersByApplicationId | src/main/kotlin/dev/weuizx/jobzi/service/db/ApplicationDbService.kt:79-80 | exactly the answers of the application |
| ApplicationDb.ApplicationDbService.UpdateStatus | src/main/kotlin/dev/weuizx/jobzi/service/db/ApplicationDbService.kt:85-90 | a missing id changes nothing; otherwise only the status and update time of that application change |
| ApplicationDb.ApplicationDbService.AddNotes | src/main/kotlin/dev/weuizx/jobzi/service/db/ApplicationDbService.kt:95-100 | a missing id changes nothing; otherwise only the notes and update time of that application change |
| AccountPoolDb.WithStatus | src/main/kotlin/dev/weuizx/jobzi/service/db/TelegramAccountPoolDbService.kt:67-82 | sets status, auth state, error message and update time and leaves every other field of the account as it was |
| AccountPoolDb.Unexpired | src/main/kotlin/dev/weuizx/jobzi/service/db/TelegramAccountPoolDbService.kt:166-175 | keeps exactly the auth sessions whose expiry is not before now, unchanged |
| AccountPoolDb.SweepIdempotent | src/main/kotlin/dev/weuizx/jobzi/service/db/TelegramAccountPoolDbService.kt:166-175 | sweeping expired sessions twice at the same instant removes nothing more |
| AccountPoolDb.LatestBelow | src/main/kotlin/dev/weuizx/jobzi/service/db/TelegramAccountPoolDbService.kt:137-138 | the highest session id below the bound that belongs to the account, or none when it has no session there |
| AccountPoolDb.AccountPoolDbService.FindAccountBySessionName | src/main/kotlin/dev/weuizx/jobzi/service/db/TelegramAccountPoolDbService.kt:27-28 | absent iff no account has the session name; otherwise the stored account with it |
| AccountPoolDb.AccountPoolDbService.FindAccountsByStatus | src/main/kotlin/dev/weuizx/jobzi/service/db/TelegramAccountPoolDbService.kt:30-31 | exactly the accounts in that status, no session name twice |
| AccountPoolDb.AccountPoolDbService.FindActiveAccountsByStatus | src/main/kotlin/dev/weuizx/jobzi/service/db/TelegramAccountPoolDbService.kt:33-34 | exactly the active accounts in that status, no session name twice |
| AccountPoolDb.AccountPoolDbService.DistinctNames | src/main/kotlin/dev/weuizx/jobzi/service/db/TelegramAccountPoolDbService.kt:27-34 | any filtered listing of the accounts table repeats no session name (the unique column) |
| AccountPoolDb.AccountPoolDbService.CreateAccount | src/main/kotlin/dev/weuizx/jobzi/service/db/TelegramAccountPoolDbService.kt:39-65 | as written: rejects a phone only when the fresh ciphertext equals a stored one, then rejects a taken session name; otherwise stores exactly one INACTIVE account holding both ciphertexts |
| AccountPoolDb.AccountPoolDbService.CreateAccountUniquePhone | src/main/kotlin/dev/weuizx/jobzi/service/db/TelegramAccountPoolDbService.kt:46-53 | corrected duplicate check: rejects a phone iff some stored ciphertext decrypts to it, then a taken session name; keeps phones unique across accounts |
| AccountPoolDb.AccountPoolDbService.Insert | src/main/kotlin/dev/weuizx/jobzi/service/db/TelegramAccountPoolDbService.kt:55-64 | saving adds exactly one INACTIVE, active-flagged account under a fresh id |
| AccountPoolDb.AccountPoolDbService.UpdateAccountStatus | src/main/kotlin/dev/weuizx/jobzi/service/db/TelegramAccountPoolDbService.kt:67-82 | an unknown id fails and changes nothing; otherwise the account becomes WithStatus of the old one |
| AccountPoolDb.AccountPoolDbService.UpdateAccountLastUsedAt | src/main/kotlin/dev/weuizx/jobzi/service/db/TelegramAccountPoolDbService.kt:84-92 | an unknown id fails and changes nothing; otherwise only last-used and update time of that account change |
| AccountPoolDb.AccountPoolDbService.DeactivateAccount | src/main/kotlin/dev/weuizx/jobzi/service/db/TelegramAccountPoolDbService.kt:94-103 | an unknown id fails and changes nothing; otherwise the account is inactive with status INACTIVE, nothing else changes |
| AccountPoolDb.AccountPoolDbService.DeleteAccount | src/main/kotlin/dev/weuizx/jobzi/service/db/TelegramAccountPoolDbService.kt:105-107 | removes exactly that account |
| AccountPoolDb.AccountPoolDbService.CreateAuthSession | src/main/kotlin/dev/weuizx/jobzi/service/db/TelegramAccountPoolDbService.kt:117-132 | an unknown account fails; otherwise adds exactly one session in the given state expiring the given minutes from now (so after now for a positive expiry) |
| AccountPoolDb.AccountPoolDbService.FindLatestAuthSession | src/main/kotlin/dev/weuizx/jobzi/service/db/TelegramAccountPoolDbService.kt:137-138 | absent iff the account has no session; otherwise its session with the largest id |
| AccountPoolDb.AccountPoolDbService.UpdateAuthSessionState | src/main/kotlin/dev/weuizx/jobzi/service/db/TelegramAccountPoolDbService.kt:140-154 | an unknown session fails; otherwise only its state changes, and its code hash is replaced only when a new one is given |
| AccountPoolDb.AccountPoolDbService.CleanupExpiredAuthSessions | src/main/kotlin/dev/weuizx/jobzi/service/db/TelegramAccountPoolDbService.kt:166-175 | the sessions left are exactly the unexpired ones |
| AccountPoolDb.CipherTestMissesStoredPhone | src/main/kotlin/dev/weuizx/jobzi/service/db/TelegramAccountPoolDbService.kt:46-50 | with a fresh IV the ciphertext comparison never finds a phone that is already stored |
| AccountPoolDb.DuplicatePhoneWitness | src/main/kotlin/dev/weuizx/jobzi/service/db/TelegramAccountPoolDbService.kt:46-50 | a concrete stored phone that the ciphertext comparison lets through a second time |
| BroadcastDb.NextAtMinute | src/main/kotlin/dev/weuizx/jobzi/service/db/BroadcastDbService.kt:230-242 | HOURLY: the first instant strictly after now whose minute-of-hour is the chosen one, at most an hour ahead |
| BroadcastDb.NextAtHour | src/main/kotlin/dev/weuizx/jobzi/service/db/BroadcastDbService.kt:243-255 | DAILY: the first instant strictly after now at the chosen hour sharp, at most a day ahead |
| BroadcastDb.Next | src/main/kotlin/dev/weuizx/jobzi/service/db/BroadcastDbService.kt:221-274 | the next send time per schedule type: hourly and daily grids (out of range when the stored value is not a valid minute or hour), +7 days, +15 minutes, +custom hours (24 by default); ONCE and unknown types stop the schedule |
| BroadcastDb.Rescheduled | src/main/kotlin/dev/weuizx/jobzi/service/db/BroadcastDbService.kt:221-276 | records the send time, stops the schedule for ONCE and unknown types, otherwise sets the next send time; no other field changes |
| BroadcastDb.RescheduledNotDue | src/main/kotlin/dev/weuizx/jobzi/service/db/BroadcastDbService.kt:212-276 | after rescheduling, a campaign is no longer due at the same instant (given a positive custom interval) |
| BroadcastDb.ZeroCustomIntervalStaysDue | src/main/kotlin/dev/weuizx/jobzi/service/db/BroadcastDbService.kt:264-268 | a CUSTOM campaign with a zero interval is due again immediately after it was rescheduled |
| BroadcastDb.ValidateChannelAccess | src/main/kotlin/dev/weuizx/jobzi/service/db/BroadcastDbService.kt:88-153 | success iff the chat is found and the bot is a member, administrator or creator; type PUBLIC iff the chat has a user name; a found chat without membership reports not-a-member, and the restricted and cannot-send errors are never reached |
| BroadcastDb.BroadcastDbService.CreateChannel | src/main/kotlin/dev/weuizx/jobzi/service/db/BroadcastDbService.kt:32-43 | fails iff the business already registered that channel id; otherwise adds exactly one active, unverified PUBLIC channel |
| BroadcastDb.BroadcastDbService.Insert | src/main/kotlin/dev/weuizx/jobzi/service/db/BroadcastDbService.kt:32-43 | saving fails on the (business, channel id) unique pair and otherwise adds exactly the given row |
| BroadcastDb.BroadcastDbService.FindChannelsByBusinessId | src/main/kotlin/dev/weuizx/jobzi/service/db/BroadcastDbService.kt:48-49 | exactly the channels of the business |
| BroadcastDb.BroadcastDbService.FindActiveChannelsByBusinessId | src/main/kotlin/dev/weuizx/jobzi/service/db/BroadcastDbService.kt:54-55 | exactly the active channels of the business, each stored and listed once |
| BroadcastDb.BroadcastDbService.FindChannelByBusinessIdAndChannelId | src/main/kotlin/dev/weuizx/jobzi/service/db/BroadcastDbService.kt:60-61 | absent iff the business has no such channel; otherwise that stored channel |
| BroadcastDb.BroadcastDbService.ChannelExists | src/main/kotlin/dev/weuizx/jobzi/service/db/BroadcastDbService.kt:66-67 | true iff the business registered the channel id |
| BroadcastDb.BroadcastDbService.UpdateChannel | src/main/kotlin/dev/weuizx/jobzi/service/db/BroadcastDbService.kt:72-75 | stores the channel with update time now, nothing else changes |
| BroadcastDb.BroadcastDbService.DeleteChannel | src/main/kotlin/dev/weuizx/jobzi/service/db/BroadcastDbService.kt:80-82 | removes exactly that channel |
| BroadcastDb.BroadcastDbService.AutoRegisterChat | src/main/kotlin/dev/weuizx/jobzi/service/db/BroadcastDbService.kt:284-314 | an already registered chat is returned unchanged; otherwise a new active channel titled by the chat (or a default title) of the chat's type (PRIVATE by default) is stored, or nothing when storing fails; a returned channel is the registered one |
| BroadcastDb.BroadcastDbService.CreateCampaign | src/main/kotlin/dev/weuizx/jobzi/service/db/BroadcastDbService.kt:160-173 | adds exactly one DRAFT, ONCE, unscheduled campaign under a fresh id; it is not due |
| BroadcastDb.BroadcastDbService.FindCampaignById | src/main/kotlin/dev/weuizx/jobzi/service/db/BroadcastDbService.kt:190-191 | found iff the id is a row, and then that row |
| BroadcastDb.BroadcastDbService.FindCampaignsByBusinessId | src/main/kotlin/dev/weuizx/jobzi/service/db/BroadcastDbService.kt:178-179 | exactly the campaigns of the business |
| BroadcastDb.BroadcastDbService.UpdateCampaign | src/main/kotlin/dev/weuizx/jobzi/service/db/BroadcastDbService.kt:196-199 | stores the campaign with update time now, nothing else changes |
| BroadcastDb.BroadcastDbService.DeleteCampaign | src/main/kotlin/dev/weuizx/jobzi/service/db/BroadcastDbService.kt:204-206 | removes exactly that campaign |
| BroadcastDb.BroadcastDbService.FindCampaignsDueForSending | src/main/kotlin/dev/weuizx/jobzi/service/db/BroadcastDbService.kt:212-216 | exactly the enabled campaigns whose next send time is set and not after now, each stored and listed once |
| BroadcastDb.BroadcastDbService.UpdateNextSendTime | src/main/kotlin/dev/weuizx/jobzi/service/db/BroadcastDbService.kt:221-277 | fails (as the out-of-range time call throws) iff the hourly minute or daily hour is out of range; otherwise stores Rescheduled with update time now |
| AccountPoolDb.AccountPoolDbService.FindAccountById | src/main/kotlin/dev/weuizx/jobzi/service/db/TelegramAccountPoolDbService.kt:24-25 | absent iff no account has the id; otherwise the stored account with it |
| BroadcastScheduling.Processed | src/main/kotlin/dev/weuizx/jobzi/service/BroadcastScheduler.kt:38-63 | a processed campaign records the send; it ends SENT iff some channel received it and rescheduling succeeded, FAILED otherwise; when rescheduling throws its schedule is left as it was |
| BroadcastScheduling.ProcessedDueness | src/main/kotlin/dev/weuizx/jobzi/service/BroadcastScheduler.kt:34-63 | a due campaign is no longer due once processed, unless its schedule value is out of range (then it stays due and is retried every run) |
| BroadcastScheduling.ProcessedAllRows | src/main/kotlin/dev/weuizx/jobzi/service/BroadcastScheduler.kt:34-64 | processing a list of distinct due campaigns replaces exactly those rows by their processed form and keeps every other campaign |
| BroadcastScheduling.OnlyDeactivatedTransitive | src/main/kotlin/dev/weuizx/jobzi/service/BroadcastService.kt:103-109 | channel changes that only deactivate compose |
| BroadcastScheduling.AfterSendDeactivates | src/main/kotlin/dev/weuizx/jobzi/service/BroadcastService.kt:103-109 | sending a campaign changes channels only by deactivating them |
| BroadcastScheduling.BroadcastScheduler.SendScheduledCampaigns | src/main/kotlin/dev/weuizx/jobzi/service/BroadcastScheduler.kt:24-69 | one result per due campaign, in order, whose successes and failures add up to its channel count; the campaigns table becomes ProcessedAll of the due list; channels are only deactivated; nothing changes when nothing is due |
| BroadcastScheduling.BroadcastScheduler.ProcessAll | src/main/kotlin/dev/weuizx/jobzi/service/BroadcastScheduler.kt:34-64 | the loop over due campaigns: same results and final campaigns table as SendScheduledCampaigns |
| BroadcastScheduling.BroadcastScheduler.ProcessCampaign | src/main/kotlin/dev/weuizx/jobzi/service/BroadcastScheduler.kt:35-58 | sends one campaign and replaces its row by Processed of it; successes and failures add up to the channel count |
| BroadcastScheduling.BroadcastScheduler.Conclude | src/main/kotlin/dev/weuizx/jobzi/service/BroadcastScheduler.kt:46-63 | after marking SENDING and sending, the row ends as Processed of the campaign, with the failure branch when rescheduling throws |
| Broadcasting.Template | src/main/kotlin/dev/weuizx/jobzi/service/BroadcastService.kt:107 | a string template shows a missing exception message as "null" |
| Broadcasting.ResultFor | src/main/kotlin/dev/weuizx/jobzi/service/BroadcastService.kt:97-127 | the per-channel result names the channel; success iff the message was delivered, and then with no error; an API failure carries its message or the default text |
| Broadcasting.Deactivated | src/main/kotlin/dev/weuizx/jobzi/service/BroadcastService.kt:106-109 | an API failure marks the channel inactive with the "send error" validation text and changes nothing else |
| Broadcasting.ResultsFor | src/main/kotlin/dev/weuizx/jobzi/service/BroadcastService.kt:64-66 | one result per channel, in channel order |
| Broadcasting.SuccessesAreDeliveries | src/main/kotlin/dev/weuizx/jobzi/service/BroadcastService.kt:64-68 | the success count equals the number of channels the message reached |
| Broadcasting.Summarize | src/main/kotlin/dev/weuizx/jobzi/service/BroadcastService.kt:68-79 | totals: the channel count, the successes counted from the results, failures the rest |
| Broadcasting.AfterSend | src/main/kotlin/dev/weuizx/jobzi/service/BroadcastService.kt:50-109 | a channel ends deactivated iff it is an active channel of the business and the API rejected the message; every other channel is untouched |
| Broadcasting.NotYetSent | src/main/kotlin/dev/weuizx/jobzi/service/BroadcastService.kt:64-66 | a channel not yet reached by the loop is still as it was |
| Broadcasting.SentStep | src/main/kotlin/dev/weuizx/jobzi/service/BroadcastService.kt:64-66 | one more channel sent extends the loop invariant |
| Broadcasting.SentAll | src/main/kotlin/dev/weuizx/jobzi/service/BroadcastService.kt:50-66 | after the loop the channels table is AfterSend applied to every channel |
| Broadcasting.BroadcastService.SendCampaign | src/main/kotlin/dev/weuizx/jobzi/service/BroadcastService.kt:46-80 | sends to exactly the business's active channels: results per channel in order, successes equal deliveries, totals add up, campaigns unchanged, channels changed only by AfterSend (the no-channel early return included) |
| Broadcasting.BroadcastService.Broadcast | src/main/kotlin/dev/weuizx/jobzi/service/BroadcastService.kt:63-79 | the non-empty branch: same result and channel effect as SendCampaign for the given channel list |
| Broadcasting.BroadcastService.SendAll | src/main/kotlin/dev/weuizx/jobzi/service/BroadcastService.kt:64-66 | the map over channels: results are ResultsFor the list and the channel table keeps the loop invariant |
| Broadcasting.BroadcastService.SendToChannel | src/main/kotlin/dev/weuizx/jobzi/service/BroadcastService.kt:85-128 | the result is ResultFor the outcome; an API failure deactivates exactly that channel, any other outcome changes nothing |
| AuthService.PasswordUpdate | src/main/kotlin/dev/weuizx/jobzi/telegram/pool/TelegramAuthenticationService.kt:146-157 | the password prompt update carries the hint in its context iff there is a hint |
| AuthService.TelegramAuthenticationService.RequestCode | src/main/kotlin/dev/weuizx/jobzi/telegram/pool/TelegramAuthenticationService.kt:40-78 | returns a new future; for a known account it is pending, the account is AUTHENTICATING/WAITING_CODE, a 5-minute WAITING_CODE session is created and a WAITING_CODE update is sent; for an unknown account the future fails and the pending entry is removed |
| AuthService.TelegramAuthenticationService.RequestPassword | src/main/kotlin/dev/weuizx/jobzi/telegram/pool/TelegramAuthenticationService.kt:123-168 | as RequestCode for the 2FA password, with the hint in the update |
| AuthService.TelegramAuthenticationService.SubmitCode | src/main/kotlin/dev/weuizx/jobzi/telegram/pool/TelegramAuthenticationService.kt:85-115 | accepted iff a code request is pending and the session table does not fail; then the request is removed, its future completes with the code and the latest session of the account is COMPLETED; a table failure removes the request, fails its future and writes no session; with no request nothing changes |
| AuthService.TelegramAuthenticationService.SubmitPassword | src/main/kotlin/dev/weuizx/jobzi/telegram/pool/TelegramAuthenticationService.kt:175-205 | accepted iff a password request is pending and the session table does not fail; otherwise as SubmitCode with the password |
| AuthService.TelegramAuthenticationService.NotifyAuthenticationComplete | src/main/kotlin/dev/weuizx/jobzi/telegram/pool/TelegramAuthenticationService.kt:210-231 | both pending requests of the account are removed and cancelled; an AUTHENTICATED update on success, else an ERROR update with the given message or the default |
| AuthService.TelegramAuthenticationService.CancelAuthentication | src/main/kotlin/dev/weuizx/jobzi/telegram/pool/TelegramAuthenticationService.kt:263-272 | both pending requests of the account are removed and failed with the cancel exception; no update is sent |
| AuthService.TelegramAuthenticationService.GetAuthenticationState | src/main/kotlin/dev/weuizx/jobzi/telegram/pool/TelegramAuthenticationService.kt:277-287 | waiting-for-code, waiting-for-password and pending flags are exactly the presence of the pending requests |
| DynamicClient.Touched | src/main/kotlin/dev/weuizx/jobzi/telegram/pool/DynamicTelegramClient.kt:157-166 | records the use time on the client's own account row only (nothing for a client without account id); every other row and field is unchanged |
| DynamicClient.FetchedChats | src/main/kotlin/dev/weuizx/jobzi/telegram/pool/DynamicTelegramClient.kt:129-138 | the chats kept are among those the id list names, each found by its lookup; failed lookups are dropped |
| DynamicClient.DynamicTelegramClient.MarkAsAuthenticated | src/main/kotlin/dev/weuizx/jobzi/telegram/pool/DynamicTelegramClient.kt:149-152 | the client is authenticated; nothing else changes |
| DynamicClient.DynamicTelegramClient.UpdateLastUsedAt | src/main/kotlin/dev/weuizx/jobzi/telegram/pool/DynamicTelegramClient.kt:157-166 | the client's last use is now and its account row is Touched; other state unchanged |
| DynamicClient.DynamicTelegramClient.SendMessage | src/main/kotlin/dev/weuizx/jobzi/telegram/pool/DynamicTelegramClient.kt:39-70 | fails before anything else when not authenticated; otherwise takes one rate-limiter permit, and returns the message id and records the use iff Telegram answered with a message |
| DynamicClient.DynamicTelegramClient.GetChat | src/main/kotlin/dev/weuizx/jobzi/telegram/pool/DynamicTelegramClient.kt:75-88 | fails when not authenticated; otherwise returns the chat and records the use iff Telegram answered with a chat (no permit taken) |
| DynamicClient.DynamicTelegramClient.GetMe | src/main/kotlin/dev/weuizx/jobzi/telegram/pool/DynamicTelegramClient.kt:93-97 | no authentication check: succeeds and records the use iff the call did not throw |
| DynamicClient.DynamicTelegramClient.JoinChatByInviteLink | src/main/kotlin/dev/weuizx/jobzi/telegram/pool/DynamicTelegramClient.kt:102-117 | fails when not authenticated; otherwise takes one permit and returns the chat and records the use iff Telegram answered with a chat |
| DynamicClient.DynamicTelegramClient.GetChats | src/main/kotlin/dev/weuizx/jobzi/telegram/pool/DynamicTelegramClient.kt:122-144 | fails when not authenticated; otherwise, iff Telegram answered with a chat list, returns the chats whose lookup succeeded and records the use |
| DynamicClient.DynamicTelegramClient.Close | src/main/kotlin/dev/weuizx/jobzi/telegram/pool/DynamicTelegramClient.kt:171-180 | the client is no longer authenticated and is closed |
| HealthChecker.UnhealthyAsWritten | src/main/kotlin/dev/weuizx/jobzi/telegram/pool/TelegramPoolHealthChecker.kt:79-96 | as written: the ERROR mark with its reason is overwritten by removeClient's INACTIVE write, which also clears the message |
| HealthChecker.UnhealthyCorrected | src/main/kotlin/dev/weuizx/jobzi/telegram/pool/TelegramPoolHealthChecker.kt:79-96 | corrected: the account ends ERROR with "Health check failed: " and the reason; accounts with other session names are untouched |
| HealthChecker.ErrorMarkLostWitness | src/main/kotlin/dev/weuizx/jobzi/telegram/pool/TelegramPoolHealthChecker.kt:79-96 | a concrete failed probe after which the account is INACTIVE with no error as written, but keeps the reason once corrected |
| HealthChecker.CleanupTargets | src/main/kotlin/dev/weuizx/jobzi/telegram/pool/TelegramPoolHealthChecker.kt:106-126 | at most one directory per inactive account |
| HealthChecker.CleanupTargetsStep | src/main/kotlin/dev/weuizx/jobzi/telegram/pool/TelegramPoolHealthChecker.kt:109-126 | one more inactive account adds its session name iff its client is not pooled |
| HealthChecker.CleanupTargetsExactly | src/main/kotlin/dev/weuizx/jobzi/telegram/pool/TelegramPoolHealthChecker.kt:102-137 | the directories deleted are exactly the session names of inactive accounts whose client is not in the pool |
| HealthChecker.PassesOf | src/main/kotlin/dev/weuizx/jobzi/telegram/pool/TelegramPoolHealthChecker.kt:53-58 | the predicate counting healthy probes is exactly Passes |
| HealthChecker.FailsOf | src/main/kotlin/dev/weuizx/jobzi/telegram/pool/TelegramPoolHealthChecker.kt:60-64 | the predicate counting failed probes is exactly Fails |
| HealthChecker.Expected | src/main/kotlin/dev/weuizx/jobzi/telegram/pool/TelegramPoolHealthChecker.kt:40-64 | a probe is healthy iff the client is pooled, authenticated and getMe succeeds; unhealthy iff pooled, authenticated and getMe throws; skipped otherwise |
| HealthChecker.ProgressStep | src/main/kotlin/dev/weuizx/jobzi/telegram/pool/TelegramPoolHealthChecker.kt:40-65 | one more probed account extends the loop invariant: counts grow by its expected outcome, earlier failed accounts stay ERROR, and the tables change only as that outcome says (a failure on the corrected path) |
| HealthChecker.ProgressDone | src/main/kotlin/dev/weuizx/jobzi/telegram/pool/TelegramPoolHealthChecker.kt:40-65 | the finished loop establishes Probed for the whole snapshot, with failed accounts on the corrected path |
| HealthChecker.TelegramPoolHealthChecker.HandleUnhealthyAccountAsWritten | src/main/kotlin/dev/weuizx/jobzi/telegram/pool/TelegramPoolHealthChecker.kt:79-96 | as written: the client leaves the pool and the account table becomes UnhealthyAsWritten |
| HealthChecker.TelegramPoolHealthChecker.HandleUnhealthyAccount | src/main/kotlin/dev/weuizx/jobzi/telegram/pool/TelegramPoolHealthChecker.kt:79-96 | corrected: the client leaves the pool and the account ends ERROR with the health-check reason; accounts with other session names are untouched |
| HealthChecker.TelegramPoolHealthChecker.ProbeAccount | src/main/kotlin/dev/weuizx/jobzi/telegram/pool/TelegramPoolHealthChecker.kt:41-64 | the outcome is Expected; a skipped account changes nothing; a healthy one records the client's use; an unhealthy one takes the corrected path of HandleUnhealthyAccount: it leaves the pool and is marked ERROR with the reason |
| HealthChecker.TelegramPoolHealthChecker.ProbeStep | src/main/kotlin/dev/weuizx/jobzi/telegram/pool/TelegramPoolHealthChecker.kt:40-65 | one probe's outcome is Expected and its effect is exactly Stepped, whose unhealthy case is the corrected UnhealthyCorrected |
| HealthChecker.TelegramPoolHealthChecker.CheckAccountHealth | src/main/kotlin/dev/weuizx/jobzi/telegram/pool/TelegramPoolHealthChecker.kt:32-74 | probes every active AUTHENTICATED account of the snapshot taken at the start: the counts are its healthy and failed probes, and the pool and accounts change only as Probed says, with failed accounts on the corrected path (ERROR with the reason) |
| HealthChecker.TelegramPoolHealthChecker.ProbeAll | src/main/kotlin/dev/weuizx/jobzi/telegram/pool/TelegramPoolHealthChecker.kt:40-65 | the loop over the snapshot establishes Probed, with failed accounts on the corrected path |
| HealthChecker.TelegramPoolHealthChecker.ProbeNext | src/main/kotlin/dev/weuizx/jobzi/telegram/pool/TelegramPoolHealthChecker.kt:40-65 | one loop iteration keeps the Progress invariant, with a failed account on the corrected path |
| HealthChecker.TelegramPoolHealthChecker.CleanupOldSessions | src/main/kotlin/dev/weuizx/jobzi/telegram/pool/TelegramPoolHealthChecker.kt:102-137 | deletes exactly CleanupTargets of the inactive accounts and counts them; each deleted directory belongs to an inactive account whose client is not pooled |
| HealthChecker.TelegramPoolHealthChecker.RequestDeletions | src/main/kotlin/dev/weuizx/jobzi/telegram/pool/TelegramPoolHealthChecker.kt:109-126 | the loop deletes exactly CleanupTargets of the given list, in order |
| PoolManager.RoundRobinIndex | src/main/kotlin/dev/weuizx/jobzi/telegram/pool/TelegramClientPoolManager.kt:151-152 | the picked index is within the ready list |
| PoolManager.RotationStep | src/main/kotlin/dev/weuizx/jobzi/telegram/pool/TelegramClientPoolManager.kt:151-152 | consecutive counters pick consecutive indexes, wrapping at the list size |
| PoolManager.RotationCoversOnce | src/main/kotlin/dev/weuizx/jobzi/telegram/pool/TelegramClientPoolManager.kt:151-152 | any n consecutive counters pick every index below n exactly once |
| PoolManager.RoundRobinFair | src/main/kotlin/dev/weuizx/jobzi/telegram/pool/TelegramClientPoolManager.kt:142-156 | over as many consecutive calls as there are ready clients, each ready client is picked exactly once |
| PoolManager.Int32 | src/main/kotlin/dev/weuizx/jobzi/telegram/pool/TelegramClientPoolManager.kt:37 | the AtomicInteger counter's 32-bit wrap: always in range, the identity inside it |
| PoolManager.JvmRem | src/main/kotlin/dev/weuizx/jobzi/telegram/pool/TelegramClientPoolManager.kt:151 | the JVM remainder truncates: non-negative for a non-negative dividend, non-positive for a negative one |
| PoolManager.AsWrittenAgreesBeforeWrap | src/main/kotlin/dev/weuizx/jobzi/telegram/pool/TelegramClientPoolManager.kt:151 | before the counter wraps the as-written index equals the intended one |
| PoolManager.CounterWrapGivesNegativeIndex | src/main/kotlin/dev/weuizx/jobzi/telegram/pool/TelegramClientPoolManager.kt:151-152 | after 2^31 calls the as-written index is negative whenever the pool size does not divide 2^31 |
| PoolManager.CounterWrapWitness | src/main/kotlin/dev/weuizx/jobzi/telegram/pool/TelegramClientPoolManager.kt:151-152 | with three ready clients the 2^31-st call computes index -2 |
| PoolManager.ReadyFrom | src/main/kotlin/dev/weuizx/jobzi/telegram/pool/TelegramClientPoolManager.kt:143 | the authenticated clients of the pool in pool order: every listed client is authenticated and every authenticated pooled client is listed |
| PoolManager.ReadyDistinct | src/main/kotlin/dev/weuizx/jobzi/telegram/pool/TelegramClientPoolManager.kt:143 | no ready client is listed twice |
| PoolManager.Infos | src/main/kotlin/dev/weuizx/jobzi/telegram/pool/TelegramClientPoolManager.kt:198-204 | one entry per pooled client with its session name, authentication flag and last use |
| PoolManager.ReportCountsReady | src/main/kotlin/dev/weuizx/jobzi/telegram/pool/TelegramClientPoolManager.kt:192 | the report's authenticated count equals the number of ready clients |
| PoolManager.Without | src/main/kotlin/dev/weuizx/jobzi/telegram/pool/TelegramClientPoolManager.kt:169 | removing a name from the pool order keeps every other name and distinctness |
| PoolManager.SetStatusByName | src/main/kotlin/dev/weuizx/jobzi/telegram/pool/TelegramClientPoolManager.kt:175-181 | rows with that session name get the status and error message; all other rows are unchanged |
| PoolManager.StartupOutcome | src/main/kotlin/dev/weuizx/jobzi/telegram/pool/TelegramClientPoolManager.kt:40-73 | startup keeps every pooled name, adds exactly the snapshot accounts whose client could be created, marks ERROR the new ones that failed, and leaves accounts outside the snapshot alone |
| PoolManager.TelegramClientPoolManager.LoadAuthenticatedAccount | src/main/kotlin/dev/weuizx/jobzi/telegram/pool/TelegramClientPoolManager.kt:115-135 | an already pooled name changes nothing; otherwise a fresh, authenticated client is pooled, unless creating it throws, which is reported |
| PoolManager.TelegramClientPoolManager.LoadOrMarkFailed | src/main/kotlin/dev/weuizx/jobzi/telegram/pool/TelegramClientPoolManager.kt:51-63 | one startup step: the pool names and accounts become LoadStep of the old ones; old clients are kept; new clients are fresh and authenticated |
| PoolManager.TelegramClientPoolManager.Initialize | src/main/kotlin/dev/weuizx/jobzi/telegram/pool/TelegramClientPoolManager.kt:40-73 | pool names and accounts become StartupFold of the active AUTHENTICATED snapshot; existing clients are kept; new ones are fresh and authenticated |
| PoolManager.TelegramClientPoolManager.LoadAll | src/main/kotlin/dev/weuizx/jobzi/telegram/pool/TelegramClientPoolManager.kt:51-64 | the loop over the snapshot computes StartupFold |
| PoolManager.TelegramClientPoolManager.StartAuthentication | src/main/kotlin/dev/weuizx/jobzi/telegram/pool/TelegramClientPoolManager.kt:81-110 | fails for an unknown account or a name already pooled, changing nothing; otherwise the account becomes AUTHENTICATING and, unless client creation throws, a fresh unauthenticated client for it is pooled and returned |
| PoolManager.TelegramClientPoolManager.GetNextAvailableClient | src/main/kotlin/dev/weuizx/jobzi/telegram/pool/TelegramClientPoolManager.kt:142-156 | null iff no pooled client is authenticated, and then the counter is kept; otherwise the ready client at RoundRobinIndex of the old counter, which then advances by one |
| PoolManager.TelegramClientPoolManager.GetClient | src/main/kotlin/dev/weuizx/jobzi/telegram/pool/TelegramClientPoolManager.kt:161-163 | found iff the session name is pooled, and then the client of that name |
| PoolManager.TelegramClientPoolManager.MarkInactive | src/main/kotlin/dev/weuizx/jobzi/telegram/pool/TelegramClientPoolManager.kt:175-181 | the accounts with that session name become INACTIVE with no error; nothing else changes |
| PoolManager.TelegramClientPoolManager.RemoveClient | src/main/kotlin/dev/weuizx/jobzi/telegram/pool/TelegramClientPoolManager.kt:168-185 | an unpooled name changes nothing; otherwise the client leaves the pool, is closed, and its account becomes INACTIVE |
| PoolManager.TelegramClientPoolManager.Unpool | src/main/kotlin/dev/weuizx/jobzi/telegram/pool/TelegramClientPoolManager.kt:169 | removes exactly that name from the pool and its order |
| PoolManager.TelegramClientPoolManager.GetPoolStatus | src/main/kotlin/dev/weuizx/jobzi/telegram/pool/TelegramClientPoolManager.kt:190-206 | total is the pool size, authenticated is the number of ready clients, authenticating the rest; one entry per client in pool order |
| PoolManager.TelegramClientPoolManager.HandleAuthStateChange | src/main/kotlin/dev/weuizx/jobzi/telegram/pool/TelegramClientPoolManager.kt:222-274 | unknown accounts and waiting or other states change nothing; Ready authenticates the pooled client, marks the account AUTHENTICATED and notifies completion; Closed removes the client from the pool and marks the account ERROR "Connection closed" |
| PoolManager.TelegramClientPoolManager.Shutdown | src/main/kotlin/dev/weuizx/jobzi/telegram/pool/TelegramClientPoolManager.kt:280-294 | every pooled client is closed and the pool is empty |
| PoolManager.AsWrittenIndex | src/main/kotlin/dev/weuizx/jobzi/telegram/pool/TelegramClientPoolManager.kt:151-152 | the index the code computes after the counter wraps to a 32-bit Int lies strictly between -n and n, so it may be negative; before the wrap it is the call count modulo n |
| JsonStrings.EscapeChar | src/main/kotlin/dev/weuizx/jobzi/service/db/QuestionDbService.kt:69-71 | the JSON string escape of one character: the character itself unless it is a quote, a backslash or a control character, else a backslash sequence of at most six characters |
| JsonStrings.EncodeArray | src/main/kotlin/dev/weuizx/jobzi/service/db/QuestionDbService.kt:69-71 | the serialized options form a bracketed JSON array |
| JsonStrings.SkipWs | src/main/kotlin/dev/weuizx/jobzi/service/db/QuestionDbService.kt:92 | skipping JSON whitespace leaves a suffix that starts with a non-blank |
| JsonStrings.HexValue | src/main/kotlin/dev/weuizx/jobzi/service/db/QuestionDbService.kt:92 | a hexadecimal digit's value is below 16 |
| JsonStrings.Unescape | src/main/kotlin/dev/weuizx/jobzi/service/db/QuestionDbService.kt:92 | reading one escape sequence consumes at least two characters and no more than are there |
| JsonStrings.ParseChars | src/main/kotlin/dev/weuizx/jobzi/service/db/QuestionDbService.kt:92 | reading a string body consumes at least its closing quote |
| JsonStrings.HexDigitValue | src/main/kotlin/dev/weuizx/jobzi/service/db/QuestionDbService.kt:92 | every hexadecimal digit written by the encoder reads back as its value |
| JsonStrings.UnescapeEscape | src/main/kotlin/dev/weuizx/jobzi/service/db/QuestionDbService.kt:69-92 | every escape sequence the encoder writes reads back as its character |
| JsonStrings.ParseCharsEscape | src/main/kotlin/dev/weuizx/jobzi/service/db/QuestionDbService.kt:69-92 | an escaped string followed by a quote reads back as the string, leaving the rest |
| JsonStrings.ParseElementsStep | src/main/kotlin/dev/weuizx/jobzi/service/db/QuestionDbService.kt:92 | one encoded element followed by a comma or the closing bracket parses as that element and the rest |
| JsonStrings.EncodeItemsHead | src/main/kotlin/dev/weuizx/jobzi/service/db/QuestionDbService.kt:69-71 | the encoded items start with the first item quoted, then a comma and the rest |
| JsonStrings.ParseElementsLast | src/main/kotlin/dev/weuizx/jobzi/service/db/QuestionDbService.kt:69-92 | a one-item list parses back to itself |
| JsonStrings.ParseElementsCons | src/main/kotlin/dev/weuizx/jobzi/service/db/QuestionDbService.kt:69-92 | if the tail of the list parses back, so does the whole list |
| JsonStrings.ParseElementsEncode | src/main/kotlin/dev/weuizx/jobzi/service/db/QuestionDbService.kt:69-92 | any non-empty encoded list parses back to itself |
| JsonStrings.ParseArrayEncoded | src/main/kotlin/dev/weuizx/jobzi/service/db/QuestionDbService.kt:69-92 | the parser of a bracketed array reduces to the element parser |
| JsonStrings.ParseEncode | src/main/kotlin/dev/weuizx/jobzi/service/db/QuestionDbService.kt:69-92 | writeValueAsString then readValue as a string array gives back exactly the options, for every list of strings |
| SuperAdmin.SuperAdminService.ExistsByTelegramChatId | src/main/kotlin/dev/weuizx/jobzi/service/db/BusinessDbService.kt:18-19 | true iff some business is registered under the chat id |
| SuperAdmin.SuperAdminService.ActivateBusiness | src/main/kotlin/dev/weuizx/jobzi/service/business/SuperAdminService.kt:18-59 | refuses iff a business already has the owner's Telegram id, changing nothing; otherwise adds exactly one active business, reuses the owner's user or creates a USER, and links that user as ADMIN so the owner now represents a business |
| SuperAdmin.SuperAdminService.FindOrCreateOwner | src/main/kotlin/dev/weuizx/jobzi/service/business/SuperAdminService.kt:32-38 | the returned user is the one found by the Telegram id, existing users unchanged; a new one has role USER and a fresh id |
| SuperAdmin.SuperAdminService.LinkOwner | src/main/kotlin/dev/weuizx/jobzi/service/business/SuperAdminService.kt:47-52 | afterwards the user is linked to the new business as ADMIN and represents a business |
| SuperAdmin.SuperAdminService.Owner | src/main/kotlin/dev/weuizx/jobzi/service/business/SuperAdminService.kt:63-69 | the owner is a stored user linked to the business as ADMIN; none when the business has no ADMIN link |
| SuperAdmin.SuperAdminService.Info | src/main/kotlin/dev/weuizx/jobzi/service/business/SuperAdminService.kt:71-78 | the listing entry copies id, name, active flag and creation time and shows the owner's Telegram id and user name iff an owner was found |
| SuperAdmin.SuperAdminService.Infos | src/main/kotlin/dev/weuizx/jobzi/service/business/SuperAdminService.kt:62-79 | one entry per business, in order |
| SuperAdmin.SuperAdminService.ListAllBusinesses | src/main/kotlin/dev/weuizx/jobzi/service/business/SuperAdminService.kt:61-80 | one entry for every business and no other, each its Info |
| SuperAdmin.SuperAdminService.BlockBusiness | src/main/kotlin/dev/weuizx/jobzi/service/business/SuperAdminService.kt:83-89 | true iff the business exists; then only its active flag (false) and update time change |
| SuperAdmin.SuperAdminService.UnblockBusiness | src/main/kotlin/dev/weuizx/jobzi/service/business/SuperAdminService.kt:92-98 | true iff the business exists; then only its active flag (true) and update time change |
| SuperAdmin.SuperAdminService.IsSuperAdmin | src/main/kotlin/dev/weuizx/jobzi/service/business/SuperAdminService.kt:100-103 | false for an unknown Telegram id; true iff that user has role SUPERADMIN |
| SuperAdminDialog.BusinessStatistics | src/main/kotlin/dev/weuizx/jobzi/telegram/service/SuperAdminTelegramService.kt:429-441 | the statistics count every business, the active ones, and the blocked ones as the rest |
| SuperAdminDialog.Blocked | src/main/kotlin/dev/weuizx/jobzi/telegram/service/SuperAdminTelegramService.kt:319-323 | exactly the inactive businesses; empty iff every business is active |
| SuperAdminDialog.Menu | src/main/kotlin/dev/weuizx/jobzi/telegram/service/SuperAdminTelegramService.kt:51-72 | the answer to each menu button: cancel, back, activate, block and statistics as named; unblock lists the blocked businesses or says there are none; any other text is an unknown command |
| SuperAdminDialog.FindById | src/main/kotlin/dev/weuizx/jobzi/telegram/service/SuperAdminTelegramService.kt:248-250 | found iff some listed business has the id, and then that one |
| SuperAdminDialog.SuperAdminTelegramService.FindBusiness | src/main/kotlin/dev/weuizx/jobzi/telegram/service/SuperAdminTelegramService.kt:248-250 | found iff the business exists, with its id and name |
| SuperAdminDialog.SuperAdminTelegramService.Advance | src/main/kotlin/dev/weuizx/jobzi/telegram/service/SuperAdminTelegramService.kt:117-165 | a dialog step stores one context value and moves to the next state, nothing else |
| SuperAdminDialog.SuperAdminTelegramService.HandleStart | src/main/kotlin/dev/weuizx/jobzi/telegram/service/SuperAdminTelegramService.kt:27-34 | the welcome reply; the user's state and context are cleared |
| SuperAdminDialog.SuperAdminTelegramService.HandleCommand | src/main/kotlin/dev/weuizx/jobzi/telegram/service/SuperAdminTelegramService.kt:39-73 | a non-super-admin is refused and nothing changes; in no dialog the answer is Menu of the current business list with its state effect; inside a dialog the message is handled as a dialog step |
| SuperAdminDialog.SuperAdminTelegramService.HandleMenu | src/main/kotlin/dev/weuizx/jobzi/telegram/service/SuperAdminTelegramService.kt:51-72 | the reply is Menu of the command and the state moves as the chosen branch says (cleared, into the activation, block or unblock dialog, or unchanged) |
| SuperAdminDialog.SuperAdminTelegramService.HandleConversationState | src/main/kotlin/dev/weuizx/jobzi/telegram/service/SuperAdminTelegramService.kt:78-99 | cancel clears the dialog; an unexpected state clears it with an error; otherwise the step of the current activation or blocking state is taken (DialogOutcome) |
| SuperAdminDialog.SuperAdminTelegramService.ActivationInput | src/main/kotlin/dev/weuizx/jobzi/telegram/service/SuperAdminTelegramService.kt:87-90 | in an activation state, the step of that state |
| SuperAdminDialog.SuperAdminTelegramService.BlockingInput | src/main/kotlin/dev/weuizx/jobzi/telegram/service/SuperAdminTelegramService.kt:91-93 | in a block or unblock state, the step of that state |
| SuperAdminDialog.SuperAdminTelegramService.ActivateTelegramIdInput | src/main/kotlin/dev/weuizx/jobzi/telegram/service/SuperAdminTelegramService.kt:117-141 | a trimmed text that parses as a Long is kept and the name asked for; anything else is refused without a state change |
| SuperAdminDialog.SuperAdminTelegramService.ActivateNameInput | src/main/kotlin/dev/weuizx/jobzi/telegram/service/SuperAdminTelegramService.kt:143-165 | a trimmed name of 3 to 255 UTF-16 units is kept and the description asked for; shorter or longer names are refused without a state change |
| SuperAdminDialog.SuperAdminTelegramService.ActivateDescriptionInput | src/main/kotlin/dev/weuizx/jobzi/telegram/service/SuperAdminTelegramService.kt:167-212 | with the id and name from the context the business is activated ("-" for no description), refused iff the id already has a business, the owner then represents it; a missing id or name is reported; the dialog ends in every case |
| SuperAdminDialog.SuperAdminTelegramService.BlockIdInput | src/main/kotlin/dev/weuizx/jobzi/telegram/service/SuperAdminTelegramService.kt:235-274 | a non-number or an unknown id is refused without a state change; an existing business's id and name are kept and the reason asked for |
| SuperAdminDialog.SuperAdminTelegramService.ChooseForBlocking | src/main/kotlin/dev/weuizx/jobzi/telegram/service/SuperAdminTelegramService.kt:262-265 | stores the chosen id and name and moves to the reason state |
| SuperAdminDialog.SuperAdminTelegramService.BlockReasonInput | src/main/kotlin/dev/weuizx/jobzi/telegram/service/SuperAdminTelegramService.kt:276-313 | a reason shorter than 3 is refused with no change; otherwise the dialog ends and the business kept in the context is blocked, or the failure reported |
| SuperAdminDialog.SuperAdminTelegramService.UnblockIdInput | src/main/kotlin/dev/weuizx/jobzi/telegram/service/SuperAdminTelegramService.kt:357-390 | a non-number is refused with no change; otherwise the dialog ends and the business is unblocked, or reported as not found |
| SuperAdminDialog.SuperAdminTelegramService.BlockWithReason | src/main/kotlin/dev/weuizx/jobzi/telegram/service/SuperAdminTelegramService.kt:283-312 | without a stored id the dialog ends with an error and nothing is blocked; otherwise the stored business is blocked if it exists, the name defaulting to ???, and the dialog ends |
| SuperAdminDialog.SuperAdminTelegramService.BlockChosen | src/main/kotlin/dev/weuizx/jobzi/telegram/service/SuperAdminTelegramService.kt:291-312 | an existing business becomes inactive with the update time now, no other business changes, and the dialog ends; an unknown id is reported as a failure |
| ApplicantDialog.CleanVacancyCode | src/main/kotlin/dev/weuizx/jobzi/telegram/service/ApplicantTelegramService.kt:88-92 | a well-formed vacancy code survives the trim-and-uppercase clean-up unchanged |
| ApplicantDialog.GeneratedCodesAccepted | src/main/kotlin/dev/weuizx/jobzi/telegram/service/ApplicantTelegramService.kt:88-92 | every code the vacancy generator can draw passes the applicant's code-format check unchanged, so generated codes can always be entered |
| ApplicantDialog.DashIsNotBlank | src/main/kotlin/dev/weuizx/jobzi/telegram/service/ApplicantTelegramService.kt:293-302 | the skip answer "-" is not blank, so a required question does not reject it as empty |
| ApplicantDialog.ValidateAnswer | src/main/kotlin/dev/weuizx/jobzi/telegram/service/ApplicantTelegramService.kt:293-336 | the answer "-" is always accepted; a blank answer to a required question is refused as required; otherwise NUMBER accepts exactly 32-bit integers, PHONE exactly an optional plus and 7 to 20 digits, dashes, brackets or spaces, YES_NO exactly answers containing да/нет/yes/no case-insensitively, CHOICE with parseable options a number in 1..n or a case-insensitive option text, and TEXT, DATE and unparseable CHOICE anything |
| ApplicantDialog.ChoiceByNumber | src/main/kotlin/dev/weuizx/jobzi/telegram/service/ApplicantTelegramService.kt:323-328 | for a CHOICE question every option number 1..n is accepted and n+1 is refused with the out-of-range message naming n |
| ApplicantDialog.ChoiceByText | src/main/kotlin/dev/weuizx/jobzi/telegram/service/ApplicantTelegramService.kt:323-331 | for a CHOICE question the literal text of any non-numeric, non-blank option is accepted |
| ApplicantDialog.ApplicantTelegramService.EnsureUser | src/main/kotlin/dev/weuizx/jobzi/telegram/service/ApplicantTelegramService.kt:128-137 | afterwards the sender has a user row; an existing row is reused and the table is untouched, a missing one is created with role USER and the sender's names and username |
| ApplicantDialog.ApplicantTelegramService.HandleStart | src/main/kotlin/dev/weuizx/jobzi/telegram/service/ApplicantTelegramService.kt:27-53 | replies with the welcome text and leaves the sender registered, creating the row only if missing |
| ApplicantDialog.ApplicantTelegramService.HandleCommand | src/main/kotlin/dev/weuizx/jobzi/telegram/service/ApplicantTelegramService.kt:55-68 | with no conversation in progress /help and /my answer without changing state and any other text is handled as a vacancy code (CodeOutcome); inside a conversation the user table is untouched and the message is a conversation step (ConversationOutcome) |
| ApplicantDialog.ApplicantTelegramService.HandleConversationState | src/main/kotlin/dev/weuizx/jobzi/telegram/service/ApplicantTelegramService.kt:70-86 | the cancel text clears the sender's state and context and stores nothing, every other user's state and context unchanged; in the answering state the message is a questionnaire answer (QuestionnaireAnswerOutcome); any other state is cleared with an error reply |
| ApplicantDialog.ApplicantTelegramService.LookupCode | src/main/kotlin/dev/weuizx/jobzi/telegram/service/ApplicantTelegramService.kt:88-126 | a code that is not three letters and three digits after clean-up is refused as malformed; an unknown code as not found, naming the cleaned code; a non-ACTIVE vacancy as unavailable with its status; otherwise it opens exactly the stored ACTIVE vacancy with that cleaned code |
| ApplicantDialog.ApplicantTelegramService.HandleVacancyCodeInput | src/main/kotlin/dev/weuizx/jobzi/telegram/service/ApplicantTelegramService.kt:88-186 | a refused code changes no table or state and gives the refusal reply (CodeOutcome); an open vacancy registers the sender if unknown, leaves a known user's row alone, and then reports a repeat application with the title, applies without questions showing title, location and salary, or creates the application and starts the questionnaire at question 0 (SubmitOutcome); only the sender's state and context change, and only when the questionnaire starts |
| ApplicantDialog.ApplicantTelegramService.Apply | src/main/kotlin/dev/weuizx/jobzi/telegram/service/ApplicantTelegramService.kt:128-186 | registers the sender and submits to the vacancy with exactly one of the three outcomes, each showing the vacancy: already applied, applied with no questions, or questionnaire started, where only the sender's state becomes answering and only the sender's context gains index 0, the application id, the questions, the vacancy's own title and code; every other user's state and context unchanged |
| ApplicantDialog.ApplicantTelegramService.Submit | src/main/kotlin/dev/weuizx/jobzi/telegram/service/ApplicantTelegramService.kt:139-186 | a repeat application adds nothing and names the vacancy title; with no questions one new application is created, no conversation starts and the reply shows title, location and salary; with questions one application is created and the sender alone is put into answering and the sender's context alone gains index 0, the new application id, the vacancy's questions, the vacancy's own title and code (QuestionnaireContext); every other user's state and context unchanged |
| ApplicantDialog.ApplicantTelegramService.SubmitNew | src/main/kotlin/dev/weuizx/jobzi/telegram/service/ApplicantTelegramService.kt:152-186 | for a first application: with no questions exactly one application is created and no conversation starts; with questions one application is created and the sender alone is put into answering and the sender's context alone gains index 0, the new application id, the vacancy's questions and its own title and code (SubmitOutcome); every other user's state and context unchanged |
| ApplicantDialog.ApplicantTelegramService.StartQuestionnaire | src/main/kotlin/dev/weuizx/jobzi/telegram/service/ApplicantTelegramService.kt:174-182 | only the sender changes: state answering a question, context QuestionnaireContext over the old one, so index 0, the application id and the questions read back |
| ApplicantDialog.ApplicantTelegramService.HandleQuestionnaireAnswer | src/main/kotlin/dev/weuizx/jobzi/telegram/service/ApplicantTelegramService.kt:188-257 | a missing application id or questions or an index past the end clears the conversation with an error and stores nothing; a negative index throws IndexOutOfBoundsException and changes nothing; otherwise the step is AnswerOutcome on the trimmed text, with the context's title and code, or "вакансию" and "???" when absent; no other user's state or context changes |
| ApplicantDialog.ApplicantTelegramService.AnswerQuestion | src/main/kotlin/dev/weuizx/jobzi/telegram/service/ApplicantTelegramService.kt:206-257 | AnswerOutcome: refused iff the validator refuses, and then nothing changes; an accepted answer to an already answered question throws the duplicate error and adds no row; otherwise the answer table gains exactly the row (next id, application, question, text, the question's text and type, order index+1, now) and no other, then the conversation ends iff it was the last question (the reply shows title, code and the number of questions), else only this user's index advances and every other key and every other user's state and context are unchanged |
| ApplicantDialog.QuestionnaireContext | src/main/kotlin/dev/weuizx/jobzi/telegram/service/ApplicantTelegramService.kt:174-178 | the started context keeps every old key and adds the five written ones, with application id, title, code, questions and index 0 readable under their keys |
| ApplicantDialog.ApplicantTelegramService.StoreApplicationContext | src/main/kotlin/dev/weuizx/jobzi/telegram/service/ApplicantTelegramService.kt:174-176 | the application id, title and code are written into the sender's context in order; states and other users are untouched |
| ApplicantDialog.ApplicantTelegramService.StoreQuestionsContext | src/main/kotlin/dev/weuizx/jobzi/telegram/service/ApplicantTelegramService.kt:177-181 | the questions and index 0 are written, then the sender enters the answering state; other users are untouched |
| ApplicantDialog.ApplicantTelegramService.MoveOn | src/main/kotlin/dev/weuizx/jobzi/telegram/service/ApplicantTelegramService.kt:228-256 | after the last question the sender's state and context are cleared and the reply shows title, code and the number of questions; otherwise only the sender's index becomes index+1, every other key and every other user's state and context unchanged, and the next question is asked with the title |
| BusinessInputs.ClassifyChoice | src/main/kotlin/dev/weuizx/jobzi/telegram/service/BusinessTelegramService.kt:874-963 | the lower-cased questionnaire choice is read by the first matching rule: any mention of the basic set uses the defaults, "добавить" with "свои" or "еще" adds own questions, "готово" or "завершить" finishes, and "пропустить" skips; each outcome holds exactly when the earlier rules do not match |
| BusinessInputs.DefaultsAnswer | src/main/kotlin/dev/weuizx/jobzi/telegram/service/BusinessTelegramService.kt:919-926 | the offered answer "только базовые" selects the default questions |
| BusinessInputs.AddAnswer | src/main/kotlin/dev/weuizx/jobzi/telegram/service/BusinessTelegramService.kt:927-945 | the offered answers "добавить свои" and "добавить еще" select adding own questions |
| BusinessInputs.FinishAnswer | src/main/kotlin/dev/weuizx/jobzi/telegram/service/BusinessTelegramService.kt:946-949 | the offered answer "готово" finishes the questionnaire |
| BusinessInputs.SkipAnswer | src/main/kotlin/dev/weuizx/jobzi/telegram/service/BusinessTelegramService.kt:950-953 | the offered answer "пропустить" skips the questionnaire rather than being read as one of the earlier choices |
| BusinessInputs.OfferedChoices | src/main/kotlin/dev/weuizx/jobzi/telegram/service/BusinessTelegramService.kt:874-963 | each of the button texts the menu offers is classified as the action it names |
| BusinessInputs.ParseQuestionType | src/main/kotlin/dev/weuizx/jobzi/telegram/service/BusinessTelegramService.kt:993-1003 | a type is chosen exactly by its menu number, its enum name or its Russian word for TEXT, NUMBER, YES_NO and CHOICE; PHONE and DATE can never be chosen in the dialog |
| BusinessInputs.TypeFromName | src/main/kotlin/dev/weuizx/jobzi/telegram/service/BusinessTelegramService.kt:1100-1101 | reading a type back from its stored name yields exactly the type with that name, and nothing for any other text |
| BusinessInputs.QuestionTypeRoundTrip | src/main/kotlin/dev/weuizx/jobzi/telegram/service/BusinessTelegramService.kt:993-1101 | a type chosen in the dialog, stored by name and read back is the same type; every selectable type's own name selects it |
| BusinessInputs.CleanOptions | src/main/kotlin/dev/weuizx/jobzi/telegram/service/BusinessTelegramService.kt:1059 | trimming comma-free pieces and dropping empty ones leaves at most as many items, each non-empty, trimmed and comma-free |
| BusinessInputs.SplitOptions | src/main/kotlin/dev/weuizx/jobzi/telegram/service/BusinessTelegramService.kt:1059 | every option the comma-separated input yields is non-empty, trimmed and comma-free |
| BusinessInputs.SplitJoin | src/main/kotlin/dev/weuizx/jobzi/telegram/service/BusinessTelegramService.kt:1059 | splitting a separator-joined list of separator-free parts gives the parts back |
| BusinessInputs.CleanOptionItems | src/main/kotlin/dev/weuizx/jobzi/telegram/service/BusinessTelegramService.kt:1059 | items that are already clean options pass through the clean-up unchanged |
| BusinessInputs.OptionsRoundTrip | src/main/kotlin/dev/weuizx/jobzi/telegram/service/BusinessTelegramService.kt:1052-1081 | options joined with commas and entered again come back as the same list |
| BusinessInputs.ParseRequired | src/main/kotlin/dev/weuizx/jobzi/telegram/service/BusinessTelegramService.kt:1083-1092 | an answer containing "да", or exactly "1" or "yes", makes the question required; otherwise one containing "нет", or exactly "0" or "no", makes it optional; anything else is refused |
| BusinessInputs.OfferedRequiredAnswers | src/main/kotlin/dev/weuizx/jobzi/telegram/service/BusinessTelegramService.kt:1083-1092 | the offered buttons "Да" and "Нет" give required and optional respectively |
| BusinessInputs.ParseApplicationStatus | src/main/kotlin/dev/weuizx/jobzi/telegram/service/BusinessTelegramService.kt:1393-1401 | the first status in NEW, VIEWED, CONTACTED, ACCEPTED, REJECTED order whose number or keywords the input matches is chosen, so no earlier status matches; nothing is chosen iff no status matches |
| BusinessInputs.NamesOwnApplicationStatus | src/main/kotlin/dev/weuizx/jobzi/telegram/service/BusinessTelegramService.kt:1393-1401 | each application status's lower-cased name is its first keyword and so names that status |
| BusinessInputs.ApplicationStatusNamesParse | src/main/kotlin/dev/weuizx/jobzi/telegram/service/BusinessTelegramService.kt:1393-1401 | typing any application status's name selects exactly that status |
| BusinessInputs.ApplicationStatusUnnamed | src/main/kotlin/dev/weuizx/jobzi/telegram/service/BusinessTelegramService.kt:1393-1401 | a status's own name matches no keyword of any status tried before it |
| BusinessInputs.ParseVacancyStatus | src/main/kotlin/dev/weuizx/jobzi/telegram/service/BusinessTelegramService.kt:1748-1755 | the first status in ACTIVE, DRAFT, PAUSED, CLOSED order whose number or keywords the input matches is chosen, so no earlier status matches; nothing is chosen iff no status matches |
| BusinessInputs.NamesOwnVacancyStatus | src/main/kotlin/dev/weuizx/jobzi/telegram/service/BusinessTelegramService.kt:1748-1755 | each vacancy status's lower-cased name is its first keyword and so names that status |
| BusinessInputs.VacancyStatusNamesParse | src/main/kotlin/dev/weuizx/jobzi/telegram/service/BusinessTelegramService.kt:1748-1755 | typing any vacancy status's name selects exactly that status |
| BusinessInputs.VacancyStatusUnnamed | src/main/kotlin/dev/weuizx/jobzi/telegram/service/BusinessTelegramService.kt:1748-1755 | a status's own name matches no keyword of any status tried before it |
| BusinessInputs.ParseScheduleChoice | src/main/kotlin/dev/weuizx/jobzi/telegram/service/BusinessTelegramService.kt:3312-3375 | the schedule menu entry is chosen exactly by its digit 1 to 5, plain or as a keycap emoji, on the untrimmed text |
| BusinessInputs.ScheduleFor | src/main/kotlin/dev/weuizx/jobzi/telegram/service/BusinessTelegramService.kt:3419-3465 | a schedule is set iff the value is in its type's range (minute 0-59, hour 0-23, 1-168 hours); an unknown type is refused as such; the first send lies strictly after now and is exactly where the scheduler's own next-send rule puts it |
| BusinessInputs.ScheduleKeepsItsGrid | src/main/kotlin/dev/weuizx/jobzi/telegram/service/BusinessTelegramService.kt:3419-3465 | after the first send the scheduler moves the campaign by exactly one period (an hour, a day or the entered hours), so the entered schedule is the grid it keeps |
| BusinessInputs.DefaultPendingQuestions | src/main/kotlin/dev/weuizx/jobzi/telegram/service/BusinessTelegramService.kt:2325-2346 | three pending questions with order indexes 1, 2, 3 and no options, the first two required and the third optional |
| BusinessDialog.PreviewOf | src/main/kotlin/dev/weuizx/jobzi/telegram/service/BusinessTelegramService.kt:2351-2428 | the preview shows the title, description, optional location and salary kept in the context and exactly the pending questions collected so far |
| BusinessDialog.CountGrows | src/main/kotlin/dev/weuizx/jobzi/service/db/QuestionDbService.kt:27-56 | saving the three default questions under fresh ids raises the vacancy's question count by exactly three |
| BusinessDialog.CodeFindsVacancy | src/main/kotlin/dev/weuizx/jobzi/telegram/service/BusinessTelegramService.kt:1742-1786 | a stored vacancy is found again by its own code, so the status dialog can show the updated vacancy |
| BusinessDialog.ModelledStatesAreBusinessStates | src/main/kotlin/dev/weuizx/jobzi/telegram/service/BusinessTelegramService.kt:126-177 | every state whose step the model covers has its own branch in the business bot's dispatch |
| BusinessDialog.BusinessTelegramService.BusinessOf | src/main/kotlin/dev/weuizx/jobzi/telegram/service/BusinessTelegramService.kt:1475-1484 | no user iff the Telegram id is unknown; no business only when the user has no link; otherwise the business of one of the user's links, namely the first in id order |
| BusinessDialog.BusinessTelegramService.Advance | src/main/kotlin/dev/weuizx/jobzi/telegram/service/BusinessTelegramService.kt:340-369 | keeps the value under the key in the user's context and moves the user to the next state, touching no other user |
| BusinessDialog.BusinessTelegramService.TitleInput | src/main/kotlin/dev/weuizx/jobzi/telegram/service/BusinessTelegramService.kt:340-369 | a trimmed title shorter than 5 or longer than 255 UTF-16 units is refused with no state change; otherwise it is kept and the dialog moves to the description |
| BusinessDialog.BusinessTelegramService.DescriptionInput | src/main/kotlin/dev/weuizx/jobzi/telegram/service/BusinessTelegramService.kt:371-393 | a trimmed description shorter than 20 UTF-16 units is refused with no state change; otherwise it is kept and the dialog moves to the location |
| BusinessDialog.BusinessTelegramService.LocationInput | src/main/kotlin/dev/weuizx/jobzi/telegram/service/BusinessTelegramService.kt:395-416 | any answer moves on to the salary; "-" stores no location, anything else is kept trimmed |
| BusinessDialog.BusinessTelegramService.SalaryInput | src/main/kotlin/dev/weuizx/jobzi/telegram/service/BusinessTelegramService.kt:418-450 | any answer moves on to the questionnaire choice; "-" stores no salary; the pending question list starts empty |
| BusinessDialog.BusinessTelegramService.PendingChoice | src/main/kotlin/dev/weuizx/jobzi/telegram/service/BusinessTelegramService.kt:917-963 | for a new vacancy the defaults are appended to the pending list and the preview shown; adding starts from the defaults iff nothing is pending; finishing or skipping shows the preview; an unknown answer changes nothing |
| BusinessDialog.BusinessTelegramService.ShowPreview | src/main/kotlin/dev/weuizx/jobzi/telegram/service/BusinessTelegramService.kt:2351-2428 | the reply is the preview of the context as it was and the user waits on the preview; the context is not touched |
| BusinessDialog.BusinessTelegramService.FinishVacancyCreation | src/main/kotlin/dev/weuizx/jobzi/telegram/service/BusinessTelegramService.kt:1169-1220 | an edited vacancy whose code is known is shown again by that code; otherwise the conversation ends with the summary of code, title, whether it was published, and the number of questions stored for the vacancy id |
| BusinessDialog.BusinessTelegramService.EditingChoice | src/main/kotlin/dev/weuizx/jobzi/telegram/service/BusinessTelegramService.kt:881-915 | for a vacancy being edited the question table becomes exactly DefaultsAdded (the three default rows under the next three ids, every other row unchanged) when defaults are chosen or when adding to a vacancy without questions; every other choice leaves the question table alone; defaults, finish and skip finish the creation |
| BusinessDialog.BusinessTelegramService.AddDefaultQuestions | src/main/kotlin/dev/weuizx/jobzi/service/db/QuestionDbService.kt:27-56 | the question table becomes exactly DefaultsAdded: name, phone and age under the next three ids for this vacancy, every other row unchanged, the next id advanced by three |
| BusinessDialog.BusinessTelegramService.QuestionnaireChoiceInput | src/main/kotlin/dev/weuizx/jobzi/telegram/service/BusinessTelegramService.kt:874-963 | the trimmed lower-cased answer is classified once; a vacancy being edited takes the editing branch and stores questions directly, a new vacancy only changes its context and leaves the question table unchanged |
| BusinessDialog.BusinessTelegramService.QuestionTextInput | src/main/kotlin/dev/weuizx/jobzi/telegram/service/BusinessTelegramService.kt:965-991 | a trimmed question shorter than 5 UTF-16 units is refused with no state change; otherwise it is kept and the type is asked for |
| BusinessDialog.BusinessTelegramService.QuestionTypeInput | src/main/kotlin/dev/weuizx/jobzi/telegram/service/BusinessTelegramService.kt:993-1050 | an unrecognised type changes nothing; CHOICE keeps its name and asks for options; any other recognised type keeps its name and asks whether it is required |
| BusinessDialog.BusinessTelegramService.OptionsInput | src/main/kotlin/dev/weuizx/jobzi/telegram/service/BusinessTelegramService.kt:1052-1081 | a blank answer or fewer than two clean options is refused with no state change; otherwise the clean options are kept and the required question is asked |
| BusinessDialog.BusinessTelegramService.RequiredInput | src/main/kotlin/dev/weuizx/jobzi/telegram/service/BusinessTelegramService.kt:1083-1167 | an unrecognised answer, or a stored type name that is no question type, changes nothing; for a vacancy being edited one question row is saved for it, ordered after its other questions; for a new vacancy the question joins the end of the pending list and the table is untouched; both reset the draft and return to the choice |
| BusinessDialog.BusinessTelegramService.SaveQuestion | src/main/kotlin/dev/weuizx/jobzi/telegram/service/BusinessTelegramService.kt:1110-1129 | exactly one new question row under the next id with the vacancy, text, type and required flag, options only for CHOICE, ordered after the vacancy's existing questions; the draft is reset |
| BusinessDialog.BusinessTelegramService.AddPending | src/main/kotlin/dev/weuizx/jobzi/telegram/service/BusinessTelegramService.kt:1130-1160 | the question is appended to the end of the pending list and the draft is reset |
| BusinessDialog.BusinessTelegramService.ResetQuestionDraft | src/main/kotlin/dev/weuizx/jobzi/telegram/service/BusinessTelegramService.kt:1117-1125 | the question text, type and options are emptied, more questions are offered and the user returns to the questionnaire choice |
| BusinessDialog.BusinessTelegramService.QuestionDeleteByNumber | src/main/kotlin/dev/weuizx/jobzi/telegram/service/BusinessTelegramService.kt:2152-2178 | a missing vacancy clears the conversation; a number below 1 or not a number changes nothing; a number above the question count is refused with the count; otherwise exactly the n-th question in order is deleted and the user returns to the questionnaire menu |
| BusinessDialog.BusinessTelegramService.ViewVacancyByCode | src/main/kotlin/dev/weuizx/jobzi/telegram/service/BusinessTelegramService.kt:1470-1542 | an unknown code, an unknown user, a user with no business or a vacancy of another business is refused with no state change; only a representative of the vacancy's business sees it and is left on its details |
| BusinessDialog.BusinessTelegramService.ViewApplicationDetails | src/main/kotlin/dev/weuizx/jobzi/telegram/service/BusinessTelegramService.kt:1226-1329 | an unknown application, user, business link or vacancy, or another business's vacancy is refused with nothing changed; for the owner a NEW application is marked VIEWED before it is shown, even when its applicant is missing, and no other application or answer changes |
| BusinessDialog.BusinessTelegramService.StatusChangeInput | src/main/kotlin/dev/weuizx/jobzi/telegram/service/BusinessTelegramService.kt:1387-1441 | a missing application id clears the conversation; an unrecognised status changes nothing; a vanished application clears the conversation; otherwise only that application's status and update time change and the user returns to it |
| BusinessDialog.BusinessTelegramService.VacancyChangeStatusInput | src/main/kotlin/dev/weuizx/jobzi/telegram/service/BusinessTelegramService.kt:1742-1786 | a missing vacancy id clears the conversation; an unrecognised status changes nothing; a vanished vacancy clears the conversation; otherwise only that vacancy's status changes and it is shown again by its code |
| BusinessDialog.BusinessTelegramService.ScheduleTypeInput | src/main/kotlin/dev/weuizx/jobzi/telegram/service/BusinessTelegramService.kt:3296-3396 | without a selected or existing campaign nothing changes; entries 1-3 keep the schedule type and ask for its value; entry 4 switches the schedule off so the campaign is not due; entry 5 schedules every 15 minutes starting 15 minutes from now; any other text is refused |
| BusinessDialog.BusinessTelegramService.ScheduleTimeInput | src/main/kotlin/dev/weuizx/jobzi/telegram/service/BusinessTelegramService.kt:3401-3485 | missing campaign or type, a non-integer value or an unknown campaign change nothing; a value out of its type's range or an unknown type is refused; otherwise only that campaign is scheduled with its first send strictly after now, it is not due, and the stored type is forgotten |
| BusinessDialog.BusinessTelegramService.CreationInput | src/main/kotlin/dev/weuizx/jobzi/telegram/service/BusinessTelegramService.kt:136-141 | a message in a vacancy creation state follows exactly that state's step and touches no vacancy, application or campaign |
| BusinessDialog.BusinessTelegramService.QuestionInput | src/main/kotlin/dev/weuizx/jobzi/telegram/service/BusinessTelegramService.kt:142-145 | a message in a question state follows exactly that state's step and touches no vacancy, application or campaign |
| BusinessDialog.BusinessTelegramService.SettingInput | src/main/kotlin/dev/weuizx/jobzi/telegram/service/BusinessTelegramService.kt:148-171 | a message in a status or schedule state follows exactly that state's step and leaves the question table alone |
| BusinessDialog.BusinessTelegramService.DraftingInput | src/main/kotlin/dev/weuizx/jobzi/telegram/service/BusinessTelegramService.kt:136-160 | a message in a creation or question state follows that state's step |
| BusinessDialog.BusinessTelegramService.ModelledInput | src/main/kotlin/dev/weuizx/jobzi/telegram/service/BusinessTelegramService.kt:136-170 | a message in any covered state follows that state's step |
| BusinessDialog.BusinessTelegramService.HandleConversationState | src/main/kotlin/dev/weuizx/jobzi/telegram/service/BusinessTelegramService.kt:126-177 | the cancel button clears the conversation and changes no table; any other message follows the step of the state the user was in; a state with no business branch is cleared with an error |
| BusinessDialog.BusinessTelegramService.StepInput | src/main/kotlin/dev/weuizx/jobzi/telegram/service/BusinessTelegramService.kt:135-176 | a covered state follows its step; a business state outside the model is left untouched; a state of another bot clears the conversation with an error |
| BusinessDialog.BusinessTelegramService.EditedVacancyChoice | src/main/kotlin/dev/weuizx/jobzi/telegram/service/BusinessTelegramService.kt:880-915 | with an edited vacancy recorded in the context, the choice follows the editing branch and every table stays valid |
| BusinessDialog.BusinessTelegramService.DefaultsThenFinish | src/main/kotlin/dev/weuizx/jobzi/telegram/service/BusinessTelegramService.kt:883-886 | the question table becomes exactly DefaultsAdded for the edited vacancy and then the creation finishes |
| BusinessDialog.BusinessTelegramService.OwnQuestionsForEdited | src/main/kotlin/dev/weuizx/jobzi/telegram/service/BusinessTelegramService.kt:887-899 | the question table becomes DefaultsAdded iff the edited vacancy had no questions, else is unchanged; the user moves on to the question text, told whether defaults were added |
| BusinessDialog.BusinessTelegramService.QuestionCount | src/main/kotlin/dev/weuizx/jobzi/telegram/service/BusinessTelegramService.kt:888 | the count is the number of questions stored for the vacancy |
| BusinessDialog.BusinessTelegramService.DeleteNumbered | src/main/kotlin/dev/weuizx/jobzi/telegram/service/BusinessTelegramService.kt:2163-2178 | a number past the question count is refused with no change; otherwise exactly the n-th question in order is deleted and the questionnaire menu shown |
| BusinessDialog.BusinessTelegramService.SetApplicationStatus | src/main/kotlin/dev/weuizx/jobzi/telegram/service/BusinessTelegramService.kt:1417-1440 | a vanished application clears the conversation; otherwise only its status and update time change, answers are kept, and the user returns to it |
| BusinessDialog.BusinessTelegramService.SetVacancyStatus | src/main/kotlin/dev/weuizx/jobzi/telegram/service/BusinessTelegramService.kt:1769-1785 | a vanished vacancy clears the conversation; otherwise only its status changes and it is found and shown again by its code |
| BusinessDialog.BusinessTelegramService.FieldInput | src/main/kotlin/dev/weuizx/jobzi/telegram/service/BusinessTelegramService.kt:136-139 | a title, description, location or salary message follows exactly its own step and leaves the question table alone |
| BusinessDialog.BusinessTelegramService.DraftQuestionInput | src/main/kotlin/dev/weuizx/jobzi/telegram/service/BusinessTelegramService.kt:142-145 | a question text, type or options message follows exactly its own step |
| BusinessDialog.BusinessTelegramService.StatusInput | src/main/kotlin/dev/weuizx/jobzi/telegram/service/BusinessTelegramService.kt:148-153 | an application or vacancy status message follows exactly its own step |
| BusinessDialog.BusinessTelegramService.ScheduleInput | src/main/kotlin/dev/weuizx/jobzi/telegram/service/BusinessTelegramService.kt:170-171 | a schedule type or time message follows exactly its own step |
| BusinessDialog.PendingDefaultsAreStoredDefaults | src/main/kotlin/dev/weuizx/jobzi/telegram/service/BusinessTelegramService.kt:2325-2346 | each pending default question has the text, type name, required flag and order index of the row the question store adds for it (QuestionDb.DefaultsAdded) |

## Left out

- Telegram itself (TDLight clients, the Bot API, the probe `getMe`, chat membership lookups) is an oracle parameter: a reply, an outcome per call or a member status. Native library loading, the client factory and session-directory file walking are not part of this model; a directory deletion is an attempted step whose failure is swallowed.
- Concurrency (`ConcurrentHashMap`, `AtomicInteger`, `@Volatile`, `CompletableFuture` threads) is modelled sequentially; a future is a state token (pending, completed with a value, failed, cancelled).
- The Guava rate limiter before sends and joins and the pause after each broadcast send are no-ops: they are floating-point timing gates that change no state.
- AES-256-CBC and Base64 are an abstract cipher: `Encrypt(plain, iv)` with the random IV as a parameter and `Decrypt(Encrypt(p, iv)) == p`.
- WebSocket notifications and the audit logger are an appended list of updates at most; the logging itself is not modelled.
- Reply texts (emoji, `buildString`/`cleanMessage`, date formatting) are not modelled: a reply names the answer and, where its fields say so, the data it shows.
- Clocks are a `now` parameter in whole minutes at a fixed offset; seconds, nanoseconds and time-zone changes are dropped.
- A caught database failure is modelled where the model itself produces it (an unknown id, a unique-key clash) and, for any other cause, only where a `storeFails` oracle parameter stands for it: `BroadcastDb.BroadcastDbService.AutoRegisterChat`, `AuthService.TelegramAuthenticationService.SubmitCode` and `AuthService.TelegramAuthenticationService.SubmitPassword`. `RequestCode` and `RequestPassword` fail only for an unknown account. JPA, Liquibase, foreign keys and cascades are not modelled. Uniqueness that the schema enforces (the (vacancy, user) pair of an application, session names) is stated as a table invariant.
- `@Scheduled` cadence is not modelled: one run of each scheduled body is.
- `ConversationState.kt` is not part of this model beyond the enumeration of states.
- Context values of the wrong kind are treated as absent; Kotlin would throw a `ClassCastException` when it uses them.
- `Common.Lower` and `Common.Upper` map ASCII letters and the Cyrillic letters U+0400 to U+045F only, and `Common.ParseInteger` accepts ASCII digits only; the JVM maps all of Unicode.
- 32-bit overflow is modelled only in `PoolManager.AsWrittenIndex` and `PoolManager.CounterWrapGivesNegativeIndex` (the round-robin counter as written) and in `toIntOrNull`; the pool manager's own counter and all other integers are unbounded.
- PoolManager.TelegramClientPoolManager.GetNextAvailableClient: the counter is an unbounded `nat`, so the `AtomicInteger` wrap-around and the negative index it causes are not part of this method; they are modelled only by `PoolManager.AsWrittenIndex` and `PoolManager.CounterWrapGivesNegativeIndex` (see Findings).
- PoolManager.TelegramClientPoolManager.GetNextAvailableClient: the ready clients are taken in the order their session names were inserted into the pool; `ConcurrentHashMap` iterates in hash order, so which client a given counter value picks may differ, while the round-robin fairness over one round does not depend on the order.
- HealthChecker.TelegramPoolHealthChecker.ProbeAccount: a failed probe takes the corrected path (ERROR with the reason); the program as written ends the account INACTIVE with no error message, which only `HandleUnhealthyAccountAsWritten` models.
- HealthChecker.TelegramPoolHealthChecker.ProbeStep: its `Stepped` effect uses `UnhealthyCorrected` for a failed probe, not the as-written `UnhealthyAsWritten`.
- HealthChecker.TelegramPoolHealthChecker.ProbeNext: keeps the `Progress` invariant of the corrected health pass, in which failed accounts are ERROR; as written they end INACTIVE.
- HealthChecker.TelegramPoolHealthChecker.ProbeAll: establishes `Probed` for the corrected health pass; as written failed accounts end INACTIVE with no error message.
- HealthChecker.TelegramPoolHealthChecker.CheckAccountHealth: promises the corrected outcome for failed accounts (ERROR with the reason); the program as written leaves them INACTIVE with no error message (see Findings).
- HealthChecker.ProgressStep: about the corrected health pass; as written, a failed account ends INACTIVE, not ERROR.
- HealthChecker.ProgressDone: about the corrected health pass; as written, a failed account ends INACTIVE, not ERROR.
- The JSON reader accepts only an array of JSON strings; Jackson's coercion of numbers and booleans into strings is not modelled.
- `Common.Split` / `Common.Join` round trip (`Common.JoinSplit`) is proved only for pieces that do not contain the separator.
- SuperAdminDialog.Menu: the account-list and pool-status buttons answer `AccountList` and `PoolStatus`, which carry no data. The accounts with their decrypted phones, session names, dates and errors, the pool's three counts, and the error replies of those two screens' catch blocks are not modelled.
- SuperAdmin.SuperAdminService.Owner: states that the owner is an ADMIN member of the business, not that it is the ADMIN link with the smallest id.
- SuperAdmin.SuperAdminService.ListAllBusinesses: the rendering of the business list reply is not modelled.
- ApplicantDialog.ApplicantTelegramService.HandleCommand: `/my` answers with the list of the sender's applications, which is not rendered; `handleMyApplications` and the help text are not part of this model.
- The business bot's menu commands (main menu, my vacancies, all applications, statistics with its floating-point conversion rate, settings, help, Excel export) are not part of this model.
- BusinessDialog.BusinessTelegramService.StepInput: the business states outside the model (preview and publish, vacancy and question editing, application actions and notes, the questionnaire menu, campaign creation, campaign list and details, channel management) answer `NotModelled` and change nothing.
- BusinessDialog.BusinessTelegramService.ScheduleTypeInput: requires that the text is not the cancel button. Its own cancel branch (and that of `ScheduleTimeInput`) can never run, because `handleConversationState` answers the cancel button first.
- BusinessDialog.BusinessTelegramService.ViewVacancyByCode: the vacancy details reply carries the vacancy but not its application and question counts.
- BusinessDialog.BusinessTelegramService.ViewApplicationDetails: modelled as the step it is; the menu actions that lead to it are not part of this model.
- BusinessDialog.BusinessTelegramService.PendingChoice: "Только базовые" appends the three default questions again even when questions are pending; this is modelled as written.
- `KeyboardFactory.kt` and `ExcelExportService.kt` are not part of this model.

## Findings

| source | as written | input that shows it | evidently intended | confidence | as-written member | corrected member |
|---|---|---|---|---|---|---|
| src/main/kotlin/dev/weuizx/jobzi/telegram/pool/TelegramClientPoolManager.kt:151 | the round-robin index is `counter.getAndIncrement() % readyCount` on a 32-bit `AtomicInteger`; after 2^31 selections the counter is negative and the JVM remainder is negative too, so `elementAt` throws | three ready clients, the 2^31-st selection: index -2 | a non-negative index, so every ready client is picked once per round | not executed | PoolManager.CounterWrapGivesNegativeIndex | PoolManager.RoundRobinFair |
| src/main/kotlin/dev/weuizx/jobzi/service/db/TelegramAccountPoolDbService.kt:47-50 | the duplicate-phone check encrypts the new phone and looks for that ciphertext; encryption draws a random IV, so a stored phone is not found | a table holding "+79001234567" encrypted under IV 7; registering it again encrypts under IV 9 and passes | reject a phone whose decrypted value is already stored | not executed | AccountPoolDb.DuplicatePhoneWitness | AccountPoolDb.AccountPoolDbService.CreateAccountUniquePhone |
| src/main/kotlin/dev/weuizx/jobzi/telegram/pool/TelegramPoolHealthChecker.kt:79-96 | a failed probe marks the account ERROR with the reason, then `removeClient` writes INACTIVE with no error message, so the mark is lost | an AUTHENTICATED account "s1" whose probe fails with "timeout" ends INACTIVE with no error | the account ends ERROR with "Health check failed: timeout" and leaves the pool | not executed | HealthChecker.ErrorMarkLostWitness | HealthChecker.TelegramPoolHealthChecker.HandleUnhealthyAccount |
