# eMaktab login bot — verified model

A Telegram bot signs its users into the eMaktab school portal. The user sends
`/start`, then one message `Login:Parol`. The bot posts the login form to the
portal and reads the answer in one of three ways:

- a captcha page: the bot keeps `{l, p}` in the conversation data, shows the
  captcha image and waits for the code;
- an accepted login: the account (login, encrypted password, session cookies,
  `active: true`) is pushed onto the user's document in the `users` collection,
  and the conversation ends;
- an error: the user is asked again.

A captcha answer is tried once with the stored login and password. Anything
but success sends the user back to `Login:Parol`. Later, `get_active_account`
picks the first account of the user's list whose `active` flag is set.

The model has four modules:

- `EMaktabApi` (`emaktab_api.dfy`): the posted form and the classification of
  the portal's response. The HTTP round trip is a parameter
  `portal: Form -> Response`.
- `Database` (`database.dfy`): the `users` collection as a map from user id to
  document, the `$push` with `upsert=True`, and the first-active lookup.
- `LoginBot` (`login_bot.dfy`): the credential split and the class `Bot`. Its
  fields are the conversation state and conversation data of each user and the
  `users` collection. Its methods `CmdStart`, `HandleAuth` and `HandleCaptcha`
  are the three handlers. `Dispatch` routes one message the way the aiogram 2
  dispatcher does.
- `Scenarios` (`scenarios.dfy`): whole conversations on a freshly started
  `Bot`, whose collection may already hold documents, against portals with
  fixed answers.

`Wrappers` (`wrappers.dfy`) holds `Option`.

Where the code departs from what such a bot is usually expected to do, the
model follows the code:

- Several accounts of one user can be active at once. Nothing deactivates the
  older ones, and the lookup returns the earliest linked one.
- A login with the same portal login is appended again, not updated in place.
- The portal result has three cases (`captcha`, `success`, `error`). There is
  no separate invalid-credentials or transient-error result. Success means
  status 200, not the presence of an authentication cookie.
- The captcha word is checked even on the retry that carries an answer.
- After a failed captcha round the plaintext login and password stay in the
  conversation data. `BotState.auth.set()` does not clear the data; only
  `state.finish()` does. `Scenarios.CaptchaTwice` shows this.
- `/start` reaches `cmd_start` only for a user with no conversation state. In
  `auth` it is read as a malformed `Login:Parol` and the user stays in `auth`.
  In `captcha` it is posted as the captcha answer. `Scenarios.StartDuringCaptcha`
  shows that a portal accepting it completes the login.

## Model

| member | source | states |
|---|---|---|
| `EMaktabApi.FormData` | emaktab_api.py:13-15 | The form always holds `login` and `password` from the client. It holds `captchaAnswer` exactly when the answer is truthy (present and non-empty), and then equals it. No other key is present. |
| `EMaktabApi.LoginAttempt` | emaktab_api.py:11-24 | The form built in place is `FormData` of the client and the answer. The result is the classification of the portal's response to exactly that form. |
| `EMaktabApi.Truthy` | emaktab_api.py:14 | The `if captcha_answer:` test: only a present answer passes, and the empty string does not. |
| `EMaktabApi.Lower` | emaktab_api.py:18 | `response.text.lower()`: the result has the text's length, holds no upper-case ASCII letter, and leaves every character that is not one in place. |
| `EMaktabApi.Contains` | emaktab_api.py:18 | Python's substring `in`: the empty word is in every text, and a found word is no longer than the text. |
| `EMaktabApi.Classify` | emaktab_api.py:18-24 | The ordered if-chain of `login_attempt`. A captcha result carries the fixed image URL; a success carries the session's cookies and comes only with status 200. The full case split is `ClassifyCases`. |
| `EMaktabApi.ContainsIffOccurs` | emaktab_api.py:18 | The scanning substring test is true exactly when the word occurs at some position of the text. |
| `EMaktabApi.ClassifyCases` | emaktab_api.py:18-24 | The result is `captcha` with the fixed image URL exactly when some casing of "captcha" occurs in the body, whatever the status. Otherwise it is `success` with the session's cookies exactly on status 200, and `error` in every other case. |
| `Scenarios.CaptchaPageIsCaptcha` | emaktab_api.py:18-20 | An upper-case "CAPTCHA" body with status 200 is classified as a captcha page. |
| `Database.IsActive` | database.py:21 | The `acc.get('active')` test: a missing `active` key is falsy, and a present boolean flag is its own truth value. |
| `Database.FirstActive` | database.py:21 | A returned account is in the list and active. The result is none exactly when no account in the list is active. |
| `Database.FirstActiveIsEarliest` | database.py:21 | When position `i` holds the earliest active account, the lookup returns that account: the first match in list order wins. |
| `Database.FirstActiveAppend` | database.py:21 | Appending an account never changes an existing first-active result. With no active account before, the new one is found exactly when it is active. |
| `Database.FindOne` | database.py:19 | `find_one` by user id: the document of that user when it exists, none otherwise. |
| `Database.GetActiveAccount` | database.py:18-22 | No document, or a document without `accounts`, gives none. A returned account is a member of the user's list and is active. Given a list, none means no account in it is active; an account without `active` counts as inactive. |
| `Database.PushAccount` | main.py:48-52 | The upsert creates the user's document when absent. It appends exactly one account at the end. Earlier accounts keep their order and values, and every other user's document is unchanged. |
| `Database.PushKeepsEarliestActive` | main.py:48-52 | After pushing an active account, the active-account lookup returns the earliest active account the user already had. The new account is returned only if there was none. |
| `Database.TwoActiveAccounts` | main.py:65-69 | Two pushes of active accounts onto any collection append both after the user's earlier accounts, in linking order. The lookup returns the user's earlier active account if there was one, and otherwise the first of the two. No single-active invariant holds. |
| `LoginBot.ColonIndex` | main.py:39 | Gives the first colon position, or the text length when there is none. No colon occurs before it. |
| `LoginBot.ParseCredentials` | main.py:36-39 | None exactly when the text has no colon. Otherwise the login has no colon and `login + ":" + password` is the text, so the password keeps any later colons. |
| `LoginBot.ColonAfterLogin` | main.py:39 | In `login:password` with a colon-free login, the first colon sits right after the login. |
| `LoginBot.ParseRoundTrip` | main.py:39 | For every colon-free login and every password, splitting `login:password` at the first colon gives back that login and password. |
| `LoginBot.NewAccount` | main.py:50 | The pushed account carries the login, the password as `encrypt` gives it back for the plaintext one, and the cookies, and it is active. |
| `LoginBot.Bot.constructor` | main.py:13 | A started bot has no conversation state and no conversation data (the empty `MemoryStorage`). Its `users` collection is whatever documents the database already holds. |
| `LoginBot.Bot.CmdStart` | main.py:28-31 | The user's state becomes `auth` from any prior state. Conversation data and documents are untouched, and the reply is the greeting. |
| `LoginBot.Bot.AwaitCaptcha` | main.py:44-46 | A login answered by a captcha page: the user's data becomes exactly `{l, p}` and the user's state becomes `captcha`. No other user's state or data changes, and no document is written. |
| `LoginBot.Bot.PushAndFinish` | main.py:48-54 | The step both handlers end an accepted login with (main.py:65-71 repeats it): one active account is pushed onto the user's document, then the user's state and data are both dropped. Other users' state and data are unchanged. |
| `LoginBot.Bot.HandleAuth` | main.py:34-56 | No colon: nothing changes and the format hint is sent. A captcha result stores exactly `{l, p}` and moves to `captcha` without writing a document. A success pushes `{login, encrypt(pw), cookies, active}` and finishes the conversation. An error changes nothing. Other users are untouched. |
| `LoginBot.Bot.HandleCaptcha` | main.py:58-74 | Retries with the stored login and password unchanged and the message text as answer. Success pushes the account and finishes. Any other result, another captcha included, returns to `auth`; no document is written and `{l, p}` stays in the conversation data. |
| `LoginBot.Bot.Dispatch` | main.py:28-74 | Routes `/start` only when the user has no state, and other messages to the handler of the user's state. When the portal and Telegram calls return: a user enters `captcha` only from `auth` and never stays in `captcha` for two messages; only one active account is ever appended, and only when the conversation finishes. Other users are never touched. |
| `Scenarios.CaptchaThenSuccess` | main.py:34-71 | A captcha page and then an accepted captcha leave the user with no state and no pending data. The active account is the new one, unless the user's document already had an active account, which is still returned. |
| `Scenarios.CaptchaTwice` | main.py:43-74 | Two captcha pages in a row return the user to `auth` with the collection unchanged. The plaintext credentials are still in the conversation data. |
| `Scenarios.WrongPassword` | main.py:34-56 | A rejected login keeps the user in `auth`, replies with the error, and leaves the collection unchanged. |
| `Scenarios.SecondLoginKeepsFirstActive` | main.py:47-54 | After two accepted logins both accounts are appended after the user's earlier ones, both active, in order. The lookup returns the user's earlier active account if there was one, and otherwise the first of the two. |
| `Scenarios.StartDuringCaptcha` | main.py:58-74 | `/start` sent while a captcha is awaited is posted as the captcha answer. An accepting portal completes the login instead of restarting it; the new account is active and is returned unless an earlier active one exists. |

## Left out

- Telegram I/O (`message.answer`, `bot.send_photo`, `main_kb` keyboards) becomes the `Reply` value a handler returns. Message texts and keyboard layout are not modelled.
- The `/admin` panel (main.py:77-81) answers only the admin id, with the count of all user documents. It changes no state, and `Dispatch` gives no reply for messages that no modelled handler takes.
- `auto_refresh`, the cron job and startup (main.py:84-97) are left out: the refresh body only prints.
- The HTTP transport (`requests.Session`, the user agent, `base_url`, the POST itself) is left out. The portal is a parameter from the posted form to the response, whose `cookies` field stands for the session's cookie jar after the POST.
- `get_marks` (emaktab_api.py:26-28) is a plain network call and is left out.
- `encrypt_pw` (Fernet, a foreign library with a random IV) is a parameter `encrypt`. `decrypt_pw` and the key setup (database.py:6-7, 12-16) are left out; the core never decrypts.
- The Mongo client (database.py:8-10) is a map from user id to document. Mongo's failure when `accounts` is not an array is not modelled.
- `Database.IsActive`: `active` is modelled as a missing key or a boolean. Other truthy Python values are not modelled.
- `EMaktabApi.Lower`: lower-cases ASCII letters only; other characters stay as they are. Full Unicode case mapping is not modelled. No non-ASCII character lowers to one of the letters of "captcha", so the captcha decision does not depend on this.
- `LoginBot.Bot.Dispatch`: only the exact text `/start` counts as the command. `/start@botname`, command arguments and other casings are not modelled.
- `LoginBot.Bot.Dispatch`: the conversation storage is keyed by chat and user; the model keys it by user id, as in a private chat.
- Handlers run one at a time here. The asynchronous interleaving of the dispatcher is not modelled.
- `LoginBot.Bot.Dispatch`: each handler runs as one step in which the portal and Telegram calls always return. An exception part-way through a handler is not modelled, nor are its partial effects. If `send_photo` fails, `{l, p}` is stored but the user stays in `auth` (main.py:44-46). If the answer after a push fails, the account is stored but the conversation is not finished (main.py:48-54, 65-71), so in `captcha` the next message can push the same login again. If the POST raises (emaktab_api.py:17, no timeout), the user stays in `captcha`.
- `LoginBot.Bot.Dispatch`: every handler creates a new `requests.Session` (main.py:40, 61), so the captcha answer is posted in a session that never saw the captcha page. The model's `portal` parameter is a fresh function per call and does not capture that the two posts share no cookies.
