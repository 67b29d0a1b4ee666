/**
 * Whole conversations run against a freshly started bot whose collection
 * holds the documents `users0`, with portals that give fixed answers. Each
 * method states what the user ends up with, as a caller can derive it from
 * the contracts of `Bot.Dispatch` alone.
 */
module Scenarios {
  import opened Wrappers
  import Api = EMaktabApi
  import opened Database
  import opened LoginBot

  /** A portal that gives the same response to every form. */
  function Answering(response: Api.Response): Api.Form -> Api.Response {
    (form: Api.Form) => response
  }

  /** A page asking for the captcha, in upper case. */
  const CaptchaPage := Api.Response("CAPTCHA", 200, map[])

  /** A rejected login: no captcha word and a status other than 200. */
  const ErrorPage := Api.Response("", 401, map[])

  /** A login page that was accepted, leaving `cookies` in the session. */
  function AcceptedPage(cookies: Api.Cookies): Api.Response {
    Api.Response("", 200, cookies)
  }

  lemma CaptchaPageIsCaptcha()
    ensures Api.Classify(CaptchaPage) == Api.Captcha(Api.CaptchaImageUrl)
  {
    assert Api.Lower(CaptchaPage.text) == Api.CaptchaWord;
  }

  /** `/start`, then `login:password` answered by a captcha, then the captcha accepted. */
  method CaptchaThenSuccess(users0: Users, userId: UserId, login: string, password: string, answer: string,
                            cookies: Api.Cookies, encrypt: string -> string)
    returns (state: Option<BotState>, pending: Option<Credentials>, active: Option<Account>)
    requires ':' !in login
    ensures state == None && pending == None
    ensures var before := GetActiveAccount(FindOne(users0, userId));
            active == if before.Some? then before
                      else Some(Account(login, encrypt(password), cookies, Some(true)))
  {
    var bot := new Bot(users0);
    var r := bot.Dispatch(userId, StartCommand, Answering(ErrorPage), encrypt);
    ParseRoundTrip(login, password);
    CaptchaPageIsCaptcha();
    r := bot.Dispatch(userId, login + ":" + password, Answering(CaptchaPage), encrypt);
    assert bot.data[userId] == Credentials(login, password);
    r := bot.Dispatch(userId, answer, Answering(AcceptedPage(cookies)), encrypt);
    PushKeepsEarliestActive(users0, userId, NewAccount(Credentials(login, password), encrypt, cookies));
    state := bot.StateOf(userId);
    pending := bot.DataOf(userId);
    active := GetActiveAccount(FindOne(bot.users, userId));
  }

  /**
   * Two captcha pages in a row: the user is back in `auth` with nothing stored,
   * and the plaintext login and password are still in the conversation data.
   */
  method CaptchaTwice(users0: Users, userId: UserId, login: string, password: string, answer: string,
                      encrypt: string -> string)
    returns (state: Option<BotState>, pending: Option<Credentials>, users: Users)
    requires ':' !in login
    ensures state == Some(Auth)
    ensures pending == Some(Credentials(login, password))
    ensures users == users0
  {
    var bot := new Bot(users0);
    var r := bot.Dispatch(userId, StartCommand, Answering(ErrorPage), encrypt);
    ParseRoundTrip(login, password);
    CaptchaPageIsCaptcha();
    r := bot.Dispatch(userId, login + ":" + password, Answering(CaptchaPage), encrypt);
    r := bot.Dispatch(userId, answer, Answering(CaptchaPage), encrypt);
    state := bot.StateOf(userId);
    pending := bot.DataOf(userId);
    users := bot.users;
  }

  /** A rejected password: the next message is again read as `Login:Parol`. */
  method WrongPassword(users0: Users, userId: UserId, login: string, password: string,
                       encrypt: string -> string)
    returns (state: Option<BotState>, reply: Option<Reply>, users: Users)
    requires ':' !in login
    ensures state == Some(Auth) && reply == Some(WrongCredentials) && users == users0
  {
    var bot := new Bot(users0);
    var r := bot.Dispatch(userId, StartCommand, Answering(ErrorPage), encrypt);
    ParseRoundTrip(login, password);
    reply := bot.Dispatch(userId, login + ":" + password, Answering(ErrorPage), encrypt);
    state := bot.StateOf(userId);
    users := bot.users;
  }

  /**
   * Linking two accounts: both are appended after the user's earlier ones,
   * both active, in linking order, and the lookup returns the earliest active
   * account, which is the first of the two unless the user already had one.
   */
  method SecondLoginKeepsFirstActive(users0: Users, userId: UserId, first: Credentials, second: Credentials,
                                     cookies1: Api.Cookies, cookies2: Api.Cookies,
                                     encrypt: string -> string)
    returns (accounts: seq<Account>, active: Option<Account>)
    requires ':' !in first.login && ':' !in second.login
    ensures var n := |AccountsOf(users0, userId)|;
            |accounts| == n + 2 && accounts[..n] == AccountsOf(users0, userId) &&
            IsActive(accounts[n]) && IsActive(accounts[n + 1]) &&
            accounts[n].login == first.login && accounts[n + 1].login == second.login
    ensures var before := GetActiveAccount(FindOne(users0, userId));
            active == if before.Some? then before else Some(accounts[|AccountsOf(users0, userId)|])
  {
    var bot := new Bot(users0);
    var r := bot.Dispatch(userId, StartCommand, Answering(ErrorPage), encrypt);
    ParseRoundTrip(first.login, first.password);
    var acc1, acc2 := NewAccount(first, encrypt, cookies1), NewAccount(second, encrypt, cookies2);
    r := bot.Dispatch(userId, first.login + ":" + first.password, Answering(AcceptedPage(cookies1)), encrypt);
    var once := bot.users;
    assert once == PushAccount(users0, userId, acc1);
    r := bot.Dispatch(userId, StartCommand, Answering(ErrorPage), encrypt);
    ParseRoundTrip(second.login, second.password);
    r := bot.Dispatch(userId, second.login + ":" + second.password, Answering(AcceptedPage(cookies2)), encrypt);
    assert bot.users == PushAccount(once, userId, acc2);
    accounts := AccountsOf(bot.users, userId);
    active := GetActiveAccount(FindOne(bot.users, userId));
    TwoActiveAccounts(users0, userId, acc1, acc2);
  }

  /**
   * `/start` sent while a captcha is awaited is not a restart: it is posted as
   * the captcha answer, and a portal that accepts it completes the login.
   */
  method StartDuringCaptcha(users0: Users, userId: UserId, login: string, password: string,
                            cookies: Api.Cookies, encrypt: string -> string)
    returns (state: Option<BotState>, reply: Option<Reply>, active: Option<Account>)
    requires ':' !in login
    ensures state == None && reply == Some(CaptchaAccepted)
    ensures var before := GetActiveAccount(FindOne(users0, userId));
            active == if before.Some? then before
                      else Some(Account(login, encrypt(password), cookies, Some(true)))
  {
    var bot := new Bot(users0);
    var r := bot.Dispatch(userId, StartCommand, Answering(ErrorPage), encrypt);
    ParseRoundTrip(login, password);
    CaptchaPageIsCaptcha();
    r := bot.Dispatch(userId, login + ":" + password, Answering(CaptchaPage), encrypt);
    reply := bot.Dispatch(userId, StartCommand, Answering(AcceptedPage(cookies)), encrypt);
    PushKeepsEarliestActive(users0, userId, NewAccount(Credentials(login, password), encrypt, cookies));
    state := bot.StateOf(userId);
    active := GetActiveAccount(FindOne(bot.users, userId));
  }
}
