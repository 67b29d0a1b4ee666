/**
 * The Telegram conversation that signs a user into eMaktab: the `/start`
 * command and the two conversation states `auth` and `captcha`. Per user the
 * bot keeps its conversation state, the transient `{l, p}` data of a login
 * waiting for its captcha, and the user's document in the `users` collection.
 * Telegram replies are returned as values; the portal and `encrypt_pw` are
 * parameters.
 */
module LoginBot {
  import opened Wrappers
  import Api = EMaktabApi
  import opened Database

  /** The states of `BotState`; a user with no state has finished or never started. */
  datatype BotState = Auth | Captcha

  /** The transient conversation data `{l: login, p: password}`. */
  datatype Credentials = Credentials(login: string, password: string)

  /** The messages the bot sends back, in place of their text and keyboards. */
  datatype Reply =
    | Welcome                  // greeting of /start, asks for Login:Parol
    | FormatHint               // the text had no colon
    | CaptchaPhoto(url: string) // the captcha image to solve
    | LoggedIn                 // login accepted without captcha
    | WrongCredentials         // portal answered with an error
    | CaptchaAccepted          // login accepted after the captcha
    | CaptchaRejected          // captcha round failed, asks for Login:Parol again

  const StartCommand := "/start"

  /** Position of the first colon of `s`, or `|s|` when there is none. */
  function ColonIndex(s: string): (i: nat)
    ensures i <= |s|
    ensures i < |s| ==> s[i] == ':'
    ensures ':' !in s[..i]
  {
    if s == [] || s[0] == ':' then 0
    else
      var i := 1 + ColonIndex(s[1..]);
      assert s[..i] == [s[0]] + s[1..][..i - 1];
      i
  }

  /** `text.split(":", 1)` on a text containing a colon; `None` when it has none. */
  function ParseCredentials(text: string): (r: Option<Credentials>)
    ensures r.None? <==> ':' !in text
    ensures r.Some? ==> ':' !in r.value.login && r.value.login + ":" + r.value.password == text
  {
    var i := ColonIndex(text);
    if i == |text| then
      assert text[..i] == text;
      None
    else
      assert text == text[..i] + ":" + text[i + 1..];
      Some(Credentials(text[..i], text[i + 1..]))
  }

  /** In `login:password` with a colon-free login, the first colon follows the login. */
  lemma {:induction false} ColonAfterLogin(login: string, password: string)
    requires ':' !in login
    ensures ColonIndex(login + ":" + password) == |login|
  {
    if login != [] {
      assert (login + ":" + password)[1..] == login[1..] + ":" + password;
      ColonAfterLogin(login[1..], password);
    }
  }

  /**
   * Splitting at the first colon inverts joining with a colon: the login is
   * everything before the first colon, the password all the rest, colons included.
   */
  lemma ParseRoundTrip(login: string, password: string)
    requires ':' !in login
    ensures ParseCredentials(login + ":" + password) == Some(Credentials(login, password))
  {
    var text := login + ":" + password;
    ColonAfterLogin(login, password);
    assert text[..|login|] == login;
    assert text[|login| + 1..] == password;
  }

  /** The account pushed after a successful login: active, password encrypted. */
  function NewAccount(c: Credentials, encrypt: string -> string, cookies: Api.Cookies): (acc: Account)
    ensures IsActive(acc) && acc.login == c.login && acc.cookies == cookies
    ensures acc.password == encrypt(c.password)
  {
    Account(c.login, encrypt(c.password), cookies, Some(true))
  }

  class Bot {
    /** The conversation state of each user (`MemoryStorage`). */
    var state: map<UserId, BotState>
    /** The conversation data of each user that has any. */
    var data: map<UserId, Credentials>
    /** The `users` collection. */
    var users: Users

    /** A user in `captcha` has the login awaiting the captcha in its data. */
    ghost predicate Valid()
      reads this
    {
      forall u :: u in state && state[u] == Captcha ==> u in data
    }

    function StateOf(userId: UserId): Option<BotState>
      reads this
    {
      if userId in state then Some(state[userId]) else None
    }

    function DataOf(userId: UserId): Option<Credentials>
      reads this
    {
      if userId in data then Some(data[userId]) else None
    }

    /** A bot starts with no conversations, on the documents the collection already holds. */
    constructor (users0: Users)
      ensures Valid()
      ensures state == map[] && data == map[] && users == users0
    {
      state, data, users := map[], map[], users0;
    }

    /** `/start`: the user is put in `auth`; data and documents are untouched. */
    twostate predicate Started(userId: UserId, reply: Reply)
      reads this
    {
      state == old(state)[userId := Auth] && data == old(data) && users == old(users) &&
      reply == Welcome
    }

    /** `state.finish()`: both the state and the data of the user are dropped. */
    twostate predicate Finished(userId: UserId)
      reads this
    {
      state == old(state) - {userId} && data == old(data) - {userId}
    }

    /** The effect of `handle_auth` on the text of one message. */
    twostate predicate AuthHandled(userId: UserId, text: string, portal: Api.Form -> Api.Response,
                                   encrypt: string -> string, reply: Reply)
      reads this
    {
      match ParseCredentials(text)
      case None =>
        state == old(state) && data == old(data) && users == old(users) && reply == FormatHint
      case Some(c) =>
        match Api.Classify(portal(Api.FormData(Api.Client(c.login, c.password), None)))
        case Captcha(url) =>
          state == old(state)[userId := Captcha] && data == old(data)[userId := c] &&
          users == old(users) && reply == CaptchaPhoto(url)
        case Success(cookies) =>
          Finished(userId) && users == PushAccount(old(users), userId, NewAccount(c, encrypt, cookies)) &&
          reply == LoggedIn
        case Error =>
          state == old(state) && data == old(data) && users == old(users) && reply == WrongCredentials
    }

    /** The effect of `handle_captcha`: one retry with the stored login and password. */
    twostate predicate CaptchaHandled(userId: UserId, text: string, portal: Api.Form -> Api.Response,
                                      encrypt: string -> string, reply: Reply)
      reads this
    {
      userId in old(data) &&
      var c := old(data)[userId];
      match Api.Classify(portal(Api.FormData(Api.Client(c.login, c.password), Some(text))))
      case Success(cookies) =>
        Finished(userId) && users == PushAccount(old(users), userId, NewAccount(c, encrypt, cookies)) &&
        reply == CaptchaAccepted
      case _ =>
        state == old(state)[userId := Auth] && data == old(data) && users == old(users) &&
        reply == CaptchaRejected
    }

    /** `cmd_start` */
    method CmdStart(userId: UserId) returns (reply: Reply)
      requires Valid()
      modifies this
      ensures Valid()
      ensures Started(userId, reply)
    {
      reply := Welcome;
      state := state[userId := Auth];
    }

    /** The `$push` of an active account, then `state.finish()`: the end of every accepted login. */
    method PushAndFinish(userId: UserId, acc: Account)
      requires Valid() && IsActive(acc)
      modifies this
      ensures Valid()
      ensures Finished(userId) && users == PushAccount(old(users), userId, acc)
      ensures StateOf(userId) == None && userId !in data
    {
      users := PushAccount(users, userId, acc);
      state, data := state - {userId}, data - {userId};
    }

    /** `state.update_data(l=..., p=...)`, then `BotState.captcha.set()`: a login waits for its captcha. */
    method AwaitCaptcha(userId: UserId, c: Credentials)
      requires Valid()
      modifies this
      ensures Valid()
      ensures state == old(state)[userId := Captcha] && data == old(data)[userId := c] && users == old(users)
    {
      data := data[userId := c];
      state := state[userId := Captcha];
    }

    /** `handle_auth` */
    method HandleAuth(userId: UserId, text: string, portal: Api.Form -> Api.Response,
                      encrypt: string -> string) returns (reply: Reply)
      requires Valid()
      modifies this
      ensures Valid()
      ensures AuthHandled(userId, text, portal, encrypt, reply)
      ensures state - {userId} == old(state) - {userId} && data - {userId} == old(data) - {userId}
      ensures users == old(users) || exists acc :: IsActive(acc) && users == PushAccount(old(users), userId, acc)
      ensures users != old(users) ==> StateOf(userId) == None && userId !in data
      ensures text == StartCommand ==> state == old(state) && data == old(data) && users == old(users)
    {
      if ':' !in text {
        return FormatHint;
      }
      assert text != StartCommand;
      var c := ParseCredentials(text).value;
      var form, res := Api.LoginAttempt(Api.Client(c.login, c.password), None, portal);
      assert ParseCredentials(text) == Some(c);
      assert res == Api.Classify(portal(Api.FormData(Api.Client(c.login, c.password), None)));
      match res
      case Captcha(url) =>
        AwaitCaptcha(userId, c);
        reply := CaptchaPhoto(url);
        assert state - {userId} == old(state) - {userId};
        assert data - {userId} == old(data) - {userId};
      case Success(cookies) =>
        PushAndFinish(userId, NewAccount(c, encrypt, cookies));
        assert state - {userId} == old(state) - {userId};
        assert data - {userId} == old(data) - {userId};
        reply := LoggedIn;
      case Error =>
        reply := WrongCredentials;
    }

    /** `handle_captcha`; the stored data must hold the pending login. */
    method HandleCaptcha(userId: UserId, text: string, portal: Api.Form -> Api.Response,
                         encrypt: string -> string) returns (reply: Reply)
      requires Valid() && userId in data
      modifies this
      ensures Valid()
      ensures CaptchaHandled(userId, text, portal, encrypt, reply)
      ensures state - {userId} == old(state) - {userId} && data - {userId} == old(data) - {userId}
      ensures StateOf(userId) != Some(Captcha)
      ensures users == old(users) || exists acc :: IsActive(acc) && users == PushAccount(old(users), userId, acc)
      ensures users != old(users) ==> StateOf(userId) == None && userId !in data
    {
      var c := data[userId];
      var form, res := Api.LoginAttempt(Api.Client(c.login, c.password), Some(text), portal);
      if res.Success? {
        PushAndFinish(userId, NewAccount(c, encrypt, res.cookies));
        assert state - {userId} == old(state) - {userId};
        assert data - {userId} == old(data) - {userId};
        reply := CaptchaAccepted;
      } else {
        reply := CaptchaRejected;
        state := state[userId := Auth];
        assert state - {userId} == old(state) - {userId};
      }
    }

    /**
     * Routing of one text message of a user by the dispatcher: a handler
     * registered without a state only receives messages of users with no
     * state, so `/start` reaches `cmd_start` only then, and in `auth` or
     * `captcha` every text goes to that state's handler. A message no
     * handler takes yields no reply and changes nothing.
     */
    method Dispatch(userId: UserId, text: string, portal: Api.Form -> Api.Response,
                    encrypt: string -> string) returns (reply: Option<Reply>)
      requires Valid()
      modifies this
      ensures Valid()
      ensures old(StateOf(userId)) == None ==>
                if text == StartCommand then reply.Some? && Started(userId, reply.value)
                else reply == None && unchanged(this)
      ensures old(StateOf(userId)) == Some(Auth) ==>
                reply.Some? && AuthHandled(userId, text, portal, encrypt, reply.value)
      ensures old(StateOf(userId)) == Some(Captcha) ==>
                reply.Some? && CaptchaHandled(userId, text, portal, encrypt, reply.value)
      // a captcha round is entered only from `auth` and never follows another one
      ensures StateOf(userId) == Some(Captcha) ==> old(StateOf(userId)) == Some(Auth)
      ensures old(StateOf(userId)) == Some(Captcha) ==> StateOf(userId) != Some(Captcha)
      // other users are untouched, and the store only ever grows by one active account
      ensures state - {userId} == old(state) - {userId} && data - {userId} == old(data) - {userId}
      ensures users == old(users) || exists acc :: IsActive(acc) && users == PushAccount(old(users), userId, acc)
      ensures users != old(users) ==> StateOf(userId) == None && userId !in data
      // /start outside a captcha round always leaves the user in `auth`
      ensures text == StartCommand && old(StateOf(userId)) != Some(Captcha) ==> StateOf(userId) == Some(Auth)
    {
      var current := StateOf(userId);
      if current == None {
        if text == StartCommand {
          var r := CmdStart(userId);
          reply := Some(r);
        } else {
          reply := None;
        }
      } else if current == Some(Auth) {
        var r := HandleAuth(userId, text, portal, encrypt);
        reply := Some(r);
      } else {
        var r := HandleCaptcha(userId, text, portal, encrypt);
        reply := Some(r);
      }
    }
  }
}
