/**
 * The `users` collection and the active-account lookup. The Mongo collection
 * is an in-memory map from user id to that user's document; a document may
 * lack its `accounts` field.
 */
module Database {
  import opened Wrappers

  type UserId = int

  /**
   * One linked portal account. `password` holds the ciphertext produced by
   * `encrypt_pw`; `active` is `None` when the document has no `active` key.
   */
  datatype Account = Account(login: string, password: string, cookies: map<string, string>, active: Option<bool>)

  /** A user document; `accounts` is `None` when the field is missing. */
  datatype UserRecord = UserRecord(accounts: Option<seq<Account>>)

  type Users = map<UserId, UserRecord>

  /** `acc.get('active')` is truthy: the key is present and true. */
  predicate IsActive(acc: Account): (b: bool)
    ensures acc.active == None ==> !b
    ensures acc.active.Some? ==> (b <==> acc.active.value)
  {
    acc.active == Some(true)
  }

  /** `i` is the position of the earliest active account. */
  ghost predicate IsFirstActive(accounts: seq<Account>, i: int) {
    0 <= i < |accounts| && IsActive(accounts[i]) &&
    forall j :: 0 <= j < i ==> !IsActive(accounts[j])
  }

  /** `next((acc for acc in accounts if acc.get('active')), None)`. */
  function FirstActive(accounts: seq<Account>): (r: Option<Account>)
    ensures r.Some? ==> r.value in accounts && IsActive(r.value)
    ensures r.None? <==> forall i :: 0 <= i < |accounts| ==> !IsActive(accounts[i])
  {
    if accounts == [] then None
    else if IsActive(accounts[0]) then Some(accounts[0])
    else FirstActive(accounts[1..])
  }

  /** The lookup returns the earliest active account in list order. */
  lemma {:induction false} FirstActiveIsEarliest(accounts: seq<Account>, i: int)
    requires IsFirstActive(accounts, i)
    ensures FirstActive(accounts) == Some(accounts[i])
  {
    if i > 0 {
      assert !IsActive(accounts[0]);
      FirstActiveIsEarliest(accounts[1..], i - 1);
    }
  }

  /** Appending an account never displaces an earlier active one. */
  lemma {:induction false} FirstActiveAppend(accounts: seq<Account>, acc: Account)
    ensures FirstActive(accounts + [acc]) ==
              if FirstActive(accounts).Some? then FirstActive(accounts)
              else if IsActive(acc) then Some(acc) else None
  {
    if accounts != [] {
      assert (accounts + [acc])[1..] == accounts[1..] + [acc];
      FirstActiveAppend(accounts[1..], acc);
    }
  }

  /** `users_col.find_one({"user_id": userId})`. */
  function FindOne(users: Users, userId: UserId): (r: Option<UserRecord>)
    ensures r.Some? <==> userId in users
    ensures r.Some? ==> r.value == users[userId]
  {
    if userId in users then Some(users[userId]) else None
  }

  /** `get_active_account`, given the document `find_one` returned. */
  function GetActiveAccount(user: Option<UserRecord>): (r: Option<Account>)
    ensures user.None? ==> r.None?
    ensures user.Some? && user.value.accounts.None? ==> r.None?
    ensures r.Some? ==> user.Some? && user.value.accounts.Some? &&
                        r.value in user.value.accounts.value && IsActive(r.value)
    ensures user.Some? && user.value.accounts.Some? && r.None? ==>
              forall a :: a in user.value.accounts.value ==> !IsActive(a)
  {
    if user.Some? && user.value.accounts.Some? then FirstActive(user.value.accounts.value)
    else None
  }

  /** The user's account list; empty when there is no document or no field. */
  function AccountsOf(users: Users, userId: UserId): seq<Account> {
    if userId in users && users[userId].accounts.Some? then users[userId].accounts.value else []
  }

  /**
   * `update_one({"user_id": userId}, {"$push": {"accounts": acc}}, upsert=True)`:
   * creates the document when it is absent and the field when it is missing,
   * appends exactly one account at the end, and leaves every other user alone.
   */
  function PushAccount(users: Users, userId: UserId, acc: Account): (r: Users)
    ensures r.Keys == users.Keys + {userId}
    ensures r[userId].accounts.Some? && |AccountsOf(r, userId)| == |AccountsOf(users, userId)| + 1
    ensures AccountsOf(users, userId) <= AccountsOf(r, userId)
    ensures AccountsOf(r, userId)[|AccountsOf(users, userId)|] == acc
    ensures forall u :: u in users && u != userId ==> r[u] == users[u]
  {
    users[userId := UserRecord(Some(AccountsOf(users, userId) + [acc]))]
  }

  /**
   * After a push of an active account the lookup still returns the earliest
   * active account the user already had, and the new one only if there was none.
   */
  lemma PushKeepsEarliestActive(users: Users, userId: UserId, acc: Account)
    requires IsActive(acc)
    ensures GetActiveAccount(FindOne(PushAccount(users, userId, acc), userId)) ==
              var before := GetActiveAccount(FindOne(users, userId));
              if before.Some? then before else Some(acc)
  {
    FirstActiveAppend(AccountsOf(users, userId), acc);
  }

  /**
   * Nothing keeps a single account active: two pushes leave both new accounts
   * active after the user's earlier ones, and the lookup returns the earlier
   * active account if there was one, otherwise the first of the two.
   */
  lemma TwoActiveAccounts(users: Users, userId: UserId, first: Account, second: Account)
    requires IsActive(first) && IsActive(second)
    ensures var r := PushAccount(PushAccount(users, userId, first), userId, second);
            var before := GetActiveAccount(FindOne(users, userId));
            AccountsOf(r, userId) == AccountsOf(users, userId) + [first, second] &&
            GetActiveAccount(FindOne(r, userId)) == if before.Some? then before else Some(first)
  {
    var once := PushAccount(users, userId, first);
    assert AccountsOf(once, userId) == AccountsOf(users, userId) + [first];
    PushKeepsEarliestActive(users, userId, first);
    PushKeepsEarliestActive(once, userId, second);
  }
}
