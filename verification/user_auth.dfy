/**
 * The shopper's account service: registration refuses a taken name, then a
 * taken email, and draws a random six-digit user_id until it finds one no
 * user has; login looks the name up and compares password hashes; the
 * session is the pair isLoggedIn/userId in localStorage.
 */
module UserAuth {
  import opened Common
  import opened Model
  import opened DocumentStore

  const NameTaken: string := "Username not available"
  const EmailTaken: string := "Email already registered"
  const WrongName: string := "Username is incorrect"
  const WrongPassword: string := "Password is incorrect"
  /** The error an unreachable store gives. */
  const RequestFailed: string := "Http failure response"

  /** generateId: `Math.floor(100000 + random * 900000)` for a draw in [0, 1). */
  function GenerateId(random: real): (r: int)
    requires 0.0 <= random < 1.0
    ensures 100000 <= r <= 999999
  {
    assert random * 900000.0 < 900000.0;
    (100000.0 + random * 900000.0).Floor
  }

  /** The sign-up form's values. */
  datatype RegisterData = RegisterData(name: string, email: string, password: string, confirmPassword: string)

  /**
   * The record register POSTs: the form without confirmPassword, the
   * password hashed and the user_id as text; `key` is the id the store gives it.
   */
  function NewUser(data: RegisterData, key: string, hashed: string, userId: string): (r: User)
    ensures r.name == data.name && r.email == data.email && r.password == hashed && r.userId == userId
    ensures r.id == key && r.addresses == [] && r.paymentMethods == []
  {
    User(key, userId, data.name, data.email, hashed, "", "", "", [], [])
  }

  predicate NameUsed(users: seq<User>, name: string) { exists u :: u in users && u.name == name }
  predicate EmailUsed(users: seq<User>, email: string) { exists u :: u in users && u.email == email }
  predicate UserIdUsed(users: seq<User>, userId: string) { exists u :: u in users && u.userId == userId }

  /** The user_id text a draw gives. */
  function IdText(random: real): string
    requires 0.0 <= random < 1.0
  {
    NatToString(GenerateId(random))
  }

  predicate Draws(randoms: seq<real>) { forall i :: 0 <= i < |randoms| ==> 0.0 <= randoms[i] < 1.0 }

  /**
   * The first draw, from position i on, whose user_id nobody has yet (the
   * attempt whose retry chain ends); None when every draw collides.
   */
  function FirstFreeDraw(users: seq<User>, randoms: seq<real>, i: nat): (r: Option<nat>)
    requires Draws(randoms) && i <= |randoms|
    ensures r.Some? ==> i <= r.value < |randoms| && !UserIdUsed(users, IdText(randoms[r.value]))
    ensures r.Some? ==> forall j :: i <= j < r.value ==> UserIdUsed(users, IdText(randoms[j]))
    ensures r.None? ==> forall j :: i <= j < |randoms| ==> UserIdUsed(users, IdText(randoms[j]))
    decreases |randoms| - i
  {
    if i == |randoms| then None
    else if !UserIdUsed(users, IdText(randoms[i])) then Some(i)
    else FirstFreeDraw(users, randoms, i + 1)
  }

  /**
   * What register answers, given the store's users and the random draws of
   * its attempts: the name test first, then the email test, then a retry
   * for every draw whose user_id is taken. None means that every draw given
   * collided, so the retries have not finished yet.
   */
  function Registration(users: seq<User>, data: RegisterData, randoms: seq<real>, hashed: string, key: string)
    : (r: Option<Result<User>>)
    requires Draws(randoms)
  {
    if randoms == [] then None
    else if NameUsed(users, data.name) then Some(Err(NameTaken))
    else if EmailUsed(users, data.email) then Some(Err(EmailTaken))
    else
      var k := FirstFreeDraw(users, randoms, 0);
      if k.None? then None else Some(Ok(NewUser(data, key, hashed, IdText(randoms[k.value]))))
  }

  /**
   * A registration that succeeds stores a user whose name, email and
   * six-digit user_id no earlier user has, under the hash of the password.
   */
  lemma RegistrationFresh(users: seq<User>, data: RegisterData, randoms: seq<real>, hashed: string, key: string)
    requires Draws(randoms)
    requires Registration(users, data, randoms, hashed, key).Some? && Registration(users, data, randoms, hashed, key).value.Ok?
    ensures var u := Registration(users, data, randoms, hashed, key).value.value;
      !NameUsed(users, u.name) && !EmailUsed(users, u.email) && !UserIdUsed(users, u.userId) &&
      |u.userId| == 6 && AllDigits(u.userId) && u.password == hashed
  {
    var k := FirstFreeDraw(users, randoms, 0).value;
    SixDigits(GenerateId(randoms[k]));
  }

  /** A number from 100000 to 999999 is written with six digits. */
  lemma SixDigits(n: nat)
    requires 100000 <= n <= 999999
    ensures |NatToString(n)| == 6
  {
    var m1 := n / 10;
    assert 10000 <= m1 <= 99999;
    var m2 := m1 / 10;
    assert 1000 <= m2 <= 9999;
    var m3 := m2 / 10;
    assert 100 <= m3 <= 999;
    var m4 := m3 / 10;
    assert 10 <= m4 <= 99;
    var m5 := m4 / 10;
    assert 1 <= m5 <= 9;
    assert |NatToString(m5)| == 1;
    assert |NatToString(m4)| == 2;
    assert |NatToString(m3)| == 3;
    assert |NatToString(m2)| == 4;
    assert |NatToString(m1)| == 5;
  }

  /** A taken name is refused whatever the email, before any id is drawn. */
  lemma NameCheckedFirst(users: seq<User>, data: RegisterData, randoms: seq<real>, hashed: string, key: string)
    requires Draws(randoms) && randoms != [] && NameUsed(users, data.name)
    ensures Registration(users, data, randoms, hashed, key) == Some(Err(NameTaken))
  {
  }

  class UserAuthService {
    const store: Store
    const local: BrowserStorage

    constructor (store: Store, local: BrowserStorage)
      ensures this.store == store && this.local == local
    {
      this.store := store;
      this.local := local;
    }

    /**
     * register: each attempt draws a new user_id and looks up the name, the
     * email and the user_id; a taken user_id starts another attempt. The
     * draws are given in `randoms`, one per attempt; `key` is the id the
     * store gives the new record.
     */
    method Register(data: RegisterData, randoms: seq<real>, hash: string -> string, reachable: bool, key: string)
      returns (r: Option<Result<User>>)
      requires Draws(randoms)
      modifies store
      ensures !reachable && randoms != [] ==> r == Some(Err(RequestFailed))
      ensures reachable ==> r == Registration(old(store.users), data, randoms, hash(data.password), key)
      ensures r.Some? && r.value.Ok? ==> store.users == old(store.users) + [r.value.value]
      ensures !(r.Some? && r.value.Ok?) ==> store.users == old(store.users)
      ensures store.products == old(store.products) && store.orders == old(store.orders) && store.admins == old(store.admins)
    {
      var hashed := hash(data.password);
      var i := 0;
      r := None;
      while i < |randoms|
        invariant 0 <= i <= |randoms|
        invariant store.users == old(store.users) && store.products == old(store.products)
        invariant store.orders == old(store.orders) && store.admins == old(store.admins)
        invariant r == None
        invariant i > 0 ==> reachable && !NameUsed(store.users, data.name) && !EmailUsed(store.users, data.email)
        invariant FirstFreeDraw(store.users, randoms, 0) == FirstFreeDraw(store.users, randoms, i)
      {
        var generatedId := IdText(randoms[i]);
        if !reachable {
          return Some(Err(RequestFailed));
        }
        if NameUsed(store.users, data.name) {
          return Some(Err(NameTaken));
        }
        if EmailUsed(store.users, data.email) {
          return Some(Err(EmailTaken));
        }
        if !UserIdUsed(store.users, generatedId) {
          var u := NewUser(data, key, hashed, generatedId);
          store.users := store.users + [u];
          return Some(Ok(u));
        }
        i := i + 1;
      }
    }

    /**
     * login: the first user with the name must exist ('Username is
     * incorrect') and have the hash of the password ('Password is
     * incorrect'); then the session keys are stored.
     */
    method Login(name: string, password: string, hash: string -> string, reachable: bool) returns (error: Option<string>)
      modifies local
      ensures !reachable ==> error == Some(RequestFailed)
      ensures reachable && (forall u :: u in store.users ==> u.name != name) ==> error == Some(WrongName)
      ensures reachable && (exists i :: 0 <= i < |store.users| && store.users[i].name == name) ==>
        var u := store.users[FirstNamed(store.users, name)];
        (u.password != hash(password) ==> error == Some(WrongPassword)) &&
        (u.password == hash(password) ==>
          error == None &&
          local.items == old(local.items)[IsLoggedInKey := Text("true")][UserIdKey := Text(u.userId)])
      ensures error.Some? ==> local.items == old(local.items)
      ensures error.None? ==> IsLoggedIn()
    {
      if !reachable {
        return Some(RequestFailed);
      }
      if forall u :: u in store.users ==> u.name != name {
        return Some(WrongName);
      }
      var k := FirstNamed(store.users, name);
      var u := store.users[k];
      if u.password != hash(password) {
        return Some(WrongPassword);
      }
      local.SetItem(IsLoggedInKey, Text("true"));
      local.SetItem(UserIdKey, Text(u.userId));
      error := None;
    }

    /** logout: both session keys leave localStorage. */
    method Logout()
      modifies local
      ensures local.items == old(local.items) - {IsLoggedInKey} - {UserIdKey}
      ensures !IsLoggedIn()
    {
      local.RemoveItem(IsLoggedInKey);
      local.RemoveItem(UserIdKey);
    }

    /** isLoggedIn: the stored flag is exactly 'true'. */
    predicate IsLoggedIn()
      reads local
    {
      local.Holds(IsLoggedInKey, "true")
    }
  }

  /** `users.find(u => u.name === name)`, as an index; the name must be there. */
  function FirstNamed(users: seq<User>, name: string): (r: nat)
    requires exists i :: 0 <= i < |users| && users[i].name == name
    ensures r < |users| && users[r].name == name
    ensures forall j :: 0 <= j < r ==> users[j].name != name
  {
    if users[0].name == name then 0
    else
      var i :| 0 <= i < |users| && users[i].name == name;
      assert 0 <= i - 1 < |users[1..]| && users[1..][i - 1].name == name;
      1 + FirstNamed(users[1..], name)
  }
}
