/**
 * The user registry: registration with unique usernames and e-mails, profile updates,
 * blocking, and the login lookup that refuses blocked accounts. The repository is the
 * sequence of stored users; lookups return the first stored match.
 */
module Users {
  import opened Common
  import opened Entities
  import opened Dtos

  datatype UserError =
    | UserNotFound       // findById, findByUsername, update, toggleBlockUser
    | UsernameTaken
    | EmailRegistered
    | UnknownUsername    // loadUserByUsername on an unknown name
    | AccountBlocked     // loadUserByUsername on an inactive account

  /** What the login lookup hands to the authentication layer. */
  datatype UserData = UserData(id: Uuid, username: string, password: string, role: Role, active: bool)

  /** The repository queries used here: by id, by username, by e-mail. */
  datatype Key = ById(id: Uuid) | ByUsername(username: string) | ByEmail(email: string)

  predicate Matches(u: User, key: Key) {
    match key
    case ById(id) => u.id == id
    case ByUsername(n) => u.username == n
    case ByEmail(m) => u.email == m
  }

  /** `existsBy…`: some stored user matches the key. */
  predicate Taken(users: seq<User>, key: Key) {
    exists i :: 0 <= i < |users| && Matches(users[i], key)
  }

  /** The position of the first stored user that matches the key. */
  function Find(users: seq<User>, key: Key): (r: Option<nat>)
    ensures r.None? <==> !Taken(users, key)
    ensures r.Some? ==> r.value < |users| && Matches(users[r.value], key)
    ensures r.Some? ==> forall j :: 0 <= j < r.value ==> !Matches(users[j], key)
  {
    if users == [] then None
    else if Matches(users[0], key) then Some(0)
    else
      var rest := Find(users[1..], key);
      if rest.None? then None else Some(rest.value + 1)
  }

  /** `findById`. */
  function FindById(users: seq<User>, id: Uuid): (r: Result<User, UserError>)
    ensures r.Ok? <==> Taken(users, ById(id))
    ensures r.Ok? ==> r.value in users && r.value.id == id
    ensures r.Err? ==> r.error == UserNotFound
  {
    var i := Find(users, ById(id));
    if i.None? then Err(UserNotFound) else Ok(users[i.value])
  }

  /** `findByUsername`. */
  function FindByUsername(users: seq<User>, username: string): (r: Result<User, UserError>)
    ensures r.Ok? <==> Taken(users, ByUsername(username))
    ensures r.Ok? ==> r.value in users && r.value.username == username
    ensures r.Err? ==> r.error == UserNotFound
  {
    var i := Find(users, ByUsername(username));
    if i.None? then Err(UserNotFound) else Ok(users[i.value])
  }

  /** `loadUserByUsername`: unknown names and blocked accounts are refused. */
  function LoadUserByUsername(users: seq<User>, username: string): (r: Result<UserData, UserError>)
    ensures !Taken(users, ByUsername(username)) ==> r == Err(UnknownUsername)
    ensures r.Ok? ==>
      exists u :: u in users && u.username == username && u.active
        && r.value == UserData(u.id, username, u.password, u.role, true)
    ensures Taken(users, ByUsername(username)) && !users[Find(users, ByUsername(username)).value].active ==>
      r == Err(AccountBlocked)
  {
    var i := Find(users, ByUsername(username));
    if i.None? then Err(UnknownUsername)
    else
      var u := users[i.value];
      if !u.active then Err(AccountBlocked)
      else Ok(UserData(u.id, username, u.password, u.role, u.active))
  }

  /** No two stored users share an id. */
  ghost predicate UniqueIds(users: seq<User>) {
    forall i, j :: 0 <= i < j < |users| ==> users[i].id != users[j].id
  }

  /** No two stored users share a username or an e-mail, as registration enforces. */
  ghost predicate UniqueCredentials(users: seq<User>) {
    forall i, j :: 0 <= i < j < |users| ==>
      users[i].username != users[j].username && users[i].email != users[j].email
  }

  /** The repository after `toggleBlockUser(id)`: that user's active flag is flipped. */
  function Toggled(users: seq<User>, id: Uuid): (r: seq<User>)
    ensures |r| == |users|
    ensures !Taken(users, ById(id)) ==> r == users
    ensures Taken(users, ById(id)) ==>
      var i := Find(users, ById(id)).value;
      && r[i] == users[i].(active := !users[i].active)
      && forall j :: 0 <= j < |users| && j != i ==> r[j] == users[j]
  {
    var i := Find(users, ById(id));
    if i.None? then users else users[i.value := users[i.value].(active := !users[i.value].active)]
  }

  /**
   * The repository after `update(id, form)`: that user's username, name and age are taken
   * from the form; id, e-mail, password, role, active flag and creation time stay.
   */
  function Updated(users: seq<User>, id: Uuid, dto: UserDTO): (r: seq<User>)
    ensures |r| == |users|
    ensures !Taken(users, ById(id)) ==> r == users
    ensures Taken(users, ById(id)) ==>
      var i := Find(users, ById(id)).value;
      && r[i].username == dto.username && r[i].name == dto.name && r[i].age == dto.age
      && r[i].id == users[i].id && r[i].email == users[i].email && r[i].password == users[i].password
      && r[i].role == users[i].role && r[i].active == users[i].active && r[i].createdAt == users[i].createdAt
      && forall j :: 0 <= j < |users| && j != i ==> r[j] == users[j]
  {
    var i := Find(users, ById(id));
    if i.None? then users
    else users[i.value := users[i.value].(username := dto.username, name := dto.name, age := dto.age)]
  }

  /** Matching by id is blind to every other field. */
  lemma {:induction false} FindByIdIgnoresOtherFields(users: seq<User>, users': seq<User>, id: Uuid)
    requires |users| == |users'|
    requires forall j :: 0 <= j < |users| ==> users[j].id == users'[j].id
    ensures Find(users, ById(id)) == Find(users', ById(id))
  {
    if users != [] {
      FindByIdIgnoresOtherFields(users[1..], users'[1..], id);
    }
  }

  /** Blocking twice restores the repository. */
  lemma ToggleTwiceRestores(users: seq<User>, id: Uuid)
    ensures Toggled(Toggled(users, id), id) == users
  {
    FindByIdIgnoresOtherFields(users, Toggled(users, id), id);
  }

  /** Blocking an active user, whose username is unique, makes their login fail. */
  lemma BlockedUserCannotLogIn(users: seq<User>, id: Uuid)
    requires UniqueCredentials(users)
    requires Taken(users, ById(id)) && users[Find(users, ById(id)).value].active
    ensures var u := users[Find(users, ById(id)).value];
      && LoadUserByUsername(users, u.username).Ok?
      && LoadUserByUsername(Toggled(users, id), u.username) == Err(AccountBlocked)
  {
    var i := Find(users, ById(id)).value;
    var toggled := Toggled(users, id);
    FindByIdIgnoresOtherFields(users, toggled, id);
    assert Find(users, ByUsername(users[i].username)) == Some(i);
    assert Find(toggled, ByUsername(users[i].username)) == Some(i) by {
      assert Matches(toggled[i], ByUsername(users[i].username));
    }
  }

  /** An update keeps the ids, so the repository keeps its unique ids. */
  lemma UpdateKeepsUniqueIds(users: seq<User>, id: Uuid, dto: UserDTO)
    requires UniqueIds(users)
    ensures UniqueIds(Updated(users, id, dto))
  {
  }

  class UserService {
    /** The user repository. */
    var users: seq<User>

    ghost predicate Valid()
      reads this
    {
      UniqueIds(users)
    }

    constructor ()
      ensures Valid() && users == []
    {
      users := [];
    }

    /**
     * `register`: a taken username is refused first, then a taken e-mail; otherwise a new
     * active user is appended, ADMIN when the repository was empty and USER otherwise.
     * `id`, `encodedPassword` and `now` are the generated identity, the encoder's output and
     * the clock reading.
     */
    method Register(dto: UserRegistrationDTO, id: Uuid, encodedPassword: string, now: Instant)
      returns (r: Result<User, UserError>)
      requires Valid()
      requires !Taken(users, ById(id))
      modifies this
      ensures Valid()
      ensures Taken(old(users), ByUsername(dto.username)) ==>
        r == Err(UsernameTaken) && users == old(users)
      ensures !Taken(old(users), ByUsername(dto.username)) && Taken(old(users), ByEmail(dto.email)) ==>
        r == Err(EmailRegistered) && users == old(users)
      ensures !Taken(old(users), ByUsername(dto.username)) && !Taken(old(users), ByEmail(dto.email)) ==>
        && r.Ok?
        && r.value == User(id, dto.username, dto.email, encodedPassword,
                           if |old(users)| == 0 then ADMIN else USER, None, None, true, now)
        && users == old(users) + [r.value]
      ensures old(UniqueCredentials(users)) ==> UniqueCredentials(users)
    {
      if Find(users, ByUsername(dto.username)).Some? {
        return Err(UsernameTaken);
      }
      if Find(users, ByEmail(dto.email)).Some? {
        return Err(EmailRegistered);
      }
      var role := if |users| == 0 then ADMIN else USER;
      var user := User(id, dto.username, dto.email, encodedPassword, role, None, None, true, now);
      users := users + [user];
      r := Ok(user);
      assert forall j :: 0 <= j < |users| - 1 ==> !Matches(users[j], ById(id));
      assert forall j :: 0 <= j < |users| - 1 ==> !Matches(users[j], ByUsername(dto.username));
      assert forall j :: 0 <= j < |users| - 1 ==> !Matches(users[j], ByEmail(dto.email));
    }

    /** `update(id, form)`: UserNotFound for an unknown id. */
    method Update(id: Uuid, dto: UserDTO) returns (r: Result<(), UserError>)
      requires Valid()
      modifies this
      ensures Valid()
      ensures r.Err? <==> !Taken(old(users), ById(id))
      ensures r.Err? ==> r.error == UserNotFound
      ensures users == Updated(old(users), id, dto)
    {
      var i := Find(users, ById(id));
      if i.None? {
        return Err(UserNotFound);
      }
      users := users[i.value := users[i.value].(username := dto.username, name := dto.name, age := dto.age)];
      r := Ok(());
    }

    /** `toggleBlockUser(id)`: UserNotFound for an unknown id. */
    method ToggleBlockUser(id: Uuid) returns (r: Result<(), UserError>)
      requires Valid()
      modifies this
      ensures Valid()
      ensures r.Err? <==> !Taken(old(users), ById(id))
      ensures r.Err? ==> r.error == UserNotFound
      ensures users == Toggled(old(users), id)
    {
      var found := FindById(users, id);
      if found.Err? {
        return Err(UserNotFound);
      }
      var i := Find(users, ById(id)).value;
      users := users[i := users[i].(active := !users[i].active)];
      r := Ok(());
    }
  }
}
