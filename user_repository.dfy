/** The users collection as a map from username to user, and the check-then-insert that keeps
    usernames unique. */
module UserRepository {
  import opened Results
  import opened Models
  import opened Requests

  const UsernameDoesNotExist: string := "username does not exist"
  const UsernameAlreadyExists: string := "username already exists"

  type Users = map<string, User>

  /** `FindOne` on `username`. */
  function UserNamed(users: Users, username: string): (r: Result<User>)
    ensures r.Ok? <==> username in users
    ensures r.Ok? ==> r.value == users[username]
    ensures r.Err? ==> r.error == UsernameDoesNotExist
  {
    if username in users then Ok(users[username]) else Err(UsernameDoesNotExist)
  }

  /** `CreateOne`: the stored model copies the username and password only, so its role is the
      empty string whatever the request asked for. */
  function CreateOneEffect(users: Users, req: RegisterRequest): (r: (Users, Result<User>))
    ensures req.username in users ==> r == (users, Err(UsernameAlreadyExists))
    ensures req.username !in users ==>
      && r.1 == Ok(User(req.username, req.password, ""))
      && UserNamed(r.0, req.username) == r.1
      && r.0.Keys == users.Keys + {req.username}
    ensures forall name :: name in users ==> name in r.0 && r.0[name] == users[name]
  {
    if req.username in users then (users, Err(UsernameAlreadyExists))
    else
      var created := User(req.username, req.password, "");
      (users[req.username := created], Ok(created))
  }

  /** Registering a name twice fails the second time and leaves the first user in place. */
  lemma SecondRegistrationFails(users: Users, first: RegisterRequest, second: RegisterRequest)
    requires first.username == second.username
    ensures var after := CreateOneEffect(users, first).0;
      CreateOneEffect(after, second) == (after, Err(UsernameAlreadyExists))
  {
  }

  class UserEntity {
    var users: Users

    /** Each user is stored under its own username. */
    ghost predicate Valid()
      reads this
    {
      forall name :: name in users ==> users[name].username == name
    }

    constructor ()
      ensures Valid() && users == map[]
    {
      users := map[];
    }

    method FindOneByUsername(username: string) returns (r: Result<User>)
      ensures r == UserNamed(users, username)
    {
      if username !in users {
        return Err(UsernameDoesNotExist);
      }
      return Ok(users[username]);
    }

    method CreateOne(req: RegisterRequest) returns (r: Result<User>)
      requires Valid()
      modifies this
      ensures Valid()
      ensures (users, r) == CreateOneEffect(old(users), req)
    {
      var userModel := User(req.username, req.password, "");
      var existing := FindOneByUsername(req.username);
      // the only error the lookup reports is "username does not exist"
      if existing.Ok? {
        return Err(UsernameAlreadyExists);
      }
      users := users[req.username := userModel];
      return Ok(userModel);
    }
  }
}
