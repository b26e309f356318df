/** The Clerk user-lifecycle handlers: creation, update and deletion of user records. */
module UserSync {
  import opened Prelude
  import opened Digits

  /** `event.data` of a `clerk/user.*` event; names may be `null`. */
  datatype ClerkUser = ClerkUser(
    id: UserId,
    firstName: Option<string>,
    lastName: Option<string>,
    emailAddresses: seq<string>,
    imageUrl: string)

  /** The stored user document, restricted to the fields these handlers write. */
  datatype UserRecord = UserRecord(
    id: UserId,
    email: string,
    fullName: string,
    username: string,
    profilePicture: string)

  /** `email.split("@")[0]`: the text before the first `@`, or all of it when there is none. */
  function BeforeAt(email: string): (r: string)
    ensures |r| <= |email| && r == email[..|r|]
    ensures '@' !in r
    ensures |r| < |email| ==> email[|r|] == '@'
  {
    if email == [] || email[0] == '@' then []
    else [email[0]] + BeforeAt(email[1..])
  }

  /** The usernames the stored records hold. */
  function Usernames(users: map<UserId, UserRecord>): set<string>
  {
    set id | id in users :: users[id].username
  }

  /** `User.findOne({ username })` finds a document. */
  predicate Taken(users: map<UserId, UserRecord>, username: string)
    ensures Taken(users, username) <==> exists id :: id in users && users[id].username == username
  {
    username in Usernames(users)
  }

  /** `first_name + " " + last_name`, where JavaScript renders `null` as "null". */
  function FullName(data: ClerkUser): (r: string)
    ensures var first := JsString(data.firstName);
            |r| == |first| + 1 + |JsString(data.lastName)| && r[..|first|] == first
            && r[|first|] == ' ' && r[|first| + 1..] == JsString(data.lastName)
    ensures data.firstName.None? ==> r[..4] == "null"
    ensures data.lastName.None? ==> r[|r| - 4..] == "null"
  {
    JsString(data.firstName) + " " + JsString(data.lastName)
  }

  /** `syncUserCreation`. `suffix` stands for `Math.floor(Math.random() * 10000)`.
      An event without an address makes `email_addresses[0].email_address` throw; a record
      whose `_id` already exists makes `User.create` fail on the unique `_id` index. */
  method SyncUserCreation(users: map<UserId, UserRecord>, data: ClerkUser, suffix: nat)
    returns (r: Result<map<UserId, UserRecord>>)
    requires suffix < 10000
    ensures r.Err? <==> |data.emailAddresses| == 0 || data.id in users
    ensures r.Ok? ==> r.value.Keys == users.Keys + {data.id}
    ensures r.Ok? ==> forall id :: id in users ==> r.value[id] == users[id]
    ensures r.Ok? ==> (r.value[data.id].id == data.id
                       && r.value[data.id].email == data.emailAddresses[0]
                       && r.value[data.id].fullName == FullName(data)
                       && r.value[data.id].profilePicture == data.imageUrl)
    ensures r.Ok? && !Taken(users, BeforeAt(data.emailAddresses[0])) ==>
              r.value[data.id].username == BeforeAt(data.emailAddresses[0])
    ensures r.Ok? && Taken(users, BeforeAt(data.emailAddresses[0])) ==>
              r.value[data.id].username == BeforeAt(data.emailAddresses[0]) + NatToString(suffix)
    ensures r.Ok? ==>
              (Taken(users, r.value[data.id].username) <==>
               Taken(users, BeforeAt(data.emailAddresses[0]))
               && Taken(users, BeforeAt(data.emailAddresses[0]) + NatToString(suffix)))
  {
    if |data.emailAddresses| == 0 {
      return Err("Cannot read properties of undefined (reading 'email_address')");
    }
    var username := BeforeAt(data.emailAddresses[0]);
    if Taken(users, username) {
      username := username + NatToString(suffix);
    }
    var userData := UserRecord(data.id, data.emailAddresses[0], FullName(data), username, data.imageUrl);
    if data.id in users {
      return Err("duplicate key error on _id");
    }
    r := Ok(users[data.id := userData]);
  }

  /** `syncUserUpdation`: `findByIdAndUpdate` writes email, full name and picture only, and
      does nothing when no document has the id. */
  function SyncUserUpdation(users: map<UserId, UserRecord>, data: ClerkUser)
    : (r: Result<map<UserId, UserRecord>>)
    ensures r.Err? <==> |data.emailAddresses| == 0
    ensures r.Ok? ==> r.value.Keys == users.Keys
    ensures r.Ok? ==> forall id :: id in users ==>
              r.value[id].username == users[id].username && r.value[id].id == users[id].id
    ensures r.Ok? ==> forall id :: id in users && id != data.id ==> r.value[id] == users[id]
    ensures r.Ok? && data.id in users ==>
              r.value[data.id].email == data.emailAddresses[0]
              && r.value[data.id].fullName == FullName(data)
              && r.value[data.id].profilePicture == data.imageUrl
  {
    if |data.emailAddresses| == 0 then
      Err("Cannot read properties of undefined (reading 'email_address')")
    else if data.id !in users then Ok(users)
    else
      Ok(users[data.id := users[data.id].(email := data.emailAddresses[0],
                                          fullName := FullName(data),
                                          profilePicture := data.imageUrl)])
  }

  /** `syncUserDeletion`: `findByIdAndDelete` removes the record if there is one. */
  function SyncUserDeletion(users: map<UserId, UserRecord>, id: UserId)
    : (r: map<UserId, UserRecord>)
    ensures id !in r && r.Keys == users.Keys - {id}
    ensures forall k :: k in r ==> r[k] == users[k]
  {
    users - {id}
  }
}
