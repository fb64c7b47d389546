/**
 * The database behind accounts/models.py: the users, addresses, patients, doctors and
 * authtoken tables, with the constraints the schema enforces (primary keys, the unique
 * username index, one-to-one foreign keys, the pincode column width) and the inserts and
 * cascading delete that signup and account deletion perform on them.
 */
module Store {
  import opened Wrappers
  import opened Models

  /** A keyword argument value passed to a model manager's `create` call. */
  datatype Value = Str(s: string) | File(name: string) | Nested(address: Address)

  /** The User fields `create` passes as keyword arguments to `create_user`. */
  const UserFieldNames: set<string> := {"username", "email", "first_name", "last_name", "user_type", "profile_picture"}

  /** A text keyword argument, or the column default "" when it is absent. */
  function StrArg(kwargs: map<string, Value>, key: string): string {
    if key in kwargs && kwargs[key].Str? then kwargs[key].s else ""
  }

  /** The row `create_user(password=..., **kwargs)` stores: `is_active` defaults to true. */
  function UserFromKwargs(id: UserId, kwargs: map<string, Value>, passwordHash: string): User {
    User(
      id,
      StrArg(kwargs, "username"),
      StrArg(kwargs, "email"),
      StrArg(kwargs, "first_name"),
      StrArg(kwargs, "last_name"),
      StrArg(kwargs, "user_type"),
      true,
      passwordHash,
      if "profile_picture" in kwargs && kwargs["profile_picture"].File? then Some(kwargs["profile_picture"].name) else None)
  }

  predicate UsernameTaken(users: map<UserId, User>, name: string) {
    exists id :: id in users && users[id].username == name
  }

  predicate EmailTaken(users: map<UserId, User>, email: string) {
    exists id :: id in users && users[id].email == email
  }

  ghost predicate DistinctUsernames(users: map<UserId, User>) {
    forall a, b :: a in users && b in users && a != b ==> users[a].username != users[b].username
  }

  /** `Token.key` is the token table's primary key: no two users share a key. */
  ghost predicate DistinctTokenKeys(tokens: map<UserId, string>) {
    forall a, b :: a in tokens && b in tokens && a != b ==> tokens[a] != tokens[b]
  }

  ghost predicate DistinctEmails(users: map<UserId, User>) {
    forall a, b :: a in users && b in users && a != b ==> users[a].email != users[b].email
  }

  /** The tables as signup leaves them: distinct emails, and each user has its address and the
      one profile its role selects. */
  ghost predicate CompleteTables(users: map<UserId, User>, addresses: map<UserId, Address>,
                                 patients: set<UserId>, doctors: set<UserId>) {
    && DistinctEmails(users)
    && forall id :: id in users ==>
         && id in addresses
         && IsUserType(users[id].userType)
         && (id in patients <==> users[id].userType == "patient")
         && (id in doctors <==> users[id].userType == "doctor")
  }

  /** Adding a user with a fresh id and an unused email, its address, and the profile its role
      selects keeps the tables complete. */
  lemma {:induction false} SignupKeepsTablesComplete(users: map<UserId, User>, addresses: map<UserId, Address>,
                                                      patients: set<UserId>, doctors: set<UserId>,
                                                      id: UserId, u: User, a: Address)
    requires patients <= users.Keys && doctors <= users.Keys
    requires id !in users && !EmailTaken(users, u.email) && IsUserType(u.userType)
    ensures CompleteTables(users, addresses, patients, doctors) ==>
              CompleteTables(users[id := u], addresses[id := a],
                             if u.userType == "patient" then patients + {id} else patients,
                             if u.userType == "doctor" then doctors + {id} else doctors)
  {
    if CompleteTables(users, addresses, patients, doctors) {
      var users' := users[id := u];
      forall x, y | x in users' && y in users' && x != y ensures users'[x].email != users'[y].email {
        if x == id {
          assert users[y].email == users'[y].email;
        } else if y == id {
          assert users[x].email == users'[x].email;
        }
      }
    }
  }

  class AccountStore {
    var users: map<UserId, User>
    /** `Address.user` is a one-to-one key, so a map from the owner holds at most one address per user. */
    var addresses: map<UserId, Address>
    var patients: set<UserId>
    var doctors: set<UserId>
    /** `Token.user` is a one-to-one key: at most one token key per user. */
    var tokens: map<UserId, string>
    /** The next value of the users table's id sequence. */
    var nextId: UserId

    /** What the schema itself enforces. */
    ghost predicate Valid()
      reads this
    {
      && (forall id :: id in users ==> users[id].id == id && id < nextId)
      && addresses.Keys <= users.Keys
      && patients <= users.Keys
      && doctors <= users.Keys
      && tokens.Keys <= users.Keys
      && (forall id :: id in addresses ==> |addresses[id].pincode| <= PincodeMaxLength)
      && DistinctUsernames(users)
      && DistinctTokenKeys(tokens)
    }

    /** A key `GetOrCreateToken` may hand to `id`: either `id` already has a token, or no other
        user holds this key. */
    ghost predicate KeyUsable(id: UserId, key: string)
      reads this
    {
      id in tokens || key !in tokens.Values
    }

    /** What signup adds on top of the schema, once every account in the store has been created
        by it: distinct emails, and each user has its address and the one profile its role selects. */
    ghost predicate Complete()
      reads this
    {
      Valid() && CompleteTables(users, addresses, patients, doctors)
    }

    function AddressOf(id: UserId): (a: Option<Address>)
      reads this
      ensures a.Some? <==> id in addresses
      ensures a.Some? ==> a.value == addresses[id]
    {
      if id in addresses then Some(addresses[id]) else None
    }

    constructor ()
      ensures Complete()
      ensures users == map[] && addresses == map[] && patients == {} && doctors == {} && tokens == map[]
    {
      users, addresses, patients, doctors, tokens := map[], map[], {}, {}, map[];
      nextId := 1;
    }

    /** `User.objects.create_user(password=..., **kwargs)`: one insert into the users table. */
    method InsertUser(kwargs: map<string, Value>, passwordHash: string) returns (id: UserId)
      requires Valid()
      requires kwargs.Keys <= UserFieldNames && "username" in kwargs
      requires !UsernameTaken(users, StrArg(kwargs, "username"))
      modifies this
      ensures Valid()
      ensures id == old(nextId) && id !in old(users) && nextId == old(nextId) + 1
      ensures users == old(users)[id := UserFromKwargs(id, kwargs, passwordHash)]
      ensures addresses == old(addresses) && patients == old(patients) && doctors == old(doctors)
      ensures tokens == old(tokens)
    {
      id := nextId;
      users := users[id := UserFromKwargs(id, kwargs, passwordHash)];
      nextId := nextId + 1;
    }

    /** `Address.objects.create(user=user, **fields)`. */
    method InsertAddress(id: UserId, a: Address)
      requires Valid()
      requires id in users && id !in addresses && |a.pincode| <= PincodeMaxLength
      modifies this`addresses
      ensures Valid()
      ensures addresses == old(addresses)[id := a]
    {
      addresses := addresses[id := a];
    }

    /** `Patient.objects.create(user=user)`. */
    method InsertPatient(id: UserId)
      requires Valid() && id in users && id !in patients
      modifies this`patients
      ensures Valid()
      ensures patients == old(patients) + {id}
    {
      patients := patients + {id};
    }

    /** `Doctor.objects.create(user=user)`. */
    method InsertDoctor(id: UserId)
      requires Valid() && id in users && id !in doctors
      modifies this`doctors
      ensures Valid()
      ensures doctors == old(doctors) + {id}
    {
      doctors := doctors + {id};
    }

    /** `Token.objects.get_or_create(user=user)`: an existing key is returned untouched,
        otherwise `freshKey` (the generated key) is stored. */
    method GetOrCreateToken(id: UserId, freshKey: string) returns (key: string)
      requires Valid() && id in users && KeyUsable(id, freshKey)
      modifies this`tokens
      ensures Valid()
      ensures tokens == if id in old(tokens) then old(tokens) else old(tokens)[id := freshKey]
      ensures id in tokens && key == tokens[id]
      ensures id in old(tokens) ==> key == old(tokens)[id]
    {
      if id in tokens {
        key := tokens[id];
      } else {
        key := freshKey;
        tokens := tokens[id := key];
      }
    }

    /** Deleting a user: `on_delete=CASCADE` on the address, both profiles and the token. */
    method DeleteUser(id: UserId)
      requires Valid()
      modifies this
      ensures Valid()
      ensures users == old(users) - {id} && addresses == old(addresses) - {id}
      ensures patients == old(patients) - {id} && doctors == old(doctors) - {id}
      ensures tokens == old(tokens) - {id} && nextId == old(nextId)
      ensures old(Complete()) ==> Complete()
    {
      users := users - {id};
      addresses := addresses - {id};
      patients := patients - {id};
      doctors := doctors - {id};
      tokens := tokens - {id};
    }
  }

  /** In a complete store every user has exactly one role profile, and never both. */
  lemma CompleteMeansOneProfile(store: AccountStore, id: UserId)
    requires store.Complete() && id in store.users
    ensures id in store.addresses
    ensures (id in store.patients) != (id in store.doctors)
  {
    UserTypeChoicesAre(store.users[id].userType);
  }
}
