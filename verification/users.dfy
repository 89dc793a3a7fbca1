/**
 * The user store: the `users` list, the `currentUser` slot, the profile
 * update form and the administrator's verification upsert.
 */
module Users {
  import opened Wrappers
  import opened Js
  import opened Http
  import opened RecordCache
  import opened Auth

  /** The fields `updateUser` may put into its multipart form, in the order
      it appends them. */
  const UpdateFields: seq<string> := ["fullName", "email", "password", "role", "avatar", "document"]

  /** `data.<key> !== undefined && data.<key> !== null`, and for the
      password also `!== ''`. */
  predicate Included(data: Object, key: string)
  {
    var v := Get(data, key);
    v != Undefined && v != Null && (key == "password" ==> v != Str(""))
  }

  /** One conditional `formData.append(key, data[key])`. */
  function AppendIfIncluded(entries: seq<(string, Value)>, data: Object, key: string): seq<(string, Value)>
  {
    if Included(data, key) then entries + [(key, Get(data, key))] else entries
  }

  /** The entries of the form `updateUser` submits. */
  function UpdateUserForm(data: Object): (entries: seq<(string, Value)>)
    ensures |entries| <= |UpdateFields|
    ensures forall i :: 0 <= i < |entries| ==>
              entries[i].0 in UpdateFields && Included(data, entries[i].0) && entries[i].1 == Get(data, entries[i].0)
  {
    var e := AppendIfIncluded([], data, "fullName");
    var e := AppendIfIncluded(e, data, "email");
    var e := AppendIfIncluded(e, data, "password");
    var e := AppendIfIncluded(e, data, "role");
    var e := AppendIfIncluded(e, data, "avatar");
    AppendIfIncluded(e, data, "document")
  }

  /** Reference meaning of the form: the listed fields that are included,
      in list order, each with the caller's value. */
  function IncludedEntries(keys: seq<string>, data: Object): (entries: seq<(string, Value)>)
  {
    if keys == [] then []
    else
      (if Included(data, keys[0]) then [(keys[0], Get(data, keys[0]))] else []) +
      IncludedEntries(keys[1..], data)
  }

  /** Some entry of the form carries the field `key`. */
  predicate Sends(entries: seq<(string, Value)>, key: string)
  {
    exists i :: 0 <= i < |entries| && entries[i].0 == key
  }

  /** A field is in the reference form iff it is listed and included; each
      entry carries the caller's value. */
  lemma {:induction false} IncludedEntriesFields(keys: seq<string>, data: Object)
    ensures forall key :: Sends(IncludedEntries(keys, data), key) <==> key in keys && Included(data, key)
    ensures forall i :: 0 <= i < |IncludedEntries(keys, data)| ==>
              IncludedEntries(keys, data)[i].1 == Get(data, IncludedEntries(keys, data)[i].0)
  {
    if keys != [] {
      IncludedEntriesFields(keys[1..], data);
      var tail := IncludedEntries(keys[1..], data);
      assert keys == [keys[0]] + keys[1..];
      if Included(data, keys[0]) {
        var entries := [(keys[0], Get(data, keys[0]))] + tail;
        assert entries == IncludedEntries(keys, data);
        forall key ensures Sends(entries, key) <==> key in keys && Included(data, key)
        {
          if key in keys && Included(data, key) {
            if key == keys[0] {
              assert entries[0].0 == key;
            } else {
              assert key in keys[1..];
              assert Sends(tail, key);
              var i :| 0 <= i < |tail| && tail[i].0 == key;
              assert entries[1 + i] == tail[i];
            }
          }
          if i :| 0 <= i < |entries| && entries[i].0 == key {
            if i > 0 {
              assert entries[i] == tail[i - 1];
              assert Sends(tail, key);
            }
          }
        }
        forall i | 0 <= i < |entries| ensures entries[i].1 == Get(data, entries[i].0) {
          if i > 0 {
            assert entries[i] == tail[i - 1];
          }
        }
      } else {
        assert tail == IncludedEntries(keys, data);
        forall key ensures Sends(tail, key) <==> key in keys && Included(data, key)
        {
          assert key in keys <==> key == keys[0] || key in keys[1..];
        }
      }
    }
  }

  /** One conditional append is one step of the reference form. */
  lemma AppendStep(e: seq<(string, Value)>, data: Object, keys: seq<string>)
    requires keys != []
    ensures e + IncludedEntries(keys, data) == AppendIfIncluded(e, data, keys[0]) + IncludedEntries(keys[1..], data)
  {
  }

  /** The six conditional appends build exactly the reference form: a field
      is sent iff it is neither `undefined` nor `null` (nor, for the
      password, empty), with the caller's value, in the fixed order. */
  lemma UpdateUserFormFields(data: Object)
    ensures UpdateUserForm(data) == IncludedEntries(UpdateFields, data)
    ensures forall key :: Sends(UpdateUserForm(data), key) <==> key in UpdateFields && Included(data, key)
    ensures forall i :: 0 <= i < |UpdateUserForm(data)| ==>
              UpdateUserForm(data)[i].1 == Get(data, UpdateUserForm(data)[i].0)
  {
    var f := UpdateFields;
    var e0: seq<(string, Value)> := [];
    AppendStep(e0, data, f);
    var e1 := AppendIfIncluded(e0, data, "fullName");
    AppendStep(e1, data, f[1..]);
    var e2 := AppendIfIncluded(e1, data, "email");
    AppendStep(e2, data, f[2..]);
    assert f[2..][1..] == f[3..];
    var e3 := AppendIfIncluded(e2, data, "password");
    AppendStep(e3, data, f[3..]);
    assert f[3..][1..] == f[4..];
    var e4 := AppendIfIncluded(e3, data, "role");
    AppendStep(e4, data, f[4..]);
    assert f[4..][1..] == f[5..];
    var e5 := AppendIfIncluded(e4, data, "avatar");
    AppendStep(e5, data, f[5..]);
    assert f[5..][1..] == [];
    var e6 := AppendIfIncluded(e5, data, "document");
    assert e6 == UpdateUserForm(data);
    assert e0 + IncludedEntries(f, data) == e6;
    IncludedEntriesFields(UpdateFields, data);
  }

  /** An empty password is left out, so an untouched password box never
      resets the password. */
  lemma EmptyPasswordNotSent(data: Object)
    requires Get(data, "password") == Str("")
    ensures !Sends(UpdateUserForm(data), "password")
  {
  }

  class UserStore {
    var users: seq<Record>
    var currentUser: Option<Record>

    constructor ()
      ensures users == [] && currentUser == None
    {
      users := [];
      currentUser := None;
    }

    /** `getAllUsers`: the list becomes the server's. */
    method GetAllUsers(response: Response<seq<Record>>) returns (r: Result<seq<Record>>)
      modifies this
      ensures currentUser == old(currentUser)
      ensures response.Ok? ==> r == Success(response.payload) && users == response.payload
      ensures response.Err? ==> r == Failure(DefaultMessage(Operation.LoadUsers)) && users == old(users)
    {
      if response.Ok? {
        users := response.payload;
        r := Success(response.payload);
      } else {
        r := Failure(DefaultMessage(Operation.LoadUsers));
      }
    }

    /** `getCurrentUser`: without a token no request is made; with one, a
        failure clears `currentUser` and yields `null` instead of throwing. */
    method GetCurrentUser(authData: Option<AuthData>, response: Response<Record>) returns (r: Option<Record>)
      modifies this
      ensures users == old(users)
      ensures currentUser == r
      ensures r.Some? <==> LoggedIn(authData) && response.Ok?
      ensures r.Some? ==> r.value == response.payload
    {
      if !LoggedIn(authData) {
        currentUser := None;
        return None;
      }
      if response.Ok? {
        currentUser := Some(response.payload);
        r := Some(response.payload);
      } else {
        currentUser := None;
        r := None;
      }
    }

    /** `getUserById`: reloads the whole list (which replaces `users`) and
        picks the first user with that id; a missing user and a failed load
        throw the same fixed error. */
    method GetUserById(userId: Id, response: Response<seq<Record>>) returns (r: Result<Record>)
      modifies this
      ensures currentUser == old(currentUser)
      ensures response.Ok? ==> users == response.payload
      ensures response.Err? ==> users == old(users)
      ensures r.Success? <==> response.Ok? && HasId(response.payload, userId)
      ensures r.Success? ==> exists j :: IsFirstMatch(response.payload, userId, j) &&
                                         r.value == response.payload[j]
      ensures r.Failure? ==> r.error == DefaultMessage(Operation.LoadUser)
    {
      var all := GetAllUsers(response);
      if all.Failure? {
        return Failure(DefaultMessage(Operation.LoadUser));
      }
      var user := FindFirst(all.value, userId);
      if user.None? {
        return Failure(DefaultMessage(Operation.LoadUser));
      }
      r := Success(user.value);
    }

    /** `updateUser`: submits the form; `currentUser` takes the server's
        record when it is that user; the list is never touched. */
    method UpdateUser(userId: Id, data: Object, response: Response<Record>)
      returns (r: Result<Record>, sent: seq<(string, Value)>)
      modifies this
      ensures sent == UpdateUserForm(data)
      ensures users == old(users)
      ensures response.Ok? ==> r == Success(response.payload) &&
                               (if old(currentUser).Some? && old(currentUser).value.id == userId
                                then currentUser == Some(response.payload)
                                else currentUser == old(currentUser))
      ensures response.Err? ==> r == Failure(DefaultMessage(Operation.UpdateUser)) && currentUser == old(currentUser)
    {
      sent := UpdateUserForm(data);
      if response.Err? {
        return Failure(DefaultMessage(Operation.UpdateUser)), sent;
      }
      if currentUser.Some? && currentUser.value.id == userId {
        currentUser := Some(response.payload);
      }
      r := Success(response.payload);
    }

    /** `verifyUser`: the verified record replaces the first user with that
        id, or is pushed when there is none; `currentUser` takes it when it
        is that user. */
    method VerifyUser(userId: Id, response: Response<Record>) returns (r: Result<Record>)
      modifies this
      ensures response.Ok? ==> r == Success(response.payload) &&
                               users == Upsert(old(users), userId, response.payload) &&
                               (if old(currentUser).Some? && old(currentUser).value.id == userId
                                then currentUser == Some(response.payload)
                                else currentUser == old(currentUser))
      ensures response.Err? ==> r == Failure(ErrorFor(response.message, Operation.VerifyUser)) &&
                                users == old(users) && currentUser == old(currentUser)
    {
      if response.Err? {
        return Failure(ErrorFor(response.message, Operation.VerifyUser));
      }
      var verified := response.payload;
      var index := FindIndex(users, userId);
      if index != -1 {
        users := users[index := verified];
      } else {
        users := users + [verified];
      }
      if currentUser.Some? && currentUser.value.id == userId {
        currentUser := Some(verified);
      }
      r := Success(verified);
    }
  }
}
