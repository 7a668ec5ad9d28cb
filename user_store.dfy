/** The user store: the collection of users plus the fetch lifecycle flags,
    and the actions that change them. Each action's state updater is a
    function on `seq<User>`; the `Store` class holds the three fields and
    its methods overwrite them. */
module UserStore {
  import opened Wrappers
  import opened Decimal
  import opened Users
  import opened UserService

  predicate HasId(users: seq<User>, id: int) {
    exists i :: 0 <= i < |users| && users[i].id == id
  }

  predicate UniqueIds(users: seq<User>) {
    forall i, j :: 0 <= i < j < |users| ==> users[i].id != users[j].id
  }

  /** The same condition on the records as they arrive from the remote
      endpoint, before any avatar is attached; `FetchedWellFormedIff`
      relates the two. */
  predicate UniqueRawIds(data: seq<RawUser>) {
    forall i, j :: 0 <= i < j < |data| ==> data[i].id != data[j].id
  }

  predicate AvatarsWellFormed(users: seq<User>) {
    forall i :: 0 <= i < |users| ==> IsAvatarUrl(users[i].avatar)
  }

  /** The two invariants the local actions keep: ids are unique and every
      avatar is an address the avatar service hands out. */
  predicate WellFormed(users: seq<User>) {
    UniqueIds(users) && AvatarsWellFormed(users)
  }

  // ---------------------------------------------------------------------
  // addUser

  /** `Math.max(0, ...users.map(u => u.id))`: the largest id, or 0 when
      there is none (or none is positive). */
  function MaxId(users: seq<User>): (m: int)
    ensures m >= 0
    ensures forall i :: 0 <= i < |users| ==> users[i].id <= m
    ensures m == 0 || HasId(users, m)
  {
    if users == [] then 0
    else
      var rest := MaxId(users[1..]);
      if users[0].id > rest then users[0].id
      else
        assert rest != 0 ==> exists j :: 1 <= j < |users| && users[j].id == rest by {
          if rest != 0 {
            var j :| 0 <= j < |users[1..]| && users[1..][j].id == rest;
            assert users[j + 1].id == rest;
          }
        }
        rest
  }

  /** The user `addUser(fields)` creates in a store holding `users`, when
      the avatar draw is `n`: a fresh id one above the largest (1 in an
      empty store), the caller's fields, and the avatar for picture `n`. */
  function CreatedUser(users: seq<User>, fields: NewUser, n: AvatarIndex): (u: User)
    ensures users == [] ==> u.id == 1
    ensures u.id >= 1 && !HasId(users, u.id)
    ensures forall i :: 0 <= i < |users| ==> users[i].id < u.id
    ensures u.id - 1 == 0 || HasId(users, u.id - 1)
    ensures u.name == fields.name && u.username == fields.username && u.email == fields.email
    ensures u.phone == fields.phone && u.website == fields.website
    ensures u.address == fields.address && u.company == fields.company
    ensures IsAvatarUrl(u.avatar) && PictureOf(u.avatar) == n
  {
    AvatarUrlWellFormed(n);
    User(MaxId(users) + 1, fields.name, fields.username, fields.email, fields.phone,
         fields.website, fields.address, fields.company, AvatarUrl(n))
  }

  /** Appending the created user keeps the store well formed. */
  lemma AddKeepsWellFormed(users: seq<User>, fields: NewUser, n: AvatarIndex)
    requires WellFormed(users)
    ensures WellFormed(users + [CreatedUser(users, fields, n)])
  {
  }

  /** Two additions in a row get consecutive ids. */
  lemma {:induction false} AddTwiceConsecutiveIds(users: seq<User>, f1: NewUser, n1: AvatarIndex,
                                                  f2: NewUser, n2: AvatarIndex)
    ensures var first := CreatedUser(users, f1, n1);
            CreatedUser(users + [first], f2, n2).id == first.id + 1
  {
    var first := CreatedUser(users, f1, n1);
    var later := users + [first];
    assert later[|users|] == first;
    assert forall i :: 0 <= i < |later| ==> later[i].id <= first.id;
  }

  // ---------------------------------------------------------------------
  // updateUser

  /** `users.map(u => u.id === id ? { ...u, ...patch } : u)`. */
  function UpdatedUsers(users: seq<User>, id: int, patch: UserPatch): (r: seq<User>)
    ensures |r| == |users|
    ensures forall i :: 0 <= i < |users| ==>
              r[i] == if users[i].id == id then Merge(users[i], patch) else users[i]
  {
    if users == [] then []
    else
      [if users[0].id == id then Merge(users[0], patch) else users[0]]
        + UpdatedUsers(users[1..], id, patch)
  }

  /** Updating an id that no user has changes nothing. */
  lemma UpdateMissingIsNoOp(users: seq<User>, id: int, patch: UserPatch)
    requires !HasId(users, id)
    ensures UpdatedUsers(users, id, patch) == users
  {
  }

  /** Two updates of one id are one update with the composed patch. */
  lemma UpdateCompose(users: seq<User>, id: int, p: UserPatch, q: UserPatch)
    ensures UpdatedUsers(UpdatedUsers(users, id, p), id, q) == UpdatedUsers(users, id, Compose(p, q))
  {
    forall i | 0 <= i < |users|
      ensures UpdatedUsers(UpdatedUsers(users, id, p), id, q)[i] == UpdatedUsers(users, id, Compose(p, q))[i]
    {
      MergeCompose(users[i], p, q);
    }
  }

  /** An update keeps every id in its place, so it keeps ids unique; it
      keeps avatars well formed unless the patch writes a foreign avatar. */
  lemma UpdateKeepsWellFormed(users: seq<User>, id: int, patch: UserPatch)
    requires WellFormed(users)
    requires patch.avatar.Set? ==> IsAvatarUrl(patch.avatar.value)
    ensures WellFormed(UpdatedUsers(users, id, patch))
  {
  }

  // ---------------------------------------------------------------------
  // deleteUser

  /** `users.filter(u => u.id !== id)`. */
  function DeletedUsers(users: seq<User>, id: int): (r: seq<User>)
    ensures |r| <= |users|
    ensures forall u :: u in r <==> u in users && u.id != id
  {
    if users == [] then []
    else (if users[0].id == id then [] else [users[0]]) + DeletedUsers(users[1..], id)
  }

  /** Deleting distributes over concatenation: the survivors keep their
      relative order. */
  lemma {:induction false} DeleteConcat(a: seq<User>, b: seq<User>, id: int)
    ensures DeletedUsers(a + b, id) == DeletedUsers(a, id) + DeletedUsers(b, id)
  {
    if a == [] {
      assert a + b == b;
    } else {
      assert (a + b)[1..] == a[1..] + b;
      DeleteConcat(a[1..], b, id);
    }
  }

  /** Deleting an id that no user has changes nothing. */
  lemma {:induction false} DeleteMissingIsNoOp(users: seq<User>, id: int)
    requires !HasId(users, id)
    ensures DeletedUsers(users, id) == users
  {
    if users != [] {
      DeleteMissingIsNoOp(users[1..], id);
    }
  }

  /** In a store with unique ids, deleting a present id removes exactly
      one user: the others stay, in order. */
  lemma {:induction false} DeleteOneOfUnique(users: seq<User>, k: nat)
    requires UniqueIds(users) && k < |users|
    ensures DeletedUsers(users, users[k].id) == users[..k] + users[k + 1..]
  {
    var id := users[k].id;
    if k == 0 {
      assert !HasId(users[1..], id);
      DeleteMissingIsNoOp(users[1..], id);
    } else {
      assert users[1..][k - 1] == users[k];
      DeleteOneOfUnique(users[1..], k - 1);
      assert users[1..][..k - 1] == users[1..k];
      assert users[1..][k..] == users[k + 1..];
      assert users[..k] == [users[0]] + users[1..k];
    }
  }

  /** Deleting keeps the store well formed. */
  lemma {:induction false} DeleteKeepsWellFormed(users: seq<User>, id: int)
    requires WellFormed(users)
    ensures WellFormed(DeletedUsers(users, id))
  {
    var r := DeletedUsers(users, id);
    if users != [] {
      assert WellFormed(users[1..]);
      DeleteKeepsWellFormed(users[1..], id);
      var rest := DeletedUsers(users[1..], id);
      forall j | 0 <= j < |rest| ensures rest[j].id != users[0].id {
        assert rest[j] in users[1..];
        var k :| 0 <= k < |users[1..]| && users[1..][k] == rest[j];
        assert users[k + 1] == rest[j];
      }
    }
    forall i | 0 <= i < |r| ensures IsAvatarUrl(r[i].avatar) {
      assert r[i] in users;
    }
  }

  // ---------------------------------------------------------------------
  // fetchUsers

  /** The fetched records, each with the avatar of its own draw. */
  function WithAvatars(data: seq<RawUser>, draws: seq<AvatarIndex>): (r: seq<User>)
    requires |draws| == |data|
    ensures |r| == |data|
    ensures forall i :: 0 <= i < |r| ==> Strip(r[i]) == data[i] && r[i].avatar == AvatarUrl(draws[i])
  {
    seq(|data|, i requires 0 <= i < |data| => AssignRandomAvatar(data[i], draws[i]))
  }

  /** Enriching keeps the records, their number and their order (removing
      the avatars gives the fetched records back), and every avatar is
      a well-formed address naming its draw. */
  lemma WithAvatarsSpec(data: seq<RawUser>, draws: seq<AvatarIndex>)
    requires |draws| == |data|
    ensures |WithAvatars(data, draws)| == |data|
    ensures AvatarsWellFormed(WithAvatars(data, draws))
    ensures forall i :: 0 <= i < |data| ==>
              Strip(WithAvatars(data, draws)[i]) == data[i] &&
              PictureOf(WithAvatars(data, draws)[i].avatar) == draws[i]
  {
    forall i | 0 <= i < |data|
      ensures IsAvatarUrl(AvatarUrl(draws[i])) && PictureOf(AvatarUrl(draws[i])) == draws[i]
    {
      AvatarUrlWellFormed(draws[i]);
    }
  }

  /** A fetched collection is well formed exactly when the remote ids are
      unique: the store itself does not renumber fetched records. */
  lemma FetchedWellFormedIff(data: seq<RawUser>, draws: seq<AvatarIndex>)
    requires |draws| == |data|
    ensures WellFormed(WithAvatars(data, draws)) <==> UniqueRawIds(data)
  {
    WithAvatarsSpec(data, draws);
    var r := WithAvatars(data, draws);
    assert forall i :: 0 <= i < |data| ==> r[i].id == data[i].id;
  }

  /** The `forEach` of the store's fetch: gives each decoded record the
      avatar of its own draw, one record after the other. */
  method AttachAvatars(data: seq<RawUser>, draws: seq<AvatarIndex>) returns (out: seq<User>)
    requires |draws| == |data|
    ensures out == WithAvatars(data, draws)
  {
    out := [];
    var i := 0;
    while i < |data|
      invariant 0 <= i <= |data|
      invariant |out| == i
      invariant forall k :: 0 <= k < i ==> out[k] == AssignRandomAvatar(data[k], draws[k])
    {
      var u := data[i];
      var avatar := AvatarPrefix + NatToString(draws[i]);
      out := out + [User(u.id, u.name, u.username, u.email, u.phone, u.website,
                         u.address, u.company, avatar)];
      i := i + 1;
    }
  }

  /** The number of avatar draws a fetch consumes: one per decoded record
      of an ok response, none otherwise. */
  function DrawCount(t: Transport): (k: nat)
    ensures k > 0 ==> t.Delivered? && t.response.ok && t.response.body.Decoded?
  {
    match t
    case Delivered(Response(true, _, Decoded(records))) => |records|
    case _ => 0
  }

  // ---------------------------------------------------------------------
  // The store

  class Store {
    var users: seq<User>
    var loading: bool
    var error: Option<string>

    ghost predicate WellFormedState()
      reads this
    {
      WellFormed(users)
    }

    /** The initial state: no users, not loading, no error. */
    constructor ()
      ensures users == [] && !loading && error == None
    {
      users, loading, error := [], false, None;
    }

    /** `clear`: the initial state again, whatever the state was; so
        clearing twice is clearing once. */
    method Clear()
      modifies this
      ensures users == [] && !loading && error == None
    {
      users, error, loading := [], None, false;
    }

    /** `addUser`: appends the created user; nothing else changes. */
    method AddUser(fields: NewUser, n: AvatarIndex)
      modifies this
      ensures users == old(users) + [CreatedUser(old(users), fields, n)]
      ensures loading == old(loading) && error == old(error)
      ensures old(WellFormedState()) ==> WellFormedState()
    {
      var maxId := MaxId(users);
      var newUser := User(maxId + 1, fields.name, fields.username, fields.email, fields.phone,
                          fields.website, fields.address, fields.company,
                          AvatarPrefix + NatToString(n));
      if WellFormed(users) { AddKeepsWellFormed(users, fields, n); }
      users := users + [newUser];
    }

    /** `updateUser`: merges the patch into every user with that id. */
    method UpdateUser(id: int, patch: UserPatch)
      modifies this
      ensures users == UpdatedUsers(old(users), id, patch)
      ensures loading == old(loading) && error == old(error)
      ensures (old(WellFormedState()) && (patch.avatar.Set? ==> IsAvatarUrl(patch.avatar.value)))
                ==> WellFormedState()
    {
      if WellFormed(users) && (patch.avatar.Set? ==> IsAvatarUrl(patch.avatar.value)) {
        UpdateKeepsWellFormed(users, id, patch);
      }
      users := UpdatedUsers(users, id, patch);
    }

    /** `deleteUser`: drops every user with that id. */
    method DeleteUser(id: int)
      modifies this
      ensures users == DeletedUsers(old(users), id)
      ensures loading == old(loading) && error == old(error)
      ensures old(WellFormedState()) ==> WellFormedState()
    {
      if WellFormed(users) { DeleteKeepsWellFormed(users, id); }
      users := DeletedUsers(users, id);
    }

    /** The first half of `fetchUsers`: loading, no error, users untouched. */
    method BeginFetch()
      modifies this
      ensures loading && error == None && users == old(users)
    {
      loading, error := true, None;
    }

    /** The success half of `fetchUsers`: commits the enriched records and
        stops loading; `error` is not written. */
    method CompleteFetchOk(data: seq<RawUser>, draws: seq<AvatarIndex>)
      requires |draws| == |data|
      modifies this
      ensures users == WithAvatars(data, draws) && !loading && error == old(error)
      ensures WellFormedState() <==> UniqueRawIds(data)
    {
      var enriched := AttachAvatars(data, draws);
      FetchedWellFormedIff(data, draws);
      users, loading := enriched, false;
    }

    /** The failure half of `fetchUsers`: records the message, empties the
        collection and stops loading. */
    method CompleteFetchErr(msg: string)
      modifies this
      ensures users == [] && !loading && error == Some(msg)
    {
      error, loading, users := Some(msg), false, [];
    }

    /** `fetchUsers` run to completion against the transport outcome `t`,
        with `draws` the avatar draws of the success path. Its own status
        check and avatar loop give what the service's `fetchUsersFromApi`
        followed by `assignRandomAvatar` on each record gives. */
    method FetchUsers(t: Transport, draws: seq<AvatarIndex>)
      requires |draws| == DrawCount(t)
      modifies this
      ensures !loading
      ensures match FetchUsersFromApi(t)
        case Ok(records) => users == WithAvatars(records, draws) && error == None
        case Err(msg) => users == [] && error == Some(msg)
    {
      BeginFetch();
      match t
      case TransportFailure(msg) =>
        CompleteFetchErr(msg);
      case Delivered(res) =>
        if !res.ok {
          CompleteFetchErr("HTTP " + NatToString(res.status));
        } else {
          match res.body
          case Undecodable(msg) =>
            CompleteFetchErr(msg);
          case Decoded(data) =>
            CompleteFetchOk(data, draws);
        }
    }
  }
}
