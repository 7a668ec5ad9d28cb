/** The store's test cases replayed on the model, each on a fresh store
    cleared first as the test setup does. */
module UserStoreScenarios {
  import opened Wrappers
  import opened Decimal
  import opened Users
  import opened UserService
  import opened UserStore

  function Person(name: string, username: string, email: string): NewUser {
    NewUser(name, username, email, None, None, None, None)
  }

  const SampleUsers: seq<RawUser> := [
    RawUser(1, "Alice", "alice", "alice@example.com", None, None, None, None),
    RawUser(2, "Bob", "bob", "bob@example.com", None, None, None, None)
  ]

  /** A draw of 0.5 selects picture 36. */
  lemma HalfDrawIsPicture36()
    ensures DrawToIndex(0.5) == 36
    ensures AvatarUrl(DrawToIndex(0.5)) == "https://i.pravatar.cc/150?img=36"
  {
    assert (0.5 * 70.0).Floor == 35;
    assert NatToString(36) == NatToString(3) + [DigitChar(6)];
  }

  /** Adding to an empty store creates id 1 with the given fields and an
      avatar address. */
  method AddsUserAndIncrementsId(n: AvatarIndex) returns (created: User)
    ensures created.id == 1
    ensures created.name == "Charlie" && created.username == "charlie"
    ensures created.email == "charlie@example.com"
    ensures IsAvatarUrl(created.avatar)
  {
    var store := new Store();
    store.Clear();
    store.AddUser(Person("Charlie", "charlie", "charlie@example.com"), n);
    created := store.users[0];
  }

  /** Updating user 1's email replaces it. */
  method UpdatesExistingUser(n: AvatarIndex) returns (email: string)
    ensures email == "new@example.com"
  {
    var store := new Store();
    store.Clear();
    store.AddUser(Person("Dana", "dana", "dana@example.com"), n);
    store.UpdateUser(1, NoChange.(email := Set("new@example.com")));
    email := store.users[0].email;
  }

  /** Deleting user 1 of two leaves only the second one. */
  method DeletesUserById(n1: AvatarIndex, n2: AvatarIndex) returns (remaining: seq<User>)
    ensures |remaining| == 1 && remaining[0].name == "Frank"
  {
    var store := new Store();
    store.Clear();
    store.AddUser(Person("Eve", "eve", "eve@example.com"), n1);
    store.AddUser(Person("Frank", "frank", "frank@example.com"), n2);
    assert UniqueIds(store.users) && store.users[0].id == 1;
    DeleteOneOfUnique(store.users, 0);
    store.DeleteUser(1);
    remaining := store.users;
  }

  /** An ok response with two records and draws of 0.5 yields two users,
      both with picture 36, not loading and without error. */
  method FetchesUsersAndAssignsAvatars(status: nat)
    returns (users: seq<User>, loading: bool, error: Option<string>)
    ensures !loading && error == None && |users| == 2
    ensures forall i :: 0 <= i < |users| ==> users[i].avatar == "https://i.pravatar.cc/150?img=36"
  {
    HalfDrawIsPicture36();
    var store := new Store();
    store.Clear();
    var draw := DrawToIndex(0.5);
    store.FetchUsers(Delivered(Response(true, status, Decoded(SampleUsers))), [draw, draw]);
    users, loading, error := store.users, store.loading, store.error;
  }

  /** A response with status 500 that is not ok — whatever its body —
      leaves no users, not loading, and the error `HTTP 500`. */
  method HandlesFetchErrors(body: Body)
    returns (users: seq<User>, loading: bool, error: Option<string>)
    ensures users == [] && !loading && error == Some("HTTP 500")
  {
    var store := new Store();
    store.Clear();
    store.FetchUsers(Delivered(Response(false, 500, body)), []);
    assert NatToString(50) == NatToString(5) + [DigitChar(0)];
    assert NatToString(500) == NatToString(50) + [DigitChar(0)];
    assert HttpErrorMessage(500) == "HTTP 500";
    users, loading, error := store.users, store.loading, store.error;
  }

  /** From any state, clearing once and clearing twice give the same
      empty, idle, error-free state. */
  method ClearIsIdempotent(users0: seq<User>, loading0: bool, error0: Option<string>)
    returns (once: (seq<User>, bool, Option<string>), twice: (seq<User>, bool, Option<string>))
    ensures once == twice == ([], false, None)
  {
    var store := new Store();
    store.users, store.loading, store.error := users0, loading0, error0;
    store.Clear();
    once := (store.users, store.loading, store.error);
    store.Clear();
    twice := (store.users, store.loading, store.error);
  }
}
