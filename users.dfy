/** The user record of the directory and the record shapes derived from it:
    the record as the remote source sends it (no avatar), the fields a
    caller supplies to create one (no id, no avatar), and a partial update
    (any field but the id). */
module Users {
  import opened Wrappers

  /** `address` and `company` are key/value bags the store never looks
      into; their contents are carried along unchanged. */
  type Bag = map<string, string>

  /** A directory entry held by the store. Optional properties are `Option`s. */
  datatype User = User(
    id: int,
    name: string,
    username: string,
    email: string,
    phone: Option<string>,
    website: Option<string>,
    address: Option<Bag>,
    company: Option<Bag>,
    avatar: string)

  /** A user as decoded from the remote endpoint: a `User` without `avatar`. */
  datatype RawUser = RawUser(
    id: int,
    name: string,
    username: string,
    email: string,
    phone: Option<string>,
    website: Option<string>,
    address: Option<Bag>,
    company: Option<Bag>)

  /** What a caller passes to create a user: a `User` without `id` and `avatar`. */
  datatype NewUser = NewUser(
    name: string,
    username: string,
    email: string,
    phone: Option<string>,
    website: Option<string>,
    address: Option<Bag>,
    company: Option<Bag>)

  /** One property of a partial update: absent from the update object, or
      present with a value (for an optional property the value may itself be
      `undefined`, i.e. `Set(None)`). */
  datatype Field<+T> = Keep | Set(value: T)

  function Apply<T>(f: Field<T>, current: T): (r: T)
    ensures f.Keep? ==> r == current
    ensures f.Set? ==> r == f.value
  {
    match f
    case Keep => current
    case Set(v) => v
  }

  /** A partial update: every property of `User` except `id`. */
  datatype UserPatch = UserPatch(
    name: Field<string>,
    username: Field<string>,
    email: Field<string>,
    phone: Field<Option<string>>,
    website: Field<Option<string>>,
    address: Field<Option<Bag>>,
    company: Field<Option<Bag>>,
    avatar: Field<string>)

  const NoChange := UserPatch(Keep, Keep, Keep, Keep, Keep, Keep, Keep, Keep)

  /** `{ ...user, ...patch }`: every property present in the patch overrides
      the user's, every other property and the id are the user's own. */
  function Merge(u: User, p: UserPatch): (r: User)
    ensures r.id == u.id
    ensures r.name == Apply(p.name, u.name) && r.username == Apply(p.username, u.username)
    ensures r.email == Apply(p.email, u.email) && r.phone == Apply(p.phone, u.phone)
    ensures r.website == Apply(p.website, u.website) && r.address == Apply(p.address, u.address)
    ensures r.company == Apply(p.company, u.company) && r.avatar == Apply(p.avatar, u.avatar)
  {
    User(u.id,
         Apply(p.name, u.name), Apply(p.username, u.username), Apply(p.email, u.email),
         Apply(p.phone, u.phone), Apply(p.website, u.website),
         Apply(p.address, u.address), Apply(p.company, u.company),
         Apply(p.avatar, u.avatar))
  }

  /** Merging a patch with no properties gives the user back. */
  lemma MergeNoChange(u: User)
    ensures Merge(u, NoChange) == u
  {
  }

  /** One property of two successive updates: the later one wins where it
      is present. */
  function Then<T>(first: Field<T>, second: Field<T>): Field<T> {
    if second.Set? then second else first
  }

  /** The patch that does what `p` followed by `q` does. */
  function Compose(p: UserPatch, q: UserPatch): UserPatch {
    UserPatch(Then(p.name, q.name), Then(p.username, q.username), Then(p.email, q.email),
              Then(p.phone, q.phone), Then(p.website, q.website),
              Then(p.address, q.address), Then(p.company, q.company),
              Then(p.avatar, q.avatar))
  }

  /** Merging twice is merging once with the composed patch. */
  lemma MergeCompose(u: User, p: UserPatch, q: UserPatch)
    ensures Merge(Merge(u, p), q) == Merge(u, Compose(p, q))
  {
  }

  /** The property `f` of a patch leaves `v` as it is. */
  predicate Leaves<T(==)>(f: Field<T>, v: T) {
    f.Keep? || f.value == v
  }

  /** A merge changes nothing exactly when every property the patch sets
      already holds the user's value. */
  lemma MergeIsNoOpIff(u: User, p: UserPatch)
    ensures Merge(u, p) == u <==>
      Leaves(p.name, u.name) && Leaves(p.username, u.username) && Leaves(p.email, u.email) &&
      Leaves(p.phone, u.phone) && Leaves(p.website, u.website) &&
      Leaves(p.address, u.address) && Leaves(p.company, u.company) &&
      Leaves(p.avatar, u.avatar)
  {
  }

  /** A user without its avatar. */
  function Strip(u: User): (r: RawUser)
    ensures r.id == u.id
  {
    RawUser(u.id, u.name, u.username, u.email, u.phone, u.website, u.address, u.company)
  }
}
