/** The service helpers: avatar assignment and the decision part of
    fetching users from the remote endpoint. The request itself and the
    JSON decoding are outside the model; their outcome is an input. */
module UserService {
  import opened Wrappers
  import opened Decimal
  import opened Users

  /** The avatar picture number, `Math.floor(Math.random() * 70) + 1`. */
  type AvatarIndex = n: int | 1 <= n <= 70 witness 1

  /** Turns a draw `r` of `Math.random()`, which lies in [0, 1), into a
      picture number, computed on exact reals. */
  function DrawToIndex(r: real): (n: AvatarIndex)
    requires 0.0 <= r < 1.0
    ensures (n - 1) as real <= r * 70.0 < n as real
  {
    (r * 70.0).Floor + 1
  }

  const AvatarPrefix := "https://i.pravatar.cc/150?img="

  /** The avatar address for picture number `n`. */
  function AvatarUrl(n: AvatarIndex): (url: string)
    ensures |url| > |AvatarPrefix| && url[..|AvatarPrefix|] == AvatarPrefix
  {
    AvatarPrefix + NatToString(n)
  }

  /** The addresses the service hands out: the prefix followed by the
      shortest decimal numeral of a number from 1 to 70. */
  predicate IsAvatarUrl(s: string) {
    |s| > |AvatarPrefix| && s[..|AvatarPrefix|] == AvatarPrefix &&
    AllDigits(s[|AvatarPrefix|..]) && s[|AvatarPrefix|] != '0' &&
    1 <= Value(s[|AvatarPrefix|..]) <= 70
  }

  /** The picture number an avatar address names. */
  function PictureOf(s: string): AvatarIndex
    requires IsAvatarUrl(s)
  {
    Value(s[|AvatarPrefix|..])
  }

  /** Every address built is a well-formed, non-empty avatar address, and
      it names exactly the picture it was built from. */
  lemma AvatarUrlWellFormed(n: AvatarIndex)
    ensures IsAvatarUrl(AvatarUrl(n)) && AvatarUrl(n) != ""
    ensures PictureOf(AvatarUrl(n)) == n
  {
    var url := AvatarUrl(n);
    assert url[|AvatarPrefix|..] == NatToString(n);
    ValueOfNatToString(n);
  }

  /** `assignRandomAvatar`: the record with an avatar for picture `n` added. */
  function AssignRandomAvatar(u: RawUser, n: AvatarIndex): (r: User)
    ensures Strip(r) == u
    ensures r.avatar == AvatarUrl(n)
  {
    User(u.id, u.name, u.username, u.email, u.phone, u.website, u.address, u.company,
         AvatarUrl(n))
  }

  /** Assigning an avatar keeps every other field and always yields an
      avatar address that names the drawn picture. */
  lemma AssignRandomAvatarSpec(u: RawUser, n: AvatarIndex)
    ensures var r := AssignRandomAvatar(u, n);
      r.id == u.id && r.name == u.name && r.username == u.username && r.email == u.email &&
      r.phone == u.phone && r.website == u.website && r.address == u.address &&
      r.company == u.company &&
      IsAvatarUrl(r.avatar) && r.avatar != "" && PictureOf(r.avatar) == n
  {
    AvatarUrlWellFormed(n);
  }

  /** The body of a response, as `response.json()` resolves or rejects. */
  datatype Body = Decoded(records: seq<RawUser>) | Undecodable(message: string)

  /** A completed HTTP response: its `ok` flag, its status and its body. */
  datatype Response = Response(ok: bool, status: nat, body: Body)

  /** What the transport's `fetch` produced: a response, or a rejection
      with an error message. */
  datatype Transport = Delivered(response: Response) | TransportFailure(message: string)

  /** The message of the error thrown for a response that is not ok. */
  function HttpErrorMessage(status: nat): (m: string)
    ensures |m| > 5 && m[..5] == "HTTP "
    ensures AllDigits(m[5..]) && Value(m[5..]) == status
    ensures m[5] == '0' ==> status == 0 && m == "HTTP 0"
  {
    var m := "HTTP " + NatToString(status);
    assert m[5..] == NatToString(status);
    ValueOfNatToString(status);
    m
  }

  /** The message tells the status: different statuses give different messages. */
  lemma HttpErrorMessageInjective(s1: nat, s2: nat)
    requires HttpErrorMessage(s1) == HttpErrorMessage(s2)
    ensures s1 == s2
  {
    assert NatToString(s1) == HttpErrorMessage(s1)[5..];
    assert NatToString(s2) == HttpErrorMessage(s2)[5..];
    NatToStringInjective(s1, s2);
  }

  /** `fetchUsersFromApi`: rejects with the transport's error, with
      `HTTP {status}` for a response that is not ok (its body is then never
      read), with the decoder's error for an undecodable body, and
      otherwise resolves to the decoded records as they are. */
  function FetchUsersFromApi(t: Transport): (r: Result<seq<RawUser>, string>)
    ensures r.Ok? <==> t.Delivered? && t.response.ok && t.response.body.Decoded?
    ensures r.Ok? ==> r.value == t.response.body.records
    ensures t.Delivered? && !t.response.ok ==> r == Err(HttpErrorMessage(t.response.status))
    ensures t.TransportFailure? ==> r == Err(t.message)
    ensures t.Delivered? && t.response.ok && t.response.body.Undecodable? ==>
              r == Err(t.response.body.message)
  {
    match t
    case TransportFailure(msg) => Err(msg)
    case Delivered(resp) =>
      if !resp.ok then Err(HttpErrorMessage(resp.status))
      else match resp.body
        case Undecodable(msg) => Err(msg)
        case Decoded(records) => Ok(records)
  }
}
