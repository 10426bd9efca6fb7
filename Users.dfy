/** The user directory of the mock service layer: an in-memory list of
    accounts, looked up by id or e-mail and changed by create (with derived
    avatar and owner counters), merge-update, delete and verify. */
module Users {
  import opened Common

  /** The kind of account. */
  datatype Role = Renter | Owner | Admin

  /** An account of the directory. The counters exist for owners only. */
  datatype User = User(
    id: int,
    name: string,
    email: string,
    role: Role,
    avatar: string,
    phone: string,
    verified: bool,
    documents: seq<string>,
    memberSince: string,
    boatsCount: Option<int>,
    totalRevenue: Option<int>)

  /** What the sign-up flow supplies to create an account. */
  datatype NewUser = NewUser(name: string, email: string, role: Role, phone: string)

  /** An update: the id of the account and any subset of its other fields. */
  datatype UserPatch = UserPatch(
    id: int,
    name: Option<string>,
    email: Option<string>,
    role: Option<Role>,
    avatar: Option<string>,
    phone: Option<string>,
    verified: Option<bool>,
    documents: Option<seq<string>>,
    memberSince: Option<string>,
    boatsCount: Option<Option<int>>,
    totalRevenue: Option<Option<int>>)

  const UserNotFound: string := "User not found"

  // ---------------------------------------------------------------------
  // The avatar: initials of the space-separated parts of the name
  // ---------------------------------------------------------------------

  /** `s.split(c)`: the pieces between occurrences of `c`; an empty string
      gives one empty piece, and neighbouring separators an empty piece. */
  function Split(s: string, c: char): (parts: seq<string>)
    ensures |parts| >= 1
  {
    if |s| == 0 then [""]
    else
      var rest := Split(s[1..], c);
      if s[0] == c then [""] + rest else [[s[0]] + rest[0]] + rest[1..]
  }

  /** `parts.join(c)`. */
  function Join(parts: seq<string>, c: char): (s: string)
    requires |parts| >= 1
    ensures |s| >= |parts| - 1
  {
    if |parts| == 1 then parts[0] else parts[0] + [c] + Join(parts[1..], c)
  }

  /** No piece of a split holds the separator. */
  lemma {:induction false} SplitPiecesHaveNoSeparator(s: string, c: char)
    ensures forall i :: 0 <= i < |Split(s, c)| ==> c !in Split(s, c)[i]
  {
    if |s| > 0 {
      SplitPiecesHaveNoSeparator(s[1..], c);
    }
  }

  /** Joining the pieces of a split gives back the string. */
  lemma {:induction false} JoinSplit(s: string, c: char)
    ensures Join(Split(s, c), c) == s
  {
    if |s| > 0 {
      JoinSplit(s[1..], c);
      var rest := Split(s[1..], c);
      if s[0] != c {
        if |rest| > 1 {
          assert Split(s, c)[1..] == rest[1..];
        }
      }
    }
  }

  /** A prefix without the separator stays glued to the first piece. */
  lemma {:induction false} SplitPrefix(p: string, t: string, c: char)
    requires c !in p
    ensures Split(p + t, c) == [p + Split(t, c)[0]] + Split(t, c)[1..]
  {
    if |p| > 0 {
      var pieces := Split(t, c);
      SplitPrefix(p[1..], t, c);
      assert (p + t)[0] == p[0] && (p + t)[1..] == p[1..] + t;
      var rest := Split(p[1..] + t, c);
      assert rest == [p[1..] + pieces[0]] + pieces[1..];
      assert rest[0] == p[1..] + pieces[0] && rest[1..] == pieces[1..];
      assert [p[0]] + (p[1..] + pieces[0]) == p + pieces[0];
    } else {
      var pieces := Split(t, c);
      assert p + t == t && p + pieces[0] == pieces[0];
      assert pieces == [pieces[0]] + pieces[1..];
    }
  }

  /** Splitting the join of pieces without the separator gives the pieces. */
  lemma {:induction false} SplitJoin(parts: seq<string>, c: char)
    requires |parts| >= 1
    requires forall i :: 0 <= i < |parts| ==> c !in parts[i]
    ensures Split(Join(parts, c), c) == parts
  {
    if |parts| == 1 {
      SplitPrefix(parts[0], "", c);
      assert parts[0] + "" == parts[0];
    } else {
      var rest := Join(parts[1..], c);
      SplitJoin(parts[1..], c);
      SplitPrefix(parts[0], [c] + rest, c);
      assert parts[0] + [c] + rest == parts[0] + ([c] + rest);
      assert ([c] + rest)[1..] == rest;
      assert parts[0] + "" == parts[0];
      assert parts == [parts[0]] + parts[1..];
    }
  }

  /** A piece of a split that has a first character. */
  predicate NonEmpty(piece: string)
  {
    piece != ""
  }

  /** `parts.map(n => n[0]).join('')`: the first character of each piece,
      where an empty piece contributes nothing (its `n[0]` is undefined,
      which `join` writes as the empty string). */
  function Initials(parts: seq<string>): (r: string)
    ensures |r| == |Filter(parts, NonEmpty)| <= |parts|
    ensures forall k :: 0 <= k < |r| ==> Filter(parts, NonEmpty)[k] != "" && r[k] == Filter(parts, NonEmpty)[k][0]
    ensures (forall i :: 0 <= i < |parts| ==> parts[i] != "") ==>
              |r| == |parts| && forall i :: 0 <= i < |parts| ==> r[i] == parts[i][0]
  {
    if parts == [] then ""
    else
      var last := parts[|parts| - 1];
      FilterMembers(parts, NonEmpty);
      Initials(parts[..|parts| - 1]) + (if last == "" then "" else [last[0]])
  }

  /** The avatar of a new account: the upper-cased first character of every
      non-empty space-separated piece of its name, in order. */
  function Avatar(name: string): (r: string)
    ensures |r| == |Filter(Split(name, ' '), NonEmpty)| <= |Split(name, ' ')|
    ensures forall k :: 0 <= k < |r| ==>
              Filter(Split(name, ' '), NonEmpty)[k] != "" && r[k] == UpperChar(Filter(Split(name, ' '), NonEmpty)[k][0])
  {
    Upper(Initials(Split(name, ' ')))
  }

  /** For a name made of non-empty words separated by single spaces, the
      avatar has one letter per word: the upper-cased first letter. */
  lemma AvatarOfWords(words: seq<string>)
    requires |words| >= 1
    requires forall i :: 0 <= i < |words| ==> words[i] != "" && ' ' !in words[i]
    ensures |Avatar(Join(words, ' '))| == |words|
    ensures forall i :: 0 <= i < |words| ==> Avatar(Join(words, ' '))[i] == UpperChar(words[i][0])
  {
    SplitJoin(words, ' ');
  }

  // ---------------------------------------------------------------------
  // Records
  // ---------------------------------------------------------------------

  /** The key accounts are looked up by. */
  function UserId(u: User): int
  {
    u.id
  }

  /** The counters an account starts with: zero for owners, absent otherwise. */
  function StartCounter(role: Role): (r: Option<int>)
    ensures r.Some? <==> role == Owner
    ensures r.Some? ==> r.value == 0
  {
    if role == Owner then Some(0) else None
  }

  /** `{...u, ...p}`: every field the patch carries overrides the account's. */
  function Merge(u: User, p: UserPatch): (r: User)
    ensures r.id == p.id
  {
    User(
      p.id,
      p.name.GetOr(u.name),
      p.email.GetOr(u.email),
      p.role.GetOr(u.role),
      p.avatar.GetOr(u.avatar),
      p.phone.GetOr(u.phone),
      p.verified.GetOr(u.verified),
      p.documents.GetOr(u.documents),
      p.memberSince.GetOr(u.memberSince),
      p.boatsCount.GetOr(u.boatsCount),
      p.totalRevenue.GetOr(u.totalRevenue))
  }

  /** The directory after the account at `i` is marked verified. */
  function VerifyAt(us: seq<User>, i: nat): (r: seq<User>)
    requires i < |us|
    ensures |r| == |us|
    ensures r[i].verified
    ensures r[i] == us[i].(verified := true)
    ensures forall j :: 0 <= j < |us| ==> r[j].id == us[j].id
    ensures forall j :: 0 <= j < |us| && j != i ==> r[j] == us[j]
  {
    us[i := us[i].(verified := true)]
  }

  /** Verifying an account a second time finds the same account and leaves
      the directory as the first verification left it. */
  lemma VerifyIsIdempotent(us: seq<User>, id: int)
    requires IndexOf(us, UserId, id) >= 0
    ensures var i := IndexOf(us, UserId, id);
            IndexOf(VerifyAt(us, i), UserId, id) == i && VerifyAt(VerifyAt(us, i), i) == VerifyAt(us, i)
  {
    var i := IndexOf(us, UserId, id);
    var once := VerifyAt(us, i);
    assert once[i].id == id;
    assert forall j :: 0 <= j < i ==> once[j].id != id;
  }

  class UserService {
    var users: seq<User>

    constructor(initial: seq<User>)
      ensures users == initial
    {
      users := initial;
    }

    /** getUsers: a copy of the directory. */
    function GetUsers(): (r: seq<User>)
      reads this
      ensures |r| == |users| && forall i :: 0 <= i < |r| ==> r[i] == users[i]
    {
      users
    }

    /** getUserById: the first account with that id, or null. */
    function GetUserById(id: int): (r: Option<User>)
      reads this
      ensures r.None? <==> forall u :: u in users ==> u.id != id
      ensures r.Some? ==> r.value == users[IndexOf(users, UserId, id)]
    {
      Find(users, (u: User) => u.id == id)
    }

    /** getUserByEmail: the first account with that e-mail, or null. */
    function GetUserByEmail(email: string): (r: Option<User>)
      reads this
      ensures r.None? <==> forall u :: u in users ==> u.email != email
      ensures r.Some? ==> r.value.email == email &&
                          exists i :: FirstMatch(users, (u: User) => u.email == email, i) && users[i] == r.value
    {
      Find(users, (u: User) => u.email == email)
    }

    /** createUser: appends an unverified account without documents under
        the next id after the largest. */
    method CreateUser(dto: NewUser, memberSince: string) returns (u: User)
      requires |users| > 0
      modifies this
      ensures users == old(users) + [u]
      ensures u.id == MaxOf(Keys(old(users), UserId)) + 1
      ensures forall x :: x in old(users) ==> x.id < u.id
      ensures !u.verified && u.documents == []
      ensures u.avatar == Avatar(dto.name)
      ensures u.boatsCount == StartCounter(dto.role) && u.totalRevenue == StartCounter(dto.role)
      ensures u.name == dto.name && u.email == dto.email && u.role == dto.role && u.phone == dto.phone
      ensures u.memberSince == memberSince
    {
      var ids := Keys(users, UserId);
      var newId := MaxOf(ids) + 1;
      forall x | x in users
        ensures x.id < newId
      {
        var i :| 0 <= i < |users| && users[i] == x;
        assert ids[i] == x.id && ids[i] in ids;
      }
      u := User(newId, dto.name, dto.email, dto.role, Avatar(dto.name), dto.phone, false, [],
        memberSince, StartCounter(dto.role), StartCounter(dto.role));
      users := users + [u];
    }

    /** updateUser: merges the patch into the account with that id. */
    method UpdateUser(dto: UserPatch) returns (r: Result<User>)
      modifies this
      ensures var i := IndexOf(old(users), UserId, dto.id);
        && (i == -1 ==> r == Err(UserNotFound) && users == old(users))
        && (i >= 0 ==> r == Ok(Merge(old(users)[i], dto)) && users == old(users)[i := r.value])
      ensures |users| == |old(users)|
    {
      var index := IndexOf(users, UserId, dto.id);
      if index == -1 {
        r := Err(UserNotFound);
        return;
      }
      var updated := Merge(users[index], dto);
      users := users[index := updated];
      r := Ok(updated);
    }

    /** deleteUser: removes the first account with that id; false if none. */
    method DeleteUser(id: int) returns (ok: bool)
      modifies this
      ensures ok <==> exists u :: u in old(users) && u.id == id
      ensures var i := IndexOf(old(users), UserId, id);
        && (i == -1 ==> users == old(users))
        && (i >= 0 ==> users == RemoveAt(old(users), i))
      ensures ok ==> |users| == |old(users)| - 1
    {
      var index := IndexOf(users, UserId, id);
      if index == -1 {
        return false;
      }
      users := RemoveAt(users, index);
      return true;
    }

    /** verifyUser: marks the account with that id verified. */
    method VerifyUser(id: int) returns (r: Result<User>)
      modifies this
      ensures var i := IndexOf(old(users), UserId, id);
        && (i == -1 ==> r == Err(UserNotFound) && users == old(users))
        && (i >= 0 ==> users == VerifyAt(old(users), i) && r == Ok(users[i]))
    {
      var index := IndexOf(users, UserId, id);
      if index == -1 {
        r := Err(UserNotFound);
        return;
      }
      users := VerifyAt(users, index);
      r := Ok(users[index]);
    }
  }
}
