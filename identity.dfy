/** Resolving the caller: the signed-in identity's subject is matched against the
    users' external ids with a uniqueness-checked index lookup. */
module Identity {
  import opened Wrappers
  import opened Records

  const NoCurrentUser := "Can't get current user"
  /** The leading text of the error a uniqueness-checked lookup throws when several rows
      match; the query details the platform appends are not modelled. */
  const NotUnique := "unique() query returned more than one result"

  /** The ids of the users whose external id is `externalId`. */
  function WithExternalId(users: map<UserId, User>, externalId: string): set<UserId> {
    set id | id in users && users[id].externalId == externalId
  }

  /** No two users share an external id. */
  ghost predicate UniqueExternalIds(users: map<UserId, User>) {
    forall a, b :: a in users && b in users && users[a].externalId == users[b].externalId ==> a == b
  }

  /** `userByExternalId`: no match is null, one match is that user, several matches throw. */
  function UserByExternalId(users: map<UserId, User>, externalId: string): (r: Result<Option<UserId>>)
    ensures r == Ok(None) <==> WithExternalId(users, externalId) == {}
    ensures r.Ok? && r.value.Some? ==> WithExternalId(users, externalId) == {r.value.value}
    ensures r.Err? <==> |WithExternalId(users, externalId)| > 1
    ensures r.Err? ==> r.msg == NotUnique
    ensures UniqueExternalIds(users) ==> r.Ok?
  {
    var matching := WithExternalId(users, externalId);
    if matching == {} then Ok(None)
    else if exists id :: id in matching && matching == {id} then
      var id :| id in matching && matching == {id};
      Ok(Some(id))
    else
      var a :| a in matching;
      assert matching - {a} != {};
      var b :| b in matching - {a};
      var others := matching - {a, b};
      assert matching == others + {a, b} && others * {a, b} == {};
      assert |{a, b}| == 2;
      assert !UniqueExternalIds(users);
      Err(NotUnique)
  }

  /** `getCurrentUser`: null without an identity, else the user whose external id is
      the identity's subject. */
  function CurrentUser(users: map<UserId, User>, subject: Option<string>): Result<Option<UserId>> {
    match subject
    case None => Ok(None)
    case Some(s) => UserByExternalId(users, s)
  }

  /** `getCurrentUserOrThrow`. */
  function CurrentUserOrThrow(users: map<UserId, User>, subject: Option<string>): Result<UserId> {
    match CurrentUser(users, subject)
    case Err(e) => Err(e)
    case Ok(None) => Err(NoCurrentUser)
    case Ok(Some(id)) => Ok(id)
  }

  /** With unique external ids, the caller resolves exactly when there is an identity
      and a user carries its subject; that user is then the caller, and otherwise the
      error is "Can't get current user". */
  lemma CurrentUserOrThrowSpec(users: map<UserId, User>, subject: Option<string>)
    requires UniqueExternalIds(users)
    ensures var r := CurrentUserOrThrow(users, subject);
      && (r.Ok? <==> subject.Some? && exists id :: id in users && users[id].externalId == subject.value)
      && (r.Ok? ==> r.value in users && users[r.value].externalId == subject.value)
      && (r.Err? ==> r.msg == NoCurrentUser)
  {
    if subject.Some? {
      var r := UserByExternalId(users, subject.value);
      if r.Ok? && r.value.Some? {
        assert r.value.value in WithExternalId(users, subject.value);
      }
      if exists id :: id in users && users[id].externalId == subject.value {
        var id :| id in users && users[id].externalId == subject.value;
        assert id in WithExternalId(users, subject.value);
      }
    }
  }
}
