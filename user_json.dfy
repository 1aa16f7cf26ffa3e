/**
 * The JSON converter for users: it reads a user object into a `JiraUser`, choosing the internal
 * identifier by the user-privacy flag, and writes a user back as a one-member object holding
 * only that identifier.
 */
module UserJson {
  import opened Wrappers
  import opened Json

  /**
   * A user as the server sends it. `avatarUrls` holds the values of its avatar-URL dictionary,
   * in the dictionary's order, and is null when the dictionary is.
   */
  datatype RemoteJiraUser = RemoteJiraUser(
    accountId: Option<string>,
    displayName: Option<string>,
    emailAddress: Option<string>,
    active: bool,
    key: Option<string>,
    locale: Option<string>,
    self: Option<string>,
    name: Option<string>,
    avatarUrls: Option<seq<Option<string>>>)

  /** A user as the library hands it to callers. */
  datatype JiraUser = JiraUser(
    accountId: Option<string>,
    displayName: Option<string>,
    email: Option<string>,
    isActive: bool,
    key: Option<string>,
    locale: Option<string>,
    self: Option<string>,
    username: Option<string>,
    internalIdentifier: Option<string>,
    avatarUrl: Option<string>)

  /** The type a serializer asks the converter about. */
  datatype ObjectType = JiraUserType | OtherType(typeName: string)

  /** The value a serializer hands to `WriteJson`. */
  datatype ObjectValue = UserValue(user: JiraUser) | OtherValue(description: string)

  /** The converter handles users and nothing else. */
  function CanConvert(t: ObjectType): (r: bool)
    ensures r <==> t == JiraUserType
  {
    t.JiraUserType?
  }

  /** The member that carries a user's identifier: `accountId` under user privacy, else `name`. */
  function IdentifierKey(privacyEnabled: bool): string
  {
    if privacyEnabled then "accountId" else "name"
  }

  /** Why reading fails: the `NullReferenceException` of dereferencing a null user or a null avatar dictionary. */
  datatype ReadError = NullUser | NullAvatarUrls

  /**
   * `ReadJson`: every wire field is copied, the identifier is chosen by the flag, and the avatar
   * is the dictionary's first value. A null user, or a user whose avatar dictionary is null,
   * cannot be dereferenced, and the user is checked first.
   */
  function ReadJson(privacyEnabled: bool, remote: Option<RemoteJiraUser>): (r: Result<JiraUser, ReadError>)
    ensures remote.None? ==> r == Failure(NullUser)
    ensures remote.Some? && remote.value.avatarUrls.None? ==> r == Failure(NullAvatarUrls)
    ensures r.Success? <==> remote.Some? && remote.value.avatarUrls.Some?
    ensures r.Success? ==>
              var u, w := r.value, remote.value;
              && u.accountId == w.accountId && u.displayName == w.displayName
              && u.email == w.emailAddress && u.isActive == w.active
              && u.key == w.key && u.locale == w.locale && u.self == w.self
              && u.username == w.name
              && u.internalIdentifier == (if privacyEnabled then w.accountId else w.name)
              && u.avatarUrl == (if w.avatarUrls.value == [] then None else w.avatarUrls.value[0])
  {
    if remote.None? then Failure(NullUser)
    else
      var w := remote.value;
      if w.avatarUrls.None? then Failure(NullAvatarUrls)
      else
        var avatars := w.avatarUrls.value;
        Success(JiraUser(
          accountId := w.accountId,
          displayName := w.displayName,
          email := w.emailAddress,
          isActive := w.active,
          key := w.key,
          locale := w.locale,
          self := w.self,
          username := w.name,
          internalIdentifier := IdentifierOf(privacyEnabled, w),
          avatarUrl := if avatars == [] then None else avatars[0]))
  }

  /** The field the identifier is read from, chosen by the flag. */
  function IdentifierOf(privacyEnabled: bool, w: RemoteJiraUser): Option<string>
  {
    if privacyEnabled then w.accountId else w.name
  }

  /** A nullable string as a JSON value. */
  function NullableJson(s: Option<string>): Json
  {
    match s
    case Some(v) => JString(v)
    case None => JNull
  }

  /** A JSON value bound to a string property: strings bind, anything else binds as null. */
  function StringOf(j: Option<Json>): (s: Option<string>)
    ensures j.Some? && j.value.JString? ==> s == Some(j.value.s)
    ensures !(j.Some? && j.value.JString?) ==> s.None?
  {
    if j.Some? && j.value.JString? then Some(j.value.s) else None
  }

  /** Every converted JSON value binds back to the nullable string it came from. */
  lemma StringOfNullableJson(s: Option<string>)
    ensures StringOf(Some(NullableJson(s))) == s
  {
  }

  /** The values of an avatar dictionary, in member order. */
  function AvatarValues(members: seq<(string, Json)>): (vs: seq<Option<string>>)
    ensures |vs| == |members|
    ensures forall i :: 0 <= i < |members| ==> vs[i] == StringOf(Some(members[i].1))
  {
    if members == [] then [] else [StringOf(Some(members[0].1))] + AvatarValues(members[1..])
  }

  /**
   * Binding of a JSON value to a `RemoteJiraUser`: JSON null (or any non-object) binds to a null
   * user; an object's members bind by name, a missing member leaving its property null (`false`
   * for `active`).
   */
  function Deserialize(j: Json): (r: Option<RemoteJiraUser>)
    ensures r.Some? <==> j.JObject?
    ensures r.Some? ==> r.value.accountId == StringOf(Member(j.members, "accountId"))
                        && r.value.name == StringOf(Member(j.members, "name"))
    ensures r.Some? ==> (r.value.avatarUrls.None? <==> !(Member(j.members, "avatarUrls").Some? && Member(j.members, "avatarUrls").value.JObject?))
  {
    if !j.JObject? then None
    else
      var obj := j.members;
      var active := Member(obj, "active");
      var avatars := Member(obj, "avatarUrls");
      Some(RemoteJiraUser(
        accountId := StringOf(Member(obj, "accountId")),
        displayName := StringOf(Member(obj, "displayName")),
        emailAddress := StringOf(Member(obj, "emailAddress")),
        active := active.Some? && active.value.JBool? && active.value.b,
        key := StringOf(Member(obj, "key")),
        locale := StringOf(Member(obj, "locale")),
        self := StringOf(Member(obj, "self")),
        name := StringOf(Member(obj, "name")),
        avatarUrls := if avatars.Some? && avatars.value.JObject? then Some(AvatarValues(avatars.value.members)) else None))
  }

  /**
   * Writes a user as the one-member object `{ key: identifier }`, the key chosen by the flag;
   * a value that is not a user writes nothing.
   */
  function WriteJson(privacyEnabled: bool, value: ObjectValue): (w: Option<seq<(string, Json)>>)
    ensures w.None? <==> !value.UserValue?
    ensures w.Some? ==> |w.value| == 1 && w.value[0].0 == (if privacyEnabled then "accountId" else "name")
    ensures w.Some? ==> w.value[0].1 == NullableJson(value.user.internalIdentifier)
  {
    match value
    case UserValue(user) => Some([(IdentifierKey(privacyEnabled), NullableJson(user.internalIdentifier))])
    case OtherValue(_) => None
  }

  /**
   * A written user binds back to a record holding its identifier in the field the flag selects;
   * the other identifier field and the avatar dictionary bind as null.
   */
  lemma {:induction false} WriteThenBind(privacyEnabled: bool, user: JiraUser)
    ensures WriteJson(privacyEnabled, UserValue(user)).Some?
    ensures
      var remote := Deserialize(JObject(WriteJson(privacyEnabled, UserValue(user)).value));
      && remote.Some?
      && IdentifierOf(privacyEnabled, remote.value) == user.internalIdentifier
      && IdentifierOf(!privacyEnabled, remote.value).None?
      && remote.value.avatarUrls.None?
  {
    var obj := WriteJson(privacyEnabled, UserValue(user)).value;
    var key := IdentifierKey(privacyEnabled);
    assert obj == [(key, NullableJson(user.internalIdentifier))];
    StringOfNullableJson(user.internalIdentifier);
    assert Member(obj, IdentifierKey(!privacyEnabled)) == Member(obj[1..], IdentifierKey(!privacyEnabled));
    assert Member(obj, "avatarUrls") == Member(obj[1..], "avatarUrls");
  }

  /** What the converter writes it cannot read back: the written object has no avatar dictionary. */
  lemma WrittenUserDoesNotReadBack(privacyEnabled: bool, readFlag: bool, user: JiraUser)
    ensures WriteJson(privacyEnabled, UserValue(user)).Some?
    ensures ReadJson(readFlag, Deserialize(JObject(WriteJson(privacyEnabled, UserValue(user)).value)))
         == Failure(NullAvatarUrls)
  {
    WriteThenBind(privacyEnabled, user);
  }

  /**
   * A written user, once it also carries an avatar dictionary, reads back under the same flag with
   * its identifier, and under the other flag with none.
   */
  lemma {:induction false} WriteThenRead(privacyEnabled: bool, user: JiraUser, avatars: seq<(string, Json)>)
    ensures WriteJson(privacyEnabled, UserValue(user)).Some?
    ensures
      var obj := JObject(WriteJson(privacyEnabled, UserValue(user)).value + [("avatarUrls", JObject(avatars))]);
      && ReadJson(privacyEnabled, Deserialize(obj)).Success?
      && ReadJson(privacyEnabled, Deserialize(obj)).value.internalIdentifier == user.internalIdentifier
      && ReadJson(!privacyEnabled, Deserialize(obj)).Success?
      && ReadJson(!privacyEnabled, Deserialize(obj)).value.internalIdentifier.None?
  {
    var key := IdentifierKey(privacyEnabled);
    var members := [(key, NullableJson(user.internalIdentifier)), ("avatarUrls", JObject(avatars))];
    assert WriteJson(privacyEnabled, UserValue(user)).value + [("avatarUrls", JObject(avatars))] == members;
    StringOfNullableJson(user.internalIdentifier);
    assert Member(members, "avatarUrls") == Member(members[1..], "avatarUrls") == Some(JObject(avatars));
    var other := IdentifierKey(!privacyEnabled);
    assert Member(members, other) == Member(members[1..], other) == Member(members[2..], other);
  }
}
