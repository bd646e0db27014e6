/** A registered account's notification profile, in memory and as stored. */
module UserConfigurationModel {
  import opened Wrappers

  datatype Role = Admin | User

  /** The stored form of a user configuration (`UserConfigurationData`), without the id. */
  datatype UserConfigurationData = UserConfigurationData(
    email: string,
    userId: string,
    role: Role,
    isEnableNotifications: bool,
    deviceToken: Option<string>)

  /** The `UserConfiguration` class. */
  datatype UserConfiguration = UserConfiguration(
    id: string,
    email: string,
    userId: string,
    role: Role,
    isEnableNotifications: bool,
    deviceToken: Option<string>)

  /** A document snapshot of the `userConfigurations` collection. */
  datatype UserConfigurationSnapshot = UserConfigurationSnapshot(id: string, data: Option<UserConfigurationData>)

  /**
   * The constructor: `id ?? uuidv4()` and `isEnableNotifications ?? false`.
   * `freshUuid` is the value `uuidv4()` would return; it is used only when no id is given.
   */
  function NewUserConfiguration(
    email: string, userId: string, role: Role, id: Option<string>,
    isEnableNotifications: Option<bool>, deviceToken: Option<string>, freshUuid: string): (u: UserConfiguration)
    ensures u.id == (if id.Some? then id.value else freshUuid)
    ensures u.isEnableNotifications <==> isEnableNotifications == Some(true)
    ensures u.email == email && u.userId == userId && u.role == role && u.deviceToken == deviceToken
  {
    UserConfiguration(id.GetOr(freshUuid), email, userId, role, isEnableNotifications.GetOr(false), deviceToken)
  }

  const NoDataError := "Firestore document has no data"

  /** `UserConfiguration.fromFirestore`: the document id becomes the id. */
  function FromFirestore(doc: UserConfigurationSnapshot): (r: Result<UserConfiguration>)
    ensures r.Err? <==> doc.data.None?
    ensures r.Err? ==> r.error == NoDataError
    ensures r.Ok? ==> r.value.id == doc.id
  {
    match doc.data
    case None => Err(NoDataError)
    case Some(d) =>
      // the id is given, so no uuid is drawn
      Ok(NewUserConfiguration(d.email, d.userId, d.role, Some(doc.id), Some(d.isEnableNotifications), d.deviceToken, doc.id))
  }

  /** `UserConfiguration.toFirestore`: every field but the id. */
  function ToFirestore(u: UserConfiguration): UserConfigurationData {
    UserConfigurationData(u.email, u.userId, u.role, u.isEnableNotifications, u.deviceToken)
  }

  /** Storing a configuration under a document id and reading it back changes only the id. */
  lemma RoundTrip(u: UserConfiguration, docId: string)
    ensures FromFirestore(UserConfigurationSnapshot(docId, Some(ToFirestore(u)))) == Ok(u.(id := docId))
  {
  }

  /** Reading a stored configuration and writing it back gives the stored data unchanged. */
  lemma StoredRoundTrip(doc: UserConfigurationSnapshot)
    requires doc.data.Some?
    ensures ToFirestore(FromFirestore(doc).value) == doc.data.value
  {
  }

  /** Left out of the constructor call, the notification flag is off and the id is freshly drawn. */
  lemma ConstructorDefaults(email: string, userId: string, role: Role, freshUuid: string)
    ensures var u := NewUserConfiguration(email, userId, role, None, None, None, freshUuid);
      !u.isEnableNotifications && u.id == freshUuid && u.deviceToken.None?
  {
  }
}
