/**
 * The listener's view of its database (`PostgresDataStorage`) and the repository over it
 * (`UserRepository`). The storage never raises: a failed or empty `get_one` answers nothing and a
 * failed `get_all` answers no rows, so each query is a total function of its argument here.
 */
module UserRepository {
  import opened Wrappers
  import opened Json
  import opened NotificationModels

  /** The three queries the pipeline makes, as their answers. */
  datatype Storage = Storage(
    usersByRole: int -> seq<Dict>,     // `get_users_by_role_id(role_id)`: rows of `bot_users`
    directUser: Json -> Option<Dict>,  // `get_one` on `users_user` by id
    taigaUser: Json -> Option<Dict>)   // `get_taiga_user_by_id(user_id)`: `users_user` joined to `bot_users`

  /** The scrum-master role every notification goes to. */
  const ScrumMasterRole: int := 1

  /** `if row:` on a query answer: a row was found and has columns. */
  predicate Found(row: Option<Dict>) {
    row.Some? && row.value != map[]
  }

  /** `get_users_by_role_id`: no rows reads as the empty list, any other answer is passed on. */
  function UsersByRole(storage: Storage, roleId: int): (r: seq<Dict>)
    ensures |storage.usersByRole(roleId)| == 0 ==> r == []
    ensures |storage.usersByRole(roleId)| > 0 ==> r == storage.usersByRole(roleId)
  {
    var users := storage.usersByRole(roleId);
    if |users| == 0 then [] else users
  }

  /** The two branches of `get_users_by_role_id` agree: the repository hands on what storage answers. */
  lemma UsersByRoleIsStorage(storage: Storage, roleId: int)
    ensures UsersByRole(storage, roleId) == storage.usersByRole(roleId)
  {
    if |storage.usersByRole(roleId)| == 0 {
      assert storage.usersByRole(roleId) == [];
    }
  }

  /** The user built from a `users_user` row, before any Telegram id is attached. */
  function DirectUser(row: Dict): TaigaUser {
    TaigaUser(GetOr(row, "id", JNull), GetOr(row, "username", JStr("")), GetOr(row, "full_name", JNull), JNull)
  }

  /**
   * `get_taiga_user_by_id(user_id)`. A direct `users_user` row wins and gets the `telegram_id` of
   * the second lookup when that is truthy; without a direct row the second lookup is parsed by
   * `TaigaUser.from_dict`, and a parse error (the catch-all) or no row at all gives `None`.
   */
  function TaigaUserById(storage: Storage, userId: Json): (r: Option<TaigaUser>)
    ensures Found(storage.directUser(userId)) ==>
      var row := storage.directUser(userId).value;
      var second := storage.taigaUser(userId);
      r.Some? && r.value.id == GetOr(row, "id", JNull) && r.value.username == GetOr(row, "username", JStr(""))
      && r.value.fullName == GetOr(row, "full_name", JNull)
      && r.value.telegramId ==
           (if Found(second) && Truthy(GetOr(second.value, "telegram_id", JNull))
            then GetOr(second.value, "telegram_id", JNull) else JNull)
    ensures !Found(storage.directUser(userId)) ==>
      (r.Some? <==> Found(storage.taigaUser(userId)) && TaigaUserFromDict(storage.taigaUser(userId).value).Ok?)
    ensures !Found(storage.directUser(userId)) && r.Some? ==> r.value == TaigaUserFromDict(storage.taigaUser(userId).value).value
  {
    var direct := storage.directUser(userId);
    var second := storage.taigaUser(userId);
    if Found(direct) then
      var user := DirectUser(direct.value);
      if Found(second) && Truthy(GetOr(second.value, "telegram_id", JNull)) then
        Some(user.(telegramId := GetOr(second.value, "telegram_id", JNull)))
      else Some(user)
    else if Found(second) then
      match TaigaUserFromDict(second.value)
      case Ok(user) => Some(user)
      case Err(_) => None
    else None
  }

  /**
   * With a direct row the second lookup only ever contributes the Telegram id: two storages that
   * agree on the direct row give users that differ at most in `telegram_id`.
   */
  lemma DirectRowDecidesIdentity(s1: Storage, s2: Storage, userId: Json)
    requires Found(s1.directUser(userId)) && s1.directUser(userId) == s2.directUser(userId)
    ensures TaigaUserById(s1, userId).Some? && TaigaUserById(s2, userId).Some?
    ensures TaigaUserById(s1, userId).value.(telegramId := JNull) == TaigaUserById(s2, userId).value.(telegramId := JNull)
  {
    var row := s1.directUser(userId).value;
    assert TaigaUserById(s1, userId).value.(telegramId := JNull) == DirectUser(row);
    assert TaigaUserById(s2, userId).value.(telegramId := JNull) == DirectUser(row);
  }

  /** A Telegram id on the found user always comes from the `bot_users` side of the second lookup. */
  lemma TelegramIdFromSecondLookup(storage: Storage, userId: Json)
    requires TaigaUserById(storage, userId).Some? && TaigaUserById(storage, userId).value.telegramId != JNull
    ensures Found(storage.taigaUser(userId))
  {
    if Found(storage.directUser(userId)) {
      assert DirectUser(storage.directUser(userId).value).telegramId == JNull;
    }
  }
}
