/** Registration: `/start` decides between REGISTRATION and IDLE, a shared
  * location stores the time zone and moves the user to IDLE, and the
  * profile screen is derived from the stored record. */
module UserHandlers {
  import opened Common
  import opened Context
  import opened StateManager
  import opened GeneralHandlers

  const NOT_SET := "Не указано"
  const WELCOME := "Добро пожаловать в игру Феникс!"
  const REQUEST_LOCATION := "Пожалуйста, отправьте своё местоположение, чтобы продолжить."
  const PROFILE_NOT_FOUND := "Ваш профиль не найден. Пожалуйста, используйте /start для регистрации."
  const TIME_ZONE_SET := "Ваш часовой пояс установлен как: "

  /** `s || fallback` for a string field. */
  function OrText(s: Option<string>, fallback: string): string {
    if Truthy(s) then s.value else fallback
  }

  /** The record `/start` inserts for a user it has never seen. */
  function NewUser(from: Sender): (u: User)
    ensures u.telegramId == from.id
    ensures u.health == Some(4) && u.timeZone == None && u.achievements == Some([])
    ensures u.tasksCompleted == Some(0) && u.experience == Some(0) && u.counters == None
  {
    User(from.id, if Truthy(from.username) then from.username else None,
         Some(OrText(from.firstName, NOT_SET)), Some(OrText(from.lastName, NOT_SET)),
         Some(4), None, Some([]), Some(0), Some(0), None)
  }

  /** What `/start` does for a user, decided by the stored record. */
  datatype StartCase = Unregistered | AwaitingLocation | Registered

  function StartDecision(users: map<UserId, User>, id: UserId): (c: StartCase)
    ensures c == Unregistered <==> id !in users
    ensures c == AwaitingLocation <==> id in users && !Truthy(users[id].timeZone)
    ensures c == Registered <==> id in users && Truthy(users[id].timeZone)
  {
    if id !in users then Unregistered
    else if !Truthy(users[id].timeZone) then AwaitingLocation
    else Registered
  }

  /** `Math.floor(experience / 1000)`. Dafny's `/` by a positive divisor is floor division. */
  function Level(experience: int): (level: int)
    ensures 1000 * level <= experience < 1000 * (level + 1)
  {
    experience / 1000
  }

  /** The health the profile renders: `user.health || 0`. */
  function HealthOf(u: User): int {
    u.health.GetOr(0)
  }

  /** `renderHealth` throws outside 0..4, so only these records have a profile screen. */
  predicate ProfileRenderable(u: User) {
    0 <= HealthOf(u) <= 4
  }

  const PROFILE_TITLE := "Ваш профиль:"

  /** `user.achievements?.length || 0` */
  function AchievementCount(u: User): nat {
    if u.achievements.Some? then |u.achievements.value| else 0
  }

  /** One `- name: value` line of the profile, after its line break. */
  function ProfileLine(name: string, value: string): string {
    "\n- " + name + ": " + value
  }

  /** The profile text: the title, then seven lines, each missing field shown with its default. */
  function ProfileMessage(u: User): (r: string)
    requires ProfileRenderable(u)
    ensures StartsWith(r, PROFILE_TITLE + ProfileLine("Имя пользователя", OrText(u.firstName, NOT_SET) + " " + OrText(u.lastName, NOT_SET)))
    ensures var tail := ProfileLine("Выполнено заданий", IntToString(u.tasksCompleted.GetOr(0)));
      |tail| <= |r| && r[|r| - |tail|..] == tail
    ensures r == PROFILE_TITLE
      + ProfileLine("Имя пользователя", OrText(u.firstName, NOT_SET) + " " + OrText(u.lastName, NOT_SET))
      + (ProfileLine("Часовой пояс", OrText(u.timeZone, "Не указан"))
         + ProfileLine("Здоровье", RenderHealth(HealthOf(u)))
         + ProfileLine("Уровень", IntToString(Level(u.experience.GetOr(0))))
         + ProfileLine("Опыт", IntToString(u.experience.GetOr(0)))
         + ProfileLine("Достижения", IntToString(AchievementCount(u))))
      + ProfileLine("Выполнено заданий", IntToString(u.tasksCompleted.GetOr(0)))
  {
    var experience := u.experience.GetOr(0);
    var head := PROFILE_TITLE + ProfileLine("Имя пользователя", OrText(u.firstName, NOT_SET) + " " + OrText(u.lastName, NOT_SET));
    var middle := ProfileLine("Часовой пояс", OrText(u.timeZone, "Не указан"))
      + ProfileLine("Здоровье", RenderHealth(HealthOf(u)))
      + ProfileLine("Уровень", IntToString(Level(experience)))
      + ProfileLine("Опыт", IntToString(experience))
      + ProfileLine("Достижения", IntToString(AchievementCount(u)));
    var tail := ProfileLine("Выполнено заданий", IntToString(u.tasksCompleted.GetOr(0)));
    assert (head + middle + tail)[..|head|] == head;
    assert (head + middle + tail)[|head + middle|..] == tail;
    head + middle + tail
  }

  /** The profile of a user `/start` has just inserted: the sender's name, no
    * time zone, four full hearts, and zero everywhere else. */
  lemma NewUserProfile(from: Sender)
    ensures ProfileRenderable(NewUser(from))
    ensures ProfileMessage(NewUser(from)) == PROFILE_TITLE
      + ProfileLine("Имя пользователя", OrText(from.firstName, NOT_SET) + " " + OrText(from.lastName, NOT_SET))
      + (ProfileLine("Часовой пояс", "Не указан")
         + ProfileLine("Здоровье", RenderHealth(4))
         + ProfileLine("Уровень", "0")
         + ProfileLine("Опыт", "0")
         + ProfileLine("Достижения", "0"))
      + ProfileLine("Выполнено заданий", "0")
  {
    var u := NewUser(from);
    assert OrText(u.firstName, NOT_SET) == OrText(from.firstName, NOT_SET);
    assert OrText(u.lastName, NOT_SET) == OrText(from.lastName, NOT_SET);
    assert OrText(u.timeZone, "Не указан") == "Не указан";
    assert HealthOf(u) == 4 && Level(0) == 0 && AchievementCount(u) == 0;
    assert IntToString(0) == "0";
  }

  /** `requestLocation` */
  method RequestLocation(ctx: Ctx)
    modifies ctx`outbox
    ensures ctx.outbox == old(ctx.outbox) + [Reply(REQUEST_LOCATION, LocationButton)]
  {
    ctx.outbox := ctx.outbox + [Reply(REQUEST_LOCATION, LocationButton)];
  }

  /** `sendUserProfile`. A missing record gets the "not found" reply; a
    * record whose health cannot be rendered makes the handler throw
    * (`ok` false) before anything is sent; the state never changes. */
  method SendUserProfile(ctx: Ctx) returns (ok: bool)
    modifies ctx`outbox
    ensures var id := ctx.UserIdOf();
      && (id !in ctx.users ==> ok && ctx.outbox == old(ctx.outbox) + [Reply(PROFILE_NOT_FOUND, MainKeyboard)])
      && (id in ctx.users && !ProfileRenderable(ctx.users[id]) ==> !ok && ctx.outbox == old(ctx.outbox))
      && (id in ctx.users && ProfileRenderable(ctx.users[id]) ==>
            ok && ctx.outbox == old(ctx.outbox) + [Reply(ProfileMessage(ctx.users[id]), ProfileKeyboard)])
  {
    var id := ctx.UserIdOf();
    if id !in ctx.users {
      ctx.outbox := ctx.outbox + [Reply(PROFILE_NOT_FOUND, MainKeyboard)];
      return true;
    }
    var user := ctx.users[id];
    if !ProfileRenderable(user) {
      return false;
    }
    ctx.outbox := ctx.outbox + [Reply(ProfileMessage(user), ProfileKeyboard)];
    return true;
  }

  /** `handleStart`: an unknown user is inserted and moved to REGISTRATION;
    * a known user without a time zone is moved to REGISTRATION with no
    * insert; a registered user is moved to IDLE and shown the profile. */
  method HandleStart(ctx: Ctx) returns (ok: bool)
    modifies ctx`users, ctx`state, ctx`outbox
    ensures var id := ctx.UserIdOf();
      match StartDecision(old(ctx.users), id)
      case Unregistered =>
        && ok && ctx.users == old(ctx.users)[id := NewUser(ctx.update.from)] && ctx.state == REGISTRATION
        && ctx.outbox == old(ctx.outbox) + [Reply(WELCOME, NoMarkup), Reply(REQUEST_LOCATION, LocationButton)]
      case AwaitingLocation =>
        && ok && ctx.users == old(ctx.users) && ctx.state == REGISTRATION
        && ctx.outbox == old(ctx.outbox) + [Reply(REQUEST_LOCATION, LocationButton)]
      case Registered =>
        && ctx.users == old(ctx.users) && ctx.state == IDLE
        && (ok <==> ProfileRenderable(ctx.users[id]))
        && ctx.outbox == old(ctx.outbox) + (if ok then [Reply(ProfileMessage(ctx.users[id]), ProfileKeyboard)] else [])
  {
    var id := ctx.UserIdOf();
    if id !in ctx.users {
      ctx.users := ctx.users[id := NewUser(ctx.update.from)];
      ctx.outbox := ctx.outbox + [Reply(WELCOME, NoMarkup)];
      SetState(ctx, Name(REGISTRATION));
      RequestLocation(ctx);
      return true;
    }
    if !Truthy(ctx.users[id].timeZone) {
      SetState(ctx, Name(REGISTRATION));
      RequestLocation(ctx);
      return true;
    }
    SetState(ctx, Name(IDLE));
    ok := SendUserProfile(ctx);
  }

  /** The stored time zone, `UTC<offset>`: never empty. */
  function TimeZoneText(utcOffset: int): (tz: string)
    ensures Truthy(Some(tz)) && StartsWith(tz, "UTC")
  {
    "UTC" + IntToString(utcOffset)
  }

  /** `updateOne({ telegramId }, { $set: { timeZone } })` without upsert. */
  function SetTimeZone(users: map<UserId, User>, id: UserId, tz: string): (r: map<UserId, User>)
    ensures r.Keys == users.Keys
    ensures id in users ==> r[id] == users[id].(timeZone := Some(tz))
    ensures forall other :: other in users && other != id ==> r[other] == users[other]
  {
    if id in users then users[id := users[id].(timeZone := Some(tz))] else users
  }

  /** `handleLocation`. Without `ctx.message` the handler throws (`ok`
    * false) having done nothing; without a location it only replies;
    * with one it stores the time zone (no record is created) and sets IDLE. */
  method HandleLocation(ctx: Ctx) returns (ok: bool)
    modifies ctx`users, ctx`state, ctx`outbox
    ensures ctx.update.message.None? ==>
      !ok && ctx.users == old(ctx.users) && ctx.state == old(ctx.state) && ctx.outbox == old(ctx.outbox)
    ensures ctx.update.message.Some? && ctx.update.message.value.location.None? ==>
      && ok && ctx.users == old(ctx.users) && ctx.state == old(ctx.state)
      && ctx.outbox == old(ctx.outbox) + [Reply(PROFILE_NOT_FOUND, RemoveKeyboard)]
    ensures ctx.update.message.Some? && ctx.update.message.value.location.Some? ==>
      var tz := TimeZoneText(ctx.update.message.value.location.value.utcOffset);
      && ok && ctx.users == SetTimeZone(old(ctx.users), ctx.UserIdOf(), tz) && ctx.state == IDLE
      && ctx.outbox == old(ctx.outbox) + [Reply(TIME_ZONE_SET + tz, MainKeyboard)]
  {
    if ctx.update.message.None? {
      return false;
    }
    var message := ctx.update.message.value;
    if message.location.None? {
      ctx.outbox := ctx.outbox + [Reply(PROFILE_NOT_FOUND, RemoveKeyboard)];
      return true;
    }
    var tz := TimeZoneText(message.location.value.utcOffset);
    ctx.users := SetTimeZone(ctx.users, ctx.UserIdOf(), tz);
    SetState(ctx, Name(IDLE));
    ctx.outbox := ctx.outbox + [Reply(TIME_ZONE_SET + tz, MainKeyboard)];
    return true;
  }

  /** Once a location has been stored for a known user, `/start` treats the user as registered. */
  lemma {:induction false} LocationCompletesRegistration(users: map<UserId, User>, id: UserId, utcOffset: int)
    requires id in users
    ensures StartDecision(SetTimeZone(users, id, TimeZoneText(utcOffset)), id) == Registered
  {
    var tz := TimeZoneText(utcOffset);
    assert Truthy(Some(tz));
  }

  /** A location from someone who has no record creates none: `/start` still sees a new user. */
  lemma {:induction false} LocationCreatesNoRecord(users: map<UserId, User>, id: UserId, tz: string)
    requires id !in users
    ensures StartDecision(SetTimeZone(users, id, tz), id) == Unregistered
  {
    assert SetTimeZone(users, id, tz).Keys == users.Keys;
  }
}
