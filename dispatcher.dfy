/** The router as a whole: selection, the state filter in front of every
  * route and of the fallback, the guard around routed handlers and the
  * fixed-priority fallback chain of `router.otherwise`. */
module Dispatcher {
  import opened Common
  import opened Context
  import opened StateManager
  import opened GeneralHandlers
  import opened UserHandlers
  import opened TestHandlers
  import opened Counters
  import opened Routes

  /** The branches of `router.otherwise`, in priority order. */
  datatype Branch = RegistrationInput | IdleLocation | IdleCallback | TestingInput | NotRecognized

  /** The one fallback branch taken for an update in state `s`. */
  function FallbackBranch(s: string, u: Update): (b: Branch)
    ensures b == RegistrationInput <==> s == REGISTRATION
    ensures b == IdleLocation <==> s == IDLE && Carries(u, LocationMessage)
    ensures b == IdleCallback <==> s == IDLE && !Carries(u, LocationMessage) && u.callbackData.Some?
    ensures b == TestingInput <==> s == TESTING
    ensures b == NotRecognized <==>
      s != REGISTRATION && s != TESTING && !(s == IDLE && (Carries(u, LocationMessage) || u.callbackData.Some?))
  {
    if s == REGISTRATION then RegistrationInput
    else if s == IDLE && u.message.Some? && u.message.value.location.Some? then IdleLocation
    else if s == IDLE && u.callbackData.Some? then IdleCallback
    else if s == TESTING then TestingInput
    else NotRecognized
  }

  /** What the router does with an update: the filter drops it, or a
    * routed handler runs, or a fallback branch runs. */
  datatype Decision = Rejected | RunRoute(key: string, handler: Handler) | RunFallback(branch: Branch)

  function Decide(table: RouteTable, state: string, u: Update): (d: Decision)
    ensures d.Rejected? <==> !IsAllowedMessageType(state, u)
    ensures !d.Rejected? ==> (d.RunRoute? <==> Select(table, EffectiveState(state), u.Text()).Some?)
    ensures d.RunRoute? ==>
      var r := Select(table, EffectiveState(state), u.Text());
      r.Some? && d.key == r.value.key && d.handler == r.value.handler
    ensures d.RunFallback? ==> d.branch == FallbackBranch(EffectiveState(state), u)
  {
    var s := EffectiveState(state);
    if !IsAllowedMessageType(state, u) then Rejected
    else match Select(table, s, u.Text())
      case Some(r) => RunRoute(r.key, r.handler)
      case None => RunFallback(FallbackBranch(s, u))
  }

  /** How the update ended: normally, through the route guard, or with an
    * error that escapes the router (the fallback has no guard). */
  datatype Outcome = Completed | Guarded | Uncaught

  const ROUTE_ERROR := "Произошла ошибка при обработке вашего запроса."
  const NOT_CALLABLE := "Произошла ошибка. Попробуйте снова позже."
  const NOT_RECOGNIZED := "Сообщение не распознано. Выберите действие из меню."

  /** A quiz is in progress exactly in state TESTING. */
  predicate SessionConsistent(ctx: Ctx)
    reads ctx
  {
    (ctx.test != null) <==> ctx.state == TESTING
  }

  /** The session's state is one of the states of the table, IDLE while unset. */
  predicate StateKnown(ctx: Ctx)
    reads ctx
  {
    IsState(EffectiveState(ctx.state))
  }

  /** The tables the router is built from: TESTING binds no `/start` registration handler. */
  predicate TableWellFormed(table: RouteTable) {
    forall r :: r in table.testing ==> !r.handler.Start?
  }

  lemma BuiltTableWellFormed(counters: seq<CounterSpec>, tests: seq<string>)
    ensures TableWellFormed(BuiltTable(counters, tests))
  {
  }

  /** No built table carries a handler that is not a function. */
  lemma BuiltHandlersCallable(counters: seq<CounterSpec>, tests: seq<string>)
    ensures forall r :: r in BuiltTable(counters, tests).testing + BuiltTable(counters, tests).registration ==> !r.handler.NotAFunction?
    ensures forall r :: r in BuiltTable(counters, tests).idle ==> !r.handler.NotAFunction?
  {
    StaticCallable();
    UpsertAllCallable(StaticIdle(), CounterRoutes(counters));
    UpsertAllCallable(UpsertAll(StaticIdle(), CounterRoutes(counters)), QuizRoutes(tests));
  }

  lemma StaticCallable()
    ensures forall r :: r in StaticIdle() ==> !r.handler.NotAFunction?
    ensures forall r :: r in StaticTesting() + StaticRegistration() ==> !r.handler.NotAFunction?
  {
  }

  /** Writing callable entries into a table of callable entries keeps every handler callable. */
  lemma {:induction false} UpsertAllCallable(es: seq<Route>, rs: seq<Route>)
    requires forall r :: r in es ==> !r.handler.NotAFunction?
    requires forall i :: 0 <= i < |rs| ==> !rs[i].handler.NotAFunction?
    ensures forall r :: r in UpsertAll(es, rs) ==> !r.handler.NotAFunction?
    decreases |rs|
  {
    if rs != [] {
      UpsertAllCallable(es, rs[..|rs| - 1]);
    }
  }

  const COUNTER_TITLE := "Счётчик \""

  /** The handler of a counter entry: the counter is created if missing and its value shown. */
  method ShowCounterValue(ctx: Ctx, id: string, name: string)
    modifies ctx`users, ctx`outbox
    ensures ctx.users == EnsureCounter(old(ctx.users), ctx.UserIdOf(), id)
    ensures ctx.outbox == old(ctx.outbox) +
      [Reply(COUNTER_TITLE + name + "\": " + IntToString(CounterValue(ctx.users[ctx.UserIdOf()], id)), CreateCounterKeyboard(id))]
    ensures CountersNonNegative(old(ctx.users)) ==> CountersNonNegative(ctx.users)
  {
    if CountersNonNegative(ctx.users) {
      EnsureKeepsNonNegative(ctx.users, ctx.UserIdOf(), id);
    }
    var user := EnsureCounterExists(ctx, id);
    var currentValue := CounterValue(user, id);
    ctx.outbox := ctx.outbox + [Reply(COUNTER_TITLE + name + "\": " + IntToString(currentValue), CreateCounterKeyboard(id))];
  }

  /** `handleStart` as a route: the state becomes REGISTRATION or IDLE, a
    * record it inserts has no counters, and it throws only on a profile it
    * cannot render. */
  method StartBranch(ctx: Ctx) returns (ok: bool)
    modifies ctx`users, ctx`state, ctx`outbox
    ensures old(ctx.outbox) <= ctx.outbox
    ensures ctx.state == REGISTRATION || ctx.state == IDLE
    ensures !ok ==> ctx.UserIdOf() in old(ctx.users) && !ProfileRenderable(old(ctx.users)[ctx.UserIdOf()])
    ensures old(CountersNonNegative(ctx.users)) ==> CountersNonNegative(ctx.users)
  {
    ok := HandleStart(ctx);
  }

  /** `loadAndStartTest` as a route: either nothing but a reply, or TESTING with a session. */
  method QuizBranch(ctx: Ctx, files: map<string, QuizFile>, testName: string)
    requires ctx.Valid()
    modifies ctx`state, ctx`test, ctx`outbox
    ensures ctx.Valid() && old(ctx.outbox) <= ctx.outbox
    ensures (ctx.state == old(ctx.state) && ctx.test == old(ctx.test)) || (ctx.state == TESTING && ctx.test != null)
  {
    LoadAndStartTest(ctx, files, testName);
  }

  /** Runs a callable routed handler. `files` are the quiz files by name and
    * `testNames` the list `getTestFiles` returns. Only the profile screen
    * can fail, on a stored health it cannot render. */
  method RunHandler(ctx: Ctx, h: Handler, files: map<string, QuizFile>, testNames: seq<string>) returns (ok: bool)
    requires ctx.Valid() && !h.NotAFunction?
    modifies ctx`users, ctx`state, ctx`test, ctx`outbox
    ensures ctx.Valid()
    ensures old(ctx.outbox) <= ctx.outbox
    ensures !ok ==> h.Start? || h.Profile?
    ensures !ok ==> ctx.UserIdOf() in old(ctx.users) && !ProfileRenderable(old(ctx.users)[ctx.UserIdOf()])
    ensures old(SessionConsistent(ctx)) && (h.Start? ==> old(ctx.test) == null) ==> SessionConsistent(ctx)
    ensures old(StateKnown(ctx)) ==> StateKnown(ctx)
    ensures old(CountersNonNegative(ctx.users)) ==> CountersNonNegative(ctx.users)
  {
    match h
    case Start => ok := StartBranch(ctx);
    case Profile => ok := SendUserProfile(ctx);
    case MenuScreen(m) => HandleMenu(ctx, m); ok := true;
    case Poll => HandlePoll(ctx, testNames); ok := true;
    case CountersMenu => HandleCounters(ctx); ok := true;
    case TestCompletion => HandleTestCompletion(ctx); ok := true;
    case ShowCounter(id, name) => ShowCounterValue(ctx, id, name); ok := true;
    case StartQuiz(testName) => QuizBranch(ctx, files, testName); ok := true;
  }

  /** A routed handler behind its guard: a handler that is not a function
    * gets one fixed error message; one that throws gets the generic error
    * message after whatever it sent; neither error escapes. */
  method Guard(ctx: Ctx, r: Route, files: map<string, QuizFile>, testNames: seq<string>) returns (outcome: Outcome)
    requires ctx.Valid()
    modifies ctx`users, ctx`state, ctx`test, ctx`outbox
    ensures ctx.Valid()
    ensures old(ctx.outbox) <= ctx.outbox
    ensures outcome != Uncaught
    ensures old(SessionConsistent(ctx)) && (r.handler.Start? ==> old(ctx.test) == null) ==> SessionConsistent(ctx)
    ensures old(StateKnown(ctx)) ==> StateKnown(ctx)
    ensures old(CountersNonNegative(ctx.users)) ==> CountersNonNegative(ctx.users)
    ensures r.handler.NotAFunction? ==>
      && outcome == Completed && ctx.users == old(ctx.users) && ctx.state == old(ctx.state) && ctx.test == old(ctx.test)
      && ctx.outbox == old(ctx.outbox) + EditOrReply(ctx.update.callbackData.Some?, ctx.editsSucceed, NOT_CALLABLE, MainKeyboard)
    ensures outcome == Guarded ==> r.handler.Start? || r.handler.Profile?
    ensures outcome == Guarded ==> ctx.UserIdOf() in old(ctx.users) && !ProfileRenderable(old(ctx.users)[ctx.UserIdOf()])
    ensures outcome == Guarded ==> |ctx.outbox| > 0
    ensures outcome == Guarded ==>
      ctx.outbox[|ctx.outbox| - 1] == EditOrReply(ctx.update.callbackData.Some?, ctx.editsSucceed, ROUTE_ERROR, MainKeyboard)[0]
  {
    if r.handler.NotAFunction? {
      ctx.outbox := ctx.outbox + EditOrReply(ctx.update.callbackData.Some?, ctx.editsSucceed, NOT_CALLABLE, MainKeyboard);
      return Completed;
    }
    var ok := RunHandler(ctx, r.handler, files, testNames);
    if !ok {
      ctx.outbox := ctx.outbox + EditOrReply(ctx.update.callbackData.Some?, ctx.editsSucceed, ROUTE_ERROR, MainKeyboard);
      return Guarded;
    }
    return Completed;
  }

  /** `handleLocation` as a fallback branch: the state stays or becomes
    * IDLE, and no stored counter changes. */
  method LocationBranch(ctx: Ctx) returns (ok: bool)
    requires ctx.Valid()
    modifies ctx`users, ctx`state, ctx`outbox
    ensures ctx.Valid() && old(ctx.outbox) <= ctx.outbox
    ensures ctx.state == old(ctx.state) || ctx.state == IDLE
    ensures old(CountersNonNegative(ctx.users)) ==> CountersNonNegative(ctx.users)
  {
    ghost var before := ctx.users;
    ok := HandleLocation(ctx);
    LocationKeepsCounters(before, ctx.users, ctx.UserIdOf());
  }

  /** `handleAnswer` as a fallback branch: the quiz either goes on in the
    * same state or ends in IDLE without a session. */
  method AnswerBranch(ctx: Ctx) returns (ok: bool)
    requires ctx.Valid() && ctx.test != null
    modifies ctx`test, ctx`state, ctx`outbox, ctx.test
    ensures ctx.Valid() && old(ctx.outbox) <= ctx.outbox
    ensures (ctx.test == old(ctx.test) && ctx.state == old(ctx.state)) || (ctx.test == null && ctx.state == IDLE)
  {
    ok := HandleAnswer(ctx);
  }

  /** `router.otherwise` once the filter has let the update through: the
    * branch FallbackBranch picks runs, with no guard around it. */
  method RunOtherwise(ctx: Ctx, branch: Branch) returns (outcome: Outcome)
    requires ctx.Valid()
    requires branch == FallbackBranch(EffectiveState(ctx.state), ctx.update)
    modifies ctx`users, ctx`state, ctx`test, ctx`outbox, ctx.test
    ensures ctx.Valid()
    ensures old(ctx.outbox) <= ctx.outbox
    ensures old(SessionConsistent(ctx)) ==> SessionConsistent(ctx)
    ensures old(StateKnown(ctx)) ==> StateKnown(ctx)
    ensures old(CountersNonNegative(ctx.users)) ==> CountersNonNegative(ctx.users)
    ensures outcome != Guarded
    ensures branch == NotRecognized ==>
      && outcome == Completed && ctx.users == old(ctx.users) && ctx.state == old(ctx.state) && ctx.test == old(ctx.test)
      && ctx.outbox == old(ctx.outbox) + [Reply(NOT_RECOGNIZED, MainKeyboard)]
    ensures branch == TestingInput && old(ctx.test) == null ==>
      outcome == Uncaught && ctx.users == old(ctx.users) && ctx.state == old(ctx.state) && ctx.outbox == old(ctx.outbox)
  {
    var ok := true;
    match branch {
    case RegistrationInput => ok := LocationBranch(ctx);
    case IdleLocation => ok := LocationBranch(ctx);
    case IdleCallback =>
      ok := HandleCounterCallback(ctx);
    case TestingInput =>
      if ctx.test == null {
        return Uncaught;
      }
      ok := AnswerBranch(ctx);
    case NotRecognized =>
      ctx.outbox := ctx.outbox + [Reply(NOT_RECOGNIZED, MainKeyboard)];
    }
    outcome := if ok then Completed else Uncaught;
  }

  /** Storing a time zone, or nothing, leaves every stored counter as it was. */
  lemma LocationKeepsCounters(users: map<UserId, User>, after: map<UserId, User>, id: UserId)
    requires after == users || exists tz :: after == SetTimeZone(users, id, tz)
    ensures forall uid, c :: uid in after && HasCounter(after[uid], c) ==>
      uid in users && HasCounter(users[uid], c) && CounterValue(after[uid], c) == CounterValue(users[uid], c)
  {
  }

  /** One update through the router. The decision is Decide's; a decision
    * of the filter changes what StateFilter says and nothing else; a
    * routed handler that fails is answered by the guard; an error in the
    * fallback escapes. The outbox only grows, and a consistent session
    * stays consistent. */
  method Dispatch(ctx: Ctx, table: RouteTable, files: map<string, QuizFile>, testNames: seq<string>)
    returns (d: Decision, outcome: Outcome)
    requires ctx.Valid() && TableWellFormed(table)
    modifies ctx`users, ctx`state, ctx`test, ctx`outbox, ctx.test
    ensures ctx.Valid()
    ensures d == Decide(table, old(ctx.state), ctx.update)
    ensures old(ctx.outbox) <= ctx.outbox
    ensures old(SessionConsistent(ctx)) ==> SessionConsistent(ctx)
    ensures StateKnown(ctx)
    ensures old(CountersNonNegative(ctx.users)) ==> CountersNonNegative(ctx.users)
    ensures d.Rejected? ==> outcome == Completed && ctx.users == old(ctx.users) && ctx.test == old(ctx.test)
    ensures d.Rejected? && IsState(EffectiveState(old(ctx.state))) ==>
      ctx.state == old(ctx.state) && ctx.outbox == old(ctx.outbox)
    ensures !IsState(EffectiveState(old(ctx.state))) ==>
      d.Rejected? && ctx.state == IDLE && ctx.outbox == old(ctx.outbox) + [Reply(INVALID_STATE_NOTICE, MainKeyboard)]
    ensures d.RunRoute? ==> outcome != Uncaught
    ensures d.RunRoute? && d.handler.NotAFunction? ==>
      && outcome == Completed && ctx.users == old(ctx.users) && ctx.state == old(ctx.state) && ctx.test == old(ctx.test)
      && ctx.outbox == old(ctx.outbox) + EditOrReply(ctx.update.callbackData.Some?, ctx.editsSucceed, NOT_CALLABLE, MainKeyboard)
    ensures outcome == Guarded ==> d.RunRoute? && (d.handler.Start? || d.handler.Profile?)
    ensures outcome == Guarded ==> ctx.UserIdOf() in old(ctx.users) && !ProfileRenderable(old(ctx.users)[ctx.UserIdOf()])
    ensures outcome == Guarded ==> |ctx.outbox| > 0
    ensures outcome == Guarded ==>
      ctx.outbox[|ctx.outbox| - 1] == EditOrReply(ctx.update.callbackData.Some?, ctx.editsSucceed, ROUTE_ERROR, MainKeyboard)[0]
    ensures outcome == Uncaught ==> d.RunFallback?
    ensures d == RunFallback(NotRecognized) ==>
      && outcome == Completed && ctx.users == old(ctx.users) && ctx.state == old(ctx.state) && ctx.test == old(ctx.test)
      && ctx.outbox == old(ctx.outbox) + [Reply(NOT_RECOGNIZED, MainKeyboard)]
    ensures d == RunFallback(TestingInput) && old(ctx.test) == null ==>
      outcome == Uncaught && ctx.users == old(ctx.users) && ctx.state == old(ctx.state) && ctx.outbox == old(ctx.outbox)
  {
    var s := EffectiveState(ctx.state);
    var entries := Entries(table, s);
    var key := SelectRoute(entries, ctx.update.Text());
    var route := Lookup(entries, key);
    var callNext := StateFilter(ctx);
    if !callNext {
      return Rejected, Completed;
    }
    if route.Some? {
      d := RunRoute(route.value.key, route.value.handler);
      assert route.value.handler.Start? ==> s != TESTING;
      outcome := Guard(ctx, route.value, files, testNames);
      return;
    }
    var branch := FallbackBranch(s, ctx.update);
    d := RunFallback(branch);
    outcome := RunOtherwise(ctx, branch);
  }

  // ---------------------------------------------------------------------
  // Properties of the decision

  /** A table no entry of which is keyed `'unknown'`, so the fallback key reaches `router.otherwise`. */
  predicate NoUnknownKey(table: RouteTable) {
    UNKNOWN !in Keys(table.idle) && UNKNOWN !in Keys(table.testing) && UNKNOWN !in Keys(table.registration)
  }

  /** An update without text is never routed: it is dropped by the filter
    * or taken by the fallback. */
  lemma {:induction false} NoTextNeverRouted(table: RouteTable, state: string, u: Update)
    requires NoUnknownKey(table) && !Truthy(u.Text())
    ensures !Decide(table, state, u).RunRoute?
  {
    var s := EffectiveState(state);
    NoTextSelectsUnknown(Entries(table, s), u.Text());
  }

  /** A counter button pressed in IDLE reaches the counter callback. */
  lemma {:induction false} IdleCallbackReachesCounters(table: RouteTable, state: string, u: Update)
    requires NoUnknownKey(table) && EffectiveState(state) == IDLE
    requires u.message.None? && u.callbackData.Some?
    ensures Decide(table, state, u) == RunFallback(IdleCallback)
  {
    NoTextSelectsUnknown(Entries(table, IDLE), u.Text());
    assert DetermineMessageType(u) == CallbackQuery;
  }

  /** A text in TESTING other than `/start` and the finish button is taken
    * as an answer, and such an answer records -1 at the current question. */
  lemma {:induction false} TestingTextIsAnswer(table: RouteTable, u: Update, v: QuizView)
    requires table.testing == StaticTesting() && UNKNOWN !in Keys(table.testing)
    requires u.message.Some? && Truthy(u.message.value.text) && u.callbackData.None?
    requires u.message.value.text.value != "/start" && u.message.value.text.value != "✅ Завершить тест"
    requires ViewValid(v)
    ensures Decide(table, TESTING, u) == RunFallback(TestingInput)
    ensures AnswerIndex(v.questions[v.index].options, u.callbackData) == -1
  {
    var es := StaticTesting();
    assert !Matches(es[0], u.Text()) && !Matches(es[1], u.Text());
    assert FirstMatch(es, u.Text()).None?;
  }

  /** The classifier and the state table together: a photo is dropped
    * outside REGISTRATION and let through in it. */
  lemma FilterDrops(table: RouteTable, u: Update)
    requires u.message.Some? && !Truthy(u.message.value.text) && u.message.value.location.None? && u.message.value.photo
    ensures Decide(table, IDLE, u) == Rejected && Decide(table, TESTING, u) == Rejected
    ensures Decide(table, REGISTRATION, u) != Rejected
  {
  }

  /** A button pressed in REGISTRATION is dropped: callbacks are not among its message types. */
  lemma RegistrationDropsCallback(table: RouteTable, u: Update)
    requires u.message.None? && u.callbackData.Some?
    ensures Decide(table, REGISTRATION, u) == Rejected
  {
  }

  /** The tables built at startup, with no counter or quiz called `'unknown'`, have no `'unknown'` key. */
  lemma {:induction false} BuiltTableNoUnknownKey(counters: seq<CounterSpec>, tests: seq<string>)
    requires forall k :: 0 <= k < |counters| ==> counters[k].id != UNKNOWN
    requires forall k :: 0 <= k < |tests| ==> tests[k] != UNKNOWN
    ensures NoUnknownKey(BuiltTable(counters, tests))
  {
    var cs := CounterRoutes(counters);
    var qs := QuizRoutes(tests);
    UpsertAllKeyFree(StaticIdle(), cs, UNKNOWN);
    UpsertAllKeyFree(UpsertAll(StaticIdle(), cs), qs, UNKNOWN);
  }

  /** Writing entries none of which has key `k` into a table without `k` leaves it without `k`. */
  lemma {:induction false} UpsertAllKeyFree(es: seq<Route>, rs: seq<Route>, k: string)
    requires k !in Keys(es)
    requires forall i :: 0 <= i < |rs| ==> rs[i].key != k
    ensures k !in Keys(UpsertAll(es, rs))
    decreases |rs|
  {
    if rs != [] {
      UpsertAllKeyFree(es, rs[..|rs| - 1], k);
    }
  }
}
