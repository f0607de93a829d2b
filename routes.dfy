/** The route table: the static per-state entries, the counter and quiz
  * entries written into IDLE at startup, and the selector that maps the
  * message text to a route key. */
module Routes {
  import opened Common
  import opened GeneralHandlers

  /** What a route runs. `NotAFunction` stands for an entry whose `handler`
    * is not callable, which the route guard answers separately. */
  datatype Handler =
    | Start | Profile | MenuScreen(menu: Menu) | Poll | CountersMenu | TestCompletion
    | ShowCounter(id: string, name: string) | StartQuiz(testName: string)
    | NotAFunction

  /** One entry `key: { command?, text?, handler }` of a state's table. */
  datatype Route = Route(key: string, command: Option<string>, text: Option<string>, handler: Handler)

  /** One element of the counter catalog: `{ id, name }`. */
  datatype CounterSpec = CounterSpec(id: string, name: string)

  /** `stateRoutes`: one ordered table per state. */
  datatype RouteTable = RouteTable(idle: seq<Route>, testing: seq<Route>, registration: seq<Route>)

  /** The IDLE entries of `stateRoutes`, in insertion order. */
  function StaticIdle(): seq<Route> {
    [
      Route("start", Some("/start"), None, Start),
      Route("profile", None, Some("📋 Профиль"), Profile),
      Route("tasks", None, Some("🗂 Задания"), MenuScreen(Tasks)),
      Route("settings", None, Some("⚙️ Настройка"), MenuScreen(Settings)),
      Route("toprofile", None, Some("⬅️ Назад в профиль"), Profile),
      Route("backtomenu", None, Some("🏠 Назад в меню"), MenuScreen(BackToMenu)),
      Route("achievements", None, Some("🏆 Достижения"), MenuScreen(Achievements)),
      Route("rating", None, Some("📊 Рейтинг"), MenuScreen(Rating)),
      Route("poll", None, Some("📊 Пройти опрос"), Poll),
      Route("counters", None, Some("🧮 Счётчик Побед"), CountersMenu)
    ]
  }

  /** The TESTING entries: the finish button and `/start` both complete the quiz. */
  function StaticTesting(): seq<Route> {
    [
      Route("completeTest", None, Some("✅ Завершить тест"), TestCompletion),
      Route("start", Some("/start"), None, TestCompletion)
    ]
  }

  /** The REGISTRATION entries: only `/start`. */
  function StaticRegistration(): seq<Route> {
    [
      Route("start", Some("/start"), None, Start)
    ]
  }

  /** `stateRoutes[userState]` */
  function Entries(table: RouteTable, state: string): Option<seq<Route>> {
    if state == "IDLE" then Some(table.idle)
    else if state == "TESTING" then Some(table.testing)
    else if state == "REGISTRATION" then Some(table.registration)
    else None
  }

  predicate KeysUnique(es: seq<Route>) {
    forall i, j :: 0 <= i < j < |es| ==> es[i].key != es[j].key
  }

  function Keys(es: seq<Route>): set<string> {
    set r | r in es :: r.key
  }

  /** The position of the entry with this key, if any. */
  function IndexOfKey(es: seq<Route>, key: string): (r: Option<nat>)
    ensures r.Some? ==> r.value < |es| && es[r.value].key == key && forall j :: 0 <= j < r.value ==> es[j].key != key
    ensures r.None? ==> forall j :: 0 <= j < |es| ==> es[j].key != key
  {
    if es == [] then None
    else if es[0].key == key then Some(0)
    else match IndexOfKey(es[1..], key)
      case None => None
      case Some(i) => Some(i + 1)
  }

  /** `table[key] = route`: an existing key keeps its position and gets the
    * new entry; a new key is appended at the end. */
  function Upsert(es: seq<Route>, r: Route): (out: seq<Route>)
    ensures Keys(out) == Keys(es) + {r.key}
    ensures r in out
    ensures r.key in Keys(es) ==> |out| == |es|
    ensures r.key !in Keys(es) ==> out == es + [r]
    ensures forall j :: 0 <= j < |es| ==> out[j] == es[j] || (es[j].key == r.key && out[j] == r)
  {
    match IndexOfKey(es, r.key)
    case None => es + [r]
    case Some(i) =>
      KeysOfReplace(es, i, r);
      assert es[i := r][i] in es[i := r];
      es[i := r]
  }

  lemma KeysOfReplace(es: seq<Route>, i: nat, r: Route)
    requires i < |es| && es[i].key == r.key
    ensures Keys(es[i := r]) == Keys(es) + {r.key}
  {
    var out := es[i := r];
    forall k | k in Keys(es) ensures k in Keys(out) {
      var e :| e in es && e.key == k;
      var j :| 0 <= j < |es| && es[j] == e;
      if j == i { assert out[i] in out; } else { assert out[j] in out; }
    }
    forall k | k in Keys(out) ensures k in Keys(es) + {r.key} {
      var e :| e in out && e.key == k;
      var j :| 0 <= j < |out| && out[j] == e;
      if j != i { assert es[j] in es; }
    }
    assert out[i] in out;
  }

  /** The entries written one after another, in order. */
  function UpsertAll(es: seq<Route>, rs: seq<Route>): seq<Route>
    decreases |rs|
  {
    if rs == [] then es else Upsert(UpsertAll(es, rs[..|rs| - 1]), rs[|rs| - 1])
  }

  /** `{ text: name, handler }` under key `id`. */
  function CounterRoute(c: CounterSpec): Route {
    Route(c.id, None, Some(c.name), ShowCounter(c.id, c.name))
  }

  /** `{ text: testName, handler }` under key `testName`. */
  function QuizRoute(testName: string): Route {
    Route(testName, None, Some(testName), StartQuiz(testName))
  }

  function CounterRoutes(counters: seq<CounterSpec>): (rs: seq<Route>)
    ensures |rs| == |counters| && forall i :: 0 <= i < |rs| ==> rs[i] == CounterRoute(counters[i])
  {
    seq(|counters|, i requires 0 <= i < |counters| => CounterRoute(counters[i]))
  }

  function QuizRoutes(tests: seq<string>): (rs: seq<Route>)
    ensures |rs| == |tests| && forall i :: 0 <= i < |rs| ==> rs[i] == QuizRoute(tests[i])
  {
    seq(|tests|, i requires 0 <= i < |tests| => QuizRoute(tests[i]))
  }

  /** The IDLE table once the counter entries and then the quiz entries are written. */
  function BuiltIdle(counters: seq<CounterSpec>, tests: seq<string>): seq<Route> {
    UpsertAll(UpsertAll(StaticIdle(), CounterRoutes(counters)), QuizRoutes(tests))
  }

  function BuiltTable(counters: seq<CounterSpec>, tests: seq<string>): RouteTable {
    RouteTable(BuiltIdle(counters, tests), StaticTesting(), StaticRegistration())
  }

  /** Writes each of `rs` into `es` in turn, as the `forEach` loops do. */
  method UpsertEach(es: seq<Route>, rs: seq<Route>) returns (out: seq<Route>)
    ensures out == UpsertAll(es, rs)
  {
    out := es;
    var i := 0;
    while i < |rs|
      invariant 0 <= i <= |rs|
      invariant out == UpsertAll(es, rs[..i])
    {
      assert rs[..i + 1][..i] == rs[..i];
      out := Upsert(out, rs[i]);
      i := i + 1;
    }
    assert rs[..|rs|] == rs;
  }

  /** The table construction at startup: the static tables, then one IDLE
    * entry per counter, then one per quiz file. */
  method BuildRoutes(counters: seq<CounterSpec>, tests: seq<string>) returns (table: RouteTable)
    ensures table == BuiltTable(counters, tests)
  {
    var idle := UpsertEach(StaticIdle(), CounterRoutes(counters));
    idle := UpsertEach(idle, QuizRoutes(tests));
    table := RouteTable(idle, StaticTesting(), StaticRegistration());
  }

  /** `(route.command && messageText === route.command) || (route.text && messageText === route.text)` */
  predicate Matches(r: Route, text: Option<string>) {
    (Truthy(r.command) && text == r.command) || (Truthy(r.text) && text == r.text)
  }

  /** The position of the first entry that matches the text. */
  function FirstMatch(es: seq<Route>, text: Option<string>): (r: Option<nat>)
    ensures r.Some? ==> r.value < |es| && Matches(es[r.value], text) && forall j :: 0 <= j < r.value ==> !Matches(es[j], text)
    ensures r.None? ==> forall j :: 0 <= j < |es| ==> !Matches(es[j], text)
  {
    if es == [] then None
    else if Matches(es[0], text) then Some(0)
    else match FirstMatch(es[1..], text)
      case None => None
      case Some(i) => Some(i + 1)
  }

  const UNKNOWN := "unknown"

  /** The selector of the Router: the key of the first matching entry of
    * the state's table, `'unknown'` otherwise. */
  function RouteKey(entries: Option<seq<Route>>, text: Option<string>): string {
    if entries.None? then UNKNOWN
    else match FirstMatch(entries.value, text)
      case None => UNKNOWN
      case Some(i) => entries.value[i].key
  }

  /** The selector's loop over `Object.entries(stateConfig)` with its early return. */
  method SelectRoute(entries: Option<seq<Route>>, text: Option<string>) returns (key: string)
    ensures key == RouteKey(entries, text)
  {
    if entries.None? {
      return UNKNOWN;
    }
    var es := entries.value;
    for i := 0 to |es|
      invariant forall j :: 0 <= j < i ==> !Matches(es[j], text)
    {
      var r := es[i];
      if (Truthy(r.command) && text == r.command) || (Truthy(r.text) && text == r.text) {
        return r.key;
      }
    }
    return UNKNOWN;
  }

  /** The route bound to `key` in the state's table (handlers are bound per state and key). */
  function Lookup(entries: Option<seq<Route>>, key: string): (r: Option<Route>)
    ensures r.Some? ==> entries.Some? && r.value in entries.value && r.value.key == key
    ensures r.None? ==> entries.None? || key !in Keys(entries.value)
  {
    if entries.None? then None
    else match IndexOfKey(entries.value, key)
      case None => None
      case Some(i) => Some(entries.value[i])
  }

  /** The route the Router runs for this text in this state, None for `router.otherwise`. */
  function Select(table: RouteTable, state: string, text: Option<string>): (r: Option<Route>)
    ensures r.Some? ==> Entries(table, state).Some? && r.value in Entries(table, state).value
    ensures r.Some? ==> r.value.key == RouteKey(Entries(table, state), text)
    ensures r.None? <==> Entries(table, state).None? || RouteKey(Entries(table, state), text) !in Keys(Entries(table, state).value)
  {
    var entries := Entries(table, state);
    Lookup(entries, RouteKey(entries, text))
  }

  // ---------------------------------------------------------------------
  // Properties of the selector and of the built table

  /** With unique keys, the route run is the first entry whose command or text equals the message text. */
  lemma FirstMatchIsRun(table: RouteTable, state: string, text: Option<string>, i: nat)
    requires Entries(table, state).Some? && KeysUnique(Entries(table, state).value)
    requires FirstMatch(Entries(table, state).value, text) == Some(i)
    ensures Select(table, state, text) == Some(Entries(table, state).value[i])
  {
    var es := Entries(table, state).value;
    var k := IndexOfKey(es, es[i].key);
    assert k == Some(i);
  }

  /** No entry matches an update without text (a callback, a location, a
    * photo), so the selector answers `'unknown'`. */
  lemma NoTextSelectsUnknown(entries: Option<seq<Route>>, text: Option<string>)
    requires !Truthy(text)
    ensures RouteKey(entries, text) == UNKNOWN
  {
    if entries.Some? {
      var es := entries.value;
      assert forall j :: 0 <= j < |es| ==> !Matches(es[j], text);
    }
  }

  /** A state that is not a key of the table selects `'unknown'`. */
  lemma UnknownStateSelectsUnknown(table: RouteTable, state: string, text: Option<string>)
    requires state !in {"IDLE", "TESTING", "REGISTRATION"}
    ensures RouteKey(Entries(table, state), text) == UNKNOWN && Select(table, state, text) == None
  {
  }

  /** When no entry has key `'unknown'`, an unmatched text goes to `router.otherwise`. */
  lemma UnmatchedFallsThrough(table: RouteTable, state: string, text: Option<string>)
    requires Entries(table, state).Some? && UNKNOWN !in Keys(Entries(table, state).value)
    requires FirstMatch(Entries(table, state).value, text).None?
    ensures Select(table, state, text) == None
  {
  }

  /** Writing an entry keeps the keys unique. */
  lemma {:induction false} UpsertKeepsKeysUnique(es: seq<Route>, r: Route)
    requires KeysUnique(es)
    ensures KeysUnique(Upsert(es, r))
  {
    var out := Upsert(es, r);
    match IndexOfKey(es, r.key)
    case None =>
      forall i, j | 0 <= i < j < |out| ensures out[i].key != out[j].key {
        if j == |es| { assert es[i] in es; }
      }
    case Some(k) =>
      assert forall i :: 0 <= i < |es| ==> out[i].key == es[i].key;
  }

  lemma {:induction false} UpsertAllKeepsKeysUnique(es: seq<Route>, rs: seq<Route>)
    requires KeysUnique(es)
    ensures KeysUnique(UpsertAll(es, rs))
    decreases |rs|
  {
    if rs != [] {
      UpsertAllKeepsKeysUnique(es, rs[..|rs| - 1]);
      UpsertKeepsKeysUnique(UpsertAll(es, rs[..|rs| - 1]), rs[|rs| - 1]);
    }
  }

  /** Each key appears once in every table, however the catalog and the quiz files collide. */
  lemma BuiltKeysUnique(counters: seq<CounterSpec>, tests: seq<string>)
    ensures KeysUnique(BuiltTable(counters, tests).idle)
    ensures KeysUnique(BuiltTable(counters, tests).testing)
    ensures KeysUnique(BuiltTable(counters, tests).registration)
  {
    StaticKeysUnique();
    UpsertAllKeepsKeysUnique(StaticIdle(), CounterRoutes(counters));
    UpsertAllKeepsKeysUnique(UpsertAll(StaticIdle(), CounterRoutes(counters)), QuizRoutes(tests));
  }

  /** The static tables have distinct keys. */
  lemma StaticKeysUnique()
    ensures KeysUnique(StaticIdle()) && KeysUnique(StaticTesting()) && KeysUnique(StaticRegistration())
  {
    var keys := ["start", "profile", "tasks", "settings", "toprofile", "backtomenu", "achievements", "rating", "poll", "counters"];
    StaticIdleKeys(keys);
    DistinctKeys(keys);
  }

  lemma StaticIdleKeys(keys: seq<string>)
    requires keys == ["start", "profile", "tasks", "settings", "toprofile", "backtomenu", "achievements", "rating", "poll", "counters"]
    ensures |StaticIdle()| == |keys| && forall i :: 0 <= i < |keys| ==> StaticIdle()[i].key == keys[i]
  {
  }

  lemma DistinctKeys(keys: seq<string>)
    requires keys == ["start", "profile", "tasks", "settings", "toprofile", "backtomenu", "achievements", "rating", "poll", "counters"]
    ensures forall i, j :: 0 <= i < j < |keys| ==> keys[i] != keys[j]
  {
  }

  /** Writing an entry under a key absent from the first `n` entries leaves them in place. */
  lemma UpsertKeepsPrefix(x: seq<Route>, es: seq<Route>, r: Route, n: nat)
    requires n <= |es| && n <= |x| && x[..n] == es[..n]
    requires forall j :: 0 <= j < n ==> r.key != es[j].key
    ensures |Upsert(x, r)| >= |x| && Upsert(x, r)[..n] == es[..n]
  {
    forall j | 0 <= j < n ensures Upsert(x, r)[j] == es[j] {
      assert x[j] == x[..n][j];
    }
  }

  /** Entries written under keys absent from the first `n` entries leave those `n` entries in place. */
  lemma {:induction false} UpsertAllKeepsPrefix(es: seq<Route>, rs: seq<Route>, n: nat)
    requires n <= |es|
    requires forall r, j :: r in rs && 0 <= j < n ==> r.key != es[j].key
    ensures |UpsertAll(es, rs)| >= |es| && UpsertAll(es, rs)[..n] == es[..n]
    decreases |rs|
  {
    if rs != [] {
      var init := rs[..|rs| - 1];
      var r := rs[|rs| - 1];
      assert forall x :: x in init ==> x in rs;
      UpsertAllKeepsPrefix(es, init, n);
      assert r in rs;
      UpsertKeepsPrefix(UpsertAll(es, init), es, r, n);
    }
  }

  /** A text matched first at `i` stays matched first at `i` in a table that keeps the first `n > i` entries. */
  lemma FirstMatchInPrefix(es: seq<Route>, other: seq<Route>, n: nat, text: Option<string>, i: nat)
    requires i < n <= |es| && n <= |other| && other[..n] == es[..n]
    requires FirstMatch(es, text) == Some(i)
    ensures FirstMatch(other, text) == Some(i)
  {
    assert forall j :: 0 <= j < n ==> other[j] == other[..n][j] == es[..n][j] == es[j];
  }

  /** Keys absent from `base` are absent from the first `n` entries of a table that starts like it. */
  lemma AvoidsPrefix(rs: seq<Route>, base: seq<Route>, x: seq<Route>, n: nat)
    requires n <= |base| && n <= |x| && x[..n] == base[..n]
    requires forall r :: r in rs ==> r.key !in Keys(base)
    ensures forall r, j :: r in rs && 0 <= j < n ==> r.key != x[j].key
  {
    forall r, j | r in rs && 0 <= j < n ensures r.key != x[j].key {
      assert x[j] == x[..n][j] == base[j];
      assert base[j] in base;
    }
  }

  /** Entries appended after `base` under keys of their own do not take over a text `base` matches. */
  lemma {:induction false} EarlierTextWins(base: seq<Route>, cs: seq<Route>, qs: seq<Route>, text: Option<string>, i: nat)
    requires FirstMatch(base, text) == Some(i)
    requires forall r :: r in cs ==> r.key !in Keys(base)
    requires forall r :: r in qs ==> r.key !in Keys(base)
    ensures RouteKey(Some(UpsertAll(UpsertAll(base, cs), qs)), text) == base[i].key
  {
    var n := |base|;
    AvoidsPrefix(cs, base, base, n);
    UpsertAllKeepsPrefix(base, cs, n);
    var mid := UpsertAll(base, cs);
    AvoidsPrefix(qs, base, mid, n);
    UpsertAllKeepsPrefix(mid, qs, n);
    var built := UpsertAll(mid, qs);
    assert built[..n] == base[..n];
    FirstMatchInPrefix(base, built, n, text, i);
    assert built[i] == built[..n][i] == base[i];
  }

  /** A counter or quiz whose text equals a static IDLE text does not take
    * it over: the earlier static entry is still the one selected, provided
    * no counter id or quiz name is itself a static key. */
  lemma StaticTextWins(counters: seq<CounterSpec>, tests: seq<string>, text: Option<string>, i: nat)
    requires FirstMatch(StaticIdle(), text) == Some(i)
    requires forall k :: 0 <= k < |counters| ==> counters[k].id !in Keys(StaticIdle())
    requires forall k :: 0 <= k < |tests| ==> tests[k] !in Keys(StaticIdle())
    ensures RouteKey(Some(BuiltIdle(counters, tests)), text) == StaticIdle()[i].key
  {
    var cs := CounterRoutes(counters);
    var qs := QuizRoutes(tests);
    forall r | r in cs ensures r.key !in Keys(StaticIdle()) {
      var k :| 0 <= k < |cs| && cs[k] == r;
    }
    forall r | r in qs ensures r.key !in Keys(StaticIdle()) {
      var k :| 0 <= k < |qs| && qs[k] == r;
    }
    EarlierTextWins(StaticIdle(), cs, qs, text, i);
  }

  /** A catalog or quiz entry under an existing key replaces that entry where it stands. */
  lemma OverwriteInPlace(es: seq<Route>, r: Route, j: nat)
    requires KeysUnique(es) && j < |es| && es[j].key == r.key
    ensures Upsert(es, r) == es[j := r]
  {
    var k := IndexOfKey(es, r.key);
    assert k == Some(j);
  }

  /** In TESTING, `/start` and the finish button both complete the quiz. */
  lemma TestingRoutes(table: RouteTable)
    requires table.testing == StaticTesting()
    ensures Select(table, "TESTING", Some("/start")) == Some(Route("start", Some("/start"), None, TestCompletion))
    ensures Select(table, "TESTING", Some("✅ Завершить тест")).Some?
    ensures Select(table, "TESTING", Some("✅ Завершить тест")).value.handler == TestCompletion
  {
    var es := StaticTesting();
    assert FirstMatch(es, Some("/start")) == Some(1) by { assert !Matches(es[0], Some("/start")); }
    assert FirstMatch(es, Some("✅ Завершить тест")) == Some(0);
    FirstMatchIsRun(table, "TESTING", Some("/start"), 1);
    FirstMatchIsRun(table, "TESTING", Some("✅ Завершить тест"), 0);
  }
}
