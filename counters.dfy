/** Per-user win counters: the callback data of their buttons, the lazy
  * creation of a counter at zero and the +1 / -1 buttons with a floor at
  * zero that rejects rather than clamps. */
module Counters {
  import opened Common
  import opened Context

  datatype CounterAction = Increment | Decrement

  function ActionSuffix(a: CounterAction): (s: string)
    ensures |s| == 10 && s[0] == '_'
  {
    match a
    case Increment => "_increment"
    case Decrement => "_decrement"
  }

  /** `${id}_increment` / `${id}_decrement` */
  function CallbackData(id: string, a: CounterAction): string {
    id + ActionSuffix(a)
  }

  /** `createCounterKeyboard`: a "-1" and a "+1" button for counter `id`. */
  function CreateCounterKeyboard(id: string): (m: Markup)
    ensures m.Inline? && |m.buttons| == 2
    ensures m.buttons[0] == Button("-1", CallbackData(id, Decrement))
    ensures m.buttons[1] == Button("+1", CallbackData(id, Increment))
  {
    Inline([Button("-1", CallbackData(id, Decrement)), Button("+1", CallbackData(id, Increment))])
  }

  // ---------------------------------------------------------------------
  // The regular expression /(\w+)_(increment|decrement)/, unanchored

  /** `\w` without the `u` flag: ASCII letters, digits and `_`. */
  predicate IsWordChar(c: char) {
    ('a' <= c <= 'z') || ('A' <= c <= 'Z') || ('0' <= c <= '9') || c == '_'
  }

  predicate IsWord(s: string) {
    forall i :: 0 <= i < |s| ==> IsWordChar(s[i])
  }

  /** The length of the run of word characters that starts at `p`. */
  function WordRun(d: string, p: nat): (n: nat)
    requires p <= |d|
    ensures p + n <= |d| && forall k :: p <= k < p + n ==> IsWordChar(d[k])
    decreases |d| - p
  {
    if p < |d| && IsWordChar(d[p]) then 1 + WordRun(d, p + 1) else 0
  }

  /** The action whose `_increment` or `_decrement` begins at `k`. */
  function SuffixAt(d: string, k: nat): (r: Option<CounterAction>)
    requires k <= |d|
    ensures r.Some? ==> StartsWith(d[k..], ActionSuffix(r.value))
    ensures r.None? ==> forall a :: !StartsWith(d[k..], ActionSuffix(a))
  {
    if StartsWith(d[k..], "_increment") then Some(Increment)
    else if StartsWith(d[k..], "_decrement") then Some(Decrement)
    else None
  }

  /** `s` occurs in `d` at position `q`. */
  predicate OccursAt(d: string, q: nat, s: string) {
    q + |s| <= |d| && d[q..q + |s|] == s
  }

  /** `<id>_<action>` starts at `q` with `id` one or more word characters:
    * a place where the expression can match. */
  predicate Occurrence(d: string, q: nat, id: string, a: CounterAction) {
    |id| >= 1 && IsWord(id) && OccursAt(d, q, CallbackData(id, a))
  }

  /** The match the expression reports when it searches from `p`: the
    * occurrence that starts first, with the longest id at that start
    * (`\w+` is greedy and gives back characters only as needed). */
  ghost predicate LeftmostLongest(d: string, p: nat, q: nat, id: string, a: CounterAction) {
    && p <= q && Occurrence(d, q, id, a)
    && (forall q': nat, id', a' :: p <= q' < q ==> !Occurrence(d, q', id', a'))
    && (forall id', a' :: Occurrence(d, q, id', a') ==> |id'| <= |id|)
  }

  /** An occurrence of `<id><suffix>` is `id` followed by the suffix. */
  lemma OccursAtParts(d: string, q: nat, id: string, a: CounterAction)
    ensures OccursAt(d, q, CallbackData(id, a)) <==>
      q + |id| <= |d| && d[q..q + |id|] == id && StartsWith(d[q + |id|..], ActionSuffix(a))
  {
    var s, k := CallbackData(id, a), q + |id|;
    if k + 10 <= |d| {
      assert d[q..q + |s|] == d[q..k] + d[k..k + 10];
      assert d[k..][..10] == d[k..k + 10];
      assert s[..|id|] == id && s[|id|..] == ActionSuffix(a);
    }
  }

  /** The suffix an occurrence's id is followed by names its own action. */
  lemma SuffixOfOccurrence(d: string, k: nat, a: CounterAction)
    requires k <= |d| && StartsWith(d[k..], ActionSuffix(a))
    ensures SuffixAt(d, k) == Some(a)
  {
    if a == Decrement {
      assert d[k..][..10][1] == 'd';
    }
  }

  /** Without a suffix at `p + len`, no occurrence at `p` has an id of length `len`. */
  lemma {:induction false} NoOccurrenceOfLength(d: string, p: nat, len: nat)
    requires p + len <= |d| && SuffixAt(d, p + len).None?
    ensures forall id, a :: |id| == len ==> !OccursAt(d, p, CallbackData(id, a))
  {
    forall id, a | |id| == len ensures !OccursAt(d, p, CallbackData(id, a)) {
      OccursAtParts(d, p, id, a);
    }
  }

  /** The match starting at `p`: greedy `\w+`, so the longest id of at most
    * `len` characters that is followed by an action suffix. */
  function MatchFrom(d: string, p: nat, len: nat): (r: Option<(string, CounterAction)>)
    requires p + len <= |d|
    ensures r.Some? ==>
      var (id, a) := r.value;
      && 1 <= |id| <= len && id == d[p..p + |id|]
      && StartsWith(d[p + |id|..], ActionSuffix(a))
    ensures forall id, a :: 1 <= |id| <= len && OccursAt(d, p, CallbackData(id, a)) ==>
      r.Some? && |id| <= |r.value.0|
    decreases len
  {
    if len == 0 then None
    else match SuffixAt(d, p + len)
      case Some(a) => Some((d[p..p + len], a))
      case None =>
        NoOccurrenceOfLength(d, p, len);
        MatchFrom(d, p, len - 1)
  }

  /** A run of `n` word characters at `p` lies within WordRun(d, p). */
  lemma {:induction false} WordRunCovers(d: string, p: nat, n: nat)
    requires p + n <= |d| && IsWord(d[p..p + n])
    ensures n <= WordRun(d, p)
    decreases n
  {
    if n > 0 {
      assert d[p..p + n][0] == d[p];
      assert d[p + 1..p + n] == d[p..p + n][1..];
      WordRunCovers(d, p + 1, n - 1);
    }
  }

  /** A run of word characters inside the word run at `p` is a word. */
  lemma WordRunIsWord(d: string, p: nat, n: nat)
    requires p <= |d| && n <= WordRun(d, p)
    ensures IsWord(d[p..p + n])
  {
  }

  /** The id of an occurrence at `p` lies within the word run there. */
  lemma {:induction false} OccurrenceInRun(d: string, p: nat)
    requires p <= |d|
    ensures forall id, a :: Occurrence(d, p, id, a) ==> |id| <= WordRun(d, p)
  {
    forall id, a | Occurrence(d, p, id, a) ensures |id| <= WordRun(d, p) {
      OccursAtParts(d, p, id, a);
      WordRunCovers(d, p, |id|);
    }
  }

  /** What MatchFrom finds over the word run at `p` is the longest occurrence there. */
  lemma {:induction false} FoundAt(d: string, p: nat, id: string, a: CounterAction)
    requires p <= |d| && MatchFrom(d, p, WordRun(d, p)) == Some((id, a))
    ensures LeftmostLongest(d, p, p, id, a)
  {
    assert Occurrence(d, p, id, a) by {
      WordRunIsWord(d, p, |id|);
      OccursAtParts(d, p, id, a);
    }
    forall id', a' | Occurrence(d, p, id', a') ensures |id'| <= |id| {
      OccurrenceInRun(d, p);
    }
  }

  /** MatchFrom over the word run at `p` finds nothing only when no occurrence starts there. */
  lemma {:induction false} NoneAt(d: string, p: nat)
    requires p <= |d| && MatchFrom(d, p, WordRun(d, p)).None?
    ensures forall id, a :: !Occurrence(d, p, id, a)
  {
    OccurrenceInRun(d, p);
  }

  /** A search that finds nothing at `p` reports what it finds from `p + 1`. */
  lemma ShiftStart(d: string, p: nat, next: nat, id: string, a: CounterAction)
    requires next == p + 1
    requires forall id', a' :: !Occurrence(d, p, id', a')
    requires exists q: nat :: LeftmostLongest(d, next, q, id, a)
    ensures exists q: nat :: LeftmostLongest(d, p, q, id, a)
  {
    var q: nat :| LeftmostLongest(d, next, q, id, a);
    assert LeftmostLongest(d, p, q, id, a);
  }

  /** The leftmost match at or after `p`, and None exactly when no
    * occurrence starts there or later. */
  function SearchFrom(d: string, p: nat): (r: Option<(string, CounterAction)>)
    requires p <= |d|
    ensures r.None? ==> forall q: nat, id, a :: p <= q ==> !Occurrence(d, q, id, a)
    ensures r.Some? ==> exists q: nat :: LeftmostLongest(d, p, q, r.value.0, r.value.1)
    decreases |d| - p
  {
    if p == |d| then None
    else
      var m := MatchFrom(d, p, WordRun(d, p));
      if m.Some? then
        FoundAt(d, p, m.value.0, m.value.1);
        m
      else
        NoneAt(d, p);
        var r := SearchFrom(d, p + 1);
        if r.Some? then
          ShiftStart(d, p, p + 1, r.value.0, r.value.1);
          r
        else r
  }

  /** `callbackData.match(/(\w+)_(increment|decrement)/)`: the counter id
    * and the action of the leftmost, longest match, and None exactly when
    * the data holds no `<word>_increment` or `<word>_decrement`. */
  function MatchCallback(d: string): (r: Option<(string, CounterAction)>)
    ensures r.None? <==> forall q: nat, id, a :: !Occurrence(d, q, id, a)
    ensures r.Some? ==> exists q: nat :: LeftmostLongest(d, 0, q, r.value.0, r.value.1)
  {
    SearchFrom(d, 0)
  }

  /** The match is determined: two leftmost-longest matches from the same
    * position start at the same place with the same id and action. */
  lemma {:induction false} LeftmostLongestUnique(d: string, p: nat, q1: nat, id1: string, a1: CounterAction,
                                                 q2: nat, id2: string, a2: CounterAction)
    requires LeftmostLongest(d, p, q1, id1, a1) && LeftmostLongest(d, p, q2, id2, a2)
    ensures q1 == q2 && id1 == id2 && a1 == a2
  {
    assert q1 == q2;
    assert |id1| == |id2|;
    OccursAtParts(d, q1, id1, a1);
    OccursAtParts(d, q1, id2, a2);
    SuffixOfOccurrence(d, q1 + |id1|, a1);
    SuffixOfOccurrence(d, q1 + |id1|, a2);
  }

  lemma {:induction false} WordRunOfWord(d: string, p: nat)
    requires p <= |d| && IsWord(d[p..])
    ensures WordRun(d, p) == |d| - p
    decreases |d| - p
  {
    if p < |d| {
      assert d[p..][0] == d[p];
      assert d[p + 1..] == d[p..][1..];
      WordRunOfWord(d, p + 1);
    }
  }

  lemma {:induction false} LongestMatchIsId(id: string, a: CounterAction, len: nat)
    requires |id| >= 1 && |id| <= len <= |id| + 10
    ensures MatchFrom(CallbackData(id, a), 0, len) == Some((id, a))
    decreases len
  {
    var d := CallbackData(id, a);
    if len > |id| {
      assert |d[len..]| < 10;
      assert SuffixAt(d, len) == None;
      LongestMatchIsId(id, a, len - 1);
    } else {
      assert d[len..] == ActionSuffix(a);
      assert d[..len] == id;
      if a == Increment {
        assert StartsWith(d[len..], "_increment");
      } else {
        assert d[len..][1] == 'd';
        assert !StartsWith(d[len..], "_increment");
        assert StartsWith(d[len..], "_decrement");
      }
      assert SuffixAt(d, len) == Some(a);
    }
  }

  /** The button format round-trips: for an id of word characters the
    * expression recovers exactly that id and action. */
  lemma CallbackDataRoundTrip(id: string, a: CounterAction)
    requires |id| >= 1 && IsWord(id)
    ensures MatchCallback(CallbackData(id, a)) == Some((id, a))
  {
    var d := CallbackData(id, a);
    assert IsWord(d) by {
      var s := ActionSuffix(a);
      assert IsWord(s) by {
        if a == Increment { assert s == "_increment"; } else { assert s == "_decrement"; }
      }
      forall i | 0 <= i < |d| ensures IsWordChar(d[i]) {
        if i >= |id| { assert d[i] == s[i - |id|]; }
      }
    }
    assert d[0..] == d;
    WordRunOfWord(d, 0);
    LongestMatchIsId(id, a, |d|);
    assert SearchFrom(d, 0) == MatchFrom(d, 0, |d|);
  }

  /** `action === 'increment' ? 1 : -1` */
  function Delta(a: CounterAction): (r: int)
    ensures a == Increment ==> r == 1
    ensures a == Decrement ==> r == -1
  {
    if a == Increment then 1 else -1
  }

  // ---------------------------------------------------------------------
  // Stored counters

  /** `user.counters[id] || 0` */
  function CounterValue(u: User, id: string): int {
    if u.counters.Some? && id in u.counters.value then u.counters.value[id] else 0
  }

  predicate HasCounter(u: User, id: string) {
    u.counters.Some? && id in u.counters.value
  }

  /** The users collection with `counters.<id>` of user `uid` set to `value`. */
  function SetCounter(users: map<UserId, User>, uid: UserId, id: string, value: int): (r: map<UserId, User>)
    ensures r.Keys == users.Keys
    ensures uid in users ==> HasCounter(r[uid], id) && CounterValue(r[uid], id) == value
    ensures uid in users ==> r[uid] == users[uid].(counters := r[uid].counters)
    ensures uid in users ==> forall c :: c != id && HasCounter(users[uid], c) ==>
      HasCounter(r[uid], c) && CounterValue(r[uid], c) == CounterValue(users[uid], c)
    ensures uid in users ==> forall c :: HasCounter(r[uid], c) ==> c == id || HasCounter(users[uid], c)
    ensures forall other :: other in users && other != uid ==> r[other] == users[other]
  {
    if uid in users then
      var u := users[uid];
      users[uid := u.(counters := Some(u.counters.GetOr(map[])[id := value]))]
    else users
  }

  /** The record `ensureCounterExists` inserts for a user it has never seen. */
  function CounterOnlyUser(uid: UserId, id: string): User {
    User(uid, None, None, None, None, None, None, None, None, Some(map[id := 0]))
  }

  /** `ensureCounterExists` on the collection: a zero entry is written only
    * where the user or the counter is missing; an existing value is never changed. */
  function EnsureCounter(users: map<UserId, User>, uid: UserId, id: string): (r: map<UserId, User>)
    ensures r.Keys == users.Keys + {uid}
    ensures HasCounter(r[uid], id)
    ensures uid in users && HasCounter(users[uid], id) ==> r == users
    ensures uid in users && !HasCounter(users[uid], id) ==> r == SetCounter(users, uid, id, 0)
    ensures uid !in users ==> r == users[uid := CounterOnlyUser(uid, id)]
  {
    if uid !in users then users[uid := CounterOnlyUser(uid, id)]
    else if HasCounter(users[uid], id) then users
    else SetCounter(users, uid, id, 0)
  }

  /** `ensureCounterExists(db, ctx.from.id, id)`; the record returned is the one now stored. */
  method EnsureCounterExists(ctx: Ctx, id: string) returns (user: User)
    modifies ctx`users
    ensures ctx.users == EnsureCounter(old(ctx.users), ctx.UserIdOf(), id)
    ensures ctx.UserIdOf() in ctx.users && user == ctx.users[ctx.UserIdOf()]
  {
    var uid := ctx.UserIdOf();
    if uid !in ctx.users {
      user := CounterOnlyUser(uid, id);
      ctx.users := ctx.users[uid := user];
      return;
    }
    user := ctx.users[uid];
    if !HasCounter(user, id) {
      ctx.users := SetCounter(ctx.users, uid, id, 0);
      user := ctx.users[uid];
    }
  }

  /** Every stored counter is at least zero. */
  ghost predicate CountersNonNegative(users: map<UserId, User>) {
    forall uid, c :: uid in users && HasCounter(users[uid], c) ==> CounterValue(users[uid], c) >= 0
  }

  /** The value a button press would store, or None when it would go below zero. */
  function Adjusted(users: map<UserId, User>, uid: UserId, id: string, a: CounterAction): (r: Option<int>)
    ensures r.Some? <==> CounterValue(EnsureCounter(users, uid, id)[uid], id) + Delta(a) >= 0
    ensures r.Some? ==> r.value == CounterValue(EnsureCounter(users, uid, id)[uid], id) + Delta(a)
  {
    var value := CounterValue(EnsureCounter(users, uid, id)[uid], id) + Delta(a);
    if value < 0 then None else Some(value)
  }

  const INVALID_DATA := "Некорректные данные."
  const BELOW_ZERO := "Счётчик не может быть меньше нуля."
  const UPDATED := "Счётчик обновлён: "

  /** `handleCounterCallback`. Data the expression does not match gets an
    * alert and touches no counter. Otherwise the counter is created if
    * missing; a change below zero gets an alert and stores nothing more;
    * any other change stores value + delta in that counter only and edits
    * the message (`ok` is false when the edit throws, after the write). */
  method HandleCounterCallback(ctx: Ctx) returns (ok: bool)
    requires ctx.update.callbackData.Some?
    modifies ctx`users, ctx`outbox
    ensures var uid := ctx.UserIdOf();
      match MatchCallback(ctx.update.callbackData.value)
      case None =>
        ok && ctx.users == old(ctx.users) && ctx.outbox == old(ctx.outbox) + [Alert(INVALID_DATA)]
      case Some((id, a)) =>
        var ensured := EnsureCounter(old(ctx.users), uid, id);
        match Adjusted(old(ctx.users), uid, id, a)
        case None =>
          ok && ctx.users == ensured && ctx.outbox == old(ctx.outbox) + [Alert(BELOW_ZERO)]
        case Some(n) =>
          && ctx.users == SetCounter(ensured, uid, id, n)
          && ok == ctx.editsSucceed
          && ctx.outbox == old(ctx.outbox) + (if ok then [EditCurrent(UPDATED + IntToString(n), CreateCounterKeyboard(id))] else [])
    ensures CountersNonNegative(old(ctx.users)) ==> CountersNonNegative(ctx.users)
  {
    ghost var before := ctx.users;
    var m := MatchCallback(ctx.update.callbackData.value);
    if m.None? {
      ctx.outbox := ctx.outbox + [Alert(INVALID_DATA)];
      return true;
    }
    var (id, a) := m.value;
    var uid := ctx.UserIdOf();
    if CountersNonNegative(before) {
      PressKeepsNonNegative(before, uid, id, a);
    }
    var user := EnsureCounterExists(ctx, id);
    var newCount := CounterValue(user, id) + Delta(a);
    if newCount < 0 {
      ctx.outbox := ctx.outbox + [Alert(BELOW_ZERO)];
      return true;
    }
    ctx.users := SetCounter(ctx.users, uid, id, newCount);
    if !ctx.editsSucceed {
      return false;
    }
    ctx.outbox := ctx.outbox + [EditCurrent(UPDATED + IntToString(newCount), CreateCounterKeyboard(id))];
    return true;
  }

  const COUNTERS_MENU := "Вот доступные счётчики:"

  /** `handleCouners`: the menu of counters. */
  method HandleCounters(ctx: Ctx)
    modifies ctx`outbox
    ensures ctx.outbox == old(ctx.outbox) + [Reply(COUNTERS_MENU, CountersKeyboard)]
  {
    ctx.outbox := ctx.outbox + [Reply(COUNTERS_MENU, CountersKeyboard)];
  }

  /** Creating a counter lazily keeps every stored counter at zero or above. */
  lemma {:induction false} EnsureKeepsNonNegative(users: map<UserId, User>, uid: UserId, id: string)
    requires CountersNonNegative(users)
    ensures CountersNonNegative(EnsureCounter(users, uid, id))
  {
    var r := EnsureCounter(users, uid, id);
    forall u, c | u in r && HasCounter(r[u], c) ensures CounterValue(r[u], c) >= 0 {
      if u == uid && uid in users && !HasCounter(users[uid], id) && c != id {
        assert HasCounter(users[uid], c);
      }
    }
  }

  /** Starting from the lazy zero, a button press never stores a negative counter. */
  lemma {:induction false} PressKeepsNonNegative(users: map<UserId, User>, uid: UserId, id: string, a: CounterAction)
    requires CountersNonNegative(users)
    ensures var ensured := EnsureCounter(users, uid, id);
      match Adjusted(users, uid, id, a)
      case None => CountersNonNegative(ensured)
      case Some(n) => CountersNonNegative(SetCounter(ensured, uid, id, n))
  {
    EnsureKeepsNonNegative(users, uid, id);
    var ensured := EnsureCounter(users, uid, id);
    match Adjusted(users, uid, id, a)
    case None =>
    case Some(n) =>
      var r := SetCounter(ensured, uid, id, n);
      forall u, c | u in r && HasCounter(r[u], c) ensures CounterValue(r[u], c) >= 0 {
        if u == uid && c != id {
          assert HasCounter(ensured[uid], c);
        }
      }
  }

  /** The value read after the lazy creation is the stored one, or 0 for a counter that was missing. */
  lemma EnsureCounterKeepsValue(users: map<UserId, User>, uid: UserId, id: string)
    ensures CounterValue(EnsureCounter(users, uid, id)[uid], id) == if uid in users then CounterValue(users[uid], id) else 0
  {
  }

  /** The floor is a rejection: pressing -1 on a counter at zero stores nothing new. */
  lemma FloorRejects(users: map<UserId, User>, uid: UserId, id: string)
    requires uid in users && HasCounter(users[uid], id) && CounterValue(users[uid], id) == 0
    ensures Adjusted(users, uid, id, Decrement) == None
    ensures EnsureCounter(users, uid, id) == users
  {
  }
}
