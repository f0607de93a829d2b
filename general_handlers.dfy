/** The small shared handlers: health rendering, error formatting, the
  * edit-then-reply choice, the error-handling wrapper and the menu screens. */
module GeneralHandlers {
  import opened Common
  import opened Context

  const FULL_HEART := "❤️"
  const EMPTY_HEART := "🖤"

  /** `renderHealth`: `repeat` throws for a negative count, so the source
    * can only render a health between 0 and 4. */
  function RenderHealth(health: int): (r: string)
    requires 0 <= health <= 4
    ensures |r| == |FULL_HEART| * health + |EMPTY_HEART| * (4 - health)
  {
    Repeat(FULL_HEART, health) + Repeat(EMPTY_HEART, 4 - health)
  }

  /** Reads a row of hearts back: the full hearts, then the empty ones. */
  function ParseHearts(s: string, full: nat, empty: nat): Option<(nat, nat)>
    decreases |s|
  {
    if s == "" then Some((full, empty))
    else if empty == 0 && StartsWith(s, FULL_HEART) then ParseHearts(s[|FULL_HEART|..], full + 1, 0)
    else if StartsWith(s, EMPTY_HEART) then ParseHearts(s[|EMPTY_HEART|..], full, empty + 1)
    else None
  }

  /** The health a row of exactly four hearts shows, if it is one. */
  function ParseHealth(s: string): Option<nat> {
    match ParseHearts(s, 0, 0)
    case Some((full, empty)) => if full + empty == 4 then Some(full) else None
    case None => None
  }

  lemma {:induction false} ParseEmptyHearts(n: nat, full: nat, empty: nat)
    ensures ParseHearts(Repeat(EMPTY_HEART, n), full, empty) == Some((full, empty + n))
  {
    if n > 0 {
      var s := Repeat(EMPTY_HEART, n);
      assert s[..|EMPTY_HEART|] == EMPTY_HEART && s[|EMPTY_HEART|..] == Repeat(EMPTY_HEART, n - 1);
      assert s[0] != FULL_HEART[0];
      ParseEmptyHearts(n - 1, full, empty + 1);
    }
  }

  lemma {:induction false} ParseHeartRow(a: nat, b: nat, full: nat)
    ensures ParseHearts(Repeat(FULL_HEART, a) + Repeat(EMPTY_HEART, b), full, 0) == Some((full + a, b))
  {
    var s := Repeat(FULL_HEART, a) + Repeat(EMPTY_HEART, b);
    if a == 0 {
      assert s == Repeat(EMPTY_HEART, b);
      ParseEmptyHearts(b, full, 0);
    } else {
      assert s == FULL_HEART + (Repeat(FULL_HEART, a - 1) + Repeat(EMPTY_HEART, b));
      assert s[..|FULL_HEART|] == FULL_HEART;
      assert s[|FULL_HEART|..] == Repeat(FULL_HEART, a - 1) + Repeat(EMPTY_HEART, b);
      ParseHeartRow(a - 1, b, full + 1);
    }
  }

  /** The rendered row is `health` full hearts followed by `4 - health`
    * empty ones, four symbols in all: reading it back gives the health. */
  lemma RenderHealthRoundTrip(health: int)
    requires 0 <= health <= 4
    ensures ParseHealth(RenderHealth(health)) == Some(health)
  {
    ParseHeartRow(health, 4 - health, 0);
  }

  const ERROR_PREFIX := "❌ Ошибка: "

  /** `formatErrorMessage`: the fixed prefix, then the message unchanged. */
  function FormatErrorMessage(message: string): (r: string)
    ensures StartsWith(r, ERROR_PREFIX) && r[|ERROR_PREFIX|..] == message
  {
    ERROR_PREFIX + message
  }

  /** `editOrReply`: one outbound call carrying the given text and markup.
    * It is an edit exactly when the update is a callback query and the
    * edit is accepted; otherwise (no callback, or a failed edit) a reply. */
  function EditOrReply(hasCallback: bool, editSucceeds: bool, text: string, markup: Markup): (r: seq<Action>)
    ensures |r| == 1 && (r[0].Reply? || r[0].EditCurrent?)
    ensures r[0].text == text && r[0].markup == markup
    ensures r[0].EditCurrent? <==> hasCallback && editSucceeds
  {
    if hasCallback && editSucceeds then [EditCurrent(text, markup)] else [Reply(text, markup)]
  }

  /** The calls a wrapped handler made and whether it threw. */
  datatype Run = Run(actions: seq<Action>, threw: bool)

  const UNEXPECTED_ERROR := "Произошла непредвиденная ошибка. Пожалуйста, попробуйте позже."

  /** `withErrorHandling`: the wrapper never throws; a failure of the
    * wrapped function adds exactly one reply with the formatted message. */
  function WithErrorHandling(run: Run): (r: Run)
    ensures !r.threw
    ensures |r.actions| == |run.actions| + (if run.threw then 1 else 0)
    ensures r.actions[..|run.actions|] == run.actions
    ensures run.threw ==> r.actions[|run.actions|] == Reply(FormatErrorMessage(UNEXPECTED_ERROR), NoMarkup)
  {
    if run.threw then Run(run.actions + [Reply(FormatErrorMessage(UNEXPECTED_ERROR), NoMarkup)], false)
    else run
  }

  /** The fixed-text screens. */
  datatype Menu = Tasks | Settings | BackToMenu | Achievements | Rating

  function MenuText(m: Menu): string {
    match m
    case Tasks => "Список доступных заданий:"
    case Settings => "Настройки:"
    case BackToMenu => "Возвращаемся в главное меню:"
    case Achievements => "Ваши достижения:"
    case Rating => "Текущий рейтинг:"
  }

  function MenuMarkup(m: Menu): Markup {
    match m
    case Tasks => MainKeyboard
    case Settings => SettingsKeyboard
    case BackToMenu => MainKeyboard
    case Achievements => ProfileKeyboard
    case Rating => ProfileKeyboard
  }

  /** `handleTasks`, `handleSettings`, `handleBackToMenu`, `handleAchievements`,
    * `handleRating`: one fixed text with one fixed keyboard through editOrReply. */
  method HandleMenu(ctx: Ctx, m: Menu)
    modifies ctx`outbox
    ensures ctx.outbox == old(ctx.outbox) + EditOrReply(ctx.update.callbackData.Some?, ctx.editsSucceed, MenuText(m), MenuMarkup(m))
  {
    ctx.outbox := ctx.outbox + EditOrReply(ctx.update.callbackData.Some?, ctx.editsSucceed, MenuText(m), MenuMarkup(m));
  }
}
