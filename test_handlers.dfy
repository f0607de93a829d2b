/** The quiz engine: start a quiz from its question list, render the
  * current question (editing the recorded message once there is one),
  * record answers by option position, score per channel and finish. */
module TestHandlers {
  import opened Common
  import opened Context
  import opened StateManager
  import opened GeneralHandlers

  /** What loading `../tests/<name>.json` yields: a failed `require`, a
    * value that is not an array, or an array of questions. */
  datatype QuizFile = Unreadable | NotArray | Questions(qs: seq<Question>)

  const LOAD_FAILED := "Произошла ошибка при загрузке теста. Пожалуйста, попробуйте позже."
  const EMPTY_TEST := "Тест пуст или имеет некорректный формат."
  const STARTED := "Начат тест "
  const COMPLETED := "Тест завершён. Возвращаем вас в главное меню."
  const RESULTS_HEADER := "Результаты теста:\n"
  const NO_TESTS := "Нет доступных тестов. Пожалуйста, свяжитесь с администратором."
  const CHOOSE_TEST := "Выберите тест из списка:"

  // ---------------------------------------------------------------------
  // Rendering

  /** `String.fromCharCode(65 + index)`: A, B, C, … (a position whose code is
    * 0xD800 or more, from the surrogate range on, which no real question
    * reaches, is shown as U+FFFD). */
  function OptionLetter(index: nat): (c: char)
    ensures index < 26 ==> 'A' <= c <= 'Z'
    ensures 65 + index < 0xD800 ==> c as int == 65 + index
  {
    if 65 + index < 0xD800 then (65 + index) as char else '\U{FFFD}'
  }

  /** The line of option `index`: its letter, a dot and its text. */
  function OptionLine(index: nat, option: Choice): string {
    [OptionLetter(index)] + ". " + option.text
  }

  function OptionLines(options: seq<Choice>): seq<string> {
    seq(|options|, i requires 0 <= i < |options| => OptionLine(i, options[i]))
  }

  /** The text of question `index` of `total`: a counter line, the bold question, the lettered options. */
  function QuestionText(q: Question, index: nat, total: nat): string {
    "Вопрос " + NatToString(index + 1) + " / " + NatToString(total) + "\n\n<b>" + q.question + "</b>\n\n"
    + Join(OptionLines(q.options), "\n")
  }

  /** The inline keyboard of a question: one button per option. */
  function KeyboardFor(options: seq<Choice>): seq<Button> {
    seq(|options|, i requires 0 <= i < |options| => Button([OptionLetter(i)], options[i].id))
  }

  /** `createDynamicInlineKeyboard`: button `i` is labelled with the letter
    * of position `i` and carries that option's id as its callback data. */
  method CreateDynamicInlineKeyboard(options: seq<Choice>) returns (keyboard: seq<Button>)
    ensures |keyboard| == |options|
    ensures forall i :: 0 <= i < |options| ==>
      keyboard[i].text == [OptionLetter(i)] && keyboard[i].data == options[i].id
  {
    keyboard := [];
    var i := 0;
    while i < |options|
      invariant 0 <= i <= |options|
      invariant |keyboard| == i
      invariant forall k :: 0 <= k < i ==> keyboard[k] == Button([OptionLetter(k)], options[k].id)
    {
      keyboard := keyboard + [Button([OptionLetter(i)], options[i].id)];
      i := i + 1;
    }
  }

  lemma KeyboardForIsCreated(options: seq<Choice>, keyboard: seq<Button>)
    requires |keyboard| == |options|
    requires forall i :: 0 <= i < |options| ==> keyboard[i].text == [OptionLetter(i)] && keyboard[i].data == options[i].id
    ensures keyboard == KeyboardFor(options)
  {
  }

  /** The text lines and the buttons agree: line `i` begins with the label of button `i`. */
  lemma {:induction false} LinesMatchButtons(options: seq<Choice>, i: nat)
    requires i < |options|
    ensures StartsWith(OptionLines(options)[i], KeyboardFor(options)[i].text + ". ")
    ensures OptionLines(options)[i][|KeyboardFor(options)[i].text + ". "|..] == options[i].text
  {
    var prefix := [OptionLetter(i)] + ". ";
    assert KeyboardFor(options)[i].text + ". " == prefix;
    assert OptionLines(options)[i] == prefix + options[i].text;
  }

  // ---------------------------------------------------------------------
  // The quiz as a value

  /** The value of a quiz session: its questions, the index of the current
    * question and the recorded results. */
  datatype QuizView = QuizView(questions: seq<Question>, index: int, results: seq<int>)

  ghost predicate ViewValid(v: QuizView) {
    |v.results| == |v.questions| && 0 <= v.index < |v.questions|
  }

  function ViewOf(q: QuizSession): QuizView
    reads q
  {
    QuizView(q.questions, q.currentIndex, q.results)
  }

  /** What `loadAndStartTest` creates: index 0 and one zero per question. */
  function StartView(qs: seq<Question>): (v: QuizView)
    requires |qs| > 0
    ensures ViewValid(v) && v.questions == qs && v.index == 0 && forall i :: 0 <= i < |qs| ==> v.results[i] == 0
  {
    QuizView(qs, 0, seq(|qs|, _ => 0))
  }

  /** `options.indexOf(options.find(opt => opt.id === data))`: the position
    * of the first option with that id, and -1 when none has it (a plain
    * text message carries no callback data, so it always gives -1). */
  function AnswerIndex(options: seq<Choice>, data: Option<string>): (r: int)
    ensures -1 <= r < |options|
    ensures r == -1 <==> data.None? || forall j :: 0 <= j < |options| ==> options[j].id != data.value
    ensures 0 <= r ==> data == Some(options[r].id) && forall j :: 0 <= j < r ==> options[j].id != data.value
    decreases |options|
  {
    if data.None? || |options| == 0 then -1
    else if options[0].id == data.value then 0
    else
      var k := AnswerIndex(options[1..], data);
      if k == -1 then -1 else k + 1
  }

  /** Pressing the button of option `i` records `i` when the ids of the question are distinct. */
  lemma {:induction false} ButtonRecordsItsPosition(options: seq<Choice>, i: nat)
    requires i < |options|
    requires forall j, k :: 0 <= j < k < |options| ==> options[j].id != options[k].id
    ensures AnswerIndex(options, Some(KeyboardFor(options)[i].data)) == i
  {
    assert KeyboardFor(options)[i].data == options[i].id;
  }

  datatype Step = Next(view: QuizView) | Finished(results: seq<int>)

  /** `handleAnswer` on the value: the answer is recorded at the current
    * index; the quiz moves one question on, or finishes on the last one. */
  function AnswerStep(v: QuizView, data: Option<string>): (s: Step)
    requires ViewValid(v)
    ensures s.Next? <==> v.index < |v.questions| - 1
    ensures var recorded := AnswerIndex(v.questions[v.index].options, data);
      match s
      case Next(w) =>
        && ViewValid(w) && w.questions == v.questions && w.index == v.index + 1
        && w.results == v.results[v.index := recorded]
      case Finished(rs) => rs == v.results[v.index := recorded]
  {
    var rs := v.results[v.index := AnswerIndex(v.questions[v.index].options, data)];
    if v.index < |v.questions| - 1 then Next(v.(index := v.index + 1, results := rs)) else Finished(rs)
  }

  /** A sequence of answers fed to the quiz, stopping when it finishes. */
  function Play(v: QuizView, answers: seq<Option<string>>): Step
    requires ViewValid(v)
    decreases |answers|
  {
    if answers == [] then Next(v)
    else match AnswerStep(v, answers[0])
      case Finished(rs) => Finished(rs)
      case Next(w) => Play(w, answers[1..])
  }

  lemma {:induction false} PlayFrom(v: QuizView, answers: seq<Option<string>>)
    requires ViewValid(v)
    requires |answers| == |v.questions| - v.index
    ensures Play(v, answers).Finished?
    ensures var rs := Play(v, answers).results;
      && |rs| == |v.questions|
      && (forall i :: 0 <= i < v.index ==> rs[i] == v.results[i])
      && (forall i :: v.index <= i < |v.questions| ==> rs[i] == AnswerIndex(v.questions[i].options, answers[i - v.index]))
    decreases |answers|
  {
    match AnswerStep(v, answers[0])
    case Finished(rs) =>
    case Next(w) =>
      PlayFrom(w, answers[1..]);
  }

  lemma {:induction false} PlayPartial(v: QuizView, answers: seq<Option<string>>)
    requires ViewValid(v)
    requires |answers| < |v.questions| - v.index
    ensures Play(v, answers).Next?
    ensures Play(v, answers).view.index == v.index + |answers|
    ensures Play(v, answers).view.questions == v.questions
    decreases |answers|
  {
    if answers != [] {
      match AnswerStep(v, answers[0])
      case Next(w) => PlayPartial(w, answers[1..]);
    }
  }

  /** A quiz of K questions finishes after exactly K answers, each recorded
    * at its own position; fewer answers leave it in progress at that index. */
  lemma QuizRoundTrip(qs: seq<Question>, answers: seq<Option<string>>)
    requires |qs| > 0
    ensures |answers| == |qs| ==>
      && Play(StartView(qs), answers).Finished?
      && |Play(StartView(qs), answers).results| == |qs|
      && forall i :: 0 <= i < |qs| ==> Play(StartView(qs), answers).results[i] == AnswerIndex(qs[i].options, answers[i])
    ensures |answers| < |qs| ==>
      Play(StartView(qs), answers).Next? && Play(StartView(qs), answers).view.index == |answers|
  {
    if |answers| == |qs| { PlayFrom(StartView(qs), answers); }
    if |answers| < |qs| { PlayPartial(StartView(qs), answers); }
  }

  /** How a question is shown: the calls made, the message id recorded
    * afterwards and whether the edit call threw. */
  datatype Rendering = Rendering(actions: seq<Action>, messageId: Option<int>, ok: bool)

  /** `sendQuestion` on the value: an edit of the recorded message when
    * there is one, otherwise a new message whose id is then recorded. */
  function RenderQuestion(v: QuizView, messageId: Option<int>, editsSucceed: bool, sentId: int): (r: Rendering)
    requires ViewValid(v)
    ensures messageId.None? ==> r.ok && r.messageId == Some(sentId) && |r.actions| == 1 && r.actions[0].Reply?
    ensures messageId.Some? ==> r.messageId == messageId && (r.ok <==> editsSucceed)
    ensures messageId.Some? ==> forall a :: a in r.actions ==> a.EditMessage? && a.messageId == messageId.value
    ensures messageId.Some? ==> |r.actions| == (if editsSucceed then 1 else 0)
    ensures forall a :: a in r.actions ==>
      (a.Reply? || a.EditMessage?) &&
      a.text == QuestionText(v.questions[v.index], v.index, |v.questions|) &&
      a.markup == Inline(KeyboardFor(v.questions[v.index].options))
  {
    var q := v.questions[v.index];
    var text := QuestionText(q, v.index, |v.questions|);
    var keyboard := Inline(KeyboardFor(q.options));
    if messageId.Some? then
      if editsSucceed then Rendering([EditMessage(messageId.value, text, keyboard)], messageId, true)
      else Rendering([], messageId, false)
    else Rendering([Reply(text, keyboard)], Some(sentId), true)
  }

  /** After the first render, every later render of the session is one edit of
    * the same message (none when the edit call throws). */
  lemma {:induction false} LaterRendersEdit(v: QuizView, w: QuizView, messageId: Option<int>, editsSucceed: bool, sentId: int)
    requires ViewValid(v) && ViewValid(w)
    ensures var first := RenderQuestion(v, messageId, editsSucceed, sentId);
      && first.messageId.Some?
      && |RenderQuestion(w, first.messageId, editsSucceed, sentId).actions| == (if editsSucceed then 1 else 0)
      && forall a :: a in RenderQuestion(w, first.messageId, editsSucceed, sentId).actions ==>
           a.EditMessage? && a.messageId == first.messageId.value
  {
    var first := RenderQuestion(v, messageId, editsSucceed, sentId);
    var later := RenderQuestion(w, first.messageId, editsSucceed, sentId);
  }

  // ---------------------------------------------------------------------
  // Scoring

  /** The channels of the questions, each once, in order of first appearance. */
  function Channels(qs: seq<Question>): seq<string>
    decreases |qs|
  {
    if qs == [] then []
    else
      var earlier := Channels(qs[..|qs| - 1]);
      var c := qs[|qs| - 1].channel;
      if c in earlier then earlier else earlier + [c]
  }

  /** The sum of the results of the questions of channel `c`. */
  function ChannelTotal(qs: seq<Question>, rs: seq<int>, c: string): int
    requires |rs| == |qs|
    decreases |qs|
  {
    if qs == [] then 0
    else ChannelTotal(qs[..|qs| - 1], rs[..|rs| - 1], c) + (if qs[|qs| - 1].channel == c then rs[|rs| - 1] else 0)
  }

  /** `Math.round((score / 21) * 100)`, exactly: the integer nearest to
    * 100·score/21 (a tie cannot occur, 200·score being even and 21 odd). */
  function Activation(score: int): (r: int)
    ensures -21 <= 200 * score - 42 * r < 21
  {
    (200 * score + 21) / 42
  }

  datatype ChannelResult = ChannelResult(name: string, activation: int)

  /** The scores of a finished quiz: per channel, in first-appearance order. */
  function ChannelResults(qs: seq<Question>, rs: seq<int>): seq<ChannelResult>
    requires |rs| == |qs|
  {
    var cs := Channels(qs);
    seq(|cs|, k requires 0 <= k < |cs| => ChannelResult(cs[k], Activation(ChannelTotal(qs, rs, cs[k]))))
  }

  /** A channel is listed exactly when some question has it, and only once. */
  lemma {:induction false} ChannelsListed(qs: seq<Question>)
    ensures forall c :: c in Channels(qs) <==> exists i :: 0 <= i < |qs| && qs[i].channel == c
    ensures forall j, k :: 0 <= j < k < |Channels(qs)| ==> Channels(qs)[j] != Channels(qs)[k]
    decreases |qs|
  {
    if qs != [] {
      var init := qs[..|qs| - 1];
      ChannelsListed(init);
      forall c ensures c in Channels(qs) <==> exists i :: 0 <= i < |qs| && qs[i].channel == c {
        if c in Channels(init) {
          var i :| 0 <= i < |init| && init[i].channel == c;
          assert qs[i].channel == c;
        }
        if exists i :: 0 <= i < |qs| && qs[i].channel == c {
          var i :| 0 <= i < |qs| && qs[i].channel == c;
          if i < |qs| - 1 { assert init[i].channel == c; }
        }
      }
    }
  }

  /** A channel that no question has totals zero. */
  lemma {:induction false} AbsentChannelTotalsZero(qs: seq<Question>, rs: seq<int>, c: string)
    requires |rs| == |qs|
    requires forall i :: 0 <= i < |qs| ==> qs[i].channel != c
    ensures ChannelTotal(qs, rs, c) == 0
    decreases |qs|
  {
    if qs != [] {
      AbsentChannelTotalsZero(qs[..|qs| - 1], rs[..|rs| - 1], c);
    }
  }

  /** `calculateAndSendResults`' scoring: one line per channel, in order of
    * first appearance, with the rounded percentage of the channel's sum
    * over the fixed 21 points, whatever the number of its questions. */
  method CalculateResults(qs: seq<Question>, rs: seq<int>) returns (lines: seq<ChannelResult>)
    requires |rs| == |qs|
    ensures lines == ChannelResults(qs, rs)
  {
    var names: seq<string> := [];
    var scores: map<string, int> := map[];
    var i := 0;
    while i < |qs|
      invariant 0 <= i <= |qs|
      invariant names == Channels(qs[..i])
      invariant forall c :: c in scores <==> c in names
      invariant forall c :: c in scores ==> scores[c] == ChannelTotal(qs[..i], rs[..i], c)
      invariant forall c :: c !in scores ==> ChannelTotal(qs[..i], rs[..i], c) == 0
    {
      var c := qs[i].channel;
      assert qs[..i + 1][..i] == qs[..i] && rs[..i + 1][..i] == rs[..i];
      if c !in scores {
        scores := scores[c := 0];
        names := names + [c];
      }
      scores := scores[c := scores[c] + rs[i]];
      i := i + 1;
    }
    assert qs[..i] == qs && rs[..i] == rs;
    lines := seq(|names|, k requires 0 <= k < |names| => ChannelResult(names[k], Activation(scores[names[k]])));
  }

  function ResultLine(r: ChannelResult): string {
    r.name + ": " + IntToString(r.activation) + "%"
  }

  function ResultsMessage(lines: seq<ChannelResult>): string {
    RESULTS_HEADER + Join(seq(|lines|, k requires 0 <= k < |lines| => ResultLine(lines[k])), "\n")
  }

  // ---------------------------------------------------------------------
  // Handlers

  /** `sendQuestion`: renders the current question of the session. */
  method SendQuestion(ctx: Ctx) returns (ok: bool)
    requires ctx.Valid() && ctx.test != null
    modifies ctx.test`messageId, ctx`outbox
    ensures ctx.Valid()
    ensures var r := RenderQuestion(ViewOf(ctx.test), old(ctx.test.messageId), ctx.editsSucceed, ctx.sentMessageId);
      ok == r.ok && ctx.test.messageId == r.messageId && ctx.outbox == old(ctx.outbox) + r.actions
  {
    var session := ctx.test;
    var q := session.questions[session.currentIndex];
    var text := QuestionText(q, session.currentIndex, |session.questions|);
    var buttons := CreateDynamicInlineKeyboard(q.options);
    KeyboardForIsCreated(q.options, buttons);
    if session.messageId.Some? {
      if !ctx.editsSucceed {
        return false;
      }
      ctx.outbox := ctx.outbox + [EditMessage(session.messageId.value, text, Inline(buttons))];
    } else {
      ctx.outbox := ctx.outbox + [Reply(text, Inline(buttons))];
      session.messageId := Some(ctx.sentMessageId);
    }
    return true;
  }

  /** `startTest`: announces the quiz, then renders its current question. */
  method StartTest(ctx: Ctx) returns (ok: bool)
    requires ctx.Valid() && ctx.test != null
    modifies ctx.test`messageId, ctx`outbox
    ensures ctx.Valid()
    ensures var r := RenderQuestion(ViewOf(ctx.test), old(ctx.test.messageId), ctx.editsSucceed, ctx.sentMessageId);
      && ok == r.ok && ctx.test.messageId == r.messageId
      && ctx.outbox == old(ctx.outbox) + [Reply(STARTED + ctx.test.testName, TestCompletionKeyboard)] + r.actions
  {
    ctx.outbox := ctx.outbox + [Reply(STARTED + ctx.test.testName, TestCompletionKeyboard)];
    ok := SendQuestion(ctx);
  }

  /** `loadAndStartTest`. A file that fails to load, is not an array or is
    * empty changes neither the state nor the session and only replies;
    * otherwise the state is TESTING and a fresh session starts at question 0
    * with one zero result per question, then the first question is sent. */
  method LoadAndStartTest(ctx: Ctx, files: map<string, QuizFile>, testName: string)
    requires ctx.Valid()
    modifies ctx`state, ctx`test, ctx`outbox
    ensures ctx.Valid()
    ensures var file := if testName in files then files[testName] else Unreadable;
      match file
      case Unreadable =>
        ctx.state == old(ctx.state) && ctx.test == old(ctx.test) && ctx.outbox == old(ctx.outbox) + [Reply(LOAD_FAILED, NoMarkup)]
      case NotArray =>
        ctx.state == old(ctx.state) && ctx.test == old(ctx.test) && ctx.outbox == old(ctx.outbox) + [Reply(EMPTY_TEST, NoMarkup)]
      case Questions(qs) =>
        if qs == [] then
          ctx.state == old(ctx.state) && ctx.test == old(ctx.test) && ctx.outbox == old(ctx.outbox) + [Reply(EMPTY_TEST, NoMarkup)]
        else
          && ctx.state == TESTING && ctx.test != null && fresh(ctx.test)
          && ViewOf(ctx.test) == StartView(qs) && ctx.test.testName == testName
          && ctx.test.messageId == Some(ctx.sentMessageId)
          && ctx.outbox == old(ctx.outbox) + [Reply(STARTED + testName, TestCompletionKeyboard),
                                              Reply(QuestionText(qs[0], 0, |qs|), Inline(KeyboardFor(qs[0].options)))]
  {
    var file := if testName in files then files[testName] else Unreadable;
    if file.Unreadable? {
      ctx.outbox := ctx.outbox + [Reply(LOAD_FAILED, NoMarkup)];
      return;
    }
    if file.NotArray? || file.qs == [] {
      ctx.outbox := ctx.outbox + [Reply(EMPTY_TEST, NoMarkup)];
      return;
    }
    var qs := file.qs;
    SetState(ctx, Name(TESTING));
    var session := new QuizSession(qs, testName);
    assert session.results == StartView(qs).results;
    ctx.test := session;
    var _ := StartTest(ctx);
  }

  /** `handleTestCompletion`: whatever the position, the session is
    * discarded without scoring and the state is IDLE. */
  method HandleTestCompletion(ctx: Ctx)
    modifies ctx`test, ctx`state, ctx`outbox
    ensures ctx.test == null && ctx.state == IDLE
    ensures ctx.outbox == old(ctx.outbox) + [Reply(COMPLETED, MainKeyboard)]
  {
    ctx.test := null;
    SetState(ctx, Name(IDLE));
    ctx.outbox := ctx.outbox + [Reply(COMPLETED, MainKeyboard)];
  }

  /** `calculateAndSendResults` */
  method CalculateAndSendResults(ctx: Ctx)
    requires ctx.Valid() && ctx.test != null
    modifies ctx`outbox
    ensures ctx.outbox == old(ctx.outbox) + [Reply(ResultsMessage(ChannelResults(ctx.test.questions, ctx.test.results)), NoMarkup)]
  {
    var lines := CalculateResults(ctx.test.questions, ctx.test.results);
    ctx.outbox := ctx.outbox + [Reply(ResultsMessage(lines), NoMarkup)];
  }

  /** `handleAnswer`. The answer is recorded as AnswerStep says; before the
    * last question the index advances and the next question is rendered;
    * on the last one the results are sent and the quiz completes. The
    * closing `answerCallbackQuery` throws when the update has no callback
    * query, and a failed edit throws before it: `ok` is false then, with
    * the changes already made kept. */
  method HandleAnswer(ctx: Ctx) returns (ok: bool)
    requires ctx.Valid() && ctx.test != null
    modifies ctx`test, ctx`state, ctx`outbox, ctx.test
    ensures ctx.Valid()
    ensures match AnswerStep(old(ViewOf(ctx.test)), ctx.update.callbackData)
      case Next(w) =>
        var r := RenderQuestion(w, old(ctx.test.messageId), ctx.editsSucceed, ctx.sentMessageId);
        && ctx.test == old(ctx.test) && ViewOf(ctx.test) == w && ctx.test.testName == old(ctx.test.testName)
        && ctx.test.messageId == r.messageId && ctx.state == old(ctx.state)
        && ctx.outbox == old(ctx.outbox) + r.actions
        && ok == (r.ok && ctx.update.callbackData.Some?)
      case Finished(rs) =>
        && ctx.test == null && ctx.state == IDLE
        && ctx.outbox == old(ctx.outbox) + [Reply(ResultsMessage(ChannelResults(old(ctx.test.questions), rs)), NoMarkup),
                                            Reply(COMPLETED, MainKeyboard)]
        && ok == ctx.update.callbackData.Some?
  {
    var session := ctx.test;
    ghost var before := ViewOf(session);
    var q := session.questions[session.currentIndex];
    var answerValue := AnswerIndex(q.options, ctx.update.callbackData);
    session.results := session.results[session.currentIndex := answerValue];
    if session.currentIndex < |session.questions| - 1 {
      session.currentIndex := session.currentIndex + 1;
      assert ViewOf(session) == AnswerStep(before, ctx.update.callbackData).view;
      ok := SendQuestion(ctx);
      if !ok {
        return;
      }
    } else {
      CalculateAndSendResults(ctx);
      HandleTestCompletion(ctx);
    }
    ok := ctx.update.callbackData.Some?;
  }

  /** `handlePoll`: the list of quizzes, or a notice when there is none. */
  method HandlePoll(ctx: Ctx, testNames: seq<string>)
    modifies ctx`outbox
    ensures testNames == [] ==> ctx.outbox == old(ctx.outbox) + [Reply(NO_TESTS, NoMarkup)]
    ensures testNames != [] ==> ctx.outbox == old(ctx.outbox) + [Reply(CHOOSE_TEST, TestListKeyboard(testNames))]
  {
    if |testNames| == 0 {
      ctx.outbox := ctx.outbox + [Reply(NO_TESTS, NoMarkup)];
      return;
    }
    ctx.outbox := ctx.outbox + [Reply(CHOOSE_TEST, TestListKeyboard(testNames))];
  }
}
