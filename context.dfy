/** What every handler sees: the inbound update, the per-user session that
  * grammy keeps in memory (bot.js, `session({ initial: () => ({}) })`),
  * the users collection and the outbound actions produced for the update. */
module Context {
  import opened Common

  type UserId = int

  /** `ctx.from` */
  datatype Sender = Sender(id: UserId, username: Option<string>, firstName: Option<string>, lastName: Option<string>)

  /** A shared location. The offset `Math.round(longitude / 15)` is floating
    * point in the source and is taken here as given. */
  datatype Location = Location(utcOffset: int)

  /** `ctx.message`; `photo`, `audio`, `video` and `document` say whether that field is present. */
  datatype Message = Message(text: Option<string>, location: Option<Location>,
                             photo: bool, audio: bool, video: bool, document: bool)

  /** One inbound update: an optional message and an optional callback query with its data. */
  datatype Update = Update(from: Sender, message: Option<Message>, callbackData: Option<string>) {
    /** `ctx.message?.text` */
    function Text(): Option<string> {
      if message.Some? then message.value.text else None
    }
  }

  /** One answer option of a quiz question: `{ id, text }`. */
  datatype Choice = Choice(id: string, text: string)

  /** One quiz question: `{ question, channel, options }`. */
  datatype Question = Question(question: string, channel: string, options: seq<Choice>)

  /** A record of the users collection. Every field but the id may be missing
    * (a record created by the counters carries only `telegramId` and `counters`). */
  datatype User = User(telegramId: UserId, username: Option<string>,
                       firstName: Option<string>, lastName: Option<string>,
                       health: Option<int>, timeZone: Option<string>,
                       achievements: Option<seq<string>>, tasksCompleted: Option<int>,
                       experience: Option<int>, counters: Option<map<string, int>>)

  datatype Button = Button(text: string, data: string)

  /** Reply markup; the keyboards of keyboard.js are opaque constants. */
  datatype Markup =
    | NoMarkup
    | MainKeyboard
    | ProfileKeyboard
    | SettingsKeyboard
    | TestCompletionKeyboard
    | LocationButton
    | CountersKeyboard
    | RemoveKeyboard
    | TestListKeyboard(names: seq<string>)
    | Inline(buttons: seq<Button>)

  /** Outbound calls that took effect. */
  datatype Action =
    | Reply(text: string, markup: Markup)                         // ctx.reply
    | EditCurrent(text: string, markup: Markup)                   // ctx.editMessageText
    | EditMessage(messageId: int, text: string, markup: Markup)   // ctx.api.editMessageText
    | Alert(text: string)                                         // answerCallbackQuery with show_alert

  /** `ctx.session.currentTest`: one user's quiz in progress. */
  class QuizSession {
    var questions: seq<Question>
    var currentIndex: int
    var testName: string
    var results: seq<int>
    var messageId: Option<int>

    /** Position within the quiz and one result slot per question. */
    ghost predicate Valid()
      reads this
    {
      |results| == |questions| && 0 <= currentIndex < |questions|
    }

    constructor (questions: seq<Question>, testName: string)
      requires |questions| > 0
      ensures Valid()
      ensures this.questions == questions && this.testName == testName
      ensures currentIndex == 0 && messageId == None
      ensures |results| == |questions| && forall i :: 0 <= i < |results| ==> results[i] == 0
    {
      this.questions := questions;
      this.testName := testName;
      currentIndex := 0;
      results := seq(|questions|, _ => 0);
      messageId := None;
    }
  }

  /** The context of one update. `state` is `ctx.session.state` ("" when
    * unset); `test` is `ctx.session.currentTest`; `users` is the users
    * collection keyed by telegramId; `outbox` lists the outbound calls made.
    * `editsSucceed` and `sentMessageId` stand for the transport: whether an
    * edit of a message is accepted, and the id of a newly sent message. */
  class Ctx {
    const update: Update
    const editsSucceed: bool
    const sentMessageId: int
    var state: string
    var test: QuizSession?
    var users: map<UserId, User>
    var outbox: seq<Action>

    ghost predicate Valid()
      reads this, test
    {
      sentMessageId > 0 && (test != null ==> test.Valid())
    }

    constructor (update: Update, editsSucceed: bool, sentMessageId: int, state: string, users: map<UserId, User>)
      requires sentMessageId > 0
      ensures Valid()
      ensures this.update == update && this.editsSucceed == editsSucceed && this.sentMessageId == sentMessageId
      ensures this.state == state && test == null && this.users == users && outbox == []
    {
      this.update := update;
      this.editsSucceed := editsSucceed;
      this.sentMessageId := sentMessageId;
      this.state := state;
      test := null;
      this.users := users;
      outbox := [];
    }

    /** `ctx.from.id` */
    function UserIdOf(): UserId
      reads this
    {
      update.from.id
    }
  }
}
