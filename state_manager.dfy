/** The state gate: the fixed table of conversation states with their
  * allowed message types, the message classifier, `setState` and the
  * filter middleware that every route passes through. */
module StateManager {
  import opened Common
  import opened Context

  datatype MessageType =
    | TextMessage | LocationMessage | PhotoMessage | AudioMessage
    | VideoMessage | DocumentMessage | CallbackQuery | Unknown

  /** The classifier's precedence: text, location, photo, audio, video,
    * document, callback_query; the first present payload wins. */
  function Rank(t: MessageType): nat {
    match t
    case TextMessage => 0
    case LocationMessage => 1
    case PhotoMessage => 2
    case AudioMessage => 3
    case VideoMessage => 4
    case DocumentMessage => 5
    case CallbackQuery => 6
    case Unknown => 7
  }

  /** Whether the payload field that tag `t` stands for is present (truthy) in `u`. */
  predicate Carries(u: Update, t: MessageType) {
    match t
    case TextMessage => u.message.Some? && Truthy(u.message.value.text)
    case LocationMessage => u.message.Some? && u.message.value.location.Some?
    case PhotoMessage => u.message.Some? && u.message.value.photo
    case AudioMessage => u.message.Some? && u.message.value.audio
    case VideoMessage => u.message.Some? && u.message.value.video
    case DocumentMessage => u.message.Some? && u.message.value.document
    case CallbackQuery => u.callbackData.Some?
    case Unknown => false
  }

  /** `determineMessageType`: exactly one tag, the highest-ranked one whose
    * payload is present, and `Unknown` when none is. */
  function DetermineMessageType(u: Update): (t: MessageType)
    ensures t == Unknown <==> forall t' :: !Carries(u, t')
    ensures t != Unknown ==> Carries(u, t)
    ensures forall t' :: Rank(t') < Rank(t) ==> !Carries(u, t')
  {
    if Carries(u, TextMessage) then TextMessage
    else if Carries(u, LocationMessage) then LocationMessage
    else if Carries(u, PhotoMessage) then PhotoMessage
    else if Carries(u, AudioMessage) then AudioMessage
    else if Carries(u, VideoMessage) then VideoMessage
    else if Carries(u, DocumentMessage) then DocumentMessage
    else if Carries(u, CallbackQuery) then CallbackQuery
    else Unknown
  }

  const IDLE := "IDLE"
  const TESTING := "TESTING"
  const REGISTRATION := "REGISTRATION"

  /** `STATES.get(name)?.allowedMessageTypes` */
  function AllowedMessageTypes(name: string): Option<seq<MessageType>> {
    if name == IDLE then Some([TextMessage, LocationMessage, CallbackQuery])
    else if name == TESTING then Some([TextMessage, CallbackQuery])
    else if name == REGISTRATION then Some([TextMessage, LocationMessage, PhotoMessage])
    else None
  }

  /** `STATES.has(name)` */
  predicate IsState(name: string) {
    AllowedMessageTypes(name).Some?
  }

  /** `ctx.session?.state || 'IDLE'` */
  function EffectiveState(state: string): (s: string)
    ensures state == "" ==> s == IDLE
    ensures state != "" ==> s == state
  {
    if state == "" then IDLE else state
  }

  /** `isAllowedMessageType`: the state exists and the update's type is in its allow-list. */
  function IsAllowedMessageType(state: string, u: Update): (b: bool)
    ensures b <==>
      var s, t := EffectiveState(state), DetermineMessageType(u);
      || (s == IDLE && t in {TextMessage, LocationMessage, CallbackQuery})
      || (s == TESTING && t in {TextMessage, CallbackQuery})
      || (s == REGISTRATION && t in {TextMessage, LocationMessage, PhotoMessage})
  {
    var config := AllowedMessageTypes(EffectiveState(state));
    config.Some? && DetermineMessageType(u) in config.value
  }

  /** The argument of `setState`: a name, an object with a `.name`, or nothing. */
  datatype StateArg = Name(s: string) | Descriptor(name: Option<string>) | Missing

  /** `typeof newState === 'string' ? newState : newState?.name`, with "" for undefined. */
  function StateName(arg: StateArg): string {
    match arg
    case Name(s) => s
    case Descriptor(n) => n.GetOr("")
    case Missing => ""
  }

  /** `setState`: a name from the table is stored as the session state; any
    * other argument (empty, missing, unknown) leaves the state as it was. */
  method SetState(ctx: Ctx, arg: StateArg)
    modifies ctx`state
    ensures IsState(StateName(arg)) ==> ctx.state == StateName(arg)
    ensures !IsState(StateName(arg)) ==> ctx.state == old(ctx.state)
  {
    var name := StateName(arg);
    if name == "" || !IsState(name) {
      return;
    }
    ctx.state := name;
  }

  const INVALID_STATE_NOTICE := "Ваше состояние недействительно. Возвращаем в главное меню."

  /** `stateFilterMiddleware`. An unknown state is reset to IDLE with one
    * notice and the chain stops; a type the state does not allow is dropped
    * silently; otherwise `next` is called (`callNext`). Its verdict agrees
    * with IsAllowedMessageType for every state. */
  method StateFilter(ctx: Ctx) returns (callNext: bool)
    modifies ctx`state, ctx`outbox
    ensures callNext == IsAllowedMessageType(old(ctx.state), ctx.update)
    ensures !IsState(EffectiveState(old(ctx.state))) ==>
      ctx.state == IDLE && ctx.outbox == old(ctx.outbox) + [Reply(INVALID_STATE_NOTICE, MainKeyboard)]
    ensures IsState(EffectiveState(old(ctx.state))) ==>
      ctx.state == old(ctx.state) && ctx.outbox == old(ctx.outbox)
  {
    var current := EffectiveState(ctx.state);
    var messageType := DetermineMessageType(ctx.update);
    var config := AllowedMessageTypes(current);
    if config.None? {
      SetState(ctx, Name(IDLE));
      ctx.outbox := ctx.outbox + [Reply(INVALID_STATE_NOTICE, MainKeyboard)];
      return false;
    }
    if messageType !in config.value {
      return false;
    }
    return true;
  }

  /** A message carrying both text and a location is classified as text. */
  lemma TextBeatsLocation(u: Update)
    requires u.message.Some? && Truthy(u.message.value.text) && u.message.value.location.Some?
    ensures DetermineMessageType(u) == TextMessage
  {
  }
}
