/**
 The JSON-RPC items one socket frame carries, as far as the server looks at them, and the
 response each of them gets.

 An item is an already decoded JSON value. Only the keys that the reader, the request
 envelope and the failure path inspect are kept; every other value is opaque.
 */
module Messages {
  import opened Wrappers

  /** The `id` member: JSON booleans, fractions, arrays and objects are all `OtherId`. */
  datatype IdMember = NoIdMember | Text(text: string) | Number(number: int) | NullId | OtherId

  datatype MethodMember = NoMethodMember | Named(name: string) | NotAString

  /** `Target(v)` is the object whose only key is `id`, with value `v`. */
  datatype ParamsMember = NoParams | EmptyObject | Target(id: IdMember) | OtherObject | Positional | NotAContainer

  datatype MetaMember = NoMeta | ValidMeta | InvalidMeta

  /** `version2` says that the member `jsonrpc` is present and equals "2.0". */
  datatype Message =
    | NotAnObject
    | Object(id: IdMember, name: MethodMember, version2: bool, params: ParamsMember,
             meta: MetaMember, hasResult: bool, hasError: bool, otherKeys: bool)

  /** The key of an in-flight request: the type of the id is part of it. */
  datatype Key = TextKey(text: string) | NumberKey(number: int)

  /** The id of a response; `NullReplyId` is the JSON null. */
  datatype ReplyId = NullReplyId | TextReply(text: string) | NumberReply(number: int)

  datatype ErrorCode =
    | InvalidRequest | ParseError | ServerShuttingDown | PendingLimit
    | RequestCancelled | RequestTimeout | HandlerError(code: int)

  datatype Reply = Success(id: ReplyId) | Failure(id: ReplyId, error: ErrorCode)

  const CANCEL_REQUEST := "$/cancelRequest"
  const PING := "$/ping"

  // ----- how the reader sorts an item -----

  /** A response to a call the server made to its client. */
  predicate IsClientResponse(m: Message) {
    m.Object? && m.name == NoMethodMember && (m.hasResult || m.hasError)
  }

  predicate IsCancelNotification(m: Message) {
    m.Object? && m.name == Named(CANCEL_REQUEST) && m.id == NoIdMember
  }

  predicate IsPing(m: Message) {
    m.Object? && m.name == Named(PING)
  }

  /** Items the reader handles on the spot; no call is created for them. */
  predicate IsControl(m: Message) {
    IsClientResponse(m) || IsCancelNotification(m) || IsPing(m)
  }

  predicate BareMembers(m: Message)
    requires m.Object?
  {
    m.meta == NoMeta && !m.hasResult && !m.hasError && !m.otherKeys
  }

  /** Which in-flight request a well-formed cancel notification names. */
  function CancelTarget(m: Message): Option<Key>
    requires IsCancelNotification(m)
  {
    if m.version2 && BareMembers(m) && m.params.Target? then IdKey(m.params.id) else None
  }

  function PingReply(m: Message): Option<Reply>
    requires IsPing(m)
  {
    if m.id == NoIdMember then None
    else if m.version2 && BareMembers(m) && (m.params == NoParams || m.params == EmptyObject) && IdKey(m.id).Some?
    then Some(Success(RequestId(m)))
    else Some(Failure(NullReplyId, InvalidRequest))
  }

  predicate IsEnvelope(m: Message) {
    m.Object? && m.version2 && m.id != OtherId && m.name.Named? && m.params != NotAContainer
    && m.meta != InvalidMeta && !m.hasResult && !m.hasError && !m.otherKeys
  }

  /** A call that is answered with `invalid_request` without being admitted. */
  predicate IsInvalidCall(m: Message) {
    !(IsEnvelope(m) && m.name != Named(CANCEL_REQUEST))
  }

  function IdKey(id: IdMember): Option<Key> {
    match id
    case Text(t) => Some(TextKey(t))
    case Number(n) => Some(NumberKey(n))
    case _ => None
  }

  /** The key under which a valid call is in flight. */
  function CallKey(m: Message): Option<Key> {
    if IsInvalidCall(m) then None else IdKey(m.id)
  }

  // ----- the server's side of one call -----

  function RequestId(m: Message): ReplyId {
    if !m.Object? then NullReplyId
    else match m.id
      case Text(t) => TextReply(t)
      case Number(n) => NumberReply(n)
      case _ => NullReplyId
  }

  predicate LooksLikeNotification(m: Message) {
    m.Object? && m.id == NoIdMember && m.version2 && m.name.Named?
  }

  function FailureReply(m: Message, error: ErrorCode): Option<Reply> {
    if LooksLikeNotification(m) then None else Some(Failure(RequestId(m), error))
  }

  function SuccessReply(m: Message): Option<Reply> {
    if m.Object? && m.id == NoIdMember then None else Some(Success(RequestId(m)))
  }

  // ----- what a frame is answered with, stated on the frame alone -----

  /** The responses to the pings of a frame. */
  function PingReplies(ms: seq<Message>): seq<Reply> {
    if ms == [] then []
    else
      var rest := PingReplies(ms[..|ms| - 1]);
      var m := ms[|ms| - 1];
      if IsPing(m) && PingReply(m).Some? then rest + [PingReply(m).value] else rest
  }

  function PingIds(ms: seq<Message>): seq<ReplyId> {
    Ids(PingReplies(ms))
  }

  /** The items of a frame that become calls. */
  function CallsOf(ms: seq<Message>): seq<Message> {
    if ms == [] then []
    else
      var rest := CallsOf(ms[..|ms| - 1]);
      var m := ms[|ms| - 1];
      if IsControl(m) then rest else rest + [m]
  }

  /** The ids of the calls that are not notifications. */
  function AnswerIds(ms: seq<Message>): seq<ReplyId> {
    if ms == [] then []
    else
      var rest := AnswerIds(ms[..|ms| - 1]);
      var m := ms[|ms| - 1];
      if LooksLikeNotification(m) then rest else rest + [RequestId(m)]
  }

  function Ids(replies: seq<Reply>): (ids: seq<ReplyId>)
    ensures |ids| == |replies|
  {
    if replies == [] then []
    else Ids(replies[..|replies| - 1]) + [replies[|replies| - 1].id]
  }

  lemma {:induction false} IdsOfConcat(a: seq<Reply>, b: seq<Reply>)
    ensures Ids(a + b) == Ids(a) + Ids(b)
  {
    if b == [] {
      assert a + b == a;
    } else {
      var front := b[..|b| - 1];
      assert (a + b)[..|a + b| - 1] == a + front;
      IdsOfConcat(a, front);
    }
  }

  /** The ids a frame's collector owes, in the order in which it sends them. */
  function ExpectedIds(ms: seq<Message>): seq<ReplyId> {
    PingIds(ms) + AnswerIds(CallsOf(ms))
  }

  // ----- facts about a single item -----

  /** A valid call is a notification for the success path exactly when it is one for the failure path. */
  lemma SuccessAndFailureAgree(m: Message, error: ErrorCode)
    requires IsEnvelope(m)
    ensures SuccessReply(m).Some? <==> FailureReply(m, error).Some?
    ensures SuccessReply(m).Some? ==> SuccessReply(m).value.id == FailureReply(m, error).value.id
  {
  }

  lemma ExpectedOfOne(m: Message)
    ensures ExpectedIds([m]) ==
      if IsPing(m) then (if PingReply(m).Some? then [PingReply(m).value.id] else [])
      else if IsControl(m) || LooksLikeNotification(m) then []
      else [RequestId(m)]
  {
    assert [m][..0] == [];
    assert PingReplies([m]) == if IsPing(m) && PingReply(m).Some? then [PingReply(m).value] else [];
    assert PingIds([m]) == if IsPing(m) && PingReply(m).Some? then [PingReply(m).value.id] else [];
    assert CallsOf([m]) == if IsControl(m) then [] else [m];
    assert AnswerIds([m]) == if LooksLikeNotification(m) then [] else [RequestId(m)];
  }

  // ----- the ids of the answers, stated on the members of an item -----

  /** The id in an answer: the text or number of the request, and null when it has neither. */
  function Echo(id: IdMember): ReplyId {
    match id
    case Text(t) => TextReply(t)
    case Number(n) => NumberReply(n)
    case _ => NullReplyId
  }

  function EchoOf(m: Message): ReplyId {
    if m.Object? then Echo(m.id) else NullReplyId
  }

  /** A ping with a usable id, no parameters and no members of its own. */
  predicate GoodPing(m: Message) {
    m.Object? && m.name == Named("$/ping") && m.version2 && (m.id.Text? || m.id.Number?)
    && (m.params == NoParams || m.params == EmptyObject) && m.meta == NoMeta && !m.hasResult && !m.hasError && !m.otherKeys
  }

  /** The ids an item is answered with: none or one. */
  function IdsDue(m: Message): seq<ReplyId> {
    match m
    case NotAnObject => [NullReplyId]
    case Object(id, name, version2, _, _, hasResult, hasError, _) =>
      if name == Named("$/ping") then (if id == NoIdMember then [] else if GoodPing(m) then [Echo(id)] else [NullReplyId])
      else if name == NoMethodMember && (hasResult || hasError) then []
      else if id != NoIdMember then [Echo(id)]
      else if name.Named? && (version2 || name == Named("$/cancelRequest")) then []
      else [NullReplyId]
  }

  /** The ids due to the pings of a frame, or to its other items, in item order. */
  function IdsDueTo(ms: seq<Message>, pings: bool): seq<ReplyId> {
    if ms == [] then []
    else
      var m := ms[|ms| - 1];
      IdsDueTo(ms[..|ms| - 1], pings) + if (m.Object? && m.name == Named("$/ping")) == pings then IdsDue(m) else []
  }

  /** A frame is answered with the ids of its pings and then with those of its other items. */
  lemma {:induction false} FrameEchoesItsIds(ms: seq<Message>)
    ensures PingIds(ms) == IdsDueTo(ms, true) && AnswerIds(CallsOf(ms)) == IdsDueTo(ms, false)
    ensures ExpectedIds(ms) == IdsDueTo(ms, true) + IdsDueTo(ms, false)
  {
    if ms != [] {
      FrameEchoesItsIds(ms[..|ms| - 1]);
      var m := ms[|ms| - 1];
      if IsPing(m) && PingReply(m).Some? {
        IdsOfConcat(PingReplies(ms[..|ms| - 1]), [PingReply(m).value]);
        assert [PingReply(m).value][..0] == [];
      }
      if !IsControl(m) {
        assert CallsOf(ms)[..|CallsOf(ms)| - 1] == CallsOf(ms[..|ms| - 1]);
      }
    }
  }

  /** A call sent alone is answered with the text or number it came with, with null, or not at all. */
  lemma IdIsEchoed(m: Message)
    requires m.Object? && !IsControl(m)
    ensures forall n :: m.id == Number(n) ==> ExpectedIds([m]) == [NumberReply(n)]
    ensures forall t :: m.id == Text(t) ==> ExpectedIds([m]) == [TextReply(t)]
    ensures m.id == NullId || m.id == OtherId ==> ExpectedIds([m]) == [NullReplyId]
    ensures m.id == NoIdMember ==> ExpectedIds([m]) == if m.version2 && m.name.Named? then [] else [NullReplyId]
  {
    ExpectedOfOne(m);
  }

  /** A good ping succeeds with its own id, and any other ping with an id is an invalid request. */
  lemma PingIsAnswered(m: Message)
    requires m.Object? && m.name == Named("$/ping")
    ensures m.id == NoIdMember ==> PingReplies([m]) == []
    ensures forall n :: GoodPing(m) && m.id == Number(n) ==> PingReplies([m]) == [Success(NumberReply(n))]
    ensures forall t :: GoodPing(m) && m.id == Text(t) ==> PingReplies([m]) == [Success(TextReply(t))]
    ensures m.id != NoIdMember && !GoodPing(m) ==> PingReplies([m]) == [Failure(NullReplyId, InvalidRequest)]
  {
    assert [m][..0] == [];
    assert PingReplies([m]) == if PingReply(m).Some? then [PingReply(m).value] else [];
  }

  // ----- JSON-RPC 2.0, stated without the server's own classification -----

  /** Section 4.1: a request object, whose params are structured or omitted, that has no id. */
  predicate IsNotification(m: Message) {
    m.Object? && m.version2 && m.name.Named? && m.id == NoIdMember && m.params != NotAContainer
  }

  /**
   Section 5: a version, an id that is a text, a number or null, and exactly one of result and error. A fraction,
   which section 4 advises against, is no id here.
   */
  predicate IsResponse(m: Message) {
    m.Object? && m.version2 && m.name == NoMethodMember && m.id != NoIdMember && m.id != OtherId && m.hasResult != m.hasError
  }

  /** Section 4: a notification with an id, which is a text, a number or null. */
  predicate IsRequest(m: Message) {
    m.Object? && m.version2 && m.name.Named? && (m.id.Text? || m.id.Number? || m.id == NullId) && m.params != NotAContainer
  }

  /**
   An item is a valid envelope exactly when it is a request or a notification with no further members but a valid
   `meta`; of these only a cancellation is refused.
   */
  lemma EnvelopesAreRequests(m: Message)
    ensures IsEnvelope(m) <==>
      (IsRequest(m) || IsNotification(m)) && m.meta != InvalidMeta && !m.hasResult && !m.hasError && !m.otherKeys
    ensures IsInvalidCall(m) <==> !IsEnvelope(m) || m.name == Named("$/cancelRequest")
  {
  }

  /** Everything but a notification or a response gets a response, be it an error with the id null. */
  predicate OwedByJsonRpc(m: Message) {
    !IsNotification(m) && !IsResponse(m)
  }

  /** A ping or a cancellation without an id and without a version. */
  predicate UnversionedControl(m: Message) {
    m.Object? && (m.name == Named(PING) || m.name == Named(CANCEL_REQUEST)) && m.id == NoIdMember && !m.version2
  }

  /** Looks like an answer of the client, but is no valid response. */
  predicate MalformedResponse(m: Message) {
    m.Object? && m.name == NoMethodMember && (m.hasResult || m.hasError) && !IsResponse(m)
  }

  /** No notification, because its params are neither an object nor an array. */
  predicate UnstructuredNotification(m: Message) {
    m.Object? && m.version2 && m.name.Named? && m.id == NoIdMember && m.params == NotAContainer
  }

  /** An item sent alone is answered exactly when JSON-RPC 2.0 owes it a response, unless it is in one of three families. */
  lemma AnsweredExactlyWhenOwed(m: Message)
    ensures |ExpectedIds([m])| <= 1
    ensures (|ExpectedIds([m])| == 1 <==> OwedByJsonRpc(m))
      <==> !UnversionedControl(m) && !MalformedResponse(m) && !UnstructuredNotification(m)
  {
    ExpectedOfOne(m);
  }

  /** What is wrong is only ever too little: whatever is answered was owed a response. */
  lemma AnsweredOnlyWhenOwed(m: Message)
    ensures |ExpectedIds([m])| == 1 ==> OwedByJsonRpc(m)
  {
    ExpectedOfOne(m);
  }

  /** One item of each family: an empty ping, a bare result, and a call whose params are a text. */
  lemma SwallowedItems()
    ensures var ping := Object(NoIdMember, Named(PING), false, NoParams, NoMeta, false, false, false);
      OwedByJsonRpc(ping) && ExpectedIds([ping]) == []
    ensures var result := Object(NoIdMember, NoMethodMember, false, NoParams, NoMeta, true, false, false);
      OwedByJsonRpc(result) && ExpectedIds([result]) == []
    ensures var call := Object(NoIdMember, Named("tasks.add"), true, NotAContainer, NoMeta, false, false, false);
      OwedByJsonRpc(call) && ExpectedIds([call]) == []
  {
    ExpectedOfOne(Object(NoIdMember, Named(PING), false, NoParams, NoMeta, false, false, false));
    ExpectedOfOne(Object(NoIdMember, NoMethodMember, false, NoParams, NoMeta, true, false, false));
    ExpectedOfOne(Object(NoIdMember, Named("tasks.add"), true, NotAContainer, NoMeta, false, false, false));
  }
}
