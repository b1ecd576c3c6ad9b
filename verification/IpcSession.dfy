/**
  The server side of a connection (source/ipc/ipc_session.cpp): what is decided about one frame,
  the default handler, and the serve loop with all its exits against an arbitrary pipe.
 */
module IpcSession {
  import opened Text
  import opened IpcProtocol
  import Facts = IpcFacts

  type Payload = s: string | |s| < 0x1_0000_0000

  const INVALID_HEADER: u8 := 1
  const UNSUPPORTED_TYPE: u8 := 3
  const HANDLER_FAILED: u8 := 4
  const INVALID_FACTS: u8 := 6
  const UNAUTHORIZED: u8 := 7
  const AUTH_FAILED: u8 := 8

  datatype Request = Request(kind: MessageType, requestId: u32, payload: Payload)

  datatype Reply = Reply(kind: MessageType, payload: Payload)

  datatype Identity = Identity(pid: nat, sessionId: nat, sid: string)

  /** No custom handler means the default one with the expected token; no gate means everyone passes. */
  datatype Options = Options(
    persistentAccept: bool,
    gate: Option<Identity -> bool>,
    allowedSids: seq<string>,
    expectedToken: string,
    handler: Option<Request -> Option<Reply>>)

  // ---------- frames ----------

  function Frame(kind: MessageType, requestId: u32, payload: Payload): string {
    HeaderBytes(MakeHeader(kind, |payload|, requestId)) + payload
  }

  function ErrorPayload(code: u8): Payload { [ByteChar(code)] }

  function ErrorFrame(requestId: u32, code: u8): string { Frame(Error, requestId, ErrorPayload(code)) }

  /** A frame is cut at its header, which is accepted exactly when the payload is within the limit. */
  lemma {:induction false} FrameCut(kind: MessageType, requestId: u32, payload: Payload)
    ensures var f := Frame(kind, requestId, payload);
            && |f| == HEADER_SIZE + |payload| && f[HEADER_SIZE..] == payload
            && ParseHeader(f[..HEADER_SIZE]) == if |payload| <= MAX_PAYLOAD then Some(MakeHeader(kind, |payload|, requestId)) else None
  {
    var h := MakeHeader(kind, |payload|, requestId);
    HeaderRoundTrip(h);
    assert Frame(kind, requestId, payload)[..HEADER_SIZE] == HeaderBytes(h);
  }

  // ---------- the default handler ----------

  predicate TokenMatches(token: string, expected: string) {
    |token| == |expected| && forall i | 0 <= i < |token| :: expected[i] as int <= 0x7F && token[i] == expected[i]
  }

  predicate HasToken(facts: seq<Facts.Fact>, expected: string) {
    exists i | 0 <= i < |facts| :: facts[i].key == Facts.TOKEN_KEY && TokenMatches(facts[i].value, expected)
  }

  predicate FactsAccepted(payload: string) {
    Facts.Parse(payload).Some? && Facts.SchemaHolds(Facts.Parse(payload).value)
  }

  lemma {:induction false} AcceptedFactsAreFew(payload: string)
    requires FactsAccepted(payload)
    ensures |Facts.Parse(payload).value| <= Facts.MAX_ENTRIES && |Facts.Summary(Facts.Parse(payload).value)| <= 481
  {
    Facts.AcceptedPayloadIsCanonical(payload);
    Facts.SummaryIsShort(Facts.Parse(payload).value);
  }

  function DefaultHandler(request: Request, expectedToken: string): Option<Reply> {
    match request.kind
    case Ping => Some(Reply(Ack, ""))
    case FactsSnapshot =>
      if !FactsAccepted(request.payload) then Some(Reply(Error, ErrorPayload(INVALID_FACTS)))
      else
        var facts := Facts.Parse(request.payload).value;
        if expectedToken != [] && !HasToken(facts, expectedToken) then Some(Reply(Error, ErrorPayload(AUTH_FAILED)))
        else
          AcceptedFactsAreFew(request.payload);
          Some(Reply(Ack, Facts.Summary(facts)))
    case _ => None
  }

  /** Every reply the default handler fills passes header validation, for every request and token. */
  lemma {:induction false} DefaultReplyIsValid(request: Request, expectedToken: string)
    requires DefaultHandler(request, expectedToken).Some?
    ensures var reply := DefaultHandler(request, expectedToken).value;
            |reply.payload| <= 481 && ValidHeader(MakeHeader(reply.kind, |reply.payload|, request.requestId))
  {
    if request.kind == FactsSnapshot && FactsAccepted(request.payload) {
      AcceptedFactsAreFew(request.payload);
    }
  }

  /** Some fact of the list is the credential and equals the expected one, which must be ASCII. */
  predicate ShowsToken(facts: seq<Facts.Fact>, expected: string) {
    (exists f | f in facts :: f.key == "agent_token" && f.value == expected) && forall c | c in expected :: c as int <= 0x7F
  }

  lemma {:induction false} ShowsTokenIff(facts: seq<Facts.Fact>, expected: string)
    requires expected != ""
    ensures HasToken(facts, expected) <==> ShowsToken(facts, expected)
  {
    if HasToken(facts, expected) {
      var i :| 0 <= i < |facts| && facts[i].key == Facts.TOKEN_KEY && TokenMatches(facts[i].value, expected);
      var token := facts[i].value;
      assert token == expected && facts[i] in facts;
      forall c | c in expected ensures c as int <= 0x7F { var k :| 0 <= k < |expected| && expected[k] == c; }
    }
    if ShowsToken(facts, expected) {
      var f :| f in facts && f.key == "agent_token" && f.value == expected;
      var i :| 0 <= i < |facts| && facts[i] == f;
      assert forall k | 0 <= k < |expected| :: expected[k] in expected;
      assert TokenMatches(facts[i].value, expected);
    }
  }

  /**
    The default handler on every request: a ping is acknowledged, facts are refused with code 6 if they break
    the format or the schema, with code 8 if a credential is expected and none of them is that one, and
    acknowledged with their summary otherwise; nothing else is handled.
   */
  lemma {:induction false} DefaultAnswers(request: Request, expected: string)
    ensures var parsed := Facts.Parse(request.payload);
            var broken := parsed.None? || !Facts.SchemaHolds(parsed.value);
            match DefaultHandler(request, expected)
            case None => request.kind in {Ack, Error}
            case Some(reply) =>
              && request.kind in {Ping, FactsSnapshot}
              && (request.kind == Ping ==> reply == Reply(Ack, ""))
              && (request.kind == FactsSnapshot && broken ==> reply.kind == Error && reply.payload == [6 as char])
              && (request.kind == FactsSnapshot && !broken ==>
                    if expected == "" || ShowsToken(parsed.value, expected)
                    then reply.kind == Ack && reply.payload == Facts.Summary(parsed.value)
                    else reply.kind == Error && reply.payload == [8 as char])
  {
    if expected != "" && Facts.Parse(request.payload).Some? { ShowsTokenIff(Facts.Parse(request.payload).value, expected); }
  }

  /** A snapshot that the schema accepts but that does not show the credential the server expects. */
  predicate LacksToken(request: Request, expected: string) {
    && request.kind == FactsSnapshot && expected != ""
    && Facts.Parse(request.payload).Some? && Facts.SchemaHolds(Facts.Parse(request.payload).value)
    && !ShowsToken(Facts.Parse(request.payload).value, expected)
  }

  /** An acknowledged fact list is echoed as if it held no credential at all. */
  lemma {:induction false} AckRevealsNoToken(request: Request, expectedToken: string)
    requires request.kind == FactsSnapshot && DefaultHandler(request, expectedToken).Some?
    requires DefaultHandler(request, expectedToken).value.kind == Ack
    ensures DefaultHandler(request, expectedToken).value.payload
         == Facts.Summary(Facts.Without(Facts.Parse(request.payload).value, Facts.TOKEN_KEY))
  {
    Facts.SummaryIgnoresToken(Facts.Parse(request.payload).value);
  }

  // ---------- one frame ----------

  predicate GatePasses(o: Options, id: Identity) { o.gate.None? || o.gate.value(id) }

  predicate SidPasses(o: Options, id: Identity) {
    o.allowedSids == [] || exists i | 0 <= i < |o.allowedSids| :: SameUpToCase(id.sid, o.allowedSids[i])
  }

  function Handle(o: Options, request: Request): Option<Reply> {
    if o.handler.Some? then o.handler.value(request) else DefaultHandler(request, o.expectedToken)
  }

  function RefusalCode(o: Options): u8 { if o.handler.Some? then HANDLER_FAILED else UNSUPPORTED_TYPE }

  datatype Decision = Unauthorized | Unhandled | Oversized | Answer(reply: Reply)

  /** Gate and SID list first, then the handler, then the size of its reply. */
  function Judge(o: Options, id: Identity, request: Request): Decision {
    if !GatePasses(o, id) || !SidPasses(o, id) then Unauthorized
    else
      match Handle(o, request)
      case None => Unhandled
      case Some(reply) =>
        if ValidHeader(MakeHeader(reply.kind, |reply.payload|, request.requestId)) then Answer(reply) else Oversized
  }

  predicate IsAuthFailure(reply: Reply) { reply.kind == Error && reply.payload == ErrorPayload(AUTH_FAILED) }

  // ---------- what a serve call does to the pipe ----------

  datatype Verdict = AcceptedClient | UnauthorizedClient | AuthFailed

  datatype Event =
    | Listened
    | Accepted
    | HeaderRead(bytes: string)
    | Handled(request: Request, identity: Identity)
    | Replied(requestId: u32, reply: Reply)
    | ErrorSent(requestId: u32, code: u8)
    | Drained
    | Disconnected
    | Closed
    | Reported(verdict: Verdict)

  /** What an observer of the events knows; `sound` stays true while the rules of the protocol
      are kept, `asked` is the request of the event just seen if that was a call of the handler, and
      `deeds` are the reads of headers, the calls of the handler and the writes so far. */
  datatype Observed = Observed(
    sound: bool, listening: bool, connected: bool, disconnects: nat, closes: nat, reports: nat,
    authReported: bool, lastId: Option<u32>, asked: Option<Request>, replies: seq<Reply>, authReplies: nat, deeds: seq<Event>)

  const NOTHING := Observed(true, false, false, 0, 0, 0, false, None, None, [], 0, [])

  /** The id a reply must carry after these header bytes: the frame's own, or 0 for a bad header. */
  function IdOf(bytes: string): u32 {
    if ParseHeader(bytes).Some? then ParseHeader(bytes).value.requestId else 0
  }

  predicate IsDeed(e: Event) { e.HeaderRead? || e.Handled? || e.Replied? || e.ErrorSent? }

  /** The last thing done was to turn a client away. */
  predicate TurnedAway(deeds: seq<Event>) {
    deeds != [] && deeds[|deeds| - 1].ErrorSent? && deeds[|deeds| - 1].code == 7
  }

  /** A client that is turned away is reported while it is still there, any other once it is gone. */
  predicate VerdictFits(m: Observed, v: Verdict) {
    match v
    case UnauthorizedClient => m.connected && TurnedAway(m.deeds)
    case AuthFailed => !m.connected && m.disconnects == 1 && m.authReplies > 0
    case AcceptedClient => !m.connected && m.disconnects == 1 && m.authReplies == 0
  }

  function Observe(o: Options, seen: Observed, e: Event): Observed {
    var m := seen.(asked := None, deeds := if IsDeed(e) then seen.deeds + [e] else seen.deeds);
    match e
    case Listened => m.(sound := m.sound && !m.listening, listening := true)
    case Accepted => m.(sound := m.sound && m.listening && !m.connected && m.disconnects == 0, connected := true)
    case HeaderRead(bytes) => m.(sound := m.sound && m.connected, lastId := Some(IdOf(bytes)))
    case Handled(request, id) =>
      m.(sound := m.sound && m.connected && GatePasses(o, id) && SidPasses(o, id) && m.lastId == Some(request.requestId), asked := Some(request))
    case Replied(id, reply) =>
      m.(sound := m.sound && m.connected && m.lastId == Some(id) && seen.asked.Some? && Handle(o, seen.asked.value) == Some(reply),
         replies := m.replies + [reply], authReplies := m.authReplies + if IsAuthFailure(reply) then 1 else 0)
    case ErrorSent(id, _) => m.(sound := m.sound && m.connected && m.lastId == Some(id))
    case Drained => m.(sound := m.sound && m.connected)
    case Disconnected => m.(sound := m.sound && m.connected, connected := false, disconnects := m.disconnects + 1)
    case Closed => m.(sound := m.sound && m.listening && !m.connected, listening := false, closes := m.closes + 1)
    case Reported(v) => m.(sound := m.sound && VerdictFits(m, v), reports := m.reports + 1, authReported := m.authReported || v == AuthFailed)
  }

  function Watch(o: Options, trace: seq<Event>): Observed {
    if trace == [] then NOTHING else Observe(o, Watch(o, trace[..|trace| - 1]), trace[|trace| - 1])
  }

  lemma {:induction false} WatchNext(o: Options, trace: seq<Event>, e: Event)
    ensures Watch(o, trace + [e]) == Observe(o, Watch(o, trace), e)
  {
    assert (trace + [e])[..|trace|] == trace;
  }

  // ---------- the serve loop ----------

  datatype Failure = ClientClosed | TimedOut | OtherFailure

  datatype ReadResult = ReadOk(bytes: string) | ReadFailed(failure: Failure)

  /** Everything the outside decides during one turn of the loop: clock, reads, identity, write. */
  datatype Turn = Turn(remaining: int, header: ReadResult, payload: ReadResult, identity: Identity, writeOk: bool)

  datatype EndReason = EndClientClosed | EndIdle | EndBudget

  datatype ServeResult = ServeFailed | Served(frames: nat, reason: EndReason)

  /** A read fills the whole buffer or fails. */
  function Fill(r: ReadResult, n: nat): ReadResult {
    if r.ReadOk? && |r.bytes| != n then ReadFailed(OtherFailure) else r
  }

  const PEER_GONE := Turn(1, ReadFailed(ClientClosed), ReadFailed(ClientClosed), Identity(0, 0, ""), false)

  /** The reply that one turn writes for the frame with these header bytes, if it comes to that. */
  function FrameReply(o: Options, bytes: string, turn: Turn): Option<Reply> {
    match ParseHeader(bytes)
    case None => None
    case Some(h) =>
      var body := if h.payloadLength > 0 then Fill(turn.payload, h.payloadLength) else ReadOk("");
      if body.ReadFailed? then None
      else
        RequestReply(o, Request(ParseMessageType(h.kind).value, h.requestId, body.bytes), turn)
  }

  /** Where a turn that reads no header leads, given how many frames were served before it. */
  function EndOf(turn: Turn, idle: int, io: int, maxFrames: nat, frames: nat): Option<ServeResult> {
    var header := Fill(turn.header, HEADER_SIZE);
    if maxFrames == 0 && turn.remaining <= 0 then Some(if frames > 0 then Served(frames, EndBudget) else ServeFailed)
    else if header.ReadOk? then None
    else if frames > 0 && header.failure == ClientClosed then Some(Served(frames, EndClientClosed))
    else if frames > 0 && header.failure == TimedOut then
      var timeout := if maxFrames != 0 then io else if turn.remaining < idle then turn.remaining else idle;
      Some(Served(frames, if timeout == idle then EndIdle else EndBudget))
    else Some(ServeFailed)
  }

  /** Where one turn ends the session, if it does. */
  function TurnEnd(o: Options, idle: int, io: int, maxFrames: nat, turn: Turn, frames: nat): Option<ServeResult> {
    match EndOf(turn, idle, io, maxFrames, frames)
    case Some(end) => Some(end)
    case None =>
      if FrameReply(o, turn.header.bytes, turn).None? then Some(ServeFailed)
      else if maxFrames > 0 && frames + 1 >= maxFrames then Some(Served(frames + 1, EndClientClosed))
      else None
  }

  /** What one turn writes: one reply or none. */
  function TurnReplies(o: Options, idle: int, io: int, maxFrames: nat, turn: Turn, frames: nat): seq<Reply> {
    if EndOf(turn, idle, io, maxFrames, frames).Some? then []
    else
      match FrameReply(o, turn.header.bytes, turn)
      case None => []
      case Some(reply) => [reply]
  }

  /** The replies written in the end and the result of the call, when `done` were written before the k-th turn. */
  function Script(o: Options, idle: int, io: int, maxFrames: nat, turns: seq<Turn>, k: nat, done: seq<Reply>): (seq<Reply>, ServeResult)
    requires k <= |turns|
    decreases |turns| - k
  {
    var turn := if k < |turns| then turns[k] else PEER_GONE;
    var replies := done + TurnReplies(o, idle, io, maxFrames, turn, |done|);
    match TurnEnd(o, idle, io, maxFrames, turn, |done|)
    case Some(end) => (replies, end)
    case None => Script(o, idle, io, maxFrames, turns, k + 1, replies)
  }

  /** What is done about a request whose frame has been read. */
  function RequestDeeds(o: Options, request: Request, turn: Turn): seq<Event> {
    if !GatePasses(o, turn.identity) || !SidPasses(o, turn.identity) then [ErrorSent(request.requestId, UNAUTHORIZED)]
    else
      [Handled(request, turn.identity)] +
      match Handle(o, request)
      case None => [ErrorSent(request.requestId, RefusalCode(o))]
      case Some(reply) =>
        if ValidHeader(MakeHeader(reply.kind, |reply.payload|, request.requestId)) && turn.writeOk then [Replied(request.requestId, reply)] else []
  }

  /** What is done about the frame with these header bytes: header, identity and ids are those of the turn. */
  function FrameDeeds(o: Options, bytes: string, turn: Turn): seq<Event> {
    [HeaderRead(bytes)] +
    match ParseHeader(bytes)
    case None => [ErrorSent(0, INVALID_HEADER)]
    case Some(h) =>
      var body := if h.payloadLength > 0 then Fill(turn.payload, h.payloadLength) else ReadOk("");
      if body.ReadFailed? then []
      else RequestDeeds(o, Request(ParseMessageType(h.kind).value, h.requestId, body.bytes), turn)
  }

  function TurnDeeds(o: Options, idle: int, io: int, maxFrames: nat, turn: Turn, frames: nat): seq<Event> {
    if EndOf(turn, idle, io, maxFrames, frames).Some? then [] else FrameDeeds(o, turn.header.bytes, turn)
  }

  /** All that is read, asked and written from the k-th turn on. */
  function Deeds(o: Options, idle: int, io: int, maxFrames: nat, turns: seq<Turn>, k: nat, frames: nat): seq<Event>
    requires k <= |turns|
    decreases |turns| - k
  {
    var turn := if k < |turns| then turns[k] else PEER_GONE;
    TurnDeeds(o, idle, io, maxFrames, turn, frames) +
    if TurnEnd(o, idle, io, maxFrames, turn, frames).None? && k < |turns|
    then Deeds(o, idle, io, maxFrames, turns, k + 1, frames + 1) else []
  }

  /** A client is connected and nothing has been concluded about it. */
  ghost predicate Live(m: Observed) {
    m.sound && m.listening && m.connected && m.disconnects == 0 && m.closes == 0 && m.reports == 0 && !m.authReported
  }

  /** It may go on being served. */
  ghost predicate Open(m: Observed) { Live(m) && !TurnedAway(m.deeds) }

  /** The client is gone, disconnected once, reported if it was turned away, and the pipe is kept exactly in persistent mode. */
  ghost predicate Over(o: Options, m: Observed) {
    m.sound && !m.connected && m.disconnects == 1 && m.listening == o.persistentAccept
    && m.closes == (if o.persistentAccept then 0 else 1) && m.reports == (if TurnedAway(m.deeds) then 1 else 0) && !m.authReported
  }

  method Note(o: Options, trace: seq<Event>, e: Event) returns (out: seq<Event>)
    ensures Watch(o, out) == Observe(o, Watch(o, trace), e)
  {
    WatchNext(o, trace, e);
    out := trace + [e];
  }

  /** What an observer knows after the client was let go. */
  function LetGoOf(o: Options, m: Observed, drain: bool): Observed {
    var gone := Observe(o, if drain then Observe(o, m, Drained) else m, Disconnected);
    if o.persistentAccept then gone else Observe(o, gone, Closed)
  }

  lemma {:induction false} LettingGo(o: Options, m: Observed, drain: bool)
    requires m.sound && m.listening && m.connected && m.disconnects == 0 && m.closes == 0
    ensures var u := LetGoOf(o, m, drain);
            && u.sound && !u.connected && u.disconnects == 1 && u.listening == o.persistentAccept
            && u.closes == (if o.persistentAccept then 0 else 1)
            && u.reports == m.reports && u.authReported == m.authReported && u.replies == m.replies && u.authReplies == m.authReplies
            && u.deeds == m.deeds
  {
  }

  /** Drain if asked to, disconnect, and close unless the pipe is kept. */
  method LetGo(o: Options, trace: seq<Event>, drain: bool) returns (out: seq<Event>)
    requires var m := Watch(o, trace); m.sound && m.listening && m.connected && m.disconnects == 0 && m.closes == 0
    ensures var m, u := Watch(o, trace), Watch(o, out);
            && u.sound && !u.connected && u.disconnects == 1 && u.listening == o.persistentAccept
            && u.closes == (if o.persistentAccept then 0 else 1)
            && u.reports == m.reports && u.authReported == m.authReported && u.replies == m.replies && u.authReplies == m.authReplies
            && u.deeds == m.deeds
  {
    out := trace;
    if drain { out := Note(o, out, Drained); }
    out := Note(o, out, Disconnected);
    if !o.persistentAccept { out := Note(o, out, Closed); }
    LettingGo(o, Watch(o, trace), drain);
  }

  /** The events after which the client goes on being served. */
  lemma {:induction false} StaysOpen(o: Options, m: Observed, e: Event)
    requires Open(m) && (e.HeaderRead? || e.Handled? || e.Replied?) && Observe(o, m, e).sound
    ensures var u := Observe(o, m, e);
            && Open(u) && u.deeds == m.deeds + [e]
            && u.replies == m.replies + (if e.Replied? then [e.reply] else [])
            && u.authReplies == m.authReplies + (if e.Replied? && IsAuthFailure(e.reply) then 1 else 0)
            && u.lastId == (if e.HeaderRead? then Some(IdOf(e.bytes)) else m.lastId)
            && u.asked == (if e.Handled? then Some(e.request) else None)
  {
    assert m.replies + [] == m.replies;
  }

  /** The verdict on a client that was served to the end. */
  lemma {:induction false} LastVerdict(o: Options, m: Observed, v: Verdict)
    requires Over(o, m) && !TurnedAway(m.deeds) && v == if m.authReplies > 0 then AuthFailed else AcceptedClient
    ensures var u := Observe(o, m, Reported(v));
            && u.sound && !u.connected && u.disconnects == 1 && u.listening == o.persistentAccept
            && u.closes == (if o.persistentAccept then 0 else 1) && u.reports == 1 && u.authReported == (m.authReplies > 0)
            && u.replies == m.replies && u.authReplies == m.authReplies && u.deeds == m.deeds
  {
  }

  /** The exits: report if asked to, and let the client go. */
  method Finish(o: Options, trace: seq<Event>, drain: bool, report: Option<Verdict>) returns (out: seq<Event>)
    requires Live(Watch(o, trace)) && report == if TurnedAway(Watch(o, trace).deeds) then Some(UnauthorizedClient) else None
    ensures Over(o, Watch(o, out)) && Watch(o, out).deeds == Watch(o, trace).deeds
    ensures Watch(o, out).replies == Watch(o, trace).replies && Watch(o, out).authReplies == Watch(o, trace).authReplies
  {
    out := trace;
    if report.Some? { out := Note(o, out, Reported(report.value)); }
    out := LetGo(o, out, drain);
  }

  /** An error reply under the id of the frame just read, and the way out. */
  method Refuse(o: Options, trace: seq<Event>, id: u32, code: u8, report: Option<Verdict>) returns (out: seq<Event>)
    requires Open(Watch(o, trace)) && Watch(o, trace).lastId == Some(id)
    requires report == if code == UNAUTHORIZED then Some(UnauthorizedClient) else None
    ensures Over(o, Watch(o, out)) && Watch(o, out).deeds == Watch(o, trace).deeds + [ErrorSent(id, code)]
    ensures Watch(o, out).replies == Watch(o, trace).replies && Watch(o, out).authReplies == Watch(o, trace).authReplies
  {
    out := Note(o, trace, ErrorSent(id, code));
    out := Finish(o, out, true, report);
  }

  /** What comes of a request whose frame has been read. */
  function RequestReply(o: Options, request: Request, turn: Turn): Option<Reply> {
    match Judge(o, turn.identity, request)
    case Answer(reply) => if turn.writeOk then Some(reply) else None
    case _ => None
  }

  /** Gate, SID list, handler, size of the reply, write. */
  method AnswerRequest(o: Options, trace: seq<Event>, request: Request, turn: Turn) returns (out: seq<Event>, reply: Option<Reply>)
    requires Open(Watch(o, trace)) && Watch(o, trace).lastId == Some(request.requestId)
    ensures reply == RequestReply(o, request, turn)
    ensures Watch(o, out).deeds == Watch(o, trace).deeds + RequestDeeds(o, request, turn)
    ensures reply.None? ==> Over(o, Watch(o, out)) && Watch(o, out).replies == Watch(o, trace).replies
    ensures reply.Some? ==> Open(Watch(o, out)) && Watch(o, out).replies == Watch(o, trace).replies + [reply.value]
                            && Watch(o, out).authReplies == Watch(o, trace).authReplies + if IsAuthFailure(reply.value) then 1 else 0
  {
    if !GatePasses(o, turn.identity) || !SidPasses(o, turn.identity) {
      out := Refuse(o, trace, request.requestId, UNAUTHORIZED, Some(UnauthorizedClient));
      return out, None;
    }
    out := Note(o, trace, Handled(request, turn.identity));
    StaysOpen(o, Watch(o, trace), Handled(request, turn.identity));
    var handled := Handle(o, request);
    if handled.None? {
      out := Refuse(o, out, request.requestId, RefusalCode(o), None);
      return out, None;
    }
    if !ValidHeader(MakeHeader(handled.value.kind, |handled.value.payload|, request.requestId)) || !turn.writeOk {
      out := Finish(o, out, false, None);
      return out, None;
    }
    ghost var asked := Watch(o, out);
    out := Note(o, out, Replied(request.requestId, handled.value));
    StaysOpen(o, asked, Replied(request.requestId, handled.value));
    reply := handled;
  }

  /** Everything between reading header bytes and having written the reply. */
  method ServeFrame(o: Options, trace: seq<Event>, bytes: string, turn: Turn) returns (out: seq<Event>, reply: Option<Reply>)
    requires Open(Watch(o, trace))
    ensures reply == FrameReply(o, bytes, turn)
    ensures Watch(o, out).deeds == Watch(o, trace).deeds + FrameDeeds(o, bytes, turn)
    ensures reply.None? ==> Over(o, Watch(o, out)) && Watch(o, out).replies == Watch(o, trace).replies
    ensures reply.Some? ==> Open(Watch(o, out)) && Watch(o, out).replies == Watch(o, trace).replies + [reply.value]
                            && Watch(o, out).authReplies == Watch(o, trace).authReplies + if IsAuthFailure(reply.value) then 1 else 0
  {
    out := Note(o, trace, HeaderRead(bytes));
    StaysOpen(o, Watch(o, trace), HeaderRead(bytes));
    var parsed := ParseHeader(bytes);
    if parsed.None? {
      out := Refuse(o, out, 0, INVALID_HEADER, None);
      return out, None;
    }
    var h := parsed.value;
    var payload: Payload := "";
    if h.payloadLength > 0 {
      var body := Fill(turn.payload, h.payloadLength);
      if body.ReadFailed? {
        out := Finish(o, out, false, None);
        return out, None;
      }
      payload := body.bytes;
    }
    var request := Request(ParseMessageType(h.kind).value, h.requestId, payload);
    out, reply := AnswerRequest(o, out, request, turn);
    Associate(Watch(o, trace).deeds, [HeaderRead(bytes)], RequestDeeds(o, request, turn));
  }

  /** The session budget and the header read: either the session ends here or header bytes are there. */
  method BeforeFrame(turn: Turn, idle: int, io: int, maxFrames: nat, frames: nat) returns (end: Option<ServeResult>)
    ensures end == EndOf(turn, idle, io, maxFrames, frames)
  {
    var headerTimeout := io;
    if maxFrames == 0 {
      if turn.remaining <= 0 {
        if frames == 0 { return Some(ServeFailed); }
        return Some(Served(frames, EndBudget));
      }
      headerTimeout := if turn.remaining < idle then turn.remaining else idle;
    }
    var header := Fill(turn.header, HEADER_SIZE);
    if header.ReadFailed? {
      if header.failure == ClientClosed && frames > 0 { return Some(Served(frames, EndClientClosed)); }
      if header.failure == TimedOut && frames > 0 {
        return Some(Served(frames, if headerTimeout == idle then EndIdle else EndBudget));
      }
      return Some(ServeFailed);
    }
    return None;
  }

  /** One turn for a connected client: the result of the session if it ends here. */
  method ServeTurn(o: Options, idle: int, io: int, maxFrames: nat, turn: Turn, frames: nat, before: seq<Event>)
    returns (trace: seq<Event>, end: Option<ServeResult>, authRejected: bool)
    requires Open(Watch(o, before)) && frames == |Watch(o, before).replies|
    ensures end == TurnEnd(o, idle, io, maxFrames, turn, frames)
    ensures end == Some(ServeFailed) ==> Over(o, Watch(o, trace))
    ensures end != Some(ServeFailed) ==> Open(Watch(o, trace))
    ensures Watch(o, trace).replies == Watch(o, before).replies + TurnReplies(o, idle, io, maxFrames, turn, frames)
    ensures Watch(o, trace).deeds == Watch(o, before).deeds + TurnDeeds(o, idle, io, maxFrames, turn, frames)
    ensures end != Some(ServeFailed) ==> Watch(o, trace).authReplies == Watch(o, before).authReplies + if authRejected then 1 else 0
  {
    authRejected := false;
    trace := before;
    end := BeforeFrame(turn, idle, io, maxFrames, frames);
    if end.Some? {
      if end.value.ServeFailed? { trace := Finish(o, trace, false, None); }
      return;
    }
    var reply;
    trace, reply := ServeFrame(o, trace, turn.header.bytes, turn);
    if reply.None? { return trace, Some(ServeFailed), false; }
    authRejected := IsAuthFailure(reply.value);
    if maxFrames > 0 && frames + 1 >= maxFrames { end := Some(Served(frames + 1, EndClientClosed)); }
  }

  /** The turn that stands for a closed peer ends every session. */
  lemma {:induction false} GoneMeansOver(o: Options, idle: int, io: int, maxFrames: nat, frames: nat)
    ensures TurnEnd(o, idle, io, maxFrames, PEER_GONE, frames).Some? && TurnDeeds(o, idle, io, maxFrames, PEER_GONE, frames) == []
  {
  }

  lemma {:induction false} DeedsStep(o: Options, idle: int, io: int, maxFrames: nat, turns: seq<Turn>, t: nat, frames: nat, before: seq<Event>)
    requires t <= |turns|
    ensures var turn := if t < |turns| then turns[t] else PEER_GONE;
            var now := before + TurnDeeds(o, idle, io, maxFrames, turn, frames);
            before + Deeds(o, idle, io, maxFrames, turns, t, frames) ==
              if TurnEnd(o, idle, io, maxFrames, turn, frames).None? && t < |turns|
              then now + Deeds(o, idle, io, maxFrames, turns, t + 1, frames + 1) else now
  {
    var turn := if t < |turns| then turns[t] else PEER_GONE;
    var deeds := TurnDeeds(o, idle, io, maxFrames, turn, frames);
    if TurnEnd(o, idle, io, maxFrames, turn, frames).None? && t < |turns| {
      Associate(before, deeds, Deeds(o, idle, io, maxFrames, turns, t + 1, frames + 1));
    } else {
      assert deeds + [] == deeds;
    }
  }

  /** Before turn `t`: what was written and done so far, continued as the turns say, is the whole script. */
  ghost predicate OnCourse(o: Options, idle: int, io: int, maxFrames: nat, turns: seq<Turn>, t: nat, frames: nat, m: Observed)
    requires t <= |turns|
  {
    && |m.replies| == frames
    && Script(o, idle, io, maxFrames, turns, t, m.replies) == Script(o, idle, io, maxFrames, turns, 0, [])
    && m.deeds + Deeds(o, idle, io, maxFrames, turns, t, frames) == Deeds(o, idle, io, maxFrames, turns, 0, 0)
  }

  lemma {:induction false} StartIsOnCourse(o: Options, idle: int, io: int, maxFrames: nat, turns: seq<Turn>, m: Observed)
    requires m.replies == [] && m.deeds == []
    ensures OnCourse(o, idle, io, maxFrames, turns, 0, 0, m)
  {
    assert [] + Deeds(o, idle, io, maxFrames, turns, 0, 0) == Deeds(o, idle, io, maxFrames, turns, 0, 0);
  }

  lemma {:induction false} TurnKeepsCourse(o: Options, idle: int, io: int, maxFrames: nat, turns: seq<Turn>, t: nat, frames: nat, m: Observed, u: Observed)
    requires t <= |turns| && OnCourse(o, idle, io, maxFrames, turns, t, frames, m)
    requires var turn := if t < |turns| then turns[t] else PEER_GONE;
             && u.replies == m.replies + TurnReplies(o, idle, io, maxFrames, turn, frames)
             && u.deeds == m.deeds + TurnDeeds(o, idle, io, maxFrames, turn, frames)
    ensures var turn := if t < |turns| then turns[t] else PEER_GONE;
            match TurnEnd(o, idle, io, maxFrames, turn, frames)
            case Some(end) => (u.replies, end) == Script(o, idle, io, maxFrames, turns, 0, []) && u.deeds == Deeds(o, idle, io, maxFrames, turns, 0, 0)
            case None => t < |turns| && OnCourse(o, idle, io, maxFrames, turns, t + 1, frames + 1, u)
  {
    GoneMeansOver(o, idle, io, maxFrames, frames);
    DeedsStep(o, idle, io, maxFrames, turns, t, frames, m.deeds);
  }

  /** The loop over the frames of one accepted client; a failure has already let the client go. */
  method ServeFrames(o: Options, idle: int, io: int, maxFrames: nat, turns: seq<Turn>, start: seq<Event>)
    returns (trace: seq<Event>, result: ServeResult, authRejected: bool)
    requires Open(Watch(o, start)) && Watch(o, start).replies == [] && Watch(o, start).authReplies == 0 && Watch(o, start).deeds == []
    ensures Watch(o, trace).deeds == Deeds(o, idle, io, maxFrames, turns, 0, 0)
    ensures (Watch(o, trace).replies, result) == Script(o, idle, io, maxFrames, turns, 0, [])
    ensures result.ServeFailed? ==> Over(o, Watch(o, trace))
    ensures result.Served? ==> Open(Watch(o, trace)) && (authRejected <==> Watch(o, trace).authReplies > 0)
  {
    trace, authRejected := start, false;
    var frames, t := 0, 0;
    StartIsOnCourse(o, idle, io, maxFrames, turns, Watch(o, trace));
    while true
      invariant 0 <= t <= |turns| && Open(Watch(o, trace)) && OnCourse(o, idle, io, maxFrames, turns, t, frames, Watch(o, trace))
      invariant authRejected <==> Watch(o, trace).authReplies > 0
      decreases |turns| - t
    {
      var end, rejected;
      ghost var m := Watch(o, trace);
      trace, end, rejected := ServeTurn(o, idle, io, maxFrames, if t < |turns| then turns[t] else PEER_GONE, frames, trace);
      TurnKeepsCourse(o, idle, io, maxFrames, turns, t, frames, m, Watch(o, trace));
      authRejected := authRejected || rejected;
      if end.Some? { return trace, end.value, authRejected; }
      frames := frames + 1;
      t := t + 1;
    }
  }

  /** A session that ended well: drain, let the client go, and report what was found out about it. */
  method Conclude(o: Options, before: seq<Event>, authRejected: bool) returns (trace: seq<Event>)
    requires Open(Watch(o, before)) && (authRejected <==> Watch(o, before).authReplies > 0)
    ensures var m := Watch(o, trace);
            && m.sound && !m.connected && m.disconnects == 1 && m.listening == o.persistentAccept
            && m.closes == (if o.persistentAccept then 0 else 1) && m.reports == 1 && m.authReported == authRejected
            && m.replies == Watch(o, before).replies && m.authReplies == Watch(o, before).authReplies && m.deeds == Watch(o, before).deeds
  {
    trace := Finish(o, before, true, None);
    LastVerdict(o, Watch(o, trace), if authRejected then AuthFailed else AcceptedClient);
    trace := Note(o, trace, Reported(if authRejected then AuthFailed else AcceptedClient));
  }

  method AcceptClient(o: Options) returns (trace: seq<Event>)
    ensures Open(Watch(o, trace)) && Watch(o, trace).replies == [] && Watch(o, trace).authReplies == 0 && Watch(o, trace).deeds == []
  {
    trace := Note(o, [], Listened);
    trace := Note(o, trace, Accepted);
  }

  method RefuseToAccept(o: Options) returns (trace: seq<Event>)
    ensures var m := Watch(o, trace);
            && m.sound && !m.connected && m.disconnects == 0 && m.listening == o.persistentAccept
            && m.closes == (if o.persistentAccept then 0 else 1) && m.reports == 0 && !m.authReported && m.replies == [] && m.deeds == []
  {
    trace := Note(o, [], Listened);
    if !o.persistentAccept { trace := Note(o, trace, Closed); }
  }

  lemma {:induction false} ScriptCounts(o: Options, idle: int, io: int, maxFrames: nat, turns: seq<Turn>, k: nat, done: seq<Reply>)
    requires k <= |turns| && (maxFrames > 0 ==> |done| < maxFrames)
    ensures var (replies, end) := Script(o, idle, io, maxFrames, turns, k, done);
            end.Served? ==> end.frames == |replies| > 0 && (maxFrames > 0 ==> end.frames <= maxFrames)
    decreases |turns| - k
  {
    var turn := if k < |turns| then turns[k] else PEER_GONE;
    if TurnEnd(o, idle, io, maxFrames, turn, |done|).None? {
      ScriptCounts(o, idle, io, maxFrames, turns, k + 1, done + TurnReplies(o, idle, io, maxFrames, turn, |done|));
    }
  }

  /**
    One call of the serve loop over any sequence of turns; when the turns are used up the peer
    has closed. `maxFrames` 0 means no limit.
   */
  method ServeLoop(o: Options, listenOk: bool, acceptOk: bool, idle: int, io: int, maxFrames: nat, turns: seq<Turn>)
    returns (trace: seq<Event>, result: ServeResult)
    ensures Watch(o, trace).sound
    ensures Watch(o, trace).reports <= 1
    ensures Watch(o, trace).disconnects == if listenOk && acceptOk then 1 else 0
    ensures Watch(o, trace).closes == if listenOk && !o.persistentAccept then 1 else 0
    ensures Watch(o, trace).listening == (listenOk && o.persistentAccept) && !Watch(o, trace).connected
    ensures result.Served? ==> result.frames == |Watch(o, trace).replies| > 0 && Watch(o, trace).reports == 1
    ensures result.Served? && maxFrames > 0 ==> result.frames <= maxFrames
    ensures Watch(o, trace).authReported <==> result.Served? && Watch(o, trace).authReplies > 0
    ensures result.ServeFailed? ==> (Watch(o, trace).reports == 1 <==> TurnedAway(Watch(o, trace).deeds))
    ensures o.handler.None? ==> (Watch(o, trace).authReported <==> result.Served? && TokenWasLacking(trace, o.expectedToken))
    ensures listenOk && acceptOk ==> (Watch(o, trace).replies, result) == Script(o, idle, io, maxFrames, turns, 0, [])
    ensures Watch(o, trace).deeds == if listenOk && acceptOk then Deeds(o, idle, io, maxFrames, turns, 0, 0) else []
    ensures !(listenOk && acceptOk) ==> Watch(o, trace).replies == [] && result == ServeFailed
  {
    if !listenOk { return [], ServeFailed; }
    if !acceptOk {
      trace := RefuseToAccept(o);
      return trace, ServeFailed;
    }
    ScriptCounts(o, idle, io, maxFrames, turns, 0, []);
    trace := AcceptClient(o);
    var authRejected;
    trace, result, authRejected := ServeFrames(o, idle, io, maxFrames, turns, trace);
    if result.Served? { trace := Conclude(o, trace, authRejected); }
    if o.handler.None? { AuthFailuresAreLackingTokens(o, trace); }
  }

  // ---------- what soundness of a trace means ----------

  /** What an observer knows after the first `k` events. */
  function Seen(o: Options, trace: seq<Event>, k: nat): Observed
    requires k <= |trace|
  {
    if k == 0 then NOTHING else Observe(o, Seen(o, trace, k - 1), trace[k - 1])
  }

  lemma {:induction false} WatchStep(o: Options, trace: seq<Event>, k: nat)
    requires 0 < k <= |trace|
    ensures Watch(o, trace[..k]) == Observe(o, Watch(o, trace[..k - 1]), trace[k - 1])
  {
    assert trace[..k - 1] + [trace[k - 1]] == trace[..k];
    WatchNext(o, trace[..k - 1], trace[k - 1]);
  }

  lemma {:induction false} SeenIsWatch(o: Options, trace: seq<Event>, k: nat)
    requires k <= |trace|
    ensures Seen(o, trace, k) == Watch(o, trace[..k])
    decreases k
  {
    if k > 0 {
      SeenIsWatch(o, trace, k - 1);
      WatchStep(o, trace, k);
    }
  }

  lemma {:induction false} SeenAll(o: Options, trace: seq<Event>)
    ensures Seen(o, trace, |trace|) == Watch(o, trace)
  {
    SeenIsWatch(o, trace, |trace|);
    assert trace[..|trace|] == trace;
  }

  lemma {:induction false} UnsoundStays(o: Options, m: Observed, e: Event)
    requires Observe(o, m, e).sound
    ensures m.sound
  {
  }

  lemma {:induction false} SoundBefore(o: Options, trace: seq<Event>, k: nat, n: nat)
    requires k <= n <= |trace| && Seen(o, trace, n).sound
    ensures Seen(o, trace, k).sound
    decreases n
  {
    if k < n {
      UnsoundStays(o, Seen(o, trace, n - 1), trace[n - 1]);
      SoundBefore(o, trace, k, n - 1);
    }
  }

  lemma {:induction false} SoundSeen(o: Options, trace: seq<Event>)
    requires Watch(o, trace).sound
    ensures Seen(o, trace, |trace|).sound
  {
    SeenAll(o, trace);
  }

  /** Every event of a sound trace keeps the rules. */
  lemma {:induction false} SoundAt(o: Options, trace: seq<Event>, k: nat)
    requires k < |trace| && Watch(o, trace).sound
    ensures Observe(o, Seen(o, trace, k), trace[k]).sound
  {
    SoundSeen(o, trace);
    SoundBefore(o, trace, k + 1, |trace|);
    SeenNext(o, trace, k);
  }

  lemma {:induction false} SeenNext(o: Options, trace: seq<Event>, k: nat)
    requires k < |trace|
    ensures Seen(o, trace, k + 1) == Observe(o, Seen(o, trace, k), trace[k])
  {
  }

  /** The handler is asked only for a client that passed the gate, if there is one, and the SID list, if it is not empty. */
  lemma {:induction false} HandledOnlyIfAuthorized(o: Options, trace: seq<Event>, k: nat)
    requires k < |trace| && Watch(o, trace).sound && trace[k].Handled?
    ensures o.gate.Some? ==> o.gate.value(trace[k].identity)
    ensures o.allowedSids != [] ==> exists sid | sid in o.allowedSids :: SameUpToCase(trace[k].identity.sid, sid)
  {
    SoundAt(o, trace, k);
    CallIsAuthorized(o, Seen(o, trace, k), trace[k]);
  }

  lemma {:induction false} CallIsAuthorized(o: Options, m: Observed, e: Event)
    requires Observe(o, m, e).sound && e.Handled?
    ensures o.gate.Some? ==> o.gate.value(e.identity)
    ensures o.allowedSids != [] ==> exists sid | sid in o.allowedSids :: SameUpToCase(e.identity.sid, sid)
  {
    AuthorizedIff(o, e.identity);
  }

  /** Who is served, by the options themselves. */
  predicate Authorized(o: Options, id: Identity) {
    (o.gate.None? || o.gate.value(id)) && (o.allowedSids == [] || exists sid | sid in o.allowedSids :: SameUpToCase(id.sid, sid))
  }

  lemma {:induction false} AuthorizedIff(o: Options, id: Identity)
    ensures GatePasses(o, id) && SidPasses(o, id) <==> Authorized(o, id)
  {
    if SidPasses(o, id) && o.allowedSids != [] {
      var i :| 0 <= i < |o.allowedSids| && SameUpToCase(id.sid, o.allowedSids[i]);
      assert o.allowedSids[i] in o.allowedSids;
    }
  }

  // ---------- what is done about one frame ----------

  /** The request in a frame: its header is accepted and its payload, if it has one, was read whole. */
  function RequestIn(bytes: string, turn: Turn): Option<Request> {
    match ParseHeader(bytes)
    case None => None
    case Some(h) =>
      if h.payloadLength == 0 then Some(Request(ParseMessageType(h.kind).value, h.requestId, ""))
      else if turn.payload.ReadOk? && |turn.payload.bytes| == h.payloadLength
      then Some(Request(ParseMessageType(h.kind).value, h.requestId, turn.payload.bytes))
      else None
  }

  /**
    Exactly when each thing is done about a frame: the handler is asked about the request if the client is authorized; its
    answer is written if there is one of at most 4096 bytes and the write succeeds; an error is written with code 1 and
    id 0 for a bad header, and under the request's id with code 7 for a client that is not authorized, with code 4
    when a custom handler fails and with code 3 when the default one does not know the type.
   */
  lemma {:induction false} FrameIsAnsweredSo(o: Options, bytes: string, turn: Turn, e: Event)
    ensures e in FrameDeeds(o, bytes, turn) <==>
      match e
      case HeaderRead(read) => read == bytes
      case Handled(request, id) => RequestIn(bytes, turn) == Some(request) && id == turn.identity && Authorized(o, id)
      case Replied(id, reply) =>
        && RequestIn(bytes, turn).Some? && id == RequestIn(bytes, turn).value.requestId && Authorized(o, turn.identity)
        && Handle(o, RequestIn(bytes, turn).value) == Some(reply) && |reply.payload| <= 4096 && turn.writeOk
      case ErrorSent(id, code) =>
        || (code == 1 && id == 0 && ParseHeader(bytes).None?)
        || (RequestIn(bytes, turn).Some? && id == RequestIn(bytes, turn).value.requestId
            && ((code == 7 && !Authorized(o, turn.identity))
                || (Authorized(o, turn.identity) && Handle(o, RequestIn(bytes, turn).value).None?
                    && code == if o.handler.Some? then 4 else 3)))
      case _ => false
  {
    AuthorizedIff(o, turn.identity);
    if RequestIn(bytes, turn).Some? {
      var request := RequestIn(bytes, turn).value;
      assert FrameDeeds(o, bytes, turn) == [HeaderRead(bytes)] + RequestDeeds(o, request, turn);
      RequestIsAnsweredSo(o, request, turn, e);
    }
  }

  lemma {:induction false} RequestIsAnsweredSo(o: Options, request: Request, turn: Turn, e: Event)
    ensures e in RequestDeeds(o, request, turn) <==>
      match e
      case Handled(r, id) => r == request && id == turn.identity && Authorized(o, id)
      case Replied(id, reply) =>
        id == request.requestId && Authorized(o, turn.identity) && Handle(o, request) == Some(reply) && |reply.payload| <= 4096 && turn.writeOk
      case ErrorSent(id, code) =>
        && id == request.requestId
        && ((code == 7 && !Authorized(o, turn.identity))
            || (Authorized(o, turn.identity) && Handle(o, request).None? && code == if o.handler.Some? then 4 else 3))
      case _ => false
  {
    AuthorizedIff(o, turn.identity);
    if Handle(o, request).Some? { ValidReplyIff(Handle(o, request).value, request.requestId); }
  }

  lemma {:induction false} ValidReplyIff(reply: Reply, id: u32)
    ensures ValidHeader(MakeHeader(reply.kind, |reply.payload|, id)) <==> |reply.payload| <= 4096
  {
    ValidHeaderIff(MakeHeader(reply.kind, |reply.payload|, id));
    assert ParseMessageType(TypeByte(reply.kind)) == Some(reply.kind);
  }

  // ---------- how a session ends ----------

  /**
    Without a header to serve, a session that has served frames ends well for one of three reasons: its budget, which in an
    unlimited session is used up or the shorter wait; the idle time, when that was the whole wait; or the client
    that left. Everything else is a failure, and so is an end before the first frame.
   */
  lemma {:induction false} SessionEndsIff(turn: Turn, idle: int, io: int, maxFrames: nat, frames: nat, reason: EndReason, n: nat)
    ensures var over := maxFrames == 0 && turn.remaining <= 0;
            var timedOut := turn.header == ReadFailed(TimedOut);
            EndOf(turn, idle, io, maxFrames, frames) == Some(Served(n, reason)) <==>
              n == frames > 0 &&
              match reason
              case EndBudget => over || (timedOut && if maxFrames == 0 then turn.remaining < idle else io != idle)
              case EndIdle => !over && timedOut && if maxFrames == 0 then turn.remaining >= idle else io == idle
              case EndClientClosed => !over && turn.header == ReadFailed(ClientClosed)
    ensures EndOf(turn, idle, io, maxFrames, frames).None? <==>
              !(maxFrames == 0 && turn.remaining <= 0) && turn.header.ReadOk? && |turn.header.bytes| == 16
  {
  }

  /** A turn with a header ends the session if the frame is not answered, or if it is the last one allowed. */
  lemma {:induction false} LastFrameEnds(o: Options, idle: int, io: int, maxFrames: nat, turn: Turn, frames: nat)
    requires EndOf(turn, idle, io, maxFrames, frames).None?
    ensures var answered := exists id: u32, reply: Reply :: Replied(id, reply) in FrameDeeds(o, turn.header.bytes, turn);
            TurnEnd(o, idle, io, maxFrames, turn, frames) ==
              if !answered then Some(ServeFailed)
              else if maxFrames > 0 && frames + 1 >= maxFrames then Some(Served(frames + 1, EndClientClosed)) else None
  {
    var bytes := turn.header.bytes;
    if RequestIn(bytes, turn).Some? {
      var request := RequestIn(bytes, turn).value;
      assert FrameReply(o, bytes, turn) == RequestReply(o, request, turn);
      if RequestReply(o, request, turn).Some? {
        var reply := RequestReply(o, request, turn).value;
        ValidReplyIff(reply, request.requestId);
        AuthorizedIff(o, turn.identity);
        FrameIsAnsweredSo(o, bytes, turn, Replied(request.requestId, reply));
      }
    }
    forall id: u32, reply: Reply | Replied(id, reply) in FrameDeeds(o, bytes, turn) ensures FrameReply(o, bytes, turn) == Some(reply) {
      FrameIsAnsweredSo(o, bytes, turn, Replied(id, reply));
      ValidReplyIff(reply, id);
      AuthorizedIff(o, turn.identity);
    }
  }

  // ---------- who is reported as failing authentication ----------

  /** Some answered snapshot lacked the token. */
  ghost predicate TokenWasLacking(trace: seq<Event>, expected: string) { exists k: nat | k < |trace| :: LacksTokenAt(trace, k, expected) }

  /** A reply to a snapshot that lacked the token. */
  predicate LacksTokenAt(trace: seq<Event>, k: nat, expected: string)
    requires k < |trace|
  {
    k > 0 && trace[k].Replied? && trace[k - 1].Handled? && LacksToken(trace[k - 1].request, expected)
  }

  lemma {:induction false} AuthRepliesAre(o: Options, trace: seq<Event>, n: nat)
    requires n <= |trace|
    ensures Seen(o, trace, n).authReplies > 0 <==> exists k | 0 <= k < n :: RepliesAuthFailure(trace[k])
    decreases n
  {
    if n > 0 {
      AuthRepliesAre(o, trace, n - 1);
      AuthReplyStep(o, Seen(o, trace, n - 1), trace[n - 1]);
    }
  }

  predicate RepliesAuthFailure(e: Event) { e.Replied? && IsAuthFailure(e.reply) }

  lemma {:induction false} AuthReplyStep(o: Options, m: Observed, e: Event)
    ensures Observe(o, m, e).authReplies == m.authReplies + if RepliesAuthFailure(e) then 1 else 0
  {
  }

  lemma {:induction false} AuthFailureIsLackingToken(o: Options, trace: seq<Event>, k: nat)
    requires k < |trace| && Watch(o, trace).sound && o.handler.None?
    ensures RepliesAuthFailure(trace[k]) <==> LacksTokenAt(trace, k, o.expectedToken)
  {
    if trace[k].Replied? {
      RepliesComeFromTheHandler(o, trace, k);
      FailureMeansLacking(o, trace[k - 1].request, trace[k].reply);
    }
  }

  lemma {:induction false} FailureMeansLacking(o: Options, request: Request, reply: Reply)
    requires o.handler.None? && Handle(o, request) == Some(reply)
    ensures IsAuthFailure(reply) <==> LacksToken(request, o.expectedToken)
  {
    DefaultAnswers(request, o.expectedToken);
  }

  /** With the default handler the authentication failures answered are exactly the snapshots without the token. */
  lemma {:induction false} AuthFailuresAreLackingTokens(o: Options, trace: seq<Event>)
    requires Watch(o, trace).sound && o.handler.None?
    ensures Watch(o, trace).authReplies > 0 <==> TokenWasLacking(trace, o.expectedToken)
  {
    AuthRepliesAre(o, trace, |trace|);
    SeenAll(o, trace);
    if k: nat :| k < |trace| && RepliesAuthFailure(trace[k]) { AuthFailureIsLackingToken(o, trace, k); }
    if k: nat :| k < |trace| && LacksTokenAt(trace, k, o.expectedToken) { AuthFailureIsLackingToken(o, trace, k); }
  }

  lemma {:induction false} OnlyHeadersChangeTheId(o: Options, m: Observed, e: Event)
    ensures Observe(o, m, e).lastId == if e.HeaderRead? then Some(IdOf(e.bytes)) else m.lastId
  {
  }

  /** The last header read before some event, if any was. */
  lemma {:induction false} LastHeader(o: Options, trace: seq<Event>, k: nat) returns (j: nat)
    requires k <= |trace| && Seen(o, trace, k).lastId.Some?
    ensures j < k && trace[j].HeaderRead? && (forall i | j < i < k :: !trace[i].HeaderRead?)
    ensures Seen(o, trace, k).lastId == Some(IdOf(trace[j].bytes))
    decreases k
  {
    OnlyHeadersChangeTheId(o, Seen(o, trace, k - 1), trace[k - 1]);
    if trace[k - 1].HeaderRead? { j := k - 1; } else { j := LastHeader(o, trace, k - 1); }
  }

  lemma {:induction false} WriteHasTheLastId(o: Options, m: Observed, e: Event)
    requires Observe(o, m, e).sound && (e.Replied? || e.ErrorSent?)
    ensures m.lastId == Some(e.requestId)
  {
  }

  /** Whatever is written comes after some header was read and carries the request id of the last one, or 0 when that was bad. */
  lemma {:induction false} WritesCarryTheFrameId(o: Options, trace: seq<Event>, k: nat) returns (j: nat)
    requires k < |trace| && Watch(o, trace).sound && (trace[k].Replied? || trace[k].ErrorSent?)
    ensures j < k && trace[j].HeaderRead? && (forall i | j < i < k :: !trace[i].HeaderRead?)
    ensures trace[k].requestId == IdOf(trace[j].bytes)
  {
    SoundAt(o, trace, k);
    WriteHasTheLastId(o, Seen(o, trace, k), trace[k]);
    j := LastHeader(o, trace, k);
  }

  lemma {:induction false} ReplyIsTheHandlers(o: Options, m: Observed, e: Event)
    requires Observe(o, m, e).sound && e.Replied?
    ensures m.asked.Some? && Handle(o, m.asked.value) == Some(e.reply)
  {
  }

  lemma {:induction false} AskedMeansHandled(o: Options, m: Observed, e: Event)
    requires Observe(o, m, e).asked.Some?
    ensures e.Handled? && Observe(o, m, e).asked == Some(e.request)
  {
  }

  /** Every reply directly follows a call of the handler and is what that call gave. */
  lemma {:induction false} RepliesComeFromTheHandler(o: Options, trace: seq<Event>, k: nat)
    requires k < |trace| && Watch(o, trace).sound && trace[k].Replied?
    ensures k > 0 && trace[k - 1].Handled? && Handle(o, trace[k - 1].request) == Some(trace[k].reply)
  {
    SoundAt(o, trace, k);
    ReplyIsTheHandlers(o, Seen(o, trace, k), trace[k]);
    if k > 0 { AskedMeansHandled(o, Seen(o, trace, k - 1), trace[k - 1]); }
  }

  lemma {:induction false} ReportFits(o: Options, m: Observed, e: Event)
    requires Observe(o, m, e).sound && e.Reported?
    ensures VerdictFits(m, e.verdict)
  {
  }

  /** A verdict says what happened: turned away by the last thing done, answered with an authentication failure, or neither. */
  lemma {:induction false} VerdictSaysWhatHappened(o: Options, trace: seq<Event>, k: nat)
    requires k < |trace| && Watch(o, trace).sound && trace[k].Reported?
    ensures var m := Watch(o, trace[..k]);
            match trace[k].verdict
            case UnauthorizedClient => m.connected && m.deeds != [] && m.deeds[|m.deeds| - 1].ErrorSent? && m.deeds[|m.deeds| - 1].code == 7
            case AuthFailed => !m.connected && m.authReplies > 0
            case AcceptedClient => !m.connected && m.authReplies == 0
  {
    SoundAt(o, trace, k);
    SeenIsWatch(o, trace, k);
    ReportFits(o, Seen(o, trace, k), trace[k]);
  }

  lemma {:induction false} OnlyConnectedActs(o: Options, m: Observed, e: Event)
    requires Observe(o, m, e).sound && !m.connected
    ensures e.Listened? || e.Accepted? || e.Closed? || e.Reported?
  {
  }

  /** Once the pipe is let go nothing is read, handled or written any more. */
  lemma {:induction false} NothingAfterDisconnect(o: Options, trace: seq<Event>, k: nat)
    requires k < |trace| && Watch(o, trace).sound && !Watch(o, trace[..k]).connected
    ensures trace[k].Listened? || trace[k].Accepted? || trace[k].Closed? || trace[k].Reported?
  {
    SoundAt(o, trace, k);
    SeenIsWatch(o, trace, k);
    OnlyConnectedActs(o, Seen(o, trace, k), trace[k]);
  }
}
