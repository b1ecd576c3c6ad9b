/**
  The multi-frame client against the multi-frame server over two reliable byte streams
  (source/ipc/ipc_session.cpp). Either side may give up at any moment; whatever the interleaving,
  a client that succeeds got, for every request, the answer the server decided for that request.
 */
module IpcLockstep {
  import opened Text
  import opened IpcProtocol
  import opened IpcSession

  datatype ClientAt = Sending | AwaitHeader | AwaitPayload(header: Header) | Succeeded | Failed

  datatype ServerAt = ReadingHeader | ReadingPayload(head: Header) | Ended

  datatype Net = Net(
    client: ClientAt, replies: seq<Reply>,
    server: ServerAt, frames: nat,
    toServer: string, toClient: string)

  const START := Net(Sending, [], ReadingHeader, 0, "", "")

  /** One step of either side; reads happen only when the bytes are there. */
  datatype Action = ClientStep | ClientGivesUp | ServerStep | ServerGivesUp

  function RequestFrame(r: Request): string { Frame(r.kind, r.requestId, r.payload) }

  // ---------- the client ----------

  /** The checks on a complete reply frame: paired id, and not an error. */
  function TakeReply(n: Net, r: Request, h: Header, payload: Payload): Net {
    if h.requestId != r.requestId then n.(client := Failed)
    else
      match ParseMessageType(h.kind)
      case None => n.(client := Failed)
      case Some(kind) =>
        if kind == Error then n.(client := Failed)
        else n.(client := Sending, replies := n.replies + [Reply(kind, payload)])
  }

  function ClientNext(requests: seq<Request>, n: Net): Net {
    match n.client
    case Sending =>
      if |n.replies| < |requests|
      then n.(client := AwaitHeader, toServer := n.toServer + RequestFrame(requests[|n.replies|]))
      else n.(client := Succeeded)
    case AwaitHeader =>
      if |n.toClient| < HEADER_SIZE || |n.replies| >= |requests| then n
      else
        var rest := n.(toClient := n.toClient[HEADER_SIZE..]);
        (match ParseHeader(n.toClient[..HEADER_SIZE])
         case None => rest.(client := Failed)
         case Some(h) =>
           if h.payloadLength == 0 then TakeReply(rest, requests[|n.replies|], h, "")
           else rest.(client := AwaitPayload(h)))
    case AwaitPayload(h) =>
      if |n.toClient| < h.payloadLength || |n.replies| >= |requests| then n
      else TakeReply(n.(toClient := n.toClient[h.payloadLength..]), requests[|n.replies|], h, n.toClient[..h.payloadLength])
    case _ => n
  }

  /**
    Whatever server it talks to, the client takes a reply over exactly when the frame carries the id of its request and is no
    error; any other frame ends it. The frame is read whole and nothing behind it.
   */
  lemma {:induction false} ClientTakesOnlyPairedReplies(requests: seq<Request>, n: Net, kind: MessageType, requestId: u32, payload: Payload, rest: string)
    requires n.client == AwaitHeader && |n.replies| < |requests| && |payload| <= 4096
    requires n.toClient == Frame(kind, requestId, payload) + rest
    ensures var once := ClientNext(requests, n);
            var u := if payload == "" then once else ClientNext(requests, once);
            u == if requestId == requests[|n.replies|].requestId && kind != Error
                 then n.(client := Sending, replies := n.replies + [Reply(kind, payload)], toClient := rest)
                 else n.(client := Failed, toClient := rest)
  {
    var h := MakeHeader(kind, |payload|, requestId);
    FrameCut(kind, requestId, payload);
    assert n.toClient[..HEADER_SIZE] == Frame(kind, requestId, payload)[..HEADER_SIZE];
    assert n.toClient[HEADER_SIZE..] == payload + rest;
    assert ParseMessageType(h.kind) == Some(kind);
    if payload == "" {
      assert payload + rest == rest;
    } else {
      assert (payload + rest)[..|payload|] == payload && (payload + rest)[|payload|..] == rest;
    }
  }

  /** Sixteen bytes that are no header end the client as well. */
  lemma {:induction false} ClientRefusesBadHeaders(requests: seq<Request>, n: Net)
    requires n.client == AwaitHeader && |n.replies| < |requests| && |n.toClient| >= 16 && ParseHeader(n.toClient[..16]).None?
    ensures ClientNext(requests, n).client == Failed && ClientNext(requests, n).replies == n.replies
  {
  }

  // ---------- the server ----------

  function ServerAnswers(o: Options, id: Identity, n: Net, r: Request): Net {
    match Judge(o, id, r)
    case Unauthorized => n.(server := Ended, toClient := n.toClient + ErrorFrame(r.requestId, UNAUTHORIZED))
    case Unhandled => n.(server := Ended, toClient := n.toClient + ErrorFrame(r.requestId, RefusalCode(o)))
    case Oversized => n.(server := Ended)
    case Answer(reply) =>
      n.(server := ReadingHeader, frames := n.frames + 1, toClient := n.toClient + Frame(reply.kind, r.requestId, reply.payload))
  }

  function ServerNext(o: Options, id: Identity, n: Net): Net {
    match n.server
    case ReadingHeader =>
      if |n.toServer| < HEADER_SIZE then n
      else
        var rest := n.(toServer := n.toServer[HEADER_SIZE..]);
        (match ParseHeader(n.toServer[..HEADER_SIZE])
         case None => rest.(server := Ended, toClient := n.toClient + ErrorFrame(0, INVALID_HEADER))
         case Some(h) => rest.(server := ReadingPayload(h)))
    case ReadingPayload(h) =>
      (match ParseMessageType(h.kind)
       case None => n
       case Some(kind) =>
         if |n.toServer| < h.payloadLength then n
         else ServerAnswers(o, id, n.(toServer := n.toServer[h.payloadLength..]), Request(kind, h.requestId, n.toServer[..h.payloadLength])))
    case Ended => n
  }

  function Step(o: Options, id: Identity, requests: seq<Request>, n: Net, a: Action): Net {
    match a
    case ClientStep => ClientNext(requests, n)
    case ClientGivesUp => if n.client == Succeeded then n else n.(client := Failed)
    case ServerStep => ServerNext(o, id, n)
    case ServerGivesUp => n.(server := Ended)
  }

  function Run(o: Options, id: Identity, requests: seq<Request>, actions: seq<Action>): Net {
    if actions == [] then START
    else Step(o, id, requests, Run(o, id, requests, actions[..|actions| - 1]), actions[|actions| - 1])
  }

  // ---------- the invariant ----------

  ghost predicate IsAnsweredBy(o: Options, id: Identity, r: Request, reply: Reply) {
    Judge(o, id, r) == Answer(reply) && |r.payload| <= MAX_PAYLOAD
  }

  /** Every reply so far is the server's answer to the request in the same place. */
  ghost predicate RepliesAnswer(o: Options, id: Identity, requests: seq<Request>, replies: seq<Reply>) {
    |replies| <= |requests| && forall i | 0 <= i < |replies| :: IsAnsweredBy(o, id, requests[i], replies[i])
  }

  /** The request is under way to the server, which has not answered it. */
  ghost predicate Outbound(r: Request, n: Net) {
    && n.toClient == ""
    && (|| (n.server == ReadingHeader && n.toServer == RequestFrame(r))
        || (n.server == ReadingPayload(MakeHeader(r.kind, |r.payload|, r.requestId)) && n.toServer == r.payload && |r.payload| <= MAX_PAYLOAD)
        || (n.server == Ended && (n.toServer == "" || n.toServer == RequestFrame(r) || n.toServer == r.payload)))
  }

  ghost predicate IsAnswered(o: Options, id: Identity, r: Request) { Judge(o, id, r).Answer? && |r.payload| <= MAX_PAYLOAD }

  ghost function AnswerFrame(o: Options, id: Identity, r: Request): string
    requires IsAnswered(o, id, r)
  {
    Frame(Judge(o, id, r).reply.kind, r.requestId, Judge(o, id, r).reply.payload)
  }

  ghost function AnswerHead(o: Options, id: Identity, r: Request): Header
    requires IsAnswered(o, id, r)
  {
    MakeHeader(Judge(o, id, r).reply.kind, |Judge(o, id, r).reply.payload|, r.requestId)
  }

  /** The server is between frames or gone, and has consumed all it was sent. */
  ghost predicate ServerIdle(n: Net) { n.toServer == "" && n.server in {ReadingHeader, Ended} }

  /** The server refused the request and is gone; only a payload announced by a bad header stays unread. */
  ghost predicate Refused(r: Request, n: Net) {
    n.server == Ended && (n.toServer == "" || (n.toServer == r.payload && |r.payload| > MAX_PAYLOAD))
  }

  ghost predicate ErrorUnderWay(r: Request, n: Net) {
    Refused(r, n) && exists i: u32, code: u8 :: n.toClient == ErrorFrame(i, code)
  }

  /** An error code by itself: what is left of an error frame once its header is read. */
  ghost predicate IsCode(s: string) { exists code: u8 :: s == ErrorPayload(code) }

  ghost predicate IsError(s: string) { IsCode(s) || exists i: u32, code: u8 :: s == ErrorFrame(i, code) }

  /** What may be on the way to the client: the answer to the request or an error, with or without its header. */
  ghost predicate Inbound(o: Options, id: Identity, r: Request, s: string) {
    || s == "" || IsError(s)
    || (IsAnswered(o, id, r) && (s == AnswerFrame(o, id, r) || s == Judge(o, id, r).reply.payload))
  }

  /** Where the exchange of the current request stands, by what the client is doing. */
  ghost predicate ExchangeHolds(o: Options, id: Identity, requests: seq<Request>, n: Net) {
    var k := |n.replies|;
    match n.client
    case Sending => ServerIdle(n) && n.toClient == "" && n.frames == k
    case Succeeded => ServerIdle(n) && n.toClient == "" && n.frames == k == |requests|
    case AwaitHeader =>
      && k < |requests|
      && (|| (Outbound(requests[k], n) && n.frames == k)
          || (ErrorUnderWay(requests[k], n) && n.frames == k)
          || (n.frames == k + 1 && IsAnswered(o, id, requests[k]) && ServerIdle(n) && n.toClient == AnswerFrame(o, id, requests[k])))
    case AwaitPayload(h) =>
      && k < |requests|
      && (|| (Refused(requests[k], n) && h.kind == TypeByte(Error) && n.frames == k && IsCode(n.toClient) && h.payloadLength == 1)
          || (n.frames == k + 1 && IsAnswered(o, id, requests[k]) && ServerIdle(n)
              && h == AnswerHead(o, id, requests[k]) && n.toClient == Judge(o, id, requests[k]).reply.payload))
    case Failed =>
      || (ServerIdle(n) && n.toClient == "")
      || (k < |requests| && (|| Outbound(requests[k], n)
                             || ((ServerIdle(n) || Refused(requests[k], n)) && Inbound(o, id, requests[k], n.toClient))))
  }

  ghost predicate Inv(o: Options, id: Identity, requests: seq<Request>, n: Net) {
    RepliesAnswer(o, id, requests, n.replies) && ExchangeHolds(o, id, requests, n)
  }

  // ---------- every step keeps it ----------

  lemma {:induction false} ClientSends(o: Options, id: Identity, requests: seq<Request>, n: Net)
    requires Inv(o, id, requests, n) && n.client == Sending
    ensures Inv(o, id, requests, ClientNext(requests, n))
  {
    if |n.replies| < |requests| {
      var r := requests[|n.replies|];
      FrameCut(r.kind, r.requestId, r.payload);
      assert n.toServer + RequestFrame(r) == RequestFrame(r);
    }
  }

  lemma {:induction false} ErrorFrameHeader(i: u32, code: u8)
    ensures ParseHeader(ErrorFrame(i, code)[..HEADER_SIZE]) == Some(MakeHeader(Error, 1, i))
    ensures |ErrorFrame(i, code)| == HEADER_SIZE + 1 && ErrorFrame(i, code)[HEADER_SIZE..] == ErrorPayload(code)
  {
    FrameCut(Error, i, ErrorPayload(code));
  }

  lemma {:induction false} AnswerHeader(o: Options, id: Identity, r: Request)
    requires IsAnswered(o, id, r)
    ensures var f := AnswerFrame(o, id, r);
            && |f| == HEADER_SIZE + |Judge(o, id, r).reply.payload| && f[HEADER_SIZE..] == Judge(o, id, r).reply.payload
            && ParseHeader(f[..HEADER_SIZE]) == Some(AnswerHead(o, id, r))
  {
    FrameCut(Judge(o, id, r).reply.kind, r.requestId, Judge(o, id, r).reply.payload);
  }

  /** A complete answer is taken over as it is, unless it is an error. */
  lemma {:induction false} TakenReplyAnswers(o: Options, id: Identity, requests: seq<Request>, n: Net)
    requires RepliesAnswer(o, id, requests, n.replies) && |n.replies| < |requests| && n.frames == |n.replies| + 1
    requires IsAnswered(o, id, requests[|n.replies|]) && ServerIdle(n) && n.toClient == ""
    ensures var r := requests[|n.replies|];
            Inv(o, id, requests, TakeReply(n, r, AnswerHead(o, id, r), Judge(o, id, r).reply.payload))
  {
    var reply := Judge(o, id, requests[|n.replies|]).reply;
    assert ParseMessageType(TypeByte(reply.kind)) == Some(reply.kind);
  }

  lemma {:induction false} ClientReadsAnswer(o: Options, id: Identity, requests: seq<Request>, n: Net)
    requires RepliesAnswer(o, id, requests, n.replies) && |n.replies| < |requests| && n.frames == |n.replies| + 1
    requires IsAnswered(o, id, requests[|n.replies|]) && ServerIdle(n)
    requires n.client == AwaitHeader && n.toClient == AnswerFrame(o, id, requests[|n.replies|])
    ensures Inv(o, id, requests, ClientNext(requests, n))
  {
    var r := requests[|n.replies|];
    AnswerHeader(o, id, r);
    var rest := n.(toClient := n.toClient[HEADER_SIZE..]);
    if |Judge(o, id, r).reply.payload| == 0 {
      assert Judge(o, id, r).reply.payload == "";
      TakenReplyAnswers(o, id, requests, rest);
    }
  }

  lemma {:induction false} ClientReadsErrorHead(o: Options, id: Identity, requests: seq<Request>, n: Net)
    requires RepliesAnswer(o, id, requests, n.replies) && |n.replies| < |requests| && n.client == AwaitHeader
    requires ErrorUnderWay(requests[|n.replies|], n) && n.frames == |n.replies|
    ensures Inv(o, id, requests, ClientNext(requests, n))
  {
    var i: u32, code: u8 :| n.toClient == ErrorFrame(i, code);
    ErrorFrameHeader(i, code);
    assert IsCode(ErrorPayload(code));
  }

  lemma {:induction false} ClientReadsHeader(o: Options, id: Identity, requests: seq<Request>, n: Net)
    requires Inv(o, id, requests, n) && n.client == AwaitHeader
    ensures Inv(o, id, requests, ClientNext(requests, n))
  {
    var r := requests[|n.replies|];
    if Outbound(r, n) && n.frames == |n.replies| {
    } else if ErrorUnderWay(r, n) && n.frames == |n.replies| {
      ClientReadsErrorHead(o, id, requests, n);
    } else {
      ClientReadsAnswer(o, id, requests, n);
    }
  }

  /** An error ends the client with nothing left to read. */
  lemma {:induction false} ClientReadsError(o: Options, id: Identity, requests: seq<Request>, n: Net)
    requires RepliesAnswer(o, id, requests, n.replies) && |n.replies| < |requests| && Refused(requests[|n.replies|], n)
    requires n.client.AwaitPayload? && n.client.header.kind == TypeByte(Error) && n.client.header.payloadLength == 1 && IsCode(n.toClient)
    ensures Inv(o, id, requests, ClientNext(requests, n))
  {
    assert |n.toClient| == 1 && n.toClient[1..] == "";
  }

  lemma {:induction false} ClientReadsPayload(o: Options, id: Identity, requests: seq<Request>, n: Net)
    requires Inv(o, id, requests, n) && n.client.AwaitPayload?
    ensures Inv(o, id, requests, ClientNext(requests, n))
  {
    var r, h := requests[|n.replies|], n.client.header;
    if Refused(r, n) && h.kind == TypeByte(Error) && h.payloadLength == 1 && IsCode(n.toClient) {
      ClientReadsError(o, id, requests, n);
    } else {
      assert n.toClient[h.payloadLength..] == "" && n.toClient[..h.payloadLength] == Judge(o, id, r).reply.payload;
      TakenReplyAnswers(o, id, requests, n.(toClient := ""));
    }
  }

  lemma {:induction false} ServerRefusesHeader(o: Options, id: Identity, n: Net, r: Request)
    requires n.server == ReadingHeader && n.toServer == RequestFrame(r) && n.toClient == "" && |r.payload| > MAX_PAYLOAD
    ensures var u := ServerNext(o, id, n);
            ErrorUnderWay(r, u) && u.client == n.client && u.replies == n.replies && u.frames == n.frames
  {
    FrameCut(r.kind, r.requestId, r.payload);
    assert ServerNext(o, id, n).toClient == ErrorFrame(0, INVALID_HEADER);
  }

  lemma {:induction false} ServerTakesHeader(o: Options, id: Identity, n: Net, r: Request)
    requires n.server == ReadingHeader && n.toServer == RequestFrame(r) && n.toClient == "" && |r.payload| <= MAX_PAYLOAD
    ensures var u := ServerNext(o, id, n);
            Outbound(r, u) && u.client == n.client && u.replies == n.replies && u.frames == n.frames
  {
    FrameCut(r.kind, r.requestId, r.payload);
  }

  lemma {:induction false} ServerReadsHeader(o: Options, id: Identity, requests: seq<Request>, n: Net)
    requires Inv(o, id, requests, n) && n.server == ReadingHeader
    ensures Inv(o, id, requests, ServerNext(o, id, n))
  {
    if n.toServer != "" {
      var r := requests[|n.replies|];
      if |r.payload| > MAX_PAYLOAD { ServerRefusesHeader(o, id, n, r); } else { ServerTakesHeader(o, id, n, r); }
    }
  }

  lemma {:induction false} ServerReadsPayload(o: Options, id: Identity, requests: seq<Request>, n: Net)
    requires Inv(o, id, requests, n) && n.server.ReadingPayload?
    ensures Inv(o, id, requests, ServerNext(o, id, n))
  {
    var r := requests[|n.replies|];
    assert Outbound(r, n);
    assert ParseMessageType(TypeByte(r.kind)) == Some(r.kind);
    assert n.toServer[|r.payload|..] == "" && n.toServer[..|r.payload|] == r.payload;
    ServerJudges(o, id, requests, n, r);
  }

  lemma {:induction false} ServerJudges(o: Options, id: Identity, requests: seq<Request>, n: Net, r: Request)
    requires RepliesAnswer(o, id, requests, n.replies) && |n.replies| < |requests| && r == requests[|n.replies|]
    requires n.client == Failed || (n.client == AwaitHeader && n.frames == |n.replies|)
    requires n.toClient == "" && |r.payload| <= MAX_PAYLOAD
    ensures Inv(o, id, requests, ServerAnswers(o, id, n.(toServer := ""), r))
  {
    var after := ServerAnswers(o, id, n.(toServer := ""), r);
    match Judge(o, id, r)
    case Unauthorized =>
      assert after.toClient == ErrorFrame(r.requestId, UNAUTHORIZED);
      assert ErrorUnderWay(r, after);
    case Unhandled =>
      assert after.toClient == ErrorFrame(r.requestId, RefusalCode(o));
      assert ErrorUnderWay(r, after);
    case Oversized =>
    case Answer(reply) =>
      assert after.toClient == AnswerFrame(o, id, r);
  }

  lemma {:induction false} ServerLeaves(o: Options, id: Identity, requests: seq<Request>, n: Net)
    requires Inv(o, id, requests, n)
    ensures Inv(o, id, requests, n.(server := Ended))
  {
    if |n.replies| < |requests| {
      var r := requests[|n.replies|];
      FrameCut(r.kind, r.requestId, r.payload);
    }
  }

  lemma {:induction false} StepKeepsInv(o: Options, id: Identity, requests: seq<Request>, n: Net, a: Action)
    requires Inv(o, id, requests, n)
    ensures Inv(o, id, requests, Step(o, id, requests, n, a))
  {
    match a
    case ClientStep =>
      match n.client {
        case Sending => ClientSends(o, id, requests, n);
        case AwaitHeader => ClientReadsHeader(o, id, requests, n);
        case AwaitPayload(_) => ClientReadsPayload(o, id, requests, n);
        case _ =>
      }
    case ClientGivesUp =>
    case ServerStep =>
      match n.server {
        case ReadingHeader => ServerReadsHeader(o, id, requests, n);
        case ReadingPayload(_) => ServerReadsPayload(o, id, requests, n);
        case Ended =>
      }
    case ServerGivesUp => ServerLeaves(o, id, requests, n);
  }

  lemma {:induction false} RunKeepsInv(o: Options, id: Identity, requests: seq<Request>, actions: seq<Action>)
    ensures Inv(o, id, requests, Run(o, id, requests, actions))
  {
    if actions != [] {
      RunKeepsInv(o, id, requests, actions[..|actions| - 1]);
      StepKeepsInv(o, id, requests, Run(o, id, requests, actions[..|actions| - 1]), actions[|actions| - 1]);
    }
  }

  /**
    In every run in which the client reports success: one reply per request, each reply is the
    handler's own for the request in the same place, and the server served exactly that many frames.
   */
  lemma {:induction false} SuccessMeansAnswered(o: Options, id: Identity, requests: seq<Request>, actions: seq<Action>)
    requires Run(o, id, requests, actions).client == Succeeded
    ensures var n := Run(o, id, requests, actions);
            && |n.replies| == |requests| == n.frames
            && (forall i | 0 <= i < |requests| :: Handle(o, requests[i]) == Some(n.replies[i]) && n.replies[i].kind != Error)
            && n.toServer == "" && n.toClient == ""
  {
    RunKeepsInv(o, id, requests, actions);
    NoErrorReplies(o, id, requests, actions);
    var n := Run(o, id, requests, actions);
    forall i | 0 <= i < |requests| ensures Handle(o, requests[i]) == Some(n.replies[i]) {
      assert IsAnsweredBy(o, id, requests[i], n.replies[i]);
    }
  }

  lemma {:induction false} NoErrorReplies(o: Options, id: Identity, requests: seq<Request>, actions: seq<Action>)
    ensures forall i: nat | 0 <= i < |Run(o, id, requests, actions).replies| :: Run(o, id, requests, actions).replies[i].kind != Error
  {
    if actions != [] {
      NoErrorReplies(o, id, requests, actions[..|actions| - 1]);
    }
  }

  /**
    Lockstep: in every reachable state the channels hold at most one frame, whole or without its header:
    the request of the exchange under way, or what the server sent for it. Only an oversized
    request, refused by its header, leaves its payload beside the error.
   */
  lemma {:induction false} OneFrameAtATime(o: Options, id: Identity, requests: seq<Request>, actions: seq<Action>)
    ensures var n := Run(o, id, requests, actions);
            var k := |n.replies|;
            || (n.toServer == "" && n.toClient == "")
            || (k < |requests| && n.toClient == "" && (n.toServer == RequestFrame(requests[k]) || n.toServer == requests[k].payload))
            || (k < |requests| && Inbound(o, id, requests[k], n.toClient)
                && (n.toServer == "" || (n.toServer == requests[k].payload && |requests[k].payload| > MAX_PAYLOAD)))
  {
    RunKeepsInv(o, id, requests, actions);
    ChannelsHoldOneFrame(o, id, requests, Run(o, id, requests, actions));
  }

  lemma {:induction false} ChannelsHoldOneFrame(o: Options, id: Identity, requests: seq<Request>, n: Net)
    requires Inv(o, id, requests, n)
    ensures var k := |n.replies|;
            || (n.toServer == "" && n.toClient == "")
            || (k < |requests| && n.toClient == "" && (n.toServer == RequestFrame(requests[k]) || n.toServer == requests[k].payload))
            || (k < |requests| && Inbound(o, id, requests[k], n.toClient)
                && (n.toServer == "" || (n.toServer == requests[k].payload && |requests[k].payload| > MAX_PAYLOAD)))
  {
    if n.client == AwaitHeader && ErrorUnderWay(requests[|n.replies|], n) {
      var i: u32, code: u8 :| n.toClient == ErrorFrame(i, code);
      assert IsError(n.toClient);
    }
  }

  // ---------- when the channels hold one frame ----------

  /** At most one direction carries bytes. */
  ghost predicate OneWay(n: Net) { n.toServer == "" || n.toClient == "" }

  ghost predicate WellAnswered(o: Options, id: Identity, r: Request) { IsAnswered(o, id, r) && Judge(o, id, r).reply.kind != Error }

  /** The exchange may come to request `k`: all requests before it are answered, none with an error. */
  ghost predicate Reached(o: Options, id: Identity, requests: seq<Request>, k: nat) {
    k < |requests| && forall i | 0 <= i < k :: WellAnswered(o, id, requests[i])
  }

  lemma {:induction false} RunSnoc(o: Options, id: Identity, requests: seq<Request>, actions: seq<Action>, a: Action)
    ensures Run(o, id, requests, actions + [a]) == Step(o, id, requests, Run(o, id, requests, actions), a)
  {
    assert (actions + [a])[..|actions|] == actions;
  }

  /** Between two exchanges, with `k` of them done. */
  ghost predicate Between(n: Net, k: nat) {
    n.client == Sending && n.server == ReadingHeader && |n.replies| == k && n.toServer == "" && n.toClient == ""
  }

  lemma {:induction false} RequestIsSent(requests: seq<Request>, n: Net, k: nat)
    requires Between(n, k) && k < |requests|
    ensures ClientNext(requests, n) == n.(client := AwaitHeader, toServer := RequestFrame(requests[k]))
  {
    assert n.toServer + RequestFrame(requests[k]) == RequestFrame(requests[k]);
  }

  /** The server takes header and payload of a request and writes its answer. */
  lemma {:induction false} RequestIsAnswered(o: Options, id: Identity, n: Net, r: Request)
    requires n.client == AwaitHeader && n.server == ReadingHeader && n.toServer == RequestFrame(r) && n.toClient == "" && WellAnswered(o, id, r)
    ensures Answered(o, id, r, n, ServerNext(o, id, ServerNext(o, id, n)))
  {
    ServerTakesHeader(o, id, n, r);
    FrameCut(r.kind, r.requestId, r.payload);
    var n2 := ServerNext(o, id, n);
    var h := MakeHeader(r.kind, |r.payload|, r.requestId);
    assert n2.server == ReadingPayload(h) && n2.toServer == r.payload + "";
    ServerTakesFrameBody(o, id, n2, h, r.kind, r.payload, "");
  }

  /** The answer to the request is on its way to the waiting client, and nothing else is. */
  ghost predicate Answered(o: Options, id: Identity, r: Request, n: Net, u: Net) {
    && IsAnswered(o, id, r) && u.client == AwaitHeader && u.server == ReadingHeader && u.replies == n.replies
    && u.toServer == "" && u.toClient == AnswerFrame(o, id, r)
  }

  /** The client takes an answer that is no error, in one step or in two. */
  lemma {:induction false} AnswerIsTaken(o: Options, id: Identity, requests: seq<Request>, n: Net, k: nat)
    requires k < |requests| && WellAnswered(o, id, requests[k]) && n.client == AwaitHeader && n.server == ReadingHeader
    requires |n.replies| == k && n.toServer == "" && n.toClient == AnswerFrame(o, id, requests[k])
    ensures Between(ClientNext(requests, n), k + 1) || Between(ClientNext(requests, ClientNext(requests, n)), k + 1)
  {
    var r := requests[k];
    var reply := Judge(o, id, r).reply;
    AnswerHeader(o, id, r);
    assert ParseMessageType(TypeByte(reply.kind)) == Some(reply.kind);
    if |reply.payload| > 0 {
      var n1 := ClientNext(requests, n);
      assert n1.client == AwaitPayload(AnswerHead(o, id, r)) && n1.toClient == reply.payload;
      assert n1.toClient[|reply.payload|..] == "";
    }
  }

  lemma {:induction false} RunIsAnswered(o: Options, id: Identity, requests: seq<Request>, before: seq<Action>, k: nat) returns (actions: seq<Action>)
    requires Between(Run(o, id, requests, before), k) && k < |requests| && WellAnswered(o, id, requests[k])
    ensures Answered(o, id, requests[k], Run(o, id, requests, before), Run(o, id, requests, actions))
  {
    var n := Run(o, id, requests, before);
    RequestIsSent(requests, n, k);
    RequestIsAnswered(o, id, ClientNext(requests, n), requests[k]);
    RunSnoc(o, id, requests, before, ClientStep);
    RunSnoc(o, id, requests, before + [ClientStep], ServerStep);
    RunSnoc(o, id, requests, before + [ClientStep] + [ServerStep], ServerStep);
    actions := before + [ClientStep] + [ServerStep] + [ServerStep];
  }

  lemma {:induction false} RunTakesAnswer(o: Options, id: Identity, requests: seq<Request>, before: seq<Action>, k: nat) returns (actions: seq<Action>)
    requires k < |requests| && WellAnswered(o, id, requests[k]) && |Run(o, id, requests, before).replies| == k
    requires Answered(o, id, requests[k], Run(o, id, requests, before), Run(o, id, requests, before))
    ensures Between(Run(o, id, requests, actions), k + 1)
  {
    AnswerIsTaken(o, id, requests, Run(o, id, requests, before), k);
    RunSnoc(o, id, requests, before, ClientStep);
    RunSnoc(o, id, requests, before + [ClientStep], ClientStep);
    actions := before + [ClientStep];
    if !Between(Run(o, id, requests, actions), k + 1) { actions := actions + [ClientStep]; }
  }

  lemma {:induction false} RunReaches(o: Options, id: Identity, requests: seq<Request>, k: nat) returns (actions: seq<Action>)
    requires k <= |requests| && forall i | 0 <= i < k :: WellAnswered(o, id, requests[i])
    ensures Between(Run(o, id, requests, actions), k)
    decreases k
  {
    if k == 0 {
      actions := [];
    } else {
      actions := RunReaches(o, id, requests, k - 1);
      actions := RunIsAnswered(o, id, requests, actions, k - 1);
      actions := RunTakesAnswer(o, id, requests, actions, k - 1);
    }
  }

  /** An oversized request that is reached: its payload stays unread beside the error the server sends. */
  lemma {:induction false} OversizedFillsBothWays(o: Options, id: Identity, requests: seq<Request>, k: nat) returns (actions: seq<Action>)
    requires Reached(o, id, requests, k) && |requests[k].payload| > MAX_PAYLOAD
    ensures !OneWay(Run(o, id, requests, actions))
  {
    var before := RunReaches(o, id, requests, k);
    var n, r := Run(o, id, requests, before), requests[k];
    RequestIsSent(requests, n, k);
    var n1 := ClientNext(requests, n);
    FrameCut(r.kind, r.requestId, r.payload);
    var n2 := ServerNext(o, id, n1);
    assert n2.toServer == r.payload && n2.toClient == ErrorFrame(0, INVALID_HEADER);
    ErrorFrameHeader(0, INVALID_HEADER);
    RunSnoc(o, id, requests, before, ClientStep);
    RunSnoc(o, id, requests, before + [ClientStep], ServerStep);
    actions := before + [ClientStep] + [ServerStep];
  }

  /** Both channels filled: the request under way was reached and is oversized. */
  lemma {:induction false} BothWaysMeansOversized(o: Options, id: Identity, requests: seq<Request>, actions: seq<Action>)
    requires !OneWay(Run(o, id, requests, actions))
    ensures var k := |Run(o, id, requests, actions).replies|; Reached(o, id, requests, k) && |requests[k].payload| > MAX_PAYLOAD
  {
    var n := Run(o, id, requests, actions);
    RunKeepsInv(o, id, requests, actions);
    ChannelsHoldOneFrame(o, id, requests, n);
    NoErrorReplies(o, id, requests, actions);
    forall i | 0 <= i < |n.replies| ensures WellAnswered(o, id, requests[i]) {
      assert IsAnsweredBy(o, id, requests[i], n.replies[i]) && n.replies[i].kind != Error;
    }
  }

  /** Every run keeps the channels one-way if and only if no request that can be reached is oversized. */
  lemma {:induction false} OneWayIffNothingOversized(o: Options, id: Identity, requests: seq<Request>)
    ensures (forall actions :: OneWay(Run(o, id, requests, actions)))
       <==> forall k: nat | Reached(o, id, requests, k) :: |requests[k].payload| <= MAX_PAYLOAD
  {
    if k: nat :| Reached(o, id, requests, k) && |requests[k].payload| > MAX_PAYLOAD {
      var actions := OversizedFillsBothWays(o, id, requests, k);
      assert !OneWay(Run(o, id, requests, actions));
    } else {
      forall actions ensures OneWay(Run(o, id, requests, actions)) {
        if !OneWay(Run(o, id, requests, actions)) { BothWaysMeansOversized(o, id, requests, actions); }
      }
    }
  }

  // ---------- the server of the lockstep is the serve loop ----------

  /** How much of a stream the frame at its front takes, if its header is accepted. */
  function BodyLength(s: string): nat
    requires |s| >= HEADER_SIZE
  {
    match ParseHeader(s[..HEADER_SIZE]) case None => 0 case Some(h) => h.payloadLength
  }

  predicate FrameIsThere(s: string) { |s| >= HEADER_SIZE && |s| >= HEADER_SIZE + BodyLength(s) }

  /** The turn of the serve loop that reads the frame at the front of a stream. */
  function StreamTurn(id: Identity, s: string): Turn
    requires FrameIsThere(s)
  {
    Turn(1, ReadOk(s[..HEADER_SIZE]), ReadOk(s[HEADER_SIZE..HEADER_SIZE + BodyLength(s)]), id, true)
  }

  lemma {:induction false} ServerTakesFrameHead(o: Options, id: Identity, n: Net)
    requires n.server == ReadingHeader && FrameIsThere(n.toServer)
    ensures match ParseHeader(n.toServer[..HEADER_SIZE])
            case None => ServerNext(o, id, n).server == Ended && ServerNext(o, id, n).frames == n.frames
            case Some(h) => ServerNext(o, id, n) == n.(toServer := n.toServer[HEADER_SIZE..], server := ReadingPayload(h))
  {
  }

  lemma {:induction false} ServerTakesFrameBody(o: Options, id: Identity, n: Net, h: Header, kind: MessageType, body: Payload, more: string)
    requires n.server == ReadingPayload(h) && n.toServer == body + more && |body| == h.payloadLength && ParseMessageType(h.kind) == Some(kind)
    ensures ServerNext(o, id, n) == ServerAnswers(o, id, n.(toServer := more), Request(kind, h.requestId, body))
  {
    assert n.toServer[..h.payloadLength] == body && n.toServer[h.payloadLength..] == more;
  }

  lemma {:induction false} ServerAnswersAsJudged(o: Options, id: Identity, n: Net, r: Request, turn: Turn)
    requires turn.identity == id && turn.writeOk
    ensures match RequestReply(o, r, turn)
            case None => ServerAnswers(o, id, n, r).server == Ended && ServerAnswers(o, id, n, r).frames == n.frames
            case Some(reply) =>
              var sent := n.toClient + Frame(reply.kind, r.requestId, reply.payload);
              ServerAnswers(o, id, n, r) == n.(server := ReadingHeader, frames := n.frames + 1, toClient := sent)
  {
  }

  lemma {:induction false} StreamCut(s: string, k: nat)
    requires |s| >= HEADER_SIZE + k
    ensures s[HEADER_SIZE..] == s[HEADER_SIZE..HEADER_SIZE + k] + s[HEADER_SIZE + k..]
  {
  }

  /**
    Whatever bytes arrive: the two steps in which the server takes the frame at the front of its stream
    write the reply that the serve loop writes for it, or end the server where the loop fails.
   */
  lemma {:induction false} ServerIsTheServeLoop(o: Options, id: Identity, n: Net)
    requires n.server == ReadingHeader && FrameIsThere(n.toServer)
    ensures var u := ServerNext(o, id, ServerNext(o, id, n));
            var s := n.toServer;
            match FrameReply(o, s[..HEADER_SIZE], StreamTurn(id, s))
            case None => u.server == Ended && u.frames == n.frames
            case Some(reply) =>
              && u.server == ReadingHeader && u.frames == n.frames + 1 && u.toServer == s[HEADER_SIZE + BodyLength(s)..]
              && ParseHeader(s[..HEADER_SIZE]).Some?
              && u.toClient == n.toClient + Frame(reply.kind, ParseHeader(s[..HEADER_SIZE]).value.requestId, reply.payload)
  {
    var s := n.toServer;
    ServerTakesFrameHead(o, id, n);
    if ParseHeader(s[..HEADER_SIZE]).Some? {
      var h := ParseHeader(s[..HEADER_SIZE]).value;
      AcceptedKindIsKnown(s[..HEADER_SIZE]);
      var body, more := s[HEADER_SIZE..HEADER_SIZE + h.payloadLength], s[HEADER_SIZE + h.payloadLength..];
      StreamCut(s, h.payloadLength);
      var m := ServerNext(o, id, n);
      var kind := ParseMessageType(h.kind).value;
      ServerTakesFrameBody(o, id, m, h, kind, body, more);
      ServerAnswersAsJudged(o, id, m.(toServer := more), Request(kind, h.requestId, body), StreamTurn(id, s));
    }
  }

  /** The bytes that an event puts on the wire. */
  function Sent(e: Event): string {
    match e
    case Replied(requestId, reply) => Frame(reply.kind, requestId, reply.payload)
    case ErrorSent(requestId, code) => Frame(Error, requestId, [ByteChar(code)])
    case _ => ""
  }

  /** All bytes that some events put on the wire. */
  function Wire(events: seq<Event>): string { Flatten(Writes(events)) }

  function Writes(events: seq<Event>): (ws: seq<string>)
    ensures |ws| == |events| && forall i | 0 <= i < |ws| :: ws[i] == Sent(events[i])
  {
    seq(|events|, i requires 0 <= i < |events| => Sent(events[i]))
  }

  function Flatten(ws: seq<string>): string { if ws == [] then "" else ws[0] + Flatten(ws[1..]) }

  lemma {:induction false} FlattenFew(ws: seq<string>)
    requires 2 <= |ws| <= 3 && ws[0] == ""
    ensures |ws| == 2 ==> Flatten(ws) == ws[1]
    ensures |ws| == 3 && ws[1] == "" ==> Flatten(ws) == ws[2]
  {
    var rest := ws[1..];
    assert rest[0] == ws[1] && Flatten(ws) == ws[0] + Flatten(rest) == Flatten(rest);
    assert Flatten(rest) == rest[0] + Flatten(rest[1..]);
    if |ws| == 2 {
      assert rest[1..] == [] && ws[1] + "" == ws[1];
    } else {
      var last := rest[1..];
      assert last[0] == ws[2] && last[1..] == [] && Flatten(last) == ws[2] + "" == ws[2];
    }
  }

  /** What is written about a request: at most one frame. */
  function WrittenFor(o: Options, r: Request, turn: Turn): string {
    if !GatePasses(o, turn.identity) || !SidPasses(o, turn.identity) then Sent(ErrorSent(r.requestId, UNAUTHORIZED))
    else
      match Handle(o, r)
      case None => Sent(ErrorSent(r.requestId, RefusalCode(o)))
      case Some(reply) =>
        if ValidHeader(MakeHeader(reply.kind, |reply.payload|, r.requestId)) && turn.writeOk then Sent(Replied(r.requestId, reply)) else ""
  }

  lemma {:induction false} WireOfRequest(o: Options, r: Request, turn: Turn, bytes: string)
    ensures Wire([HeaderRead(bytes)] + RequestDeeds(o, r, turn)) == WrittenFor(o, r, turn)
  {
    FlattenFew(Writes([HeaderRead(bytes)] + RequestDeeds(o, r, turn)));
  }

  lemma {:induction false} ServerSendsForRequest(o: Options, id: Identity, n: Net, r: Request, turn: Turn)
    requires turn.identity == id && turn.writeOk
    ensures ServerAnswers(o, id, n, r).toClient == n.toClient + WrittenFor(o, r, turn)
  {
    assert n.toClient + "" == n.toClient;
  }

  lemma {:induction false} BadHeaderIsAnswered(o: Options, id: Identity, n: Net)
    requires n.server == ReadingHeader && |n.toServer| >= HEADER_SIZE && ParseHeader(n.toServer[..HEADER_SIZE]).None?
    ensures ServerNext(o, id, n).server == Ended && ServerNext(o, id, n).toClient == n.toClient + Sent(ErrorSent(0, INVALID_HEADER))
  {
  }

  lemma {:induction false} DeedsOfRefused(o: Options, bytes: string, turn: Turn)
    requires ParseHeader(bytes).None?
    ensures Wire(FrameDeeds(o, bytes, turn)) == Sent(ErrorSent(0, INVALID_HEADER))
  {
    var deeds := [HeaderRead(bytes)] + [ErrorSent(0, INVALID_HEADER)];
    assert FrameDeeds(o, bytes, turn) == deeds;
    FlattenFew(Writes(deeds));
  }

  lemma {:induction false} EndedStays(o: Options, id: Identity, n: Net)
    requires n.server == Ended
    ensures ServerNext(o, id, n) == n
  {
  }

  lemma {:induction false} DeedsOfAccepted(o: Options, bytes: string, turn: Turn, h: Header, body: Payload)
    requires ParseHeader(bytes) == Some(h) && turn.payload == ReadOk(body) && |body| == h.payloadLength
    ensures FrameDeeds(o, bytes, turn) == [HeaderRead(bytes)] + RequestDeeds(o, Request(ParseMessageType(h.kind).value, h.requestId, body), turn)
  {
    assert h.payloadLength == 0 ==> body == "";
  }

  /** For any bytes: what the server sends for the frame at the front of its stream, errors included, are the writes of the serve loop. */
  lemma {:induction false} ServerSendsTheDeeds(o: Options, id: Identity, n: Net)
    requires n.server == ReadingHeader && FrameIsThere(n.toServer)
    ensures ServerNext(o, id, ServerNext(o, id, n)).toClient
         == n.toClient + Wire(FrameDeeds(o, n.toServer[..HEADER_SIZE], StreamTurn(id, n.toServer)))
  {
    var s := n.toServer;
    var bytes := s[..HEADER_SIZE];
    ServerTakesFrameHead(o, id, n);
    if ParseHeader(bytes).None? {
      BadHeaderIsAnswered(o, id, n);
      EndedStays(o, id, ServerNext(o, id, n));
      DeedsOfRefused(o, bytes, StreamTurn(id, s));
    } else {
      var h := ParseHeader(bytes).value;
      AcceptedKindIsKnown(bytes);
      var body, more := s[HEADER_SIZE..HEADER_SIZE + h.payloadLength], s[HEADER_SIZE + h.payloadLength..];
      StreamCut(s, h.payloadLength);
      var m := ServerNext(o, id, n);
      var r := Request(ParseMessageType(h.kind).value, h.requestId, body);
      ServerTakesFrameBody(o, id, m, h, r.kind, body, more);
      DeedsOfAccepted(o, bytes, StreamTurn(id, s), h, body);
      WireOfRequest(o, r, StreamTurn(id, s), bytes);
      ServerSendsForRequest(o, id, m.(toServer := more), r, StreamTurn(id, s));
    }
  }

  lemma {:induction false} AcceptedKindIsKnown(bytes: string)
    requires ParseHeader(bytes).Some?
    ensures ParseMessageType(ParseHeader(bytes).value.kind).Some?
  {
  }

  function TurnFor(id: Identity, r: Request): Turn {
    Turn(1, ReadOk(RequestFrame(r)[..HEADER_SIZE]), ReadOk(r.payload), id, true)
  }

  /** The turns in which the serve loop reads these requests. */
  function Turns(id: Identity, requests: seq<Request>): (turns: seq<Turn>)
    ensures |turns| == |requests| && forall i | 0 <= i < |requests| :: turns[i] == TurnFor(id, requests[i])
  {
    seq(|requests|, i requires 0 <= i < |requests| => TurnFor(id, requests[i]))
  }

  lemma {:induction false} AnsweredTurn(o: Options, id: Identity, r: Request, reply: Reply, idle: int, io: int, frames: nat)
    requires IsAnsweredBy(o, id, r, reply)
    ensures TurnEnd(o, idle, io, 0, TurnFor(id, r), frames) == None && TurnReplies(o, idle, io, 0, TurnFor(id, r), frames) == [reply]
  {
    FrameCut(r.kind, r.requestId, r.payload);
    assert ParseMessageType(TypeByte(r.kind)) == Some(r.kind);
    assert FrameReply(o, RequestFrame(r)[..HEADER_SIZE], TurnFor(id, r)) == Some(reply);
  }

  lemma {:induction false} ScriptNext(o: Options, idle: int, io: int, turns: seq<Turn>, k: nat, done: seq<Reply>, reply: Reply)
    requires k < |turns| && TurnEnd(o, idle, io, 0, turns[k], |done|) == None && TurnReplies(o, idle, io, 0, turns[k], |done|) == [reply]
    ensures Script(o, idle, io, 0, turns, k, done) == Script(o, idle, io, 0, turns, k + 1, done + [reply])
  {
  }

  lemma {:induction false} ScriptOver(o: Options, idle: int, io: int, turns: seq<Turn>, done: seq<Reply>)
    requires done != []
    ensures Script(o, idle, io, 0, turns, |turns|, done) == (done, Served(|done|, EndClientClosed))
  {
    assert done + [] == done;
  }

  lemma {:induction false} ScriptTakesAnswer(o: Options, id: Identity, r: Request, reply: Reply, turns: seq<Turn>, done: seq<Reply>, idle: int, io: int)
    requires |done| < |turns| && turns[|done|] == TurnFor(id, r) && IsAnsweredBy(o, id, r, reply)
    ensures Script(o, idle, io, 0, turns, |done|, done) == Script(o, idle, io, 0, turns, |done| + 1, done + [reply])
  {
    AnsweredTurn(o, id, r, reply, idle, io, |done|);
    ScriptNext(o, idle, io, turns, |done|, done, reply);
  }

  lemma {:induction false} ScriptTakesNext(o: Options, id: Identity, requests: seq<Request>, replies: seq<Reply>, turns: seq<Turn>, idle: int, io: int, k: nat)
    requires k < |replies| <= |requests| == |turns| && turns[k] == TurnFor(id, requests[k]) && IsAnsweredBy(o, id, requests[k], replies[k])
    ensures Script(o, idle, io, 0, turns, k, replies[..k]) == Script(o, idle, io, 0, turns, k + 1, replies[..k + 1])
  {
    ScriptTakesAnswer(o, id, requests[k], replies[k], turns, replies[..k], idle, io);
    assert replies[..k] + [replies[k]] == replies[..k + 1];
  }

  lemma {:induction false} ScriptTakesAnswers(o: Options, id: Identity, requests: seq<Request>, replies: seq<Reply>, turns: seq<Turn>, idle: int, io: int, k: nat)
    requires RepliesAnswer(o, id, requests, replies) && k <= |replies| && turns == Turns(id, requests)
    ensures Script(o, idle, io, 0, turns, 0, replies[..0]) == Script(o, idle, io, 0, turns, k, replies[..k])
    decreases k
  {
    if k > 0 {
      ScriptTakesAnswers(o, id, requests, replies, turns, idle, io, k - 1);
      AnsweredAt(o, id, requests, replies, k - 1);
      ScriptTakesNext(o, id, requests, replies, turns, idle, io, k - 1);
    }
  }

  lemma {:induction false} AnsweredAt(o: Options, id: Identity, requests: seq<Request>, replies: seq<Reply>, k: nat)
    requires RepliesAnswer(o, id, requests, replies) && k < |replies|
    ensures k < |requests| && IsAnsweredBy(o, id, requests[k], replies[k])
  {
  }

  /** The script of the serve loop begins with the answers of the lockstep; if these are all, they are all it writes. */
  lemma {:induction false} ScriptFollowsAnswers(o: Options, id: Identity, requests: seq<Request>, replies: seq<Reply>, idle: int, io: int)
    requires RepliesAnswer(o, id, requests, replies)
    ensures var (written, end) := Script(o, idle, io, 0, Turns(id, requests), 0, []);
            && replies <= written
            && (|replies| == |requests| > 0 ==> written == replies && end == Served(|requests|, EndClientClosed))
  {
    var turns := Turns(id, requests);
    ScriptTakesAnswers(o, id, requests, replies, turns, idle, io, |replies|);
    assert replies[..0] == [] && replies[..|replies|] == replies;
    ScriptExtends(o, idle, io, turns, |replies|, replies);
    if |replies| == |requests| > 0 { ScriptOver(o, idle, io, turns, replies); }
  }

  lemma {:induction false} ScriptExtends(o: Options, idle: int, io: int, turns: seq<Turn>, k: nat, done: seq<Reply>)
    requires k <= |turns|
    ensures done <= Script(o, idle, io, 0, turns, k, done).0
    decreases |turns| - k
  {
    var turn := if k < |turns| then turns[k] else PEER_GONE;
    var replies := done + TurnReplies(o, idle, io, 0, turn, |done|);
    if TurnEnd(o, idle, io, 0, turn, |done|).None? && k < |turns| { ScriptExtends(o, idle, io, turns, k + 1, replies); }
  }

  /**
    In every reachable state the client's replies are the first that the serve loop writes for these
    requests, and a client that succeeds has them all.
   */
  lemma {:induction false} ClientGetsTheScript(o: Options, id: Identity, requests: seq<Request>, actions: seq<Action>, idle: int, io: int)
    ensures var n := Run(o, id, requests, actions);
            var (written, end) := Script(o, idle, io, 0, Turns(id, requests), 0, []);
            && n.replies <= written
            && (n.client == Succeeded && requests != [] ==> written == n.replies && end == Served(|requests|, EndClientClosed))
  {
    RunKeepsInv(o, id, requests, actions);
    var n := Run(o, id, requests, actions);
    ScriptFollowsAnswers(o, id, requests, n.replies, idle, io);
  }
}
