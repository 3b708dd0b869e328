/**
 * The outcome classes of `amqpsend` and its two error helpers. The
 * rabbitmq-c library calls are replaced by a `Session`: the results those
 * calls return during one attempt.
 */
module Amqp {
  import opened CStrings

  /** `amqp_rpc_reply_t`, reduced to its reply type and the fields the helper reads. */
  datatype RpcReply =
    | ResponseNone
    | ResponseNormal
    | LibraryException(libraryError: int)
    | ServerException(methodId: int)

  const ConnectionCloseMethod: int := 0x000A0032
  const ChannelCloseMethod: int := 0x00140028

  /** The diagnostic printed on stderr before the process exits. */
  datatype Diagnostic =
    | ErrorString(code: int)
    | MissingReplyType
    | LibraryError(code: int)
    | ServerConnectionError
    | ServerChannelError
    | UnknownServerError(methodId: int)

  /** Whether a helper lets `amqpsend` go on or ends the process. */
  datatype Check = Proceed | Exit(status: int, why: Diagnostic)

  /** `die_on_error`: a negative library status ends the process with status 1. */
  function DieOnError(x: int): (c: Check)
    ensures c.Proceed? <==> x >= 0
    ensures c.Exit? ==> c == Exit(1, ErrorString(x))
  {
    if x < 0 then Exit(1, ErrorString(x)) else Proceed
  }

  /** `die_on_amqp_error`: every reply but a normal one ends the process with status 1. */
  function DieOnAmqpError(reply: RpcReply): (c: Check)
    ensures c.Proceed? <==> reply.ResponseNormal?
    ensures c.Exit? ==> c.status == 1
    ensures c.Exit? && reply.ServerException? ==>
      (c.why == ServerConnectionError <==> reply.methodId == ConnectionCloseMethod) &&
      (c.why == ServerChannelError <==> reply.methodId == ChannelCloseMethod)
  {
    match reply
    case ResponseNormal => Proceed
    case ResponseNone => Exit(1, MissingReplyType)
    case LibraryException(e) => Exit(1, LibraryError(e))
    case ServerException(id) =>
      if id == ConnectionCloseMethod then Exit(1, ServerConnectionError)
      else if id == ChannelCloseMethod then Exit(1, ServerChannelError)
      else Exit(1, UnknownServerError(id))
  }

  /** What the library returns to each step of one `amqpsend` attempt. */
  datatype Session = Session(
    socketCreated: bool,   // amqp_tcp_socket_new gave a socket
    openStatus: int,       // amqp_socket_open
    login: RpcReply,       // amqp_login
    channelOpen: RpcReply, // amqp_get_rpc_reply after amqp_channel_open
    publishStatus: int,    // amqp_basic_publish
    destroyStatus: int)    // amqp_destroy_connection

  /** The result of `amqpsend` as the caller sees it: a return code, or the end of the process. */
  datatype SendResult = Returned(code: int) | Terminated(status: int, why: Diagnostic)

  predicate Connected(s: Session)
  {
    s.socketCreated && s.openStatus == 0
  }

  function AmqpSend(s: Session): (r: SendResult)
    ensures r.Returned? ==> r.code == 0 || r.code == 1
    ensures r == Returned(1) <==> !Connected(s)
    ensures r == Returned(0) <==>
      Connected(s) && s.login.ResponseNormal? && s.channelOpen.ResponseNormal? &&
      s.publishStatus >= 0 && s.destroyStatus >= 0
    ensures r.Terminated? ==> r.status == 1
  {
    if !s.socketCreated then Returned(1)
    else if s.openStatus != 0 then Returned(1)
    else match DieOnAmqpError(s.login)
      case Exit(st, why) => Terminated(st, why)
      case Proceed => match DieOnAmqpError(s.channelOpen)
        case Exit(st, why) => Terminated(st, why)
        case Proceed => match DieOnError(s.publishStatus)
          case Exit(st, why) => Terminated(st, why)
          case Proceed => match DieOnError(s.destroyStatus)
            case Exit(st, why) => Terminated(st, why)
            case Proceed => Returned(0)
  }

  const Channel: int := 1
  const ContentType: string := "text/plain"
  /** AMQP_PERSISTENT */
  const DeliveryMode: int := 2

  /** The basic.publish that a successful attempt sends. */
  datatype Publication = Publication(
    channel: int, exchange: string, routingKey: string, mandatory: bool, immediate: bool,
    contentType: string, deliveryMode: int, body: string)

  /** `amqp_basic_publish` of `msg` to the configured exchange and routing key. */
  function PublicationOf(exchange: string, routingKey: string, msg: string): (p: Publication)
    ensures p.body == CString(msg) && p.exchange == CString(exchange) && p.routingKey == CString(routingKey)
    ensures p.deliveryMode == DeliveryMode && !p.mandatory && !p.immediate
    ensures p.contentType == "text/plain" && p.channel == 1
  {
    Publication(Channel, CString(exchange), CString(routingKey), false, false,
                ContentType, DeliveryMode, CString(msg))
  }
}
