/**
 * The vocabulary that the producer and the AMQP sender adapter exchange: the error types of
 * `azure_core` and `azure_core_amqp`, the AMQP 1.0 error conditions, delivery outcomes as the
 * SDK reports them, messages, and the opaque handles (connection, session, link) that the
 * protocol engine hands out. Only the parts the two core files inspect are spelled out.
 */
module SdkTypes {
  import opened Wrappers

  type u16 = x: int | 0 <= x < 0x1_0000
  type u32 = x: int | 0 <= x < 0x1_0000_0000
  type u64 = x: int | 0 <= x < 0x1_0000_0000_0000_0000

  const U32_MAX: u32 := 0xFFFF_FFFF

  // ---------------------------------------------------------------------------------------
  // AMQP described errors

  /**
   * The error conditions of the OASIS AMQP 1.0 standard (Transport, sections 2.8.15 to 2.8.18:
   * general, connection, session and link conditions). `Custom` carries any other condition
   * symbol, such as the service-specific ones.
   */
  datatype AmqpErrorCondition =
    | InternalError | NotFound | UnauthorizedAccess | DecodeError | ResourceLimitExceeded
    | NotAllowed | InvalidField | NotImplemented | ResourceLocked | PreconditionFailed
    | ResourceDeleted | IllegalState | FrameSizeTooSmall
    | ConnectionForced | ConnectionFramingError | ConnectionRedirect
    | WindowViolation | ErrantLink | HandleInUse | UnattachedHandle
    | DetachForced | TransferLimitExceeded | MessageSizeExceeded | LinkRedirect | LinkStolen
    | Custom(symbol: string)

  /** A described error: a condition, an optional human-readable description and an info map. */
  datatype DescribedError = DescribedError(
    condition: AmqpErrorCondition,
    description: Option<string>,
    info: seq<(string, string)>)

  // ---------------------------------------------------------------------------------------
  // Engine failures that AMQP errors box

  /** The attach failures the protocol engine reports (`fe2o3_amqp::link::SenderAttachError`). */
  datatype SenderAttachError =
    | RemoteClosedWithError(remoteError: DescribedError)
    | IllegalSessionState
    | IllegalState
    | CoordinatorIsNotImplemented
    | DuplicatedLinkName
    | NonAttachFrameReceived
    | ExpectImmediateDetach
    | IncomingTargetIsNone
    | SndSettleModeNotSupported
    | RcvSettleModeNotSupported
    | TargetAddressIsNoneWhenDynamicIsTrue
    | SourceAddressIsSomeWhenDynamicIsTrue
    | DynamicNodePropertiesIsSomeWhenDynamicIsFalse

  /** The engine error that an implementation-error or connection-dropped AMQP error boxes. */
  datatype EngineFailure =
    | MessageEncodeFailure
    | AttachFailure(attachError: SenderAttachError)

  // ---------------------------------------------------------------------------------------
  // AMQP errors (azure_core_amqp::AmqpError)

  /**
   * The kinds of `AmqpError` that the core files build or inspect. `OtherAmqpError` stands for
   * the remaining kinds of the enum, which neither core file distinguishes.
   */
  datatype AmqpErrorKind =
    | ManagementStatusCode(code: u16, statusDescription: Option<string>)
    | AmqpDescribedError(described: DescribedError)
    | ClosedByRemote(detail: string)
    | NonTerminalDeliveryState
    | IllegalDeliveryState
    | TransportImplementationError(cause: EngineFailure)
    | ConnectionDropped(cause: EngineFailure)
    | OtherAmqpError(name: string)

  datatype AmqpError = AmqpError(kind: AmqpErrorKind)

  // ---------------------------------------------------------------------------------------
  // Event Hubs errors

  /**
   * The Event Hubs error kind the send path can produce. The kinds for a missing sender or
   * management client belong to branches the producer never takes.
   */
  datatype EventHubsErrorKind = SendRejected(rejection: Option<DescribedError>)

  // ---------------------------------------------------------------------------------------
  // azure_core::Error

  /** The kinds of `azure_core::error::ErrorKind` that matter here. */
  datatype ErrorKind = Amqp | Other | Io | DataConversion | Credential | HttpResponse(status: u16)

  /** What `source()` of an `azure_core::Error` can be downcast to. */
  datatype ErrorPayload =
    | AmqpPayload(amqp: AmqpError)         // the source is an `AmqpError`
    | BoxedAmqpPayload(amqp: AmqpError)    // the source is a `Box<AmqpError>`
    | EventHubsPayload(eventHubs: EventHubsErrorKind)
    | ForeignPayload(description: string)  // any other error type

  /**
   * An `azure_core::Error`: a kind, and either a plain message (built by `Error::message`,
   * which has no source) or a source error (built by `Error::new`).
   */
  datatype CoreError = CoreError(kind: ErrorKind, message: Option<string>, source: Option<ErrorPayload>)

  /** `azure_core::Error::message(kind, text)`: an error without a source. */
  function MessageError(kind: ErrorKind, text: string): (e: CoreError)
    ensures e.kind == kind && e.source.None?
  {
    CoreError(kind, Some(text), None)
  }

  /** `azure_core::Error::new(kind, payload)`: an error whose source is `payload`. */
  function SourcedError(kind: ErrorKind, payload: ErrorPayload): (e: CoreError)
    ensures e.kind == kind && e.source == Some(payload)
  {
    CoreError(kind, None, Some(payload))
  }

  /** `azure_core::Error::from(AmqpError)`: an `Amqp`-kind error whose source is the AMQP error. */
  function FromAmqpError(a: AmqpError): (e: CoreError)
    ensures e.kind == Amqp && e.source == Some(AmqpPayload(a))
  {
    SourcedError(Amqp, AmqpPayload(a))
  }

  // ---------------------------------------------------------------------------------------
  // Messages

  type Uuid = x: int | 0 <= x < 0x1_0000_0000_0000_0000_0000_0000_0000_0000

  /** The four AMQP message-id types. */
  datatype MessageId = UlongId(n: u64) | UuidId(uuid: Uuid) | BinaryId(bytes: seq<bv8>) | StringId(s: string)

  /** The AMQP properties section, with the fields beside the message id kept together. */
  datatype MessageProperties = MessageProperties(
    messageId: Option<MessageId>,
    correlationId: Option<MessageId>,
    subject: Option<string>,
    contentType: Option<string>)

  const DefaultProperties := MessageProperties(None, None, None, None)

  datatype AmqpMessage = AmqpMessage(
    properties: Option<MessageProperties>,
    applicationProperties: seq<(string, string)>,
    body: seq<bv8>)

  /**
   * `AmqpMessage::set_message_id`: the properties section is created when absent and its
   * message id is replaced; the rest of the message is kept.
   */
  function SetMessageId(m: AmqpMessage, id: MessageId): (r: AmqpMessage)
    ensures r.properties.Some? && r.properties.value.messageId == Some(id)
    ensures r.applicationProperties == m.applicationProperties && r.body == m.body
    ensures m.properties.Some? ==> r.properties.value.(messageId := None) == m.properties.value.(messageId := None)
  {
    var p := m.properties.GetOr(DefaultProperties);
    m.(properties := Some(p.(messageId := Some(id))))
  }

  function HasMessageId(m: AmqpMessage): bool
  {
    m.properties.Some? && m.properties.value.messageId.Some?
  }

  // ---------------------------------------------------------------------------------------
  // Sending

  /** An ordered map of message annotations (symbol to value). */
  type Annotations = seq<(string, string)>

  /** `SendModification`, the payload of a `Modified` outcome. */
  datatype SendModification = SendModification(
    deliveryFailed: Option<bool>,
    undeliverableHere: Option<bool>,
    messageAnnotations: Option<Annotations>)

  /**
   * `AmqpSendOutcome`: the terminal delivery outcomes of the OASIS AMQP 1.0 standard
   * (Messaging, section 3.4) as the SDK reports them.
   */
  datatype AmqpSendOutcome =
    | Accepted
    | Rejected(rejection: Option<DescribedError>)
    | Released
    | Modified(modification: SendModification)

  /** `AmqpSendOptions`. */
  datatype SendOptions = SendOptions(messageFormat: Option<u32>, settled: Option<bool>)

  /** `AmqpSenderOptions`, passed through to the engine untouched. */
  datatype SenderOptions = SenderOptions(settings: seq<(string, string)>)

  /** `AmqpSessionOptions`: the flow-control windows the producer sets. */
  datatype SessionOptions = SessionOptions(incomingWindow: Option<u32>, outgoingWindow: Option<u32>)

  // ---------------------------------------------------------------------------------------
  // Opaque handles

  /** A parsed URL, given by its serialization (what `to_string` returns). */
  datatype Url = Url(text: string)

  datatype Connection = Connection(id: nat)

  /**
   * An `AmqpSession`. `implementation` is what its engine-session accessor yields: the engine
   * session once the session has begun, or the error that accessor reports.
   */
  datatype Session = Session(implementation: Result<nat, CoreError>)

  /** An attached engine link (a `fe2o3_amqp::Sender`) and the message size it negotiated. */
  datatype Link = Link(handle: nat, maxMessageSize: Option<u64>)

  datatype AccessToken = AccessToken(token: string)

  datatype Management = Management(id: nat)

  /** `RetryOptions`: configuration only the retry executor reads. */
  datatype RetryOptions = RetryOptions(id: nat)

  const DefaultRetryOptions := RetryOptions(0)
}
