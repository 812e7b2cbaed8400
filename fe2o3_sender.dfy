/**
 * The AMQP sender adapter over the fe2o3 protocol engine: a fill-once cell holding the attached
 * engine link, the `Sendable` built for each send, and the closed tables that translate the
 * engine's outcomes and errors into the SDK's own types.
 *
 * The engine is not modelled: its attach handshake, its send-and-await-outcome and its detach
 * are function values handed to the methods, so a method states its result in terms of what
 * the engine answered.
 */
module Fe2o3Sender {
  import opened Wrappers
  import opened SdkTypes

  // ---------------------------------------------------------------------------------------
  // Engine types

  /** `fe2o3_amqp_types::messaging::Modified`. */
  datatype EngineModified = EngineModified(
    deliveryFailed: Option<bool>,
    undeliverableHere: Option<bool>,
    messageAnnotations: Option<Annotations>)

  /** `fe2o3_amqp_types::messaging::Outcome`: the four AMQP 1.0 terminal delivery outcomes. */
  datatype EngineOutcome =
    | Accepted
    | Rejected(error: Option<DescribedError>)
    | Released
    | Modified(modified: EngineModified)

  /**
   * `fe2o3_amqp::link::SendError`. The link-state and detach variants carry the `AmqpError`
   * their own conversions produce; those conversions live outside this adapter.
   */
  datatype SendError =
    | LinkStateError(linkState: AmqpError)
    | Detached(detach: AmqpError)
    | NonTerminalDeliveryState
    | IllegalDeliveryState
    | MessageEncodeError

  /** `fe2o3_amqp::link::delivery::Sendable`: what is handed to the engine for one send. */
  datatype Sendable = Sendable(message: AmqpMessage, messageFormat: u32, settled: Option<bool>)

  /** The engine calls the adapter makes, as functions of their arguments. */
  type EngineAttach = (Session, string, string, Option<SenderOptions>) -> Result<Link, SenderAttachError>
  type EngineSend = (Link, Sendable) -> Result<EngineOutcome, SendError>
  type EngineDetach = Link -> Result<(), AmqpError>

  // ---------------------------------------------------------------------------------------
  // The adapter's own errors

  function CouldNotSetMessageSender(): (e: CoreError)
    ensures e.kind == Amqp && e.message == Some("Could not set message sender") && e.source.None?
  {
    MessageError(Amqp, "Could not set message sender")
  }

  function CouldNotGetMessageSender(): (e: CoreError)
    ensures e.kind == Amqp && e.message == Some("Could not get message sender") && e.source.None?
  {
    MessageError(Amqp, "Could not get message sender")
  }

  // ---------------------------------------------------------------------------------------
  // Translation tables

  /** `From<Modified> for SendModification`: every field is carried over. */
  function ModificationFromEngine(m: EngineModified): (r: SendModification)
    ensures r.deliveryFailed == m.deliveryFailed
    ensures r.undeliverableHere == m.undeliverableHere
    ensures r.messageAnnotations == m.messageAnnotations
  {
    SendModification(m.deliveryFailed, m.undeliverableHere, m.messageAnnotations)
  }

  /** The outcome match at the end of `send`: total, and each outcome keeps its variant. */
  function OutcomeFromEngine(o: EngineOutcome): (r: AmqpSendOutcome)
    ensures r.Accepted? <==> o.Accepted?
    ensures r.Released? <==> o.Released?
    ensures r.Rejected? <==> o.Rejected?
    ensures r.Modified? <==> o.Modified?
    ensures o.Rejected? ==> r.rejection == o.error
    ensures o.Modified? ==> (r.modification.deliveryFailed == o.modified.deliveryFailed
                             && r.modification.undeliverableHere == o.modified.undeliverableHere
                             && r.modification.messageAnnotations == o.modified.messageAnnotations)
  {
    match o
    case Accepted => AmqpSendOutcome.Accepted
    case Rejected(error) => AmqpSendOutcome.Rejected(error)
    case Released => AmqpSendOutcome.Released
    case Modified(m) => AmqpSendOutcome.Modified(ModificationFromEngine(m))
  }

  /** `From<SendError> for AmqpError`. */
  function AmqpErrorFromSendError(e: SendError): (r: AmqpError)
    ensures e.LinkStateError? ==> r == e.linkState
    ensures e.Detached? ==> r == e.detach
    ensures e.NonTerminalDeliveryState? ==> r.kind == AmqpErrorKind.NonTerminalDeliveryState
    ensures e.IllegalDeliveryState? ==> r.kind == AmqpErrorKind.IllegalDeliveryState
    ensures e.MessageEncodeError? ==> r.kind == TransportImplementationError(MessageEncodeFailure)
  {
    match e
    case LinkStateError(converted) => converted
    case Detached(converted) => converted
    case NonTerminalDeliveryState => AmqpError(AmqpErrorKind.NonTerminalDeliveryState)
    case IllegalDeliveryState => AmqpError(AmqpErrorKind.IllegalDeliveryState)
    case MessageEncodeError => AmqpError(TransportImplementationError(MessageEncodeFailure))
  }

  /** `From<SenderAttachError> for AmqpError`. */
  function AmqpErrorFromAttachError(e: SenderAttachError): (r: AmqpError)
    ensures e.RemoteClosedWithError? <==> r.kind.AmqpDescribedError?
    ensures e.RemoteClosedWithError? ==> r.kind.described == e.remoteError
    ensures (e.IllegalSessionState? || e.IllegalState?) <==> r.kind.ConnectionDropped?
    ensures r.kind.ConnectionDropped? ==> r.kind.cause == AttachFailure(e)
    ensures !(e.RemoteClosedWithError? || e.IllegalSessionState? || e.IllegalState?)
            <==> r.kind == TransportImplementationError(AttachFailure(e))
  {
    match e
    case RemoteClosedWithError(described) => AmqpError(AmqpDescribedError(described))
    case IllegalSessionState => AmqpError(ConnectionDropped(AttachFailure(e)))
    case IllegalState => AmqpError(ConnectionDropped(AttachFailure(e)))
    case CoordinatorIsNotImplemented => AmqpError(TransportImplementationError(AttachFailure(e)))
    case DuplicatedLinkName => AmqpError(TransportImplementationError(AttachFailure(e)))
    case NonAttachFrameReceived => AmqpError(TransportImplementationError(AttachFailure(e)))
    case ExpectImmediateDetach => AmqpError(TransportImplementationError(AttachFailure(e)))
    case IncomingTargetIsNone => AmqpError(TransportImplementationError(AttachFailure(e)))
    case SndSettleModeNotSupported => AmqpError(TransportImplementationError(AttachFailure(e)))
    case RcvSettleModeNotSupported => AmqpError(TransportImplementationError(AttachFailure(e)))
    case TargetAddressIsNoneWhenDynamicIsTrue => AmqpError(TransportImplementationError(AttachFailure(e)))
    case SourceAddressIsSomeWhenDynamicIsTrue => AmqpError(TransportImplementationError(AttachFailure(e)))
    case DynamicNodePropertiesIsSomeWhenDynamicIsFalse => AmqpError(TransportImplementationError(AttachFailure(e)))
  }

  // ---------------------------------------------------------------------------------------
  // Specifications of the engine-facing steps

  /**
   * The engine link an attach yields: the session's engine half must be available and the
   * engine handshake must succeed; an engine attach failure is translated by the table above.
   */
  function AttachResult(session: Session, name: string, target: string,
                        options: Option<SenderOptions>, engine: EngineAttach): (r: Result<Link, CoreError>)
    ensures session.implementation.Failure? ==> r == Failure(session.implementation.error)
    ensures session.implementation.Success? ==> (r.Success? <==> engine(session, name, target, options).Success?)
    ensures r.Success? ==> r.value == engine(session, name, target, options).value
    ensures session.implementation.Success? && r.Failure? ==>
              r.error.kind == Amqp
              && r.error.source == Some(AmqpPayload(AmqpErrorFromAttachError(engine(session, name, target, options).error)))
  {
    if session.implementation.Failure? then Failure(session.implementation.error)
    else
      match engine(session, name, target, options)
      case Success(link) => Success(link)
      case Failure(e) => Failure(FromAmqpError(AmqpErrorFromAttachError(e)))
  }

  /**
   * The sendable a send hands to the engine: message format 0 and an unset settlement flag,
   * unless send options are given; then their settlement flag always wins and their format
   * wins only when it is set.
   */
  function SendableFor(message: AmqpMessage, options: Option<SendOptions>): (s: Sendable)
    ensures s.message == message
    ensures s.messageFormat == if options.Some? && options.value.messageFormat.Some?
                               then options.value.messageFormat.value else 0
    ensures s.settled == if options.Some? then options.value.settled else None
  {
    match options
    case None => Sendable(message, 0, None)
    case Some(o) => Sendable(message, o.messageFormat.GetOr(0), o.settled)
  }

  /**
   * What `send` returns once the engine has answered: the outcome translated variant by
   * variant, or the engine's error translated and wrapped with its AMQP error as source.
   */
  function SendResult(answer: Result<EngineOutcome, SendError>): (r: Result<AmqpSendOutcome, CoreError>)
    ensures r.Success? <==> answer.Success?
    ensures r.Failure? ==> r.error.kind == Amqp && r.error.source.Some?
    ensures answer.Success? ==> r == Success(OutcomeFromEngine(answer.value))
    ensures answer.Failure? ==> r.error.source == Some(AmqpPayload(AmqpErrorFromSendError(answer.error)))
  {
    match answer
    case Success(outcome) => Success(OutcomeFromEngine(outcome))
    case Failure(e) => Failure(FromAmqpError(AmqpErrorFromSendError(e)))
  }

  /**
   * What `detach` returns once the engine has answered: success, also when the remote side has
   * already closed the link; any other failure is returned.
   */
  function DetachResult(answer: Result<(), AmqpError>): (r: Result<(), CoreError>)
    ensures r.Success? <==> answer.Success? || answer.error.kind.ClosedByRemote?
    ensures r.Failure? ==> r.error == FromAmqpError(answer.error)
  {
    match answer
    case Success(_) => Success(())
    case Failure(e) =>
      match e.kind
      case ClosedByRemote(_) => Success(())
      case _ => Failure(FromAmqpError(e))
  }

  // ---------------------------------------------------------------------------------------
  // The adapter object

  /** `Fe2o3AmqpSender`: `link` is the `OnceLock` cell that holds the attached engine link. */
  class Fe2o3AmqpSender {
    var link: Option<Link>

    /** `Fe2o3AmqpSender::new`: the cell starts empty. */
    constructor ()
      ensures link == None
    {
      link := None;
    }

    /**
     * `attach`: performs the engine handshake, then fills the cell. The handshake runs even when
     * the cell is already filled; the cell is then left as it was and the call fails.
     */
    method Attach(session: Session, name: string, target: string, options: Option<SenderOptions>,
                  engine: EngineAttach) returns (r: Result<(), CoreError>)
      modifies this
      ensures AttachResult(session, name, target, options, engine).Failure? ==>
                r == Failure(AttachResult(session, name, target, options, engine).error) && link == old(link)
      ensures AttachResult(session, name, target, options, engine).Success? && old(link).Some? ==>
                r == Failure(CouldNotSetMessageSender()) && link == old(link)
      ensures AttachResult(session, name, target, options, engine).Success? && old(link).None? ==>
                r == Success(()) && link == Some(AttachResult(session, name, target, options, engine).value)
    {
      if session.implementation.Failure? {
        return Failure(session.implementation.error);
      }
      var attached := engine(session, name, target, options);
      if attached.Failure? {
        return Failure(FromAmqpError(AmqpErrorFromAttachError(attached.error)));
      }
      if link.Some? {
        return Failure(CouldNotSetMessageSender());
      }
      link := Some(attached.value);
      r := Success(());
    }

    /**
     * `detach`: takes the link out of the cell and detaches it; an empty cell is an error. The
     * cell is empty afterwards in every case, since `detach` consumes the sender.
     */
    method Detach(engine: EngineDetach) returns (r: Result<(), CoreError>)
      modifies this
      ensures link == None
      ensures old(link).None? ==> r == Failure(CouldNotGetMessageSender())
      ensures old(link).Some? ==> r == DetachResult(engine(old(link).value))
    {
      var taken := link;
      link := None;
      if taken.None? {
        return Failure(CouldNotGetMessageSender());
      }
      var answer := engine(taken.value);
      if answer.Success? {
        r := Success(());
      } else if answer.error.kind.ClosedByRemote? {
        r := Success(());
      } else {
        r := Failure(FromAmqpError(answer.error));
      }
    }

    /** `max_message_size`: the size the attached link negotiated; an empty cell is an error. */
    method MaxMessageSize() returns (r: Result<Option<u64>, CoreError>)
      ensures link.None? ==> r == Failure(CouldNotGetMessageSender())
      ensures link.Some? ==> r == Success(link.value.maxMessageSize)
    {
      if link.None? {
        return Failure(CouldNotGetMessageSender());
      }
      r := Success(link.value.maxMessageSize);
    }

    /**
     * `send`: builds the sendable step by step, then hands it to the engine over the attached
     * link and translates the answer; an empty cell is an error.
     */
    method Send(message: AmqpMessage, options: Option<SendOptions>, engine: EngineSend)
      returns (r: Result<AmqpSendOutcome, CoreError>)
      ensures link.None? ==> r == Failure(CouldNotGetMessageSender())
      ensures link.Some? ==> r == SendResult(engine(link.value, SendableFor(message, options)))
    {
      var sendable := Sendable(message, 0, None);
      if options.Some? {
        if options.value.messageFormat.Some? {
          sendable := sendable.(messageFormat := options.value.messageFormat.value);
        }
        sendable := sendable.(settled := options.value.settled);
      }
      if link.None? {
        return Failure(CouldNotGetMessageSender());
      }
      var answer := engine(link.value, sendable);
      if answer.Failure? {
        return Failure(FromAmqpError(AmqpErrorFromSendError(answer.error)));
      }
      var outcome := match answer.value
        case Accepted => AmqpSendOutcome.Accepted
        case Rejected(error) => AmqpSendOutcome.Rejected(error)
        case Released => AmqpSendOutcome.Released
        case Modified(m) => AmqpSendOutcome.Modified(ModificationFromEngine(m));
      r := Success(outcome);
    }
  }

  // ---------------------------------------------------------------------------------------
  // Properties

  /**
   * The fill-once cell seen from a client: on a new adapter, once the first attach has succeeded
   * a second attach fails and the first link stays in place; when the second handshake itself
   * succeeds, the failure is "Could not set message sender".
   */
  method AttachTwice(session: Session, name: string, target: string, options: Option<SenderOptions>,
                     engine: EngineAttach, secondEngine: EngineAttach)
    returns (first: Result<(), CoreError>, second: Result<(), CoreError>, kept: Option<Link>)
    ensures first.Success? <==> AttachResult(session, name, target, options, engine).Success?
    ensures first.Success? ==> second.Failure?
    ensures first.Success? ==> kept == Some(AttachResult(session, name, target, options, engine).value)
    ensures first.Success? && AttachResult(session, name, target, options, secondEngine).Success? ==>
              second == Failure(CouldNotSetMessageSender())
  {
    var sender := new Fe2o3AmqpSender();
    first := sender.Attach(session, name, target, options, engine);
    second := sender.Attach(session, name, target, options, secondEngine);
    kept := sender.link;
  }
}
