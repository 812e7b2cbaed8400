/**
 * The Event Hubs producer's send-side rules: which send failures are retried, how a terminal
 * delivery outcome becomes the caller's result, where a message is sent (the Event Hub itself
 * or one of its partitions), how a message without an id gets one, which format tag a send
 * carries, and the two lazily filled resources the producer owns: the per-path sender cache and
 * the management-client slot.
 *
 * Locks and suspension are left out: each operation is one atomic step. The connection
 * manager, session and management collaborators, URL parsing and the retry executor are
 * function values gathered in `Collaborators`.
 */
module Producer {
  import opened Wrappers
  import opened SdkTypes
  import opened Fe2o3Sender

  const DEFAULT_EVENTHUBS_APPLICATION := "DefaultApplicationName"
  const SENDER_LINK_SUFFIX := "-rust-sender"
  const MANAGEMENT_LINK_NAME := "eventhubs_management"
  const PARTITIONS_SEGMENT := "/Partitions/"
  const MANAGEMENT_SEGMENT := "/$management"

  /** The format tag of a batch envelope. */
  const BATCH_MESSAGE_FORMAT: u32 := 0x8001_3700

  /** Single sends leave the format tag unset; batch sends set it. Neither sets `settled`. */
  const SINGLE_SEND_OPTIONS := SendOptions(None, None)
  const BATCH_SEND_OPTIONS := SendOptions(Some(BATCH_MESSAGE_FORMAT), None)

  /** Sender sessions open both flow-control windows as wide as they go. */
  const SENDER_SESSION_OPTIONS := SessionOptions(Some(U32_MAX), Some(U32_MAX))

  // ---------------------------------------------------------------------------------------
  // Retry classification

  const RequestTimeout: u16 := 408
  const TooManyRequests: u16 := 429
  const InternalServerError: u16 := 500
  const BadGateway: u16 := 502
  const ServiceUnavailable: u16 := 503
  const GatewayTimeout: u16 := 504

  const TRANSIENT_STATUS_CODES: set<int> := {408, 429, 500, 502, 503, 504}
  const TRANSIENT_CONDITIONS: set<AmqpErrorCondition> :=
    {ResourceLimitExceeded, ConnectionFramingError, LinkStolen}

  /**
   * `should_retry_amqp_error`: a management status code is transient exactly when it is one of
   * 408, 429, 500, 502, 503 or 504; a described error exactly when its condition is
   * resource-limit-exceeded, connection framing error or link stolen; every other AMQP error
   * is fatal.
   */
  function ShouldRetryAmqpError(e: AmqpError): (r: bool)
    ensures r <==> || (e.kind.ManagementStatusCode? && e.kind.code in TRANSIENT_STATUS_CODES)
                   || (e.kind.AmqpDescribedError? && e.kind.described.condition in TRANSIENT_CONDITIONS)
  {
    match e.kind
    case ManagementStatusCode(code, _) =>
      code == RequestTimeout || code == TooManyRequests || code == InternalServerError
      || code == BadGateway || code == ServiceUnavailable || code == GatewayTimeout
    case AmqpDescribedError(described) =>
      (match described.condition
       case ResourceLimitExceeded => true
       case ConnectionFramingError => true
       case LinkStolen => true
       case _ => false)
    case _ => false
  }

  /**
   * `should_retry_send_operation` as written, with the logging level as an input: `None` is the
   * panic of `e.source().unwrap()`, which the warning's arguments evaluate whenever warnings
   * are enabled and which fails on an error that has no source.
   */
  function ShouldRetrySendOperationAsWritten(e: CoreError, warnEnabled: bool): (r: Option<bool>)
    ensures r.None? <==> warnEnabled && e.kind == Amqp && e.source.None?
  {
    match e.kind
    case Amqp =>
      if warnEnabled && e.source.None? then None
      else if e.source.None? then Some(false)
      else
        (match e.source.value
         case BoxedAmqpPayload(amqp) => Some(ShouldRetryAmqpError(amqp))
         case AmqpPayload(amqp) => Some(ShouldRetryAmqpError(amqp))
         case _ => Some(false))
    case _ => Some(false)
  }

  /**
   * `should_retry_send_operation` as intended: an error is retried exactly when it is of the
   * `Amqp` kind and its source is an AMQP error, boxed or not, that `ShouldRetryAmqpError`
   * retries. A missing source is not retried, whatever the logging level.
   */
  function ShouldRetrySendOperation(e: CoreError): (r: bool)
    ensures r <==> && e.kind == Amqp
                   && e.source.Some?
                   && (e.source.value.AmqpPayload? || e.source.value.BoxedAmqpPayload?)
                   && ShouldRetryAmqpError(e.source.value.amqp)
  {
    match e.kind
    case Amqp =>
      if e.source.None? then false
      else
        (match e.source.value
         case BoxedAmqpPayload(amqp) => ShouldRetryAmqpError(amqp)
         case AmqpPayload(amqp) => ShouldRetryAmqpError(amqp)
         case _ => false)
    case _ => false
  }

  /** Wherever the classifier as written returns, it agrees with the corrected one. */
  lemma ClassifierAgreesWhereItReturns(e: CoreError, warnEnabled: bool)
    ensures ShouldRetrySendOperationAsWritten(e, warnEnabled).Some? ==>
              ShouldRetrySendOperationAsWritten(e, warnEnabled).value == ShouldRetrySendOperation(e)
    ensures !warnEnabled ==> ShouldRetrySendOperationAsWritten(e, warnEnabled) == Some(ShouldRetrySendOperation(e))
  {
  }

  /**
   * The input that shows the panic: the adapter's "Could not get message sender" error is of
   * the `Amqp` kind and has no source, so with warnings enabled the classifier as written
   * panics on it; the corrected classifier treats it as fatal.
   */
  lemma EmptyCellErrorPanicsClassifier()
    ensures ShouldRetrySendOperationAsWritten(CouldNotGetMessageSender(), true).None?
    ensures !ShouldRetrySendOperation(CouldNotGetMessageSender())
  {
  }

  /**
   * Every error an attached adapter's `send` reports carries its AMQP error as source, so the
   * classifier as written never panics on it and retries exactly what the corrected one does.
   */
  lemma AttachedSendErrorsAreClassified(answer: Result<EngineOutcome, SendError>, warnEnabled: bool)
    requires SendResult(answer).Failure?
    ensures ShouldRetrySendOperationAsWritten(SendResult(answer).error, warnEnabled)
            == Some(ShouldRetrySendOperation(SendResult(answer).error))
  {
  }

  /**
   * Of the engine's send errors only a link-state or detach error that converts to a transient
   * AMQP error is retried; delivery-state and encoding errors are fatal.
   */
  lemma SendErrorRetryable(e: SendError)
    ensures ShouldRetrySendOperation(SendResult(Failure(e)).error) <==>
              (e.LinkStateError? && ShouldRetryAmqpError(e.linkState))
              || (e.Detached? && ShouldRetryAmqpError(e.detach))
  {
  }

  /**
   * Of the engine's attach errors only a remote close whose described condition is transient
   * would be retried; illegal states and implementation errors are fatal.
   */
  lemma AttachErrorRetryable(e: SenderAttachError)
    ensures ShouldRetrySendOperation(FromAmqpError(AmqpErrorFromAttachError(e))) <==>
              e.RemoteClosedWithError? && e.remoteError.condition in TRANSIENT_CONDITIONS
  {
  }

  // ---------------------------------------------------------------------------------------
  // Delivery outcome

  /** The error a rejected delivery becomes: kind `Other`, source `SendRejected` with the broker's error. */
  function SendRejectedError(rejection: Option<DescribedError>): (e: CoreError)
    ensures e.kind == Other && e.source == Some(EventHubsPayload(SendRejected(rejection)))
  {
    SourcedError(Other, EventHubsPayload(SendRejected(rejection)))
  }

  /**
   * The outcome match of `send_message` and `send_batch`: only a rejection is a failure, and
   * it carries the broker's error; accepted, released and modified deliveries all succeed.
   */
  function OutcomeToResult(o: AmqpSendOutcome): (r: Result<(), CoreError>)
    ensures r.Failure? <==> o.Rejected?
    ensures o.Rejected? ==> r.error == SendRejectedError(o.rejection)
  {
    match o
    case Rejected(error) => Failure(SendRejectedError(error))
    case Accepted => Success(())
    case Released => Success(())
    case Modified(_) => Success(())
  }

  /**
   * Through the adapter and the producer together, an engine outcome fails the send exactly
   * when it is a rejection, and the failure carries the broker's described error unchanged.
   */
  lemma OnlyRejectedFails(o: EngineOutcome)
    ensures OutcomeToResult(OutcomeFromEngine(o)).Failure? <==> o.Rejected?
    ensures o.Rejected? ==>
      OutcomeToResult(OutcomeFromEngine(o)).error.source == Some(EventHubsPayload(SendRejected(o.error)))
  {
  }

  // ---------------------------------------------------------------------------------------
  // Paths and names

  /** The text `send_message` parses for a partition: the base URL, then `/Partitions/{id}`. */
  function PartitionPathText(base: Url, partitionId: string): (s: string)
    ensures |s| == |base.text| + |PARTITIONS_SEGMENT| + |partitionId|
    ensures s[..|base.text|] == base.text
    ensures s[|base.text|..|base.text| + |PARTITIONS_SEGMENT|] == PARTITIONS_SEGMENT
    ensures s[|base.text| + |PARTITIONS_SEGMENT|..] == partitionId
  {
    base.text + PARTITIONS_SEGMENT + partitionId
  }

  /** The text `ensure_management_client` parses: the endpoint, then `/$management`. */
  function ManagementPathText(endpoint: Url): (s: string)
    ensures |s| == |endpoint.text| + |MANAGEMENT_SEGMENT|
    ensures s[..|endpoint.text|] == endpoint.text
    ensures s[|endpoint.text|..] == MANAGEMENT_SEGMENT
  {
    endpoint.text + MANAGEMENT_SEGMENT
  }

  /** The text `open` parses: `amqps://{namespace}/{eventhub}`. */
  function EndpointText(fullyQualifiedNamespace: string, eventhub: string): (s: string)
    ensures |s| == 9 + |fullyQualifiedNamespace| + |eventhub|
    ensures s[..8] == "amqps://"
    ensures s[8..8 + |fullyQualifiedNamespace|] == fullyQualifiedNamespace
    ensures s[8 + |fullyQualifiedNamespace|] == '/'
    ensures s[9 + |fullyQualifiedNamespace|..] == eventhub
  {
    "amqps://" + fullyQualifiedNamespace + "/" + eventhub
  }

  /** A parser that keeps the text: the URL it yields serializes back to what it was given. */
  ghost predicate ParseKeepsText(parse: string -> Result<Url, CoreError>)
  {
    forall s :: parse(s).Success? ==> parse(s).value.text == s
  }

  /** The target of a send: the endpoint itself, or the parsed partition path. */
  function ResolveTarget(endpoint: Url, partitionId: Option<string>,
                         parse: string -> Result<Url, CoreError>): (r: Result<Url, CoreError>)
    ensures partitionId.None? ==> r == Success(endpoint)
    ensures partitionId.Some? && ParseKeepsText(parse) && r.Success? ==>
              r.value.text == endpoint.text + PARTITIONS_SEGMENT + partitionId.value
  {
    match partitionId
    case None => Success(endpoint)
    case Some(id) => parse(PartitionPathText(endpoint, id))
  }

  /** Different partition ids give different partition paths. */
  lemma {:induction false} PartitionPathInjective(base: Url, p: string, q: string)
    requires PartitionPathText(base, p) == PartitionPathText(base, q)
    ensures p == q
  {
    var prefix := base.text + PARTITIONS_SEGMENT;
    assert PartitionPathText(base, p) == prefix + p;
    assert PartitionPathText(base, q) == prefix + q;
    assert (prefix + p)[|prefix|..] == p;
    assert (prefix + q)[|prefix|..] == q;
  }

  /**
   * With a text-keeping parser each partition gets its own target, distinct from the
   * endpoint's, so each has its own entry in the sender cache.
   */
  lemma {:induction false} TargetsAreDistinct(endpoint: Url, p: string, q: string,
                                              parse: string -> Result<Url, CoreError>)
    requires ParseKeepsText(parse)
    requires ResolveTarget(endpoint, Some(p), parse).Success?
    requires ResolveTarget(endpoint, Some(q), parse).Success?
    ensures ResolveTarget(endpoint, Some(p), parse).value != endpoint
    ensures p != q ==> ResolveTarget(endpoint, Some(p), parse).value != ResolveTarget(endpoint, Some(q), parse).value
  {
    var tp := ResolveTarget(endpoint, Some(p), parse).value;
    var tq := ResolveTarget(endpoint, Some(q), parse).value;
    assert tp.text == PartitionPathText(endpoint, p);
    assert tq.text == PartitionPathText(endpoint, q);
    assert |tp.text| > |endpoint.text|;
    if p != q && tp == tq {
      PartitionPathInjective(endpoint, p, q);
    }
  }

  /** The management path is neither the endpoint nor any partition path. */
  lemma {:induction false} ManagementPathIsNoSenderPath(endpoint: Url, p: string)
    ensures ManagementPathText(endpoint) != endpoint.text
    ensures ManagementPathText(endpoint) != PartitionPathText(endpoint, p)
  {
    var i := |endpoint.text| + 1;
    assert ManagementPathText(endpoint)[i] == '$';
    assert PartitionPathText(endpoint, p)[i] == 'P';
  }

  /** A namespace without a slash and an Event Hub name are both recovered from the endpoint text. */
  lemma {:induction false} EndpointTextInjective(ns1: string, eh1: string, ns2: string, eh2: string)
    requires '/' !in ns1 && '/' !in ns2
    requires EndpointText(ns1, eh1) == EndpointText(ns2, eh2)
    ensures ns1 == ns2 && eh1 == eh2
  {
    var t := EndpointText(ns1, eh1);
    assert t == "amqps://" + ns1 + "/" + eh1;
    assert t == "amqps://" + ns2 + "/" + eh2;
    assert t[8 + |ns1|] == '/';
    assert t[8 + |ns2|] == '/';
    if |ns1| < |ns2| {
      assert false;
    } else if |ns2| < |ns1| {
      assert false;
    }
    assert t[8..8 + |ns1|] == ns1;
    assert t[8..8 + |ns2|] == ns2;
    assert t[9 + |ns1|..] == eh1;
    assert t[9 + |ns2|..] == eh2;
  }

  /** The sender link name: the application id, or `DefaultApplicationName`, then `-rust-sender`. */
  function SenderLinkName(applicationId: Option<string>): (name: string)
    ensures |name| == |applicationId.GetOr(DEFAULT_EVENTHUBS_APPLICATION)| + |SENDER_LINK_SUFFIX|
    ensures name[..|name| - |SENDER_LINK_SUFFIX|] == applicationId.GetOr(DEFAULT_EVENTHUBS_APPLICATION)
    ensures name[|name| - |SENDER_LINK_SUFFIX|..] == SENDER_LINK_SUFFIX
  {
    applicationId.GetOr(DEFAULT_EVENTHUBS_APPLICATION) + SENDER_LINK_SUFFIX
  }

  /**
   * The link name determines the application it is for, and ends with `-rust-sender`; a
   * producer without an application id is named as one whose id is `DefaultApplicationName`.
   */
  lemma {:induction false} LinkNameIdentifiesApplication(a: Option<string>, b: Option<string>)
    requires SenderLinkName(a) == SenderLinkName(b)
    ensures a.GetOr(DEFAULT_EVENTHUBS_APPLICATION) == b.GetOr(DEFAULT_EVENTHUBS_APPLICATION)
  {
    var x, y := a.GetOr(DEFAULT_EVENTHUBS_APPLICATION), b.GetOr(DEFAULT_EVENTHUBS_APPLICATION);
    assert SenderLinkName(a) == x + SENDER_LINK_SUFFIX;
    assert SenderLinkName(b) == y + SENDER_LINK_SUFFIX;
    assert |x| == |y|;
    assert (x + SENDER_LINK_SUFFIX)[..|x|] == x;
    assert (y + SENDER_LINK_SUFFIX)[..|y|] == y;
  }

  lemma LinkNameShape(applicationId: Option<string>)
    ensures SenderLinkName(None) == "DefaultApplicationName-rust-sender"
    ensures SenderLinkName(Some(DEFAULT_EVENTHUBS_APPLICATION)) == SenderLinkName(None)
    ensures SenderLinkName(applicationId)[|SenderLinkName(applicationId)| - |SENDER_LINK_SUFFIX|..] == "-rust-sender"
  {
  }

  // ---------------------------------------------------------------------------------------
  // Message ids and format tags

  /**
   * The message `send_event` sends: one that already has a message id is left as it is; any
   * other gets the fresh UUID as id, with its body and its other properties kept.
   */
  function EnsureMessageId(m: AmqpMessage, freshId: Uuid): (r: AmqpMessage)
    ensures HasMessageId(r)
    ensures HasMessageId(m) ==> r == m
    ensures !HasMessageId(m) ==> && r.properties.value.messageId == Some(UuidId(freshId))
                                 && r.body == m.body
                                 && r.applicationProperties == m.applicationProperties
    ensures !HasMessageId(m) && m.properties.Some? ==>
              r.properties.value.(messageId := None) == m.properties.value.(messageId := None)
  {
    if m.properties.None? || m.properties.value.messageId.None? then SetMessageId(m, UuidId(freshId)) else m
  }

  /** An id is assigned at most once: a message that went through `send_event` keeps its id on every later send. */
  lemma MessageIdAssignedOnce(m: AmqpMessage, first: Uuid, later: Uuid)
    ensures EnsureMessageId(EnsureMessageId(m, first), later) == EnsureMessageId(m, first)
  {
  }

  /**
   * What the engine receives: a single send is tagged 0 and a batch `0x80013700`, neither with
   * a settlement flag.
   */
  lemma FormatTags(message: AmqpMessage)
    ensures SendableFor(message, Some(SINGLE_SEND_OPTIONS)).messageFormat == 0
    ensures SendableFor(message, Some(BATCH_SEND_OPTIONS)).messageFormat == 0x8001_3700
    ensures SendableFor(message, Some(SINGLE_SEND_OPTIONS)).settled.None?
    ensures SendableFor(message, Some(BATCH_SEND_OPTIONS)).settled.None?
  {
  }

  // ---------------------------------------------------------------------------------------
  // Collaborators

  /** One attempt of a send as the retry executor runs it: which adapter, which payload, which options. */
  datatype SendRequest = SendRequest(sender: Fe2o3AmqpSender, message: AmqpMessage, options: Option<SendOptions>)

  /**
   * The calls the producer makes into code outside its own file. Each is a function of its
   * arguments; `ensureConnection` and `getConnection` are the connection manager's answers.
   * `retrySend` is the retry executor: given one attempt's request, the client's retry options
   * and the classifier, it runs attempts (each one `ProducerClient.AttemptSend`) and yields the
   * final outcome or error.
   */
  datatype Collaborators = Collaborators(
    ensureConnection: Result<(), CoreError>,
    getConnection: Result<Connection, CoreError>,
    authorizePath: (Connection, Url) -> Result<AccessToken, CoreError>,
    beginSession: (Connection, Option<SessionOptions>) -> Result<Session, CoreError>,
    parseUrl: string -> Result<Url, CoreError>,
    attachSender: EngineAttach,
    newManagement: (Session, string, AccessToken) -> Result<Management, CoreError>,
    attachManagement: Management -> Result<(), CoreError>,
    retrySend: (SendRequest, RetryOptions, CoreError -> bool) -> Result<AmqpSendOutcome, CoreError>)

  datatype SenderInstance = SenderInstance(session: Session, sender: Fe2o3AmqpSender)

  datatype ManagementInstance = ManagementInstance(management: Management, retryOptions: RetryOptions)

  datatype SendEventOptions = SendEventOptions(partitionId: Option<string>)

  datatype SendMessageOptions = SendMessageOptions(partitionId: Option<string>)

  /** What `send_batch` reads from a batch: the path it targets and its serialized envelope. */
  datatype EventDataBatch = EventDataBatch(batchPath: Result<Url, CoreError>, messages: AmqpMessage)

  datatype ProducerClientBuilder = ProducerClientBuilder(
    applicationId: Option<string>,
    retryOptions: Option<RetryOptions>,
    customEndpoint: Option<string>)

  function PartitionOf(options: Option<SendMessageOptions>): Option<string>
  {
    match options
    case None => None
    case Some(o) => o.partitionId
  }

  /** Creating the sender for a path: connect, authorize the path, begin a session, attach. */
  function SenderSetup(c: Collaborators, path: Url, applicationId: Option<string>): (r: Result<(Session, Link), CoreError>)
    ensures r.Success? <==>
              && c.ensureConnection.Success?
              && c.getConnection.Success?
              && c.authorizePath(c.getConnection.value, path).Success?
              && c.beginSession(c.getConnection.value, Some(SENDER_SESSION_OPTIONS)).Success?
              && AttachResult(c.beginSession(c.getConnection.value, Some(SENDER_SESSION_OPTIONS)).value,
                              SenderLinkName(applicationId), path.text, None, c.attachSender).Success?
    ensures r.Success? ==>
              && c.beginSession(c.getConnection.value, Some(SENDER_SESSION_OPTIONS)) == Success(r.value.0)
              && AttachResult(r.value.0, SenderLinkName(applicationId), path.text, None, c.attachSender) == Success(r.value.1)
    ensures c.ensureConnection.Failure? ==> r == Failure(c.ensureConnection.error)
  {
    if c.ensureConnection.Failure? then Failure(c.ensureConnection.error)
    else if c.getConnection.Failure? then Failure(c.getConnection.error)
    else
      var connection := c.getConnection.value;
      var authorized := c.authorizePath(connection, path);
      if authorized.Failure? then Failure(authorized.error)
      else
        var session := c.beginSession(connection, Some(SENDER_SESSION_OPTIONS));
        if session.Failure? then Failure(session.error)
        else
          var link := AttachResult(session.value, SenderLinkName(applicationId), path.text, None, c.attachSender);
          if link.Failure? then Failure(link.error) else Success((session.value, link.value))
  }

  /**
   * Creating the management client: begin a session on the current connection, authorize the
   * management path, create and attach the management client.
   */
  function ManagementSetup(c: Collaborators, endpoint: Url): (r: Result<Management, CoreError>)
    ensures r.Success? <==>
              && c.getConnection.Success?
              && c.beginSession(c.getConnection.value, None).Success?
              && c.parseUrl(ManagementPathText(endpoint)).Success?
              && c.authorizePath(c.getConnection.value, c.parseUrl(ManagementPathText(endpoint)).value).Success?
              && c.newManagement(c.beginSession(c.getConnection.value, None).value, MANAGEMENT_LINK_NAME,
                                 c.authorizePath(c.getConnection.value, c.parseUrl(ManagementPathText(endpoint)).value).value).Success?
              && c.attachManagement(
                   c.newManagement(c.beginSession(c.getConnection.value, None).value, MANAGEMENT_LINK_NAME,
                                   c.authorizePath(c.getConnection.value, c.parseUrl(ManagementPathText(endpoint)).value).value).value
                 ).Success?
    ensures r.Success? ==>
              c.newManagement(c.beginSession(c.getConnection.value, None).value, MANAGEMENT_LINK_NAME,
                              c.authorizePath(c.getConnection.value, c.parseUrl(ManagementPathText(endpoint)).value).value)
              == Success(r.value)
    ensures c.getConnection.Failure? ==> r == Failure(c.getConnection.error)
  {
    if c.getConnection.Failure? then Failure(c.getConnection.error)
    else
      var connection := c.getConnection.value;
      var session := c.beginSession(connection, None);
      if session.Failure? then Failure(session.error)
      else
        var path := c.parseUrl(ManagementPathText(endpoint));
        if path.Failure? then Failure(path.error)
        else
          var token := c.authorizePath(connection, path.value);
          if token.Failure? then Failure(token.error)
          else
            var management := c.newManagement(session.value, MANAGEMENT_LINK_NAME, token.value);
            if management.Failure? then Failure(management.error)
            else
              var attached := c.attachManagement(management.value);
              if attached.Failure? then Failure(attached.error) else Success(management.value)
  }

  /**
   * How one `ensure_sender` call changes the cache: a cached path leaves it as it is, and so
   * does a failed setup; a successful setup adds exactly the entry for the path, with the new
   * session, and keeps every other entry.
   */
  ghost predicate CacheStep(before: map<Url, SenderInstance>, after: map<Url, SenderInstance>,
                            path: Url, setup: Result<(Session, Link), CoreError>)
  {
    if path in before || setup.Failure? then after == before
    else
      && after.Keys == before.Keys + {path}
      && (forall p :: p in before ==> after[p] == before[p])
      && after[path].session == setup.value.0
  }

  /**
   * How one send completes: a target that cannot be resolved fails with nothing changed;
   * otherwise the sender cache takes one `ensure_sender` step, and either its setup error is
   * returned or the request goes to the retry executor with the client's retry options and
   * `ShouldRetrySendOperation` as classifier, and its final outcome goes through `OutcomeToResult`.
   */
  ghost predicate SendCompleted(c: Collaborators, applicationId: Option<string>, retryOptions: RetryOptions,
                                before: map<Url, SenderInstance>, after: map<Url, SenderInstance>,
                                target: Result<Url, CoreError>, message: AmqpMessage, options: SendOptions,
                                r: Result<(), CoreError>)
  {
    match target
    case Failure(e) => after == before && r == Failure(e)
    case Success(path) =>
      var setup := SenderSetup(c, path, applicationId);
      && CacheStep(before, after, path, setup)
      && (if path in after then
            var final := c.retrySend(SendRequest(after[path].sender, message, Some(options)), retryOptions, ShouldRetrySendOperation);
            r == (if final.Failure? then Failure(final.error) else OutcomeToResult(final.value))
          else setup.Failure? && r == Failure(setup.error))
  }

  // ---------------------------------------------------------------------------------------
  // The producer

  /** `ProducerClient`: the sender cache `senderInstances` and the management slot `mgmtClient`. */
  class ProducerClient {
    var senderInstances: map<Url, SenderInstance>
    var mgmtClient: Option<ManagementInstance>
    const endpoint: Url
    const eventhub: string
    const applicationId: Option<string>
    const retryOptions: RetryOptions

    ghost function Senders(): set<Fe2o3AmqpSender>
      reads this
    {
      set p | p in senderInstances :: senderInstances[p].sender
    }

    /** Every cached sender holds an attached link: senders enter the cache only once attached. */
    ghost predicate Valid()
      reads this, Senders()
    {
      forall p :: p in senderInstances ==> senderInstances[p].sender.link.Some?
    }

    /** `ProducerClient::new`: an empty cache and an empty management slot. */
    constructor (endpoint: Url, eventhub: string, applicationId: Option<string>, retryOptions: RetryOptions)
      ensures this.endpoint == endpoint && this.eventhub == eventhub
      ensures this.applicationId == applicationId && this.retryOptions == retryOptions
      ensures senderInstances == map[] && mgmtClient == None
      ensures Valid()
    {
      this.endpoint := endpoint;
      this.eventhub := eventhub;
      this.applicationId := applicationId;
      this.retryOptions := retryOptions;
      senderInstances := map[];
      mgmtClient := None;
    }

    /**
     * `ensure_sender`: the cached sender for the path, or a newly attached one that is then
     * cached. A cached path is never attached again; a failure leaves the cache as it was.
     */
    method EnsureSender(path: Url, c: Collaborators) returns (r: Result<Fe2o3AmqpSender, CoreError>)
      requires Valid()
      modifies this`senderInstances
      ensures Valid()
      ensures CacheStep(old(senderInstances), senderInstances, path, SenderSetup(c, path, applicationId))
      ensures path in old(senderInstances) ==> r == Success(old(senderInstances)[path].sender)
      ensures r.Success? ==> path in senderInstances && r.value == senderInstances[path].sender
      ensures r.Failure? ==> && path !in senderInstances
                             && SenderSetup(c, path, applicationId).Failure?
                             && r.error == SenderSetup(c, path, applicationId).error
      ensures path !in old(senderInstances) && r.Success? ==>
                fresh(r.value) && r.value.link == Some(SenderSetup(c, path, applicationId).value.1)
      ensures forall p :: p in old(senderInstances) ==>
                p in senderInstances && senderInstances[p].sender.link == old(senderInstances[p].sender.link)
    {
      if path !in senderInstances {
        if c.ensureConnection.Failure? {
          return Failure(c.ensureConnection.error);
        }
        if c.getConnection.Failure? {
          return Failure(c.getConnection.error);
        }
        var connection := c.getConnection.value;
        var authorized := c.authorizePath(connection, path);
        if authorized.Failure? {
          return Failure(authorized.error);
        }
        var session := c.beginSession(connection, Some(SENDER_SESSION_OPTIONS));
        if session.Failure? {
          return Failure(session.error);
        }
        var sender := new Fe2o3AmqpSender();
        var attached := sender.Attach(session.value, SenderLinkName(applicationId), path.text, None, c.attachSender);
        if attached.Failure? {
          return Failure(attached.error);
        }
        senderInstances := senderInstances[path := SenderInstance(session.value, sender)];
      }
      // The lookup after the insert cannot miss, so `MissingMessageSender` is never returned.
      r := Success(senderInstances[path].sender);
    }

    /**
     * `ensure_management_client`: a filled slot is success with nothing done; otherwise the
     * management client is created and stored, or the first failure is returned and the slot
     * stays empty.
     */
    method EnsureManagementClient(c: Collaborators) returns (r: Result<(), CoreError>)
      requires Valid()
      modifies this`mgmtClient
      ensures Valid()
      ensures old(mgmtClient).Some? ==> r == Success(()) && mgmtClient == old(mgmtClient)
      ensures old(mgmtClient).None? && ManagementSetup(c, endpoint).Success? ==>
                r == Success(()) && mgmtClient == Some(ManagementInstance(ManagementSetup(c, endpoint).value, retryOptions))
      ensures old(mgmtClient).None? && ManagementSetup(c, endpoint).Failure? ==>
                r == Failure(ManagementSetup(c, endpoint).error) && mgmtClient == None
    {
      if mgmtClient.Some? {
        return Success(());
      }
      if c.getConnection.Failure? {
        return Failure(c.getConnection.error);
      }
      var connection := c.getConnection.value;
      var session := c.beginSession(connection, None);
      if session.Failure? {
        return Failure(session.error);
      }
      var managementPath := c.parseUrl(ManagementPathText(endpoint));
      if managementPath.Failure? {
        return Failure(managementPath.error);
      }
      var accessToken := c.authorizePath(connection, managementPath.value);
      if accessToken.Failure? {
        return Failure(accessToken.error);
      }
      var management := c.newManagement(session.value, MANAGEMENT_LINK_NAME, accessToken.value);
      if management.Failure? {
        return Failure(management.error);
      }
      var attached := c.attachManagement(management.value);
      if attached.Failure? {
        return Failure(attached.error);
      }
      // The slot was seen empty above, so filling it cannot fail with `MissingManagementClient`.
      mgmtClient := Some(ManagementInstance(management.value, retryOptions));
      r := Success(());
    }

    /**
     * One attempt of a send, as the retry executor runs it: the cached sender for the path hands
     * the message to the engine. Cached senders are attached, so the attempt never meets
     * "Could not get message sender", and with warnings enabled the classifier as written
     * classifies every error it reports without panicking, as the corrected one does.
     */
    method AttemptSend(path: Url, message: AmqpMessage, options: Option<SendOptions>, engine: EngineSend)
      returns (r: Result<AmqpSendOutcome, CoreError>)
      requires Valid() && path in senderInstances
      ensures r == SendResult(engine(senderInstances[path].sender.link.value, SendableFor(message, options)))
      ensures r != Failure(CouldNotGetMessageSender())
      ensures r.Failure? ==>
                ShouldRetrySendOperationAsWritten(r.error, true) == Some(ShouldRetrySendOperation(r.error))
    {
      var sender := senderInstances[path].sender;
      r := sender.Send(message, options, engine);
    }

    /**
     * `send_message`: resolves the target, obtains its sender, sends the message unchanged and
     * with the format tag unset under the retry executor, and maps the final outcome.
     */
    method SendMessage(message: AmqpMessage, options: Option<SendMessageOptions>, c: Collaborators)
      returns (r: Result<(), CoreError>)
      requires Valid()
      modifies this`senderInstances
      ensures Valid()
      ensures SendCompleted(c, applicationId, retryOptions, old(senderInstances), senderInstances,
                            ResolveTarget(endpoint, PartitionOf(options), c.parseUrl),
                            message, SINGLE_SEND_OPTIONS, r)
    {
      var partitionId := PartitionOf(options);
      var target := endpoint;
      if partitionId.Some? {
        var parsed := c.parseUrl(PartitionPathText(endpoint, partitionId.value));
        if parsed.Failure? {
          return Failure(parsed.error);
        }
        target := parsed.value;
      }
      var sender := EnsureSender(target, c);
      if sender.Failure? {
        return Failure(sender.error);
      }
      var final := c.retrySend(SendRequest(sender.value, message, Some(SINGLE_SEND_OPTIONS)), retryOptions, ShouldRetrySendOperation);
      if final.Failure? {
        return Failure(final.error);
      }
      r := OutcomeToResult(final.value);
    }

    /**
     * `send_event`: gives a message without an id a fresh one, once, before anything is sent,
     * then sends it as `send_message` does.
     */
    method SendEvent(event: AmqpMessage, options: Option<SendEventOptions>, freshId: Uuid, c: Collaborators)
      returns (r: Result<(), CoreError>)
      requires Valid()
      modifies this`senderInstances
      ensures Valid()
      ensures SendCompleted(c, applicationId, retryOptions, old(senderInstances), senderInstances,
                            ResolveTarget(endpoint, if options.Some? then options.value.partitionId else None, c.parseUrl),
                            EnsureMessageId(event, freshId), SINGLE_SEND_OPTIONS, r)
    {
      var message := event;
      if message.properties.None? || message.properties.value.messageId.None? {
        message := SetMessageId(message, UuidId(freshId));
      }
      var messageOptions := if options.Some? then Some(SendMessageOptions(options.value.partitionId)) else None;
      r := SendMessage(message, messageOptions, c);
    }

    /**
     * `send_batch`: obtains the sender for the batch's path, sends the batch envelope tagged
     * with the batch format under the retry executor, and maps the final outcome.
     */
    method SendBatch(batch: EventDataBatch, c: Collaborators) returns (r: Result<(), CoreError>)
      requires Valid()
      modifies this`senderInstances
      ensures Valid()
      ensures SendCompleted(c, applicationId, retryOptions, old(senderInstances), senderInstances,
                            batch.batchPath, batch.messages, BATCH_SEND_OPTIONS, r)
    {
      if batch.batchPath.Failure? {
        return Failure(batch.batchPath.error);
      }
      var sender := EnsureSender(batch.batchPath.value, c);
      if sender.Failure? {
        return Failure(sender.error);
      }
      var final := c.retrySend(SendRequest(sender.value, batch.messages, Some(BATCH_SEND_OPTIONS)), retryOptions, ShouldRetrySendOperation);
      if final.Failure? {
        return Failure(final.error);
      }
      r := OutcomeToResult(final.value);
    }
  }

  /**
   * The endpoint `open` gives the client, or its first failure: the Event Hub URL must parse,
   * then the custom endpoint if one is set, then the connection must open.
   */
  function OpenedEndpoint(b: ProducerClientBuilder, fullyQualifiedNamespace: string, eventhub: string,
                          c: Collaborators): Result<Url, CoreError>
  {
    var url := c.parseUrl(EndpointText(fullyQualifiedNamespace, eventhub));
    if url.Failure? then url
    else if b.customEndpoint.Some? && c.parseUrl(b.customEndpoint.value).Failure? then
      Failure(c.parseUrl(b.customEndpoint.value).error)
    else if c.ensureConnection.Failure? then Failure(c.ensureConnection.error)
    else url
  }

  /**
   * `ProducerClientBuilder::open`: a new client for `amqps://{namespace}/{eventhub}` with the
   * builder's application id and retry options (or the defaults), an empty sender cache and an
   * empty management slot, once its connection is open.
   */
  method Open(b: ProducerClientBuilder, fullyQualifiedNamespace: string, eventhub: string, c: Collaborators)
    returns (r: Result<ProducerClient, CoreError>)
    ensures r.Failure? <==> OpenedEndpoint(b, fullyQualifiedNamespace, eventhub, c).Failure?
    ensures r.Failure? ==> r.error == OpenedEndpoint(b, fullyQualifiedNamespace, eventhub, c).error
    ensures r.Success? ==> && fresh(r.value)
                           && r.value.endpoint == OpenedEndpoint(b, fullyQualifiedNamespace, eventhub, c).value
                           && r.value.eventhub == eventhub
                           && r.value.applicationId == b.applicationId
                           && r.value.retryOptions == b.retryOptions.GetOr(DefaultRetryOptions)
                           && r.value.senderInstances == map[] && r.value.mgmtClient == None
                           && r.value.Valid()
  {
    var url := c.parseUrl(EndpointText(fullyQualifiedNamespace, eventhub));
    if url.Failure? {
      return Failure(url.error);
    }
    if b.customEndpoint.Some? {
      var custom := c.parseUrl(b.customEndpoint.value);
      if custom.Failure? {
        return Failure(custom.error);
      }
    }
    var client := new ProducerClient(url.value, eventhub, b.applicationId, b.retryOptions.GetOr(DefaultRetryOptions));
    if c.ensureConnection.Failure? {
      return Failure(c.ensureConnection.error);
    }
    r := Success(client);
  }
}
