# Event Hubs producer send path, modelled in Dafny

This project models the send path of the Azure Event Hubs producer client for Rust. It covers two layers:

- `ProducerClient` decides where a message goes: the Event Hub itself or
  `{endpoint}/Partitions/{id}`. It lazily creates and caches one sender per target path. It
  lazily creates one management client. It gives an event without a message id a fresh UUID.
  It tags batch sends with the batch message format `0x80013700`. It runs each send under the
  retry executor with its own retry classifier, and turns the final delivery outcome into
  success or failure. Only a rejection fails.
- `Fe2o3AmqpSender` is the AMQP sender adapter over the fe2o3 protocol engine. It holds the
  attached engine link in a fill-once cell. It builds the `Sendable` for each send. It
  translates the engine's outcomes, send errors and attach errors into the SDK's own types.

Files:

- `wrappers.dfy`: `Option` and `Result`.
- `sdk_types.dfy`: the shared vocabulary. This covers `azure_core::Error` with its kind and
  source, `AmqpError` and its kinds, the AMQP 1.0 error conditions, outcomes, messages and the
  opaque handles.
- `fe2o3_sender.dfy`: the adapter, as class `Fe2o3AmqpSender`. Its `link` field is the
  `OnceLock` cell.
- `producer.dfy`: the classifier, the outcome mapping, paths and names, and message ids. It also
  holds class `ProducerClient`, whose fields are the sender cache `senderInstances` (a map) and
  the management slot `mgmtClient` (an option), and the builder's `Open`.

The producer's collaborators are function values in the datatype `Collaborators`:

- the connection manager's `ensure_connection`, `get_connection` and `authorize_path`;
- session begin;
- `Url::parse`;
- management creation and attach;
- the retry executor `retry_azure_operation`.

The engine's attach, send and detach are likewise function values passed to the adapter's
methods. Each method's contract states its result and its new state in terms of what those
calls answer. The specification functions are `SenderSetup`, `ManagementSetup`,
`AttachResult`, `SendResult` and `DetachResult`. The predicates `CacheStep` and
`SendCompleted` state how one call changes the sender cache.

`ProducerClient.Valid` is the cache invariant: every cached sender holds an attached link.
Every method preserves it. `ProducerClient.AttemptSend` is one attempt of the retried send
closure. It relies on `Valid`, because an attempt through a cached sender never meets the
adapter's "Could not get message sender" error. Every error such an attempt reports has a
source, so the classifier as written does not panic on it.

The `MissingMessageSender` branch of `ensure_sender` cannot be taken, because the lookup
follows the insert for the same path. The `MissingManagementClient` branch of
`ensure_management_client` cannot be taken either, because the slot was seen empty under the
same lock. The methods return success at those points.

`ensure_sender` holds the cache lock across connect, authorize, session begin and attach
(`producer/mod.rs:554-595`), so concurrent calls for different new paths serialize.
Concurrency is not modelled. A second `attach` on a filled adapter still runs the engine handshake before it
reports "Could not set message sender". `Fe2o3AmqpSender.Attach` and `AttachTwice` state this.

## Model

| member | source | states |
|---|---|---|
| Fe2o3Sender.CouldNotSetMessageSender | sdk/core/azure_core_amqp/src/fe2o3/sender.rs:26-31 | an `Amqp`-kind error with the message "Could not set message sender" and no source |
| Fe2o3Sender.CouldNotGetMessageSender | sdk/core/azure_core_amqp/src/fe2o3/sender.rs:32-37 | an `Amqp`-kind error with the message "Could not get message sender" and no source |
| Fe2o3Sender.ModificationFromEngine | sdk/core/azure_core_amqp/src/fe2o3/sender.rs:175-185 | a modified outcome keeps its delivery-failed and undeliverable-here flags and its annotations |
| Fe2o3Sender.OutcomeFromEngine | sdk/core/azure_core_amqp/src/fe2o3/sender.rs:162-171 | each engine outcome maps to the SDK outcome of the same name, and only to it; a rejection keeps the broker's error; a modification keeps its fields |
| Fe2o3Sender.AmqpErrorFromSendError | sdk/core/azure_core_amqp/src/fe2o3/sender.rs:195-213 | link-state and detach errors pass their converted AMQP error through; the two delivery-state errors become their own kinds; an encoding failure becomes an implementation error |
| Fe2o3Sender.AmqpErrorFromAttachError | sdk/core/azure_core_amqp/src/fe2o3/sender.rs:215-239 | a remote close with an error becomes that described error; the two illegal states, and only they, become connection-dropped errors; every other attach failure becomes an implementation error boxing it |
| SdkTypes.FromAmqpError | sdk/core/azure_core_amqp/src/fe2o3/sender.rs:88 | an AMQP error becomes an `Amqp`-kind error whose source is that AMQP error |
| Fe2o3Sender.AttachResult | sdk/core/azure_core_amqp/src/fe2o3/sender.rs:83-88 | a session whose engine half is unavailable fails with that error; otherwise the attach succeeds exactly when the engine handshake does, with its link; an engine failure becomes an `Amqp`-kind error whose source is the translated attach error |
| Fe2o3Sender.SendableFor | sdk/core/azure_core_amqp/src/fe2o3/sender.rs:139-149 | the format is 0 unless options are given with a format, which then replaces it; the settlement flag is the options' own when options are given, otherwise unset; the message is unchanged |
| Fe2o3Sender.SendResult | sdk/core/azure_core_amqp/src/fe2o3/sender.rs:151-171 | the send succeeds exactly when the engine's send does, with the outcome translated by `OutcomeFromEngine`; every failure is `Amqp`-kind and its source is the engine error as translated by `AmqpErrorFromSendError` |
| Fe2o3Sender.DetachResult | sdk/core/azure_core_amqp/src/fe2o3/sender.rs:100-117 | detach succeeds exactly when the engine's detach succeeds or fails with closed-by-remote; any other failure is surfaced as that AMQP error |
| Fe2o3Sender.Fe2o3AmqpSender.constructor | sdk/core/azure_core_amqp/src/fe2o3/sender.rs:187-193 | a new adapter's cell is empty |
| Fe2o3Sender.Fe2o3AmqpSender.Attach | sdk/core/azure_core_amqp/src/fe2o3/sender.rs:83-92 | a failing session or handshake is reported with the cell unchanged; after a successful handshake an empty cell takes the link, and a filled cell is kept and the call fails with "Could not set message sender" |
| Fe2o3Sender.Fe2o3AmqpSender.Detach | sdk/core/azure_core_amqp/src/fe2o3/sender.rs:95-118 | the cell is empty afterwards in every case; an empty cell is "Could not get message sender"; otherwise the result is `DetachResult` of the engine's detach of the held link |
| Fe2o3Sender.Fe2o3AmqpSender.MaxMessageSize | sdk/core/azure_core_amqp/src/fe2o3/sender.rs:120-128 | the attached link's negotiated maximum size; an empty cell is "Could not get message sender" |
| Fe2o3Sender.Fe2o3AmqpSender.Send | sdk/core/azure_core_amqp/src/fe2o3/sender.rs:130-172 | an empty cell is "Could not get message sender"; otherwise the translated engine answer to `SendableFor(message, options)` over the held link |
| Fe2o3Sender.AttachTwice | sdk/core/azure_core_amqp/src/fe2o3/sender.rs:89-91 | on a new adapter, after a successful first attach a second attach always fails and the first link stays; when the second handshake succeeds the failure is "Could not set message sender" |
| SdkTypes.SetMessageId | sdk/eventhubs/azure_messaging_eventhubs/src/producer/mod.rs:241 | the message id is set, with a properties section created if needed; the body, the application properties and the other properties are kept |
| Producer.ShouldRetryAmqpError | sdk/eventhubs/azure_messaging_eventhubs/src/producer/mod.rs:188-217 | retried exactly when the error is a management status code in {408, 429, 500, 502, 503, 504} or a described error whose condition is resource-limit-exceeded, connection framing error or link stolen |
| Producer.ShouldRetrySendOperationAsWritten | sdk/eventhubs/azure_messaging_eventhubs/src/producer/mod.rs:161-186 | the code as written panics exactly when warnings are enabled and the error is `Amqp`-kind with no source |
| Producer.ShouldRetrySendOperation | sdk/eventhubs/azure_messaging_eventhubs/src/producer/mod.rs:161-186 | retried exactly when the error is `Amqp`-kind and its source is an AMQP error, boxed or not, that `ShouldRetryAmqpError` retries |
| Producer.ClassifierAgreesWhereItReturns | sdk/eventhubs/azure_messaging_eventhubs/src/producer/mod.rs:161-186 | wherever the code as written returns, it returns the corrected classifier's answer; with warnings disabled it always returns |
| Producer.EmptyCellErrorPanicsClassifier | sdk/eventhubs/azure_messaging_eventhubs/src/producer/mod.rs:164 | "Could not get message sender" makes the code as written panic when warnings are enabled, and is fatal for the corrected classifier |
| Producer.AttachedSendErrorsAreClassified | sdk/eventhubs/azure_messaging_eventhubs/src/producer/mod.rs:161-186 | the code as written never panics on an error from an attached adapter's send, and agrees with the corrected classifier on it |
| Producer.SendErrorRetryable | sdk/core/azure_core_amqp/src/fe2o3/sender.rs:195-213 | an engine send error is retried exactly when it is a link-state or detach error whose AMQP error is transient; delivery-state and encoding errors are fatal |
| Producer.AttachErrorRetryable | sdk/core/azure_core_amqp/src/fe2o3/sender.rs:215-239 | an attach error would be retried exactly when it is a remote close whose condition is transient |
| Producer.SendRejectedError | sdk/eventhubs/azure_messaging_eventhubs/src/producer/mod.rs:298-303 | a rejection becomes an `Other`-kind error whose source is `SendRejected` with the broker's error |
| Producer.OutcomeToResult | sdk/eventhubs/azure_messaging_eventhubs/src/producer/mod.rs:296-307 | the send fails exactly when the outcome is a rejection, and the failure carries the broker's error; accepted, released and modified all succeed |
| Producer.OnlyRejectedFails | sdk/eventhubs/azure_messaging_eventhubs/src/producer/mod.rs:417-428 | through the adapter and the producer together, an engine outcome fails the send exactly when it is a rejection, with the broker's error unchanged |
| Producer.ResolveTarget | sdk/eventhubs/azure_messaging_eventhubs/src/producer/mod.rs:265-270 | without a partition the target is the endpoint; with one, a text-keeping parser yields `{endpoint}/Partitions/{id}` |
| Producer.PartitionPathText | sdk/eventhubs/azure_messaging_eventhubs/src/producer/mod.rs:268 | the text splits into the base URL's text, then `/Partitions/`, then the partition id |
| Producer.PartitionPathInjective | sdk/eventhubs/azure_messaging_eventhubs/src/producer/mod.rs:268 | different partition ids give different partition paths |
| Producer.TargetsAreDistinct | sdk/eventhubs/azure_messaging_eventhubs/src/producer/mod.rs:266-270 | for a parser that keeps the text (`ParseKeepsText`), a partition target is never the endpoint, and different partitions get different targets, hence different cache entries |
| Producer.ManagementPathText | sdk/eventhubs/azure_messaging_eventhubs/src/producer/mod.rs:532 | the text splits into the endpoint's text, then `/$management` |
| Producer.ManagementPathIsNoSenderPath | sdk/eventhubs/azure_messaging_eventhubs/src/producer/mod.rs:532 | the management path is neither the endpoint nor any partition path |
| Producer.EndpointText | sdk/eventhubs/azure_messaging_eventhubs/src/producer/mod.rs:708 | the text splits into `amqps://`, the namespace, a `/`, then the Event Hub name |
| Producer.EndpointTextInjective | sdk/eventhubs/azure_messaging_eventhubs/src/producer/mod.rs:708 | for namespaces without a slash, the endpoint text determines both the namespace and the Event Hub name |
| Producer.SenderLinkName | sdk/eventhubs/azure_messaging_eventhubs/src/producer/mod.rs:578-583 | the name splits into the application id, or `DefaultApplicationName` when none is set, then `-rust-sender` |
| Producer.LinkNameIdentifiesApplication | sdk/eventhubs/azure_messaging_eventhubs/src/producer/mod.rs:578-583 | equal sender link names mean equal application ids, with `DefaultApplicationName` standing in for none |
| Producer.LinkNameShape | sdk/eventhubs/azure_messaging_eventhubs/src/producer/mod.rs:578-583 | without an application id the link name is `DefaultApplicationName-rust-sender`, the same as for that explicit id; every link name ends in `-rust-sender` |
| Producer.EnsureMessageId | sdk/eventhubs/azure_messaging_eventhubs/src/producer/mod.rs:240-242 | the result always has a message id; a message that had one is unchanged; otherwise the id is the fresh UUID and the body and other properties are kept |
| Producer.MessageIdAssignedOnce | sdk/eventhubs/azure_messaging_eventhubs/src/producer/mod.rs:240-242 | assigning again keeps the first id, so resending an event does not change its id |
| Producer.FormatTags | sdk/eventhubs/azure_messaging_eventhubs/src/producer/mod.rs:283-286 | a single send reaches the engine with format 0, and a batch send (lines 404-407) with `0x80013700`; neither with a settlement flag |
| Producer.SenderSetup | sdk/eventhubs/azure_messaging_eventhubs/src/producer/mod.rs:556-587 | setup succeeds exactly when connect, get connection, authorize the path, begin a session with both windows at `u32::MAX` and attach under the application's link name with the path as target all succeed; the session and link are the ones those steps produced; a connect failure comes first |
| Producer.ManagementSetup | sdk/eventhubs/azure_messaging_eventhubs/src/producer/mod.rs:526-542 | setup succeeds exactly when get connection, begin a session without options, parse `{endpoint}/$management`, authorize it, create the client named `eventhubs_management` with that token and attach it all succeed; the result is the client created; a missing connection comes first |
| Producer.ProducerClient.constructor | sdk/eventhubs/azure_messaging_eventhubs/src/producer/mod.rs:111-134 | a new client keeps its endpoint, Event Hub, application id and retry options, with an empty sender cache and an empty management slot |
| Producer.ProducerClient.EnsureSender | sdk/eventhubs/azure_messaging_eventhubs/src/producer/mod.rs:553-601 | a cached path returns its sender and changes nothing; otherwise a setup failure leaves the cache unchanged and is returned, and a success adds exactly this path with a new attached sender; old senders' links are untouched |
| Producer.ProducerClient.EnsureManagementClient | sdk/eventhubs/azure_messaging_eventhubs/src/producer/mod.rs:516-551 | a filled slot is success with nothing done; otherwise the slot is filled with the new management client and the client's retry options, or stays empty and the first setup failure is returned |
| Producer.ProducerClient.AttemptSend | sdk/eventhubs/azure_messaging_eventhubs/src/producer/mod.rs:279-288 | one attempt through a cached sender is the adapter's translated engine answer over its attached link; it is never "Could not get message sender", and the classifier as written, with warnings enabled, classifies every error it reports as the corrected one does |
| Producer.ProducerClient.SendMessage | sdk/eventhubs/azure_messaging_eventhubs/src/producer/mod.rs:260-308 | an unparsable partition target fails with the cache unchanged; otherwise one cache step, then the setup error, or the send of the unchanged message with format unset, retried under the client's retry options, mapped through `OutcomeToResult` |
| Producer.ProducerClient.SendEvent | sdk/eventhubs/azure_messaging_eventhubs/src/producer/mod.rs:232-246 | as `SendMessage`, for the event with `EnsureMessageId` applied once before sending |
| Producer.ProducerClient.SendBatch | sdk/eventhubs/azure_messaging_eventhubs/src/producer/mod.rs:387-429 | as `SendMessage`, for the batch's path and envelope, tagged with the batch format, retried under the client's retry options |
| Producer.Open | sdk/eventhubs/azure_messaging_eventhubs/src/producer/mod.rs:702-727 | the endpoint URL, then the custom endpoint, then the connection must succeed; the first failure is returned; otherwise a new client for `amqps://{namespace}/{eventhub}` with the builder's application id and retry options (or the defaults) and empty caches |

## Left out

- Asynchrony and locking: each operation is one atomic step. The sender cache's single lock,
  the per-sender mutex and the management slot's lock are not modelled. Neither is any
  interleaving of concurrent callers.
- `retry_azure_operation`: the retry executor is a parameter of the model. It receives the
  request, the client's retry options and the classifier. The model states no attempt counts
  and no backoff.
- Producer.ProducerClient.SendMessage: hands the retry executor the corrected classifier
  `ShouldRetrySendOperation`, where the code passes `should_retry_send_operation` as written
  (`producer/mod.rs:292`). `Producer.AttachedSendErrorsAreClassified` and
  `Producer.ProducerClient.AttemptSend` show the two agree on every error an attempt through
  a cached sender reports. They differ only on errors without a source, as the finding below
  records.
- Producer.ProducerClient.SendEvent: inherits `SendMessage`'s corrected classifier in place of
  the one as written (`producer/mod.rs:292`). The two agree on every error an attempt reports.
- Producer.ProducerClient.SendBatch: hands the retry executor the corrected classifier where
  the code passes the one as written (`producer/mod.rs:413`). The two agree on every error an
  attempt reports.
- Producer.TargetsAreDistinct: assumes a parser that keeps the text (`ParseKeepsText`). The
  real `Url::parse` normalizes: it percent-encodes a space, so the partition ids `a b` and
  `a%20b` resolve to one target and share one cache entry. The model does not capture that
  normalization.
- SdkTypes.SetMessageId: `set_message_id` is not visible in these files. Its contract is
  assumed: it sets the id, creates the properties section when absent, and keeps the rest.
- The connection manager (`ensure_connection`, `get_connection`, `authorize_path`, `close`),
  session begin, `AmqpManagement` and `Url::parse`: each is a parameter of the model. A URL is
  its serialization.
- The token credential: `Open` and `ProducerClient.constructor` do not take the `credential`
  argument of `producer/mod.rs:706` and `producer/mod.rs:114`. Token acquisition exists only
  inside the `authorizePath` collaborator.
- `Uuid::new_v4`: the fresh UUID is a parameter, and its randomness is not modelled.
- `close`, `create_batch`, `get_eventhub_properties` and `get_partition_properties`: the last two
  run `ensure_management_client` and then use the management client, whose queries the model
  does not cover. The batch's size accounting and serialization are not part of this model. A
  batch is given by its path and its envelope.
- The conversions of the engine's link-state and detach errors to `AmqpError`, `AmqpDescribedError::from`, the
  annotation-map conversion and the conversion between `AmqpMessage` and the engine's message are
  not visible in these files. Neither are the conversions `send_event` applies to its argument
  (`event.into()` to `EventData`, then `AmqpMessage::from`, `producer/mod.rs:237-238`):
  `ProducerClient.SendEvent` takes the event already as an `AmqpMessage`. The model carries the
  converted values unchanged.
- SdkTypes.FromAmqpError: assumes that `azure_core::Error::from(AmqpError)` wraps the AMQP error unboxed as the source of an `Amqp`-kind error.
  Either way the classifier accepts boxed and unboxed errors.
- Fe2o3Sender.Fe2o3AmqpSender.Attach: the sender options are passed to the engine whole.
  That function value stands for the builder calls that apply them one by one.
- Logging: the `info!`, `debug!` and `trace!` calls have no effect on results. The one `warn!`
  whose arguments can panic is modelled, as the finding below.
- The Event Hubs error kinds `MissingMessageSender` and `MissingManagementClient` and their
  conversion: not modelled. Their branches are never reached: the lookup follows the insert for
  the same path (`producer/mod.rs:588-598`), and the slot was seen empty under the same lock
  (`producer/mod.rs:517-521`).

## Findings

| source | as written | input that shows it | evidently intended | confidence | as-written member | corrected member |
|---|---|---|---|---|---|---|
| sdk/eventhubs/azure_messaging_eventhubs/src/producer/mod.rs:164 | the warning's arguments call `e.source().unwrap()` before the code checks whether a source exists; with warnings enabled, an `Amqp`-kind error without a source panics inside the retry classifier | `Fe2o3Sender.CouldNotGetMessageSender()` with warnings enabled (`Producer.EmptyCellErrorPanicsClassifier`) | an error without a source is logged and treated as fatal, as the `else` branch at lines 176-179 does | not executed | Producer.ShouldRetrySendOperationAsWritten | Producer.ShouldRetrySendOperation |
