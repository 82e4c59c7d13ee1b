# Consensus-safety helpers of elrond-go, modelled in Dafny

This project models four small components of the elrond-go node that guard
consensus. Each runs one call at a time.

- **Slashing notifier** (`process/slash/notifier`). It turns the data
  extracted from a slashing proof into a signed "commitment" transaction. The
  transaction's data field is
  `SlashCommitment@<proof id byte>@<shard id>@<round>@<last 2 bytes of the proof hash>@<signature over the proof hash>`.
  The proof itself never appears in the transaction.
- **Meta-chain fork detector** (`process/sync/metaForkDetector.go`). Covers
  the constructor and `AddHeader`, which updates:
  - the header records,
  - the checkpoint list,
  - the final checkpoint,
  - the stuck flag, the last block round and the probable highest nonce.
- **Peer-authentication interceptor**
  (`process/interceptors/peerAuthenticationInterceptor.go`). Covers the
  constructor's argument checks and `ProcessReceivedMessage`. For each item of
  a received message, that loop decides whether to reject the message, reject
  it and blacklist the sender, ignore the item, or process it.
- **Intercepted peer authentication** (`process/heartbeat`). Covers what its
  tests assert:
  - the constructor's errors,
  - the field-length bounds of `CheckValidity`,
  - the getters.

Files:

| file | content |
|---|---|
| `Wrappers.dfy` | `Option` and `Result` (`Result` stands for Go's `(value, error)` pairs) |
| `Bytes.dfy` | bytes and Go's fixed-width integers; ASCII literals; Go's `%d` rendering and its inverse |
| `Errors.dfy` | the error values; `errors.Is`; `FirstFailure`, the ordered "first failing guard wins" chain every constructor uses |
| `CommitmentCodec.dfy` | the commitment data layout (`Encode`); an independent reader (`Decode`); both round trips |
| `Notifier.dfy` | the slashing notifier |
| `NotifierScenarios.dfy` | the notifier's unit tests, restated as lemmas over concrete collaborators |
| `MetaForkDetector.dfy` | `NewMetaForkDetector` and `AddHeader` |
| `Heartbeat.dfy` | the intercepted peer-authentication message |
| `PeerAuthInterceptor.dfy` | the interceptor's constructor, and `ProcessReceivedMessage` proved equal to a per-item reference classification |

Collaborators are function-typed fields or parameters. A nil argument is
`None`. The model fixes how a collaborator's answers are combined, never what
it answers. The collaborators are:
- the hasher and the signer;
- public-key serialisation and the accounts adapter;
- `GetDataForSigning`, the proof-data extractor and the data factory;
- the validator checker, the whitelist and the authentication processor;
- the base fork detector's helpers.

The model follows the code's exact behaviour in these details:

- `AddHeader` rejects only a nil header hash. An empty, non-nil hash is
  accepted (`process/sync/metaForkDetector.go:58`).
- A should-add rejection comes after `activateForcedForkIfNeeded`. So a
  rejected header can still change the forced-fork bookkeeping, and
  `AddHeader` returns the detector together with the error.
- `computeTxData` signs the proof hash before it looks up the proof id. A
  signer failure therefore wins over an unknown slash type.

## Model

| member | source | states |
|---|---|---|
| Errors.FirstFailure | process/slash/notifier/slashingNotifier.go:61-84 | The guards run in order. The first failing guard's error is reported, and there is no error exactly when every guard passes. |
| Notifier.ChecksPassIffAllGiven | process/slash/notifier/slashingNotifier.go:61-84 | The eight constructor guards all pass exactly when all eight dependencies are given. |
| Notifier.NewSlashingNotifier | process/slash/notifier/slashingNotifier.go:60-96 | Construction succeeds exactly when every dependency is given. Otherwise the first missing one's error is returned. The order is: private key, public key, key converter, signer, accounts adapter, hasher, marshaller, extractor. The notifier keeps both keys, all six collaborators it was given, and the proof-id table. |
| Notifier.ComputeTxData | process/slash/notifier/slashingNotifier.go:152-170 | A failure signing the proof hash is returned verbatim. If the signature succeeds but the slash type is not in the proof-id table, the result is `ErrInvalidProof`. It succeeds exactly when both succeed, and its data decodes to (proof id, shard, round, last two hash bytes, signature over the hash). |
| Notifier.CreateShardSlashingTransaction | process/slash/notifier/slashingNotifier.go:104-185 | Each failure point returns exactly its own error and no transaction. The first failure wins, in pipeline order: extractor, public-key bytes, account lookup, proof signature, proof-id lookup, signing bytes, transaction signature. The call succeeds exactly when all seven steps succeed. |
| Notifier.CreateMetaSlashingEscalatedTransaction | process/slash/notifier/slashingNotifier.go:187-190 | Returns no transaction for any proof. |
| Notifier.SuccessfulTransactionShape | process/slash/notifier/slashingNotifier.go:127-185 | A successful transaction carries: the account's nonce and address; value 1; no receiver; gas price 1000000000 and gas limit 70000; data that decodes to the commitment; a signature over the signing bytes of the same transaction without its signature. |
| Notifier.CommitmentHidesProofBytes | process/slash/notifier/slashingNotifier.go:152-169 | Two proofs give the same outcome when their extractions agree on kind, shard and round and their serialisations hash alike. The proof bytes reach the transaction only through their hash. |
| CommitmentCodec.MarkerSpellsFunctionKey | process/slash/notifier/slashingNotifier.go:24-25 | The data prefix is the ASCII spelling of the built-in function key "SlashCommitment". |
| Notifier.CreateUnsignedTx | process/slash/notifier/slashingNotifier.go:127-150 | A public-key error comes first, then an account error, then a `computeTxData` error, each returned unchanged. It succeeds exactly when all three succeed. The transaction then has: the account's nonce and address; value 1; no receiver; gas price 1000000000 and gas limit 70000; data that decodes to the commitment; no signature. |
| Notifier.SignTx | process/slash/notifier/slashingNotifier.go:172-185 | A signing-bytes error comes first, then a signer error, each returned unchanged. It succeeds exactly when both succeed. Only the signature changes, and it becomes the signer's answer on the signing bytes. |
| Notifier.CreateProofTx | process/slash/notifier/slashingNotifier.go:113-125 | An error building the unsigned transaction is returned unchanged; so, after it, is a signing-bytes error and then a signer error. It succeeds exactly when that transaction, its signing bytes and its signature all succeed. The result is the unsigned transaction plus a signature over the signing bytes of the unsigned transaction. |
| CommitmentCodec.Encode | process/slash/notifier/slashingNotifier.go:164-169 | The data field written for a commitment reads back as that commitment, and no other byte string does. |
| CommitmentCodec.DecodeLayout | process/slash/notifier/slashingNotifier.go:164-169 | Reading back the data laid out by `Sprintf("%s@%s@%d@%d@%s@%s", …)` gives back every field. This holds even when the id, CRC or signature bytes contain `@`. |
| CommitmentCodec.LayoutOfDecoded | process/slash/notifier/slashingNotifier.go:164-169 | Every data field the reader accepts is the layout of what it returns, so the commitment format has exactly one spelling. |
| Bytes.DecimalRoundTrip | process/slash/notifier/slashingNotifier.go:166-167 | Go's `%d` rendering of the shard id and of the round can be read back to the same number. |
| Bytes.ParseDecimalIsCanonical | process/slash/notifier/slashingNotifier.go:166-167 | Every digit string the reader accepts is the `%d` rendering of its value. |
| NotifierScenarios.ConstructorErrorTable | process/slash/notifier/slashingNotifier_test.go:31-105 | Each nil argument yields its own error, and the complete argument set succeeds. |
| NotifierScenarios.UnrecognisedProofScenario | process/slash/notifier/slashingNotifier_test.go:108-115 | A proof the extractor rejects as invalid yields `ErrInvalidProof`. |
| NotifierScenarios.PublicKeyErrorScenario | process/slash/notifier/slashingNotifier_test.go:117-136 | The public key's serialisation error comes back unchanged. |
| NotifierScenarios.AccountErrorScenario | process/slash/notifier/slashingNotifier_test.go:138-156 | The accounts adapter's error comes back unchanged. |
| NotifierScenarios.MarshallerErrorScenario | process/slash/notifier/slashingNotifier_test.go:158-177 | A marshaller failure while computing the signing bytes comes back unchanged. |
| NotifierScenarios.UnknownSlashTypeScenario | process/slash/notifier/slashingNotifier_test.go:179-196 | Slash type 9999999, absent from the table, yields `ErrInvalidProof`. |
| NotifierScenarios.ExtractorErrorScenario | process/slash/notifier/slashingNotifier_test.go:198-211 | The extractor's error comes back unchanged. |
| NotifierScenarios.ProofSignatureErrorScenario | process/slash/notifier/slashingNotifier_test.go:213-232 | A signer that always fails fails the call with its error. |
| NotifierScenarios.TxSignatureErrorScenario | process/slash/notifier/slashingNotifier_test.go:234-259 | A signer that signs the proof hash but fails on the transaction's signing bytes fails the call with its error. |
| NotifierScenarios.MultipleProposalScenario | process/slash/notifier/slashingNotifier_test.go:261-319 | The inputs are hash "abcd", shard 2, round 100000, signature "signature", account 444 and "address". The output is the exact transaction with data `SlashCommitment@<id>@2@100000@cd@signature`. |
| NotifierScenarios.MultipleSigningScenario | process/slash/notifier/slashingNotifier_test.go:321-385 | A multiple-signing proof gives the same transaction, except for its proof-id byte. |
| MetaForkDetector.NewMetaForkDetector | process/sync/metaForkDetector.go:16-43 | A nil rounder is reported first, then a nil blacklist handler. A new detector has no header records, and the zero checkpoint is both its only checkpoint and its final one. The last block round and the probable highest nonce are 0, the stuck flag is clear, and the forced-fork state is the one given. |
| MetaForkDetector.AddHeader | process/sync/metaForkDetector.go:46-94 | On rejection: a nil header gives `ErrNilHeader` and a nil hash gives `ErrNilHash`, both with the detector unchanged. A validity failure also leaves it unchanged. A should-add rejection keeps only the forced-fork effect. It succeeds exactly when every guard passes, and then the last block round is the rounder index converted to `uint64`. For a processed header, the old last checkpoint becomes final and the header's checkpoint is added before pruning runs; the checkpoints are what pruning keeps; the stuck flag is set to the argument; and the record is appended to what pruning kept. For any other state, the checkpoints, final checkpoint and stuck flag are untouched and the record is appended to the records as they were. |
| MetaForkDetector.AdvanceCheckpoint | process/sync/metaForkDetector.go:75-80 | The processed-header step makes the old last checkpoint final, whatever pruning does, and records the stuck flag. The rounder, blacklist handler and forced-fork state stay. |
| MetaForkDetector.ProbableNonceSeesNewRecord | process/sync/metaForkDetector.go:89-91 | The probable highest nonce is computed on the detector once the record is in place and before the last block round changes. |
| MetaForkDetector.ProcessedHeaderBecomesLastCheckpoint | process/sync/metaForkDetector.go:75-80 | If pruning keeps the last two checkpoints, an accepted processed header's checkpoint is the last one, and the one before it is the old last checkpoint, now final. |
| MetaForkDetector.AddHeaderKeepsWellFormed | process/sync/metaForkDetector.go:46-94 | If pruning keeps the last two checkpoints, every call keeps the checkpoint list non-empty, with the final checkpoint being the last checkpoint or the one before it. |
| MetaForkDetector.AcceptedHeaderHashIsKept | process/sync/metaForkDetector.go:82-87 | If `append` either adds the record at the end of its nonce's list or keeps a list that already holds its hash, an accepted header's hash is kept for its nonce. |
| MetaForkDetector.RejectedHeaderKeepsBookkeeping | process/sync/metaForkDetector.go:55-73 | A rejected header changes nothing but the forced-fork bookkeeping, and that only once basic validity has passed. |
| MetaForkDetector.UnprocessedHeaderOnlyAddsRecords | process/sync/metaForkDetector.go:75-87 | Under the same assumption about `append`, for states other than processed, every record already kept stays, in order, at the front of its nonce's list. |
| MetaForkDetector.TwoProcessedHeaders | process/sync/metaForkDetector.go:75-80 | If pruning keeps the last two checkpoints, after two accepted processed headers the first is the final checkpoint and the second the last. |
| Bytes.ToU64 | process/sync/metaForkDetector.go:90 | `uint64(int64)` keeps non-negative indices and wraps negative ones by 2^64. |
| Heartbeat.ChecksPassIffArgumentsGiven | process/heartbeat/interceptedPeerAuthentication_test.go:37-79 | The argument guards all pass exactly when the buffer is non-empty and the marshalizer, signature handler and hasher are given. |
| Heartbeat.NewInterceptedPeerAuthentication | process/heartbeat/interceptedPeerAuthentication_test.go:37-100 | An empty buffer gives `ErrNilBuffer`. A missing marshalizer, peer-signature handler or hasher gives its own error. A buffer that does not decode gives the decoder's error. Otherwise the result holds the decoded message and the hash of the buffer. |
| Heartbeat.CheckValidity | process/heartbeat/interceptedPeerAuthentication_test.go:139-176 | The result is valid exactly when the public key has 1 to 128 bytes and the signature, pid and hardfork payload have at most 128 each. Otherwise it is too-long or too-short, naming the first offending field. |
| Heartbeat.LengthChecksLocateFailure | process/heartbeat/interceptedPeerAuthentication_test.go:143-170 | For each offending field, the guard that fails first is the one naming that field. |
| Heartbeat.SingleFieldOutOfBounds | process/heartbeat/interceptedPeerAuthentication_test.go:139-176 | Start from a valid message. A 129-byte public key, signature, pid or payload is reported as too long, and an empty public key as too short. The original is valid. |
| Heartbeat.GettersGiveDecodedFields | process/heartbeat/interceptedPeerAuthentication_test.go:121-136 | The getters return the decoded public key, signature, pid and payload. The hash is the hasher's output. The identifiers are [public key, pid]. The message is for the current shard. |
| Heartbeat.SetThenGetComputedShard | process/heartbeat/interceptedPeerAuthentication_test.go:123-125 | The computed shard reads back what was set. Setting it leaves the identifiers, the hash and the `CheckValidity` result unchanged. |
| PeerAuthInterceptor.ChecksPassIffInterceptorArgumentsGiven | process/interceptors/peerAuthenticationInterceptor.go:38-49 | The four interceptor guards all pass exactly when the four dependencies are given. |
| PeerAuthInterceptor.NewPeerAuthenticationInterceptor | process/interceptors/peerAuthenticationInterceptor.go:33-69 | A shared-argument error wins. Next come marshalizer, validator checker, authentication processor and observers throttler, in that order, each with its own error. Success keeps every given collaborator: data factory, whitelist, throttler, marshalizer, validator checker, authentication processor and observers throttler. |
| PeerAuthInterceptor.MissingObserversThrottlerIsThrottlerError | process/interceptors/peerAuthenticationInterceptor.go:47-49 | A missing observers throttler yields an error that wraps `ErrNilInterceptorThrottler`. |
| PeerAuthInterceptor.InterceptItem | process/interceptors/peerAuthenticationInterceptor.go:81-123 | For one item: (1) a data-factory error stops the call with that error and changes nothing else. (2) Data that is not a peer authentication stops the call with the wrong-type error. Both peers are blacklisted once, and no observer slot is taken. (3) `CanProcess` is asked about the item exactly when its public key is not a validator's, and the message is given the computed shard. (4) A skipped observer, or a message neither from its own peer nor whitelisted, is ignored without an observer slot. (5) Otherwise the message goes to the processor inside one observer slot (one start, one end). A processor error stops the call with that error and one "peer info processing error" blacklisting; success continues with the item not ignored. The same outcome matches the reference classification `Classify`. |
| PeerAuthInterceptor.ProcessReceivedMessage | process/interceptors/peerAuthenticationInterceptor.go:73-131 | A pre-processing error is returned with no other effect. Otherwise the loop's error and effects equal the per-item reference's. The general throttler ends exactly once, and the observer throttler's starts equal its ends. |
| PeerAuthInterceptor.ReferenceAtTerminal | process/interceptors/peerAuthenticationInterceptor.go:80-122 | The first item that decodes badly, has the wrong type, or fails processing decides the error. Its blacklisting is the only one. Items after it are never looked at. |
| PeerAuthInterceptor.ReferenceAtEnd | process/interceptors/peerAuthenticationInterceptor.go:124-130 | When every item is looked at, the call returns the observers error if some item was ignored, and no error otherwise. Nothing is blacklisted. |
| PeerAuthInterceptor.RunningStep | process/interceptors/peerAuthenticationInterceptor.go:102-123 | An item that does not end the call adds one observer start/end pair exactly when it was processed, and one `CanProcess` query exactly when it belongs to an observer. |
| PeerAuthInterceptor.OnlyObserversAsked | process/interceptors/peerAuthenticationInterceptor.go:98-104 | `CanProcess` is asked only about items whose public key is not a validator's. |
| PeerAuthInterceptor.AskedPositionsAreObservers | process/interceptors/peerAuthenticationInterceptor.go:102-104 | Every position recorded as asked belongs to an item that reached the observer check as an observer. |
| PeerAuthInterceptor.BlacklistOnlyOnWrongTypeOrProcessingError | process/interceptors/peerAuthenticationInterceptor.go:82-122 | Something is blacklisted exactly when the call ends on a wrong-type item or a processing error. It happens at most once, with one of the two fixed causes, naming the originator and the connected peer. The only blacklistings are those from `ProcessReceivedMessage`'s own two `blackListPeers` calls. |
| PeerAuthInterceptor.CompletedCallReportsIgnored | process/interceptors/peerAuthenticationInterceptor.go:125-130 | After a complete pass, the observers error is returned exactly when some item was ignored, and no error is returned exactly when none was. |
| PeerAuthInterceptor.LaterItemsIrrelevant | process/interceptors/peerAuthenticationInterceptor.go:116-122 | Two messages whose items agree up to and including the one that ends the call have the same outcome. Later items are not processed. |

## Left out

- Cryptography, hashing, marshalling, decoding and public-key serialisation. They are collaborators with arbitrary answers.
- The proof-id table's contents. The table is a parameter of `NewSlashingNotifier`, and the scenario lemmas hold for every table that has the needed entry.
- Notifier.ComputeTxData: the hasher always returns at least two bytes (the `Digest` subset type). Go slices `hash[len(hash)-2:]` with no length check, so a shorter hash would make it panic; that case is not modelled.
- Notifier.CreateShardSlashingTransaction: on failure Go returns a nil `*transaction.Transaction` wrapped in a non-nil `data.TransactionHandler` interface (slashingNotifier.go:110). The model's failure carries no transaction, so that distinction is not modelled.
- The test doubles whose source is not part of this model: the default extractor stub and the stateful signer. The scenarios use collaborators with the same observable answers. The signer that fails on its second call is modelled as one that fails on the transaction's signing bytes.
- The base fork detector's helpers: basic validity, forced-fork activation, the should-add rule at meta-block finality, pruning, `append` and the probable-nonce computation. They are parameters, so no contiguity or tie-break rule is assumed. All but `append` also receive the rounder's current index, as Go's methods can read the rounder. Pruning is seen through the header records and checkpoints it keeps, and `append` through the header records it leaves.
- MetaForkDetector.AddHeader: the validity, forced-fork and should-add helpers see only the header's nonce and round, not the rest of Go's `HeaderHandler`, because `Header` models only those two fields. The should-add rule's `MetaBlockFinality` argument is a constant and is fixed into that helper.
- MetaForkDetector.AddHeader: requires a non-empty checkpoint list, because the base detector's `lastCheckpoint` on an empty list is not part of this model. Every detector built by `NewMetaForkDetector` has one. `AddHeader` keeps it only if pruning keeps the last two checkpoints (`PruningKeepsLastTwo`).
- MetaForkDetector.AddHeader: what becomes of the checkpoints and records after pruning and `append` depends on those helpers, whose code is not part of this model. The properties that need more are stated under two named assumptions: `PruningKeepsLastTwo` (for `ProcessedHeaderBecomesLastCheckpoint`, `AddHeaderKeepsWellFormed` and `TwoProcessedHeaders`) and `AppendsOrKeeps` (for `AcceptedHeaderHashIsKept` and `UnprocessedHeaderOnlyAddsRecords`).
- The final headers and their hashes passed to `AddHeader`. The method does not read them.
- The rounder's clock. Its current index is an argument of `AddHeader`, passed on to the base helpers.
- Locking, concurrency and the real throttlers. Throttlers are call counters, the blacklist is a log, and `CanProcess` answers are a per-item oracle.
- `interceptedData`, the data factory's decoding of an item: it is a pure function of the buffer and the two peer ids, defined outside the interceptor file. Anything it does to those peers itself, such as blacklisting on a bad buffer or running validity checks, is not modelled.
- The shared interceptor argument checks and `preProcessMessage`. The first is a given result; the second is a given answer, and that step's throttler bookkeeping is not modelled.
- Heartbeat.ArgumentChecks: the order buffer, marshalizer, signature handler, hasher is the model's choice. The tests set one argument to nil at a time, so they do not fix an order.
- Heartbeat.CheckValidity: bounds only the fields its tests assert. The public key needs 1 to `MaxSizeInBytes` bytes; the other fields need at most `MaxSizeInBytes`. The order in which fields are checked follows the tests. The implementation file is not part of this model, so minimum lengths of the other fields and any further checks are not modelled.
- `MaxSizeInBytes` is taken as 128. The constant's definition is not part of this model; only its role as the common upper bound is.
- The intercepted message's `String()` rendering and its `Type()` constant.
