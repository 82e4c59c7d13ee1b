/** The slashing notifier's unit scenarios, restated as lemmas over concrete
    collaborators: the constructor's error table, one lemma per injected
    failure, and the two exact-output commitment transactions. */
module NotifierScenarios {
  import opened Wrappers
  import opened Bytes
  import opened Errors
  import opened CommitmentCodec
  import opened Notifier

  const Round: u64 := 100000
  const ShardId: u32 := 2

  /** "signature", the stub signer's answer, as bytes. */
  const SignatureBytes: seq<byte> := [115, 105, 103, 110, 97, 116, 117, 114, 101]
  /** "address", the stub account's address, as bytes. */
  const AddressBytes: seq<byte> := [97, 100, 100, 114, 101, 115, 115]

  lemma SignatureSpelled()
    ensures IsAscii("signature") && SignatureBytes == Ascii("signature")
  {
    var k := "signature";
    assert forall i :: 0 <= i < 9 ==> k[i] as int == SignatureBytes[i] as int;
    var a := Ascii(k);
    assert forall i :: 0 <= i < 9 ==> a[i] == SignatureBytes[i];
  }

  lemma AddressSpelled()
    ensures IsAscii("address") && AddressBytes == Ascii("address")
  {
    var k := "address";
    assert forall i :: 0 <= i < 7 ==> k[i] as int == AddressBytes[i] as int;
    var a := Ascii(k);
    assert forall i :: 0 <= i < 7 ==> a[i] == AddressBytes[i];
  }

  /** The hasher stub of the scenarios: every input hashes to "abcd". */
  function FixedHash(b: seq<byte>): Digest {
    [97, 98, 99, 100]
  }

  /** Extraction result of the exact-output scenarios. */
  function ScenarioData(t: SlashType): ProofTxData {
    ProofTxData(Round, ShardId, t, [])
  }

  /** Arguments with every dependency present: an account with nonce 444 and
      address "address", a signer that answers "signature", signing bytes
      that are empty, and the given extractor and signer. */
  function ScenarioArgs(signer: Signer, extractor: ProofTxDataExtractor): SlashingNotifierArgs {
    SlashingNotifierArgs(
      Some(PrivateKey([])),
      Some(PublicKey(Success([1]))),
      Some((b: seq<byte>) => ""),
      Some(signer),
      Some((address: seq<byte>) => Success(Account(444, AddressBytes))),
      Some(FixedHash),
      Some((tx: Transaction) => Success([])),
      Some(extractor))
  }

  function SignatureSigner(): Signer {
    (k: PrivateKey, m: seq<byte>) => Success(SignatureBytes)
  }

  function ExtractorFor(t: SlashType): ProofTxDataExtractor {
    (p: SlashingProof) => Success(ScenarioData(t))
  }

  function ScenarioNotifier(args: SlashingNotifierArgs, ids: ProofIdTable): SlashingNotifier
    requires AllDependenciesGiven(args)
  {
    NewSlashingNotifier(args, ids).value
  }

  /** Each missing constructor argument is reported with its own error. */
  lemma ConstructorErrorTable(ids: ProofIdTable)
    ensures var args := ScenarioArgs(SignatureSigner(), ExtractorFor(MultipleProposal));
      && NewSlashingNotifier(args.(privateKey := None), ids) == Failure(ErrNilPrivateKey)
      && NewSlashingNotifier(args.(publicKey := None), ids) == Failure(ErrNilPublicKey)
      && NewSlashingNotifier(args.(pubKeyConverter := None), ids) == Failure(ErrNilPubKeyConverter)
      && NewSlashingNotifier(args.(signer := None), ids) == Failure(ErrNilSingleSigner)
      && NewSlashingNotifier(args.(accountAdapter := None), ids) == Failure(ErrNilAccountsAdapter)
      && NewSlashingNotifier(args.(hasher := None), ids) == Failure(ErrNilHasher)
      && NewSlashingNotifier(args.(marshaller := None), ids) == Failure(ErrNilMarshalizer)
      && NewSlashingNotifier(args.(proofTxDataExtractor := None), ids) == Failure(ErrNilProofTxDataExtractor)
      && NewSlashingNotifier(args, ids).Success?
  {
    var args := ScenarioArgs(SignatureSigner(), ExtractorFor(MultipleProposal));
    assert FailsFirstAt(ConstructorChecks(args.(privateKey := None)), 0);
    assert FailsFirstAt(ConstructorChecks(args.(publicKey := None)), 1);
    assert FailsFirstAt(ConstructorChecks(args.(pubKeyConverter := None)), 2);
    assert FailsFirstAt(ConstructorChecks(args.(signer := None)), 3);
    assert FailsFirstAt(ConstructorChecks(args.(accountAdapter := None)), 4);
    assert FailsFirstAt(ConstructorChecks(args.(hasher := None)), 5);
    assert FailsFirstAt(ConstructorChecks(args.(marshaller := None)), 6);
    assert FailsFirstAt(ConstructorChecks(args.(proofTxDataExtractor := None)), 7);
  }

  /** A public-key serialisation error comes back unchanged. */
  lemma PublicKeyErrorScenario(ids: ProofIdTable)
    ensures var args := ScenarioArgs(SignatureSigner(), ExtractorFor(MultipleProposal))
                          .(publicKey := Some(PublicKey(Failure(Custom("pub key error")))));
      CreateShardSlashingTransaction(ScenarioNotifier(args, ids), MultipleHeaderProposalProof([]))
        == Failure(Custom("pub key error"))
  {
  }

  /** An accounts-adapter error comes back unchanged. */
  lemma AccountErrorScenario(ids: ProofIdTable)
    ensures var args := ScenarioArgs(SignatureSigner(), ExtractorFor(MultipleProposal))
                          .(accountAdapter := Some((a: seq<byte>) => Failure(Custom("accounts adapter error"))));
      CreateShardSlashingTransaction(ScenarioNotifier(args, ids), MultipleHeaderProposalProof([]))
        == Failure(Custom("accounts adapter error"))
  {
  }

  /** A marshaller error while computing the signing bytes comes back unchanged. */
  lemma MarshallerErrorScenario(ids: ProofIdTable)
    requires MultipleProposal in ids
    ensures var args := ScenarioArgs(SignatureSigner(), ExtractorFor(MultipleProposal))
                          .(marshaller := Some((tx: Transaction) => Failure(Custom("marshaller error"))));
      CreateShardSlashingTransaction(ScenarioNotifier(args, ids), MultipleHeaderProposalProof([]))
        == Failure(Custom("marshaller error"))
  {
  }

  /** A slash type missing from the table is an invalid proof. */
  lemma UnknownSlashTypeScenario(ids: ProofIdTable)
    requires UnknownSlashType(9999999) !in ids
    ensures var args := ScenarioArgs(SignatureSigner(), ExtractorFor(UnknownSlashType(9999999)));
      CreateShardSlashingTransaction(ScenarioNotifier(args, ids), MultipleHeaderProposalProof([]))
        == Failure(ErrInvalidProof)
  {
  }

  /** A proof of no recognised kind: the extractor rejects it as invalid,
      and that error comes back unchanged. */
  lemma UnrecognisedProofScenario(ids: ProofIdTable)
    ensures var extractor := (p: SlashingProof) =>
                               if p.UnrecognisedProof? then Failure(ErrInvalidProof) else Success(ScenarioData(MultipleProposal));
            var args := ScenarioArgs(SignatureSigner(), extractor);
      CreateShardSlashingTransaction(ScenarioNotifier(args, ids), UnrecognisedProof) == Failure(ErrInvalidProof)
  {
  }

  /** An extractor error comes back unchanged. */
  lemma ExtractorErrorScenario(ids: ProofIdTable)
    ensures var args := ScenarioArgs(SignatureSigner(),
                                     (p: SlashingProof) => Failure(Custom("invalid tx data extractor")));
      CreateShardSlashingTransaction(ScenarioNotifier(args, ids), MultipleHeaderSigningProof([], []))
        == Failure(Custom("invalid tx data extractor"))
  {
  }

  /** A signer that fails at once fails the signature over the proof hash. */
  lemma ProofSignatureErrorScenario(ids: ProofIdTable)
    ensures var args := ScenarioArgs((k: PrivateKey, m: seq<byte>) => Failure(Custom("signature error")),
                                     ExtractorFor(MultipleProposal));
      CreateShardSlashingTransaction(ScenarioNotifier(args, ids), MultipleHeaderProposalProof([]))
        == Failure(Custom("signature error"))
  {
  }

  /** The signer is asked twice, first about the proof hash ("abcd"), then
      about the transaction's signing bytes (empty here). A signer that only
      fails the second request makes the whole call fail with its error. */
  lemma TxSignatureErrorScenario(ids: ProofIdTable)
    requires MultipleProposal in ids
    ensures var signer := (k: PrivateKey, m: seq<byte>) =>
                            if m == [] then Failure(Custom("signature error")) else Success(SignatureBytes);
            var args := ScenarioArgs(signer, ExtractorFor(MultipleProposal));
      CreateShardSlashingTransaction(ScenarioNotifier(args, ids), MultipleHeaderProposalProof([]))
        == Failure(Custom("signature error"))
  {
  }

  /** The data field both exact-output scenarios expect:
      "SlashCommitment@" + id + "@2@100000@cd@signature". */
  function ExpectedData(id: byte): seq<byte> {
    Marker + [At, id, At, 50, At, 49, 48, 48, 48, 48, 48, At, 99, 100, At] + SignatureBytes
  }

  /** The transaction both exact-output scenarios expect, for proof id `id`. */
  function ExpectedTransaction(id: byte): Transaction {
    Transaction(444, 1, None, AddressBytes, 1000000000, 70000, ExpectedData(id), Some(SignatureBytes))
  }

  lemma ScenarioDecimals()
    ensures Decimal(ShardId) == [50]
    ensures Decimal(Round) == [49, 48, 48, 48, 48, 48]
  {
    assert Decimal(10) == [49, 48];
    assert Decimal(100) == [49, 48, 48];
    assert Decimal(1000) == [49, 48, 48, 48];
    assert Decimal(10000) == [49, 48, 48, 48, 48];
  }

  /** The commitment of the exact-output scenarios lays out as the expected data. */
  lemma ScenarioCommitmentBytes(id: byte)
    ensures Layout(Commitment(id, ShardId, Round, [99, 100], SignatureBytes)) == ExpectedData(id)
  {
    ScenarioDecimals();
  }

  lemma ScenarioTransaction(ids: ProofIdTable, t: SlashType)
    requires t in ids
    ensures var args := ScenarioArgs(SignatureSigner(), ExtractorFor(t));
      CreateShardSlashingTransaction(ScenarioNotifier(args, ids), MultipleHeaderProposalProof([]))
        == Success(ExpectedTransaction(ids[t]))
  {
    var args := ScenarioArgs(SignatureSigner(), ExtractorFor(t));
    var n := ScenarioNotifier(args, ids);
    var c := Commitment(ids[t], ShardId, Round, [99, 100], SignatureBytes);
    assert CommitmentOf(n, ScenarioData(t), SignatureBytes) == c;
    ScenarioCommitmentBytes(ids[t]);
    assert Encode(c) == Layout(c);
    assert ComputeTxData(n, ScenarioData(t)) == Success(Encode(c));
  }

  /** Multiple-proposal scenario: round 100000, shard 2, hash "abcd", signer
      answering "signature", account nonce 444 and address "address". */
  lemma MultipleProposalScenario(ids: ProofIdTable)
    requires MultipleProposal in ids
    ensures var args := ScenarioArgs(SignatureSigner(), ExtractorFor(MultipleProposal));
      CreateShardSlashingTransaction(ScenarioNotifier(args, ids), MultipleHeaderProposalProof([]))
        == Success(ExpectedTransaction(ids[MultipleProposal]))
  {
    ScenarioTransaction(ids, MultipleProposal);
  }

  /** Multiple-signing scenario: the same transaction, except for the proof id byte. */
  lemma MultipleSigningScenario(ids: ProofIdTable)
    requires MultipleSigning in ids
    ensures var args := ScenarioArgs(SignatureSigner(), ExtractorFor(MultipleSigning));
      CreateShardSlashingTransaction(ScenarioNotifier(args, ids), MultipleHeaderSigningProof([[112, 117, 98, 75, 101, 121, 49]], []))
        == Success(ExpectedTransaction(ids[MultipleSigning]))
  {
    var args := ScenarioArgs(SignatureSigner(), ExtractorFor(MultipleSigning));
    var n := ScenarioNotifier(args, ids);
    ScenarioTransaction(ids, MultipleSigning);
    assert n.proofTxDataExtractor(MultipleHeaderSigningProof([[112, 117, 98, 75, 101, 121, 49]], []))
        == n.proofTxDataExtractor(MultipleHeaderProposalProof([]));
  }
}
