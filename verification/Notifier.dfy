/** The slashing notifier: it turns the data extracted from a slashing proof
    into a signed "commitment" transaction. The transaction reveals only the
    last two bytes of the proof hash and a signature over the full hash, never
    the proof itself.

    Collaborators (key serialisation, account store, hasher, signer, the
    transaction's signing-bytes computation and the proof-data extractor) are
    function-typed fields: the model fixes how their answers are combined,
    never what they answer. */
module Notifier {
  import opened Wrappers
  import opened Bytes
  import opened Errors
  import opened CommitmentCodec

  /** Value of a commitment transaction. */
  const CommitmentProofValue: nat := 1
  /** Gas price of a commitment transaction. */
  const CommitmentProofGasPrice: u64 := 1000000000
  /** Gas limit of a commitment transaction. */
  const CommitmentProofGasLimit: u64 := 70000

  /** Slashing event kinds; `UnknownSlashType` covers any other code. */
  datatype SlashType = MultipleProposal | MultipleSigning | UnknownSlashType(code: nat)

  /** A slashing proof as the detector hands it over; only the extractor reads it. */
  datatype SlashingProof =
    | MultipleHeaderProposalProof(headers: seq<seq<byte>>)
    | MultipleHeaderSigningProof(pubKeys: seq<seq<byte>>, headers: seq<seq<byte>>)
    | UnrecognisedProof

  /** The canonical extraction of a proof: where and when it happened, its
      kind, and its serialisation, which is only ever hashed. */
  datatype ProofTxData = ProofTxData(round: u64, shardId: u32, slashType: SlashType, bytes: seq<byte>)

  /** A proof hash. The CRC is its last two bytes, so the model's hasher
      always yields at least two. */
  type Digest = s: seq<byte> | |s| >= 2 witness [0, 0]

  datatype PrivateKey = PrivateKey(material: seq<byte>)
  /** A public key, characterised by what its `ToByteArray` answers. */
  datatype PublicKey = PublicKey(toByteArray: Result<seq<byte>, Error>)
  /** What `GetExistingAccount` answers: the account's nonce and address. */
  datatype Account = Account(nonce: u64, address: seq<byte>)

  /** A transaction. `rcvAddr` and `signature` are `None` where Go leaves them nil. */
  datatype Transaction = Transaction(
    nonce: u64,
    value: nat,
    rcvAddr: Option<seq<byte>>,
    sndAddr: seq<byte>,
    gasPrice: u64,
    gasLimit: u64,
    data: seq<byte>,
    signature: Option<seq<byte>>)

  type PubkeyConverter = seq<byte> -> string
  type Signer = (PrivateKey, seq<byte>) -> Result<seq<byte>, Error>
  /** `GetExistingAccount` of the accounts adapter. */
  type AccountsAdapter = seq<byte> -> Result<Account, Error>
  type Hasher = seq<byte> -> Digest
  /** `GetDataForSigning` of a transaction: the marshaller applied to the
      transaction's signing view (built with the public key converter). */
  type Marshaller = Transaction -> Result<seq<byte>, Error>
  type ProofTxDataExtractor = SlashingProof -> Result<ProofTxData, Error>
  /** The slash-type to proof-id table. */
  type ProofIdTable = map<SlashType, byte>

  datatype SlashingNotifierArgs = SlashingNotifierArgs(
    privateKey: Option<PrivateKey>,
    publicKey: Option<PublicKey>,
    pubKeyConverter: Option<PubkeyConverter>,
    signer: Option<Signer>,
    accountAdapter: Option<AccountsAdapter>,
    hasher: Option<Hasher>,
    marshaller: Option<Marshaller>,
    proofTxDataExtractor: Option<ProofTxDataExtractor>)

  datatype SlashingNotifier = SlashingNotifier(
    privateKey: PrivateKey,
    publicKey: PublicKey,
    /** Stored but never called here: its one use, rendering addresses in
        the signing view, is already part of `marshaller`. */
    pubKeyConverter: PubkeyConverter,
    signer: Signer,
    accountAdapter: AccountsAdapter,
    hasher: Hasher,
    marshaller: Marshaller,
    proofTxDataExtractor: ProofTxDataExtractor,
    proofIds: ProofIdTable)

  /** The constructor's guards, in the order it runs them. */
  function ConstructorChecks(args: SlashingNotifierArgs): seq<Check> {
    [ Check(args.privateKey.Some?, ErrNilPrivateKey),
      Check(args.publicKey.Some?, ErrNilPublicKey),
      Check(args.pubKeyConverter.Some?, ErrNilPubKeyConverter),
      Check(args.signer.Some?, ErrNilSingleSigner),
      Check(args.accountAdapter.Some?, ErrNilAccountsAdapter),
      Check(args.hasher.Some?, ErrNilHasher),
      Check(args.marshaller.Some?, ErrNilMarshalizer),
      Check(args.proofTxDataExtractor.Some?, ErrNilProofTxDataExtractor) ]
  }

  predicate AllDependenciesGiven(args: SlashingNotifierArgs) {
    && args.privateKey.Some?
    && args.publicKey.Some?
    && args.pubKeyConverter.Some?
    && args.signer.Some?
    && args.accountAdapter.Some?
    && args.hasher.Some?
    && args.marshaller.Some?
    && args.proofTxDataExtractor.Some?
  }

  lemma ChecksPassIffAllGiven(args: SlashingNotifierArgs)
    ensures AllDependenciesGiven(args) <==>
            forall i :: 0 <= i < |ConstructorChecks(args)| ==> ConstructorChecks(args)[i].ok
  {
    var c := ConstructorChecks(args);
    if AllDependenciesGiven(args) {
      forall i | 0 <= i < |c| ensures c[i].ok {
        if i < 4 {
          assert i == 0 || i == 1 || i == 2 || i == 3;
        } else {
          assert i == 4 || i == 5 || i == 6 || i == 7;
        }
      }
    } else {
      var i :=
        if args.privateKey.None? then 0 else if args.publicKey.None? then 1
        else if args.pubKeyConverter.None? then 2 else if args.signer.None? then 3
        else if args.accountAdapter.None? then 4 else if args.hasher.None? then 5
        else if args.marshaller.None? then 6 else 7;
      assert !c[i].ok;
    }
  }

  /** `NewSlashingNotifier`; the proof-id table is handed in rather than read
      from a package-level variable. */
  function NewSlashingNotifier(args: SlashingNotifierArgs, proofIds: ProofIdTable): (r: Result<SlashingNotifier, Error>)
    ensures r.Success? <==> AllDependenciesGiven(args)
    ensures forall i :: FailsFirstAt(ConstructorChecks(args), i) ==> r == Failure(ConstructorChecks(args)[i].err)
    ensures r.Success? ==> && r.value.privateKey == args.privateKey.value
                           && r.value.publicKey == args.publicKey.value
                           && r.value.pubKeyConverter == args.pubKeyConverter.value
                           && r.value.signer == args.signer.value
                           && r.value.accountAdapter == args.accountAdapter.value
                           && r.value.hasher == args.hasher.value
                           && r.value.marshaller == args.marshaller.value
                           && r.value.proofTxDataExtractor == args.proofTxDataExtractor.value
                           && r.value.proofIds == proofIds
  {
    var checks := ConstructorChecks(args);
    ChecksPassIffAllGiven(args);
    match FirstFailure(checks)
    case Some(e) => Failure(e)
    case None =>
      Success(SlashingNotifier(
        args.privateKey.value, args.publicKey.value, args.pubKeyConverter.value, args.signer.value,
        args.accountAdapter.value, args.hasher.value, args.marshaller.value, args.proofTxDataExtractor.value,
        proofIds))
  }

  /** The commitment a successful `computeTxData` writes, given the signature over the proof hash. */
  function CommitmentOf(n: SlashingNotifier, d: ProofTxData, proofSignature: seq<byte>): Commitment
    requires d.slashType in n.proofIds
  {
    var proofHash := n.hasher(d.bytes);
    Commitment(n.proofIds[d.slashType], d.shardId, d.round, proofHash[|proofHash| - 2..], proofSignature)
  }

  /** `computeTxData`: hash the proof bytes, sign the hash, look the proof id
      up, and lay the fields out. The hash is signed before the lookup, so a
      signer failure wins over an unknown slash type. */
  function ComputeTxData(n: SlashingNotifier, d: ProofTxData): (r: Result<seq<byte>, Error>)
    ensures n.signer(n.privateKey, n.hasher(d.bytes)).Failure? ==>
              r == Failure(n.signer(n.privateKey, n.hasher(d.bytes)).error)
    ensures n.signer(n.privateKey, n.hasher(d.bytes)).Success? && d.slashType !in n.proofIds ==>
              r == Failure(ErrInvalidProof)
    ensures r.Success? <==> n.signer(n.privateKey, n.hasher(d.bytes)).Success? && d.slashType in n.proofIds
    ensures r.Success? ==>
              Decode(r.value) == Some(CommitmentOf(n, d, n.signer(n.privateKey, n.hasher(d.bytes)).value))
  {
    var proofHash := n.hasher(d.bytes);
    var proofSignature :- n.signer(n.privateKey, proofHash);
    if d.slashType !in n.proofIds then Failure(ErrInvalidProof)
    else
      var c := CommitmentOf(n, d, proofSignature);
      Success(Encode(c))
  }

  /** The transaction `createUnsignedTx` builds around `data` for the
      notifier's account: fixed value and gas, no receiver, no signature yet. */
  function UnsignedTransaction(account: Account, data: seq<byte>): Transaction {
    Transaction(
      account.nonce, CommitmentProofValue, None, account.address,
      CommitmentProofGasPrice, CommitmentProofGasLimit, data, None)
  }

  /** `createUnsignedTx`: read the notifier's own account and build the
      transaction around the commitment data. */
  function CreateUnsignedTx(n: SlashingNotifier, d: ProofTxData): (r: Result<Transaction, Error>)
    ensures var pk := n.publicKey.toByteArray;
      && (pk.Failure? ==> r == Failure(pk.error))
      && (pk.Success? && n.accountAdapter(pk.value).Failure? ==> r == Failure(n.accountAdapter(pk.value).error))
      && (pk.Success? && n.accountAdapter(pk.value).Success? && ComputeTxData(n, d).Failure? ==>
            r == Failure(ComputeTxData(n, d).error))
    ensures r.Success? <==>
      && n.publicKey.toByteArray.Success?
      && n.accountAdapter(n.publicKey.toByteArray.value).Success?
      && ComputeTxData(n, d).Success?
    ensures r.Success? ==>
      var account := n.accountAdapter(n.publicKey.toByteArray.value).value;
      && r.value.nonce == account.nonce
      && r.value.sndAddr == account.address
      && r.value.value == 1
      && r.value.rcvAddr == None
      && r.value.gasPrice == 1000000000
      && r.value.gasLimit == 70000
      && Decode(r.value.data) == Some(CommitmentOf(n, d, n.signer(n.privateKey, n.hasher(d.bytes)).value))
      && r.value.signature == None
  {
    var pubKey :- n.publicKey.toByteArray;
    var account :- n.accountAdapter(pubKey);
    var txData :- ComputeTxData(n, d);
    Success(UnsignedTransaction(account, txData))
  }

  /** `signTx`: sign the transaction's signing bytes and attach the signature. */
  function SignTx(n: SlashingNotifier, tx: Transaction): (r: Result<Transaction, Error>)
    ensures n.marshaller(tx).Failure? ==> r == Failure(n.marshaller(tx).error)
    ensures n.marshaller(tx).Success? && n.signer(n.privateKey, n.marshaller(tx).value).Failure? ==>
              r == Failure(n.signer(n.privateKey, n.marshaller(tx).value).error)
    ensures r.Success? <==> n.marshaller(tx).Success? && n.signer(n.privateKey, n.marshaller(tx).value).Success?
    // Only the signature changes, and it is the signer's answer on the signing bytes.
    ensures r.Success? ==>
      && r.value.(signature := tx.signature) == tx
      && r.value.signature == Some(n.signer(n.privateKey, n.marshaller(tx).value).value)
  {
    var txBytes :- n.marshaller(tx);
    var signature :- n.signer(n.privateKey, txBytes);
    Success(tx.(signature := Some(signature)))
  }

  /** `createProofTx`: the unsigned transaction, then its signature. */
  function CreateProofTx(n: SlashingNotifier, d: ProofTxData): (r: Result<Transaction, Error>)
    ensures CreateUnsignedTx(n, d).Failure? ==> r == Failure(CreateUnsignedTx(n, d).error)
    ensures CreateUnsignedTx(n, d).Success? && n.marshaller(CreateUnsignedTx(n, d).value).Failure? ==>
      r == Failure(n.marshaller(CreateUnsignedTx(n, d).value).error)
    ensures (&& CreateUnsignedTx(n, d).Success?
             && n.marshaller(CreateUnsignedTx(n, d).value).Success?
             && n.signer(n.privateKey, n.marshaller(CreateUnsignedTx(n, d).value).value).Failure?) ==>
      r == Failure(n.signer(n.privateKey, n.marshaller(CreateUnsignedTx(n, d).value).value).error)
    ensures r.Success? <==>
      && CreateUnsignedTx(n, d).Success?
      && n.marshaller(CreateUnsignedTx(n, d).value).Success?
      && n.signer(n.privateKey, n.marshaller(CreateUnsignedTx(n, d).value).value).Success?
    ensures r.Success? ==>
      && r.value.(signature := None) == CreateUnsignedTx(n, d).value
      && r.value.signature == Some(n.signer(n.privateKey, n.marshaller(r.value.(signature := None)).value).value)
  {
    var tx :- CreateUnsignedTx(n, d);
    SignTx(n, tx)
  }

  /** Every step of `CreateShardSlashingTransaction` succeeds: extraction,
      public-key bytes, account lookup, signature over the proof hash,
      proof-id lookup, signing bytes and signature over the transaction. */
  predicate PipelineSucceeds(n: SlashingNotifier, proof: SlashingProof) {
    var extracted := n.proofTxDataExtractor(proof);
    var pk := n.publicKey.toByteArray;
    && extracted.Success?
    && pk.Success?
    && n.accountAdapter(pk.value).Success?
    && n.signer(n.privateKey, n.hasher(extracted.value.bytes)).Success?
    && extracted.value.slashType in n.proofIds
    && var unsigned := UnsignedTransaction(n.accountAdapter(pk.value).value, ComputeTxData(n, extracted.value).value);
       && n.marshaller(unsigned).Success?
       && n.signer(n.privateKey, n.marshaller(unsigned).value).Success?
  }

  /** `CreateShardSlashingTransaction`. Every failure point hands its error
      back verbatim, and the first failing point wins, in pipeline order:
      extractor, public-key bytes, account lookup, signature over the proof
      hash, proof-id lookup, signing bytes, signature over the transaction.
      No transaction accompanies an error, and when every step succeeds so
      does the call. */
  function CreateShardSlashingTransaction(n: SlashingNotifier, proof: SlashingProof): (r: Result<Transaction, Error>)
    ensures var extracted := n.proofTxDataExtractor(proof);
      extracted.Failure? ==> r == Failure(extracted.error)
    ensures var extracted := n.proofTxDataExtractor(proof);
            var pk := n.publicKey.toByteArray;
      extracted.Success? && pk.Failure? ==> r == Failure(pk.error)
    ensures var extracted := n.proofTxDataExtractor(proof);
            var pk := n.publicKey.toByteArray;
      extracted.Success? && pk.Success? && n.accountAdapter(pk.value).Failure? ==>
        r == Failure(n.accountAdapter(pk.value).error)
    ensures var extracted := n.proofTxDataExtractor(proof);
            var pk := n.publicKey.toByteArray;
      extracted.Success? && pk.Success? && n.accountAdapter(pk.value).Success? ==>
        var d := extracted.value;
        var proofSignature := n.signer(n.privateKey, n.hasher(d.bytes));
        && (proofSignature.Failure? ==> r == Failure(proofSignature.error))
        && (proofSignature.Success? && d.slashType !in n.proofIds ==> r == Failure(ErrInvalidProof))
    ensures var extracted := n.proofTxDataExtractor(proof);
            var pk := n.publicKey.toByteArray;
      && extracted.Success? && pk.Success? && n.accountAdapter(pk.value).Success?
      && n.signer(n.privateKey, n.hasher(extracted.value.bytes)).Success?
      && extracted.value.slashType in n.proofIds
      ==>
        var unsigned := UnsignedTransaction(n.accountAdapter(pk.value).value, ComputeTxData(n, extracted.value).value);
        var txBytes := n.marshaller(unsigned);
        && (txBytes.Failure? ==> r == Failure(txBytes.error))
        && (txBytes.Success? && n.signer(n.privateKey, txBytes.value).Failure? ==>
              r == Failure(n.signer(n.privateKey, txBytes.value).error))
    ensures r.Success? <==> PipelineSucceeds(n, proof)
  {
    var d :- n.proofTxDataExtractor(proof);
    CreateProofTx(n, d)
  }

  /** `CreateMetaSlashingEscalatedTransaction` is not implemented: it yields nil for every proof. */
  function CreateMetaSlashingEscalatedTransaction(n: SlashingNotifier, proof: SlashingProof): (r: Option<Transaction>)
    ensures r.None?
  {
    None
  }

  /** A successful commitment transaction carries the notifier's account
      nonce and address, the fixed value and gas constants, no receiver, data
      that decodes to (proof id, shard, round, last two hash bytes, signature
      over the hash), and a signature over the signing bytes of the same
      transaction without its signature. */
  lemma SuccessfulTransactionShape(n: SlashingNotifier, proof: SlashingProof)
    requires CreateShardSlashingTransaction(n, proof).Success?
    ensures n.proofTxDataExtractor(proof).Success?
    ensures n.publicKey.toByteArray.Success?
    ensures n.accountAdapter(n.publicKey.toByteArray.value).Success?
    ensures var d := n.proofTxDataExtractor(proof).value;
            n.signer(n.privateKey, n.hasher(d.bytes)).Success? && d.slashType in n.proofIds
    ensures var tx := CreateShardSlashingTransaction(n, proof).value;
            var account := n.accountAdapter(n.publicKey.toByteArray.value).value;
      && tx.nonce == account.nonce
      && tx.sndAddr == account.address
      && tx.value == 1
      && tx.rcvAddr == None
      && tx.gasPrice == 1000000000
      && tx.gasLimit == 70000
    ensures var tx := CreateShardSlashingTransaction(n, proof).value;
            var d := n.proofTxDataExtractor(proof).value;
            var proofHash := n.hasher(d.bytes);
      Decode(tx.data) == Some(Commitment(
        n.proofIds[d.slashType], d.shardId, d.round, proofHash[|proofHash| - 2..],
        n.signer(n.privateKey, proofHash).value))
    ensures var tx := CreateShardSlashingTransaction(n, proof).value;
      && n.marshaller(tx.(signature := None)).Success?
      && tx.signature == Some(n.signer(n.privateKey, n.marshaller(tx.(signature := None)).value).value)
  {
  }

  /** Hiding: the proof bytes reach the transaction only through their hash.
      Two proofs whose extractions agree on kind, shard and round and whose
      serialisations hash alike yield the same outcome. */
  lemma CommitmentHidesProofBytes(n: SlashingNotifier, p1: SlashingProof, p2: SlashingProof)
    requires n.proofTxDataExtractor(p1).Success? && n.proofTxDataExtractor(p2).Success?
    requires var d1 := n.proofTxDataExtractor(p1).value;
             var d2 := n.proofTxDataExtractor(p2).value;
             && d1.slashType == d2.slashType && d1.shardId == d2.shardId && d1.round == d2.round
             && n.hasher(d1.bytes) == n.hasher(d2.bytes)
    ensures CreateShardSlashingTransaction(n, p1) == CreateShardSlashingTransaction(n, p2)
  {
    var d1 := n.proofTxDataExtractor(p1).value;
    var d2 := n.proofTxDataExtractor(p2).value;
    assert ComputeTxData(n, d1) == ComputeTxData(n, d2);
    assert CreateUnsignedTx(n, d1) == CreateUnsignedTx(n, d2);
  }
}
