/** The intercepted peer-authentication message: what its constructor
    rejects, the field-length bounds `CheckValidity` enforces, and what its
    getters answer. Decoding and hashing are collaborators. */
module Heartbeat {
  import opened Wrappers
  import opened Bytes
  import opened Errors

  /** Upper bound on the length of every length-checked field. */
  const MaxSizeInBytes: nat := 128

  /** The decoded message. */
  datatype PeerAuthentication = PeerAuthentication(
    pubkey: seq<byte>,
    signature: seq<byte>,
    pid: seq<byte>,
    hardforkPayload: seq<byte>)

  /** The marshalizer's `Unmarshal` into a peer-authentication message. */
  type Unmarshaller = seq<byte> -> Result<PeerAuthentication, Error>
  /** The hasher of the message's buffer. Nothing here slices the hash, so
      unlike the slashing notifier's hasher it may answer any length. */
  type Hasher = seq<byte> -> seq<byte>
  /** Held by the message; none of the behaviour modelled here consults it,
      so only whether it was given is modelled. */
  datatype PeerSignatureHandler = PeerSignatureHandler(name: string)

  datatype ArgInterceptedPeerAuthentication = ArgInterceptedPeerAuthentication(
    dataBuff: seq<byte>,
    marshalizer: Option<Unmarshaller>,
    peerSignatureHandler: Option<PeerSignatureHandler>,
    hasher: Option<Hasher>)

  datatype InterceptedPeerAuthentication = InterceptedPeerAuthentication(
    peerAuthentication: PeerAuthentication,
    hash: seq<byte>,
    peerSignatureHandler: PeerSignatureHandler,
    computedShardId: u32)

  /** The constructor's argument guards, in order. */
  function ArgumentChecks(arg: ArgInterceptedPeerAuthentication): seq<Check> {
    [ Check(|arg.dataBuff| != 0, ErrNilBuffer),
      Check(arg.marshalizer.Some?, ErrNilMarshalizer),
      Check(arg.peerSignatureHandler.Some?, ErrNilPeerSignatureHandler),
      Check(arg.hasher.Some?, ErrNilHasher) ]
  }

  predicate ArgumentsGiven(arg: ArgInterceptedPeerAuthentication) {
    |arg.dataBuff| != 0 && arg.marshalizer.Some? && arg.peerSignatureHandler.Some? && arg.hasher.Some?
  }

  lemma ChecksPassIffArgumentsGiven(arg: ArgInterceptedPeerAuthentication)
    ensures ArgumentsGiven(arg) <==>
            forall i :: 0 <= i < |ArgumentChecks(arg)| ==> ArgumentChecks(arg)[i].ok
  {
    var c := ArgumentChecks(arg);
    if !ArgumentsGiven(arg) {
      var i := if |arg.dataBuff| == 0 then 0 else if arg.marshalizer.None? then 1
               else if arg.peerSignatureHandler.None? then 2 else 3;
      assert !c[i].ok;
    }
  }

  /** `NewInterceptedPeerAuthentication`: check the arguments, decode the
      buffer and remember the hash of the buffer. The computed shard starts
      at zero. */
  function NewInterceptedPeerAuthentication(arg: ArgInterceptedPeerAuthentication)
    : (r: Result<InterceptedPeerAuthentication, Error>)
    ensures forall i :: FailsFirstAt(ArgumentChecks(arg), i) ==> r == Failure(ArgumentChecks(arg)[i].err)
    ensures ArgumentsGiven(arg) && arg.marshalizer.value(arg.dataBuff).Failure? ==>
              r == Failure(arg.marshalizer.value(arg.dataBuff).error)
    ensures r.Success? <==> ArgumentsGiven(arg) && arg.marshalizer.value(arg.dataBuff).Success?
    ensures r.Success? ==>
      && r.value.peerAuthentication == arg.marshalizer.value(arg.dataBuff).value
      && r.value.hash == arg.hasher.value(arg.dataBuff)
      && r.value.computedShardId == 0
  {
    ChecksPassIffArgumentsGiven(arg);
    match FirstFailure(ArgumentChecks(arg))
    case Some(e) => Failure(e)
    case None =>
      var message :- arg.marshalizer.value(arg.dataBuff);
      Success(InterceptedPeerAuthentication(
        message, arg.hasher.value(arg.dataBuff), arg.peerSignatureHandler.value, 0))
  }

  /** Every length-checked field is within its bounds: a public key of 1 to
      `MaxSizeInBytes` bytes, and a signature, pid and hardfork payload of at
      most `MaxSizeInBytes` bytes. */
  predicate WithinBounds(m: PeerAuthentication) {
    && 1 <= |m.pubkey| <= MaxSizeInBytes
    && |m.signature| <= MaxSizeInBytes
    && |m.pid| <= MaxSizeInBytes
    && |m.hardforkPayload| <= MaxSizeInBytes
  }

  /** The length guards, in the order the fields are checked. */
  function LengthChecks(m: PeerAuthentication): seq<Check> {
    [ Check(|m.pubkey| <= MaxSizeInBytes, ErrPropertyTooLong(PublicKeyProperty)),
      Check(1 <= |m.pubkey|, ErrPropertyTooShort(PublicKeyProperty)),
      Check(|m.signature| <= MaxSizeInBytes, ErrPropertyTooLong(SignatureProperty)),
      Check(|m.pid| <= MaxSizeInBytes, ErrPropertyTooLong(PeerIdProperty)),
      Check(|m.hardforkPayload| <= MaxSizeInBytes, ErrPropertyTooLong(HardforkPayloadProperty)) ]
  }

  /** `CheckValidity`: `None` when every field is within bounds, otherwise
      the error naming the first offending field. */
  function CheckValidity(ipa: InterceptedPeerAuthentication): (r: Option<Error>)
    ensures r.None? <==> WithinBounds(ipa.peerAuthentication)
    ensures var m := ipa.peerAuthentication;
      && (|m.pubkey| > MaxSizeInBytes ==> r == Some(ErrPropertyTooLong(PublicKeyProperty)))
      && (|m.pubkey| == 0 ==> r == Some(ErrPropertyTooShort(PublicKeyProperty)))
    ensures var m := ipa.peerAuthentication;
      1 <= |m.pubkey| <= MaxSizeInBytes ==>
        && (|m.signature| > MaxSizeInBytes ==> r == Some(ErrPropertyTooLong(SignatureProperty)))
        && (|m.signature| <= MaxSizeInBytes && |m.pid| > MaxSizeInBytes ==>
              r == Some(ErrPropertyTooLong(PeerIdProperty)))
        && ((|m.signature| <= MaxSizeInBytes && |m.pid| <= MaxSizeInBytes && |m.hardforkPayload| > MaxSizeInBytes)
            ==> r == Some(ErrPropertyTooLong(HardforkPayloadProperty)))
  {
    LengthChecksLocateFailure(ipa.peerAuthentication);
    FirstFailure(LengthChecks(ipa.peerAuthentication))
  }

  /** Which length guard fails first, field by field. */
  lemma LengthChecksLocateFailure(m: PeerAuthentication)
    ensures WithinBounds(m) <==> forall i :: 0 <= i < |LengthChecks(m)| ==> LengthChecks(m)[i].ok
    ensures |m.pubkey| > MaxSizeInBytes ==> FailsFirstAt(LengthChecks(m), 0)
    ensures |m.pubkey| == 0 ==> FailsFirstAt(LengthChecks(m), 1)
    ensures 1 <= |m.pubkey| <= MaxSizeInBytes && |m.signature| > MaxSizeInBytes ==> FailsFirstAt(LengthChecks(m), 2)
    ensures 1 <= |m.pubkey| <= MaxSizeInBytes && |m.signature| <= MaxSizeInBytes && |m.pid| > MaxSizeInBytes ==>
              FailsFirstAt(LengthChecks(m), 3)
    ensures (&& 1 <= |m.pubkey| <= MaxSizeInBytes && |m.signature| <= MaxSizeInBytes
             && |m.pid| <= MaxSizeInBytes && |m.hardforkPayload| > MaxSizeInBytes)
            ==> FailsFirstAt(LengthChecks(m), 4)
  {
    var checks := LengthChecks(m);
    if !WithinBounds(m) {
      var i := if |m.pubkey| > MaxSizeInBytes then 0 else if |m.pubkey| == 0 then 1
               else if |m.signature| > MaxSizeInBytes then 2 else if |m.pid| > MaxSizeInBytes then 3 else 4;
      assert !checks[i].ok;
    }
  }

  function PublicKey(ipa: InterceptedPeerAuthentication): seq<byte> { ipa.peerAuthentication.pubkey }
  function Signature(ipa: InterceptedPeerAuthentication): seq<byte> { ipa.peerAuthentication.signature }
  function PeerId(ipa: InterceptedPeerAuthentication): seq<byte> { ipa.peerAuthentication.pid }
  function HardforkPayload(ipa: InterceptedPeerAuthentication): seq<byte> { ipa.peerAuthentication.hardforkPayload }
  function Hash(ipa: InterceptedPeerAuthentication): seq<byte> { ipa.hash }
  /** A peer-authentication message concerns every shard. */
  function IsForCurrentShard(ipa: InterceptedPeerAuthentication): bool { true }
  /** The keys the message is filed under: its public key, then its pid. */
  function Identifiers(ipa: InterceptedPeerAuthentication): seq<seq<byte>> {
    [ipa.peerAuthentication.pubkey, ipa.peerAuthentication.pid]
  }
  function ComputedShardID(ipa: InterceptedPeerAuthentication): u32 { ipa.computedShardId }
  function SetComputedShardID(ipa: InterceptedPeerAuthentication, shardId: u32): InterceptedPeerAuthentication {
    ipa.(computedShardId := shardId)
  }

  /** The getters of a freshly decoded message give back the decoded fields,
      the hash of the buffer, and the public key and pid as identifiers. */
  lemma GettersGiveDecodedFields(arg: ArgInterceptedPeerAuthentication, m: PeerAuthentication)
    requires ArgumentsGiven(arg) && arg.marshalizer.value(arg.dataBuff) == Success(m)
    ensures NewInterceptedPeerAuthentication(arg).Success?
    ensures var ipa := NewInterceptedPeerAuthentication(arg).value;
      && PublicKey(ipa) == m.pubkey
      && Signature(ipa) == m.signature
      && PeerId(ipa) == m.pid
      && HardforkPayload(ipa) == m.hardforkPayload
      && Hash(ipa) == arg.hasher.value(arg.dataBuff)
      && Identifiers(ipa) == [m.pubkey, m.pid]
      && IsForCurrentShard(ipa)
  {
  }

  /** The computed shard reads back what was last set, and setting it
      changes nothing else a getter or `CheckValidity` sees. */
  lemma SetThenGetComputedShard(ipa: InterceptedPeerAuthentication, shardId: u32)
    ensures ComputedShardID(SetComputedShardID(ipa, shardId)) == shardId
    ensures var updated := SetComputedShardID(ipa, shardId);
      && Identifiers(updated) == Identifiers(ipa)
      && Hash(updated) == Hash(ipa)
      && CheckValidity(updated) == CheckValidity(ipa)
  {
  }

  /** Any one oversized field, or an empty public key, is enough to fail
      `CheckValidity`, and the error names that field. */
  lemma SingleFieldOutOfBounds(m: PeerAuthentication, ipa: InterceptedPeerAuthentication)
    requires WithinBounds(m)
    ensures var long := seq(MaxSizeInBytes + 1, i => 1 as byte);
      && CheckValidity(ipa.(peerAuthentication := m.(pubkey := long))) == Some(ErrPropertyTooLong(PublicKeyProperty))
      && CheckValidity(ipa.(peerAuthentication := m.(pubkey := []))) == Some(ErrPropertyTooShort(PublicKeyProperty))
      && CheckValidity(ipa.(peerAuthentication := m.(signature := long))) == Some(ErrPropertyTooLong(SignatureProperty))
      && CheckValidity(ipa.(peerAuthentication := m.(pid := long))) == Some(ErrPropertyTooLong(PeerIdProperty))
      && CheckValidity(ipa.(peerAuthentication := m.(hardforkPayload := long)))
           == Some(ErrPropertyTooLong(HardforkPayloadProperty))
      && CheckValidity(ipa.(peerAuthentication := m)) == None
  {
  }
}
