/** The peer-authentication interceptor: the constructor's argument checks
    and `ProcessReceivedMessage`, the admission loop over the items of one
    received message.

    The loop, written step by step as `ProcessReceivedMessage` runs it, is
    checked against a reference that classifies every item on its own
    (`Classify`) and reads the call's outcome off the first item that ends
    the call. Throttlers are seen through how often their
    `StartProcessing`/`EndProcessing` are called, the blacklist through the
    entries written to it, and the observers throttler's `CanProcess` through
    the items it was asked about. */
module PeerAuthInterceptor {
  import opened Wrappers
  import opened Bytes
  import opened Errors
  import Heartbeat

  type PeerId = seq<byte>
  type PeerAuth = Heartbeat.InterceptedPeerAuthentication

  /** A received message: its originator and its payload. */
  datatype Message = Message(peer: PeerId, data: seq<byte>)

  /** What the data factory makes of one buffer: a peer-authentication
      message or data of some other kind. */
  datatype InterceptedData = PeerAuthData(auth: PeerAuth) | OtherData

  /** `GetValidatorWithPublicKey`: the shard it reports and its error; an
      error means the key is not a validator's. */
  datatype ValidatorLookup = ValidatorLookup(shardId: u32, err: Option<Error>)

  type DataFactory = (seq<byte>, PeerId, PeerId) -> Result<InterceptedData, Error>
  type ValidatorChecker = seq<byte> -> ValidatorLookup
  type AuthenticationProcessor = (Message, PeerAuth) -> Option<Error>
  type WhiteListHandler = PeerAuth -> bool

  /** Held by the interceptor; none of the behaviour modelled here consults
      them, so only whether they were given is modelled. */
  datatype Marshalizer = Marshalizer(name: string)
  datatype InterceptorThrottler = InterceptorThrottler(name: string)

  /** The arguments shared with the single-data interceptor, as far as this
      interceptor uses them. */
  datatype ArgSingleDataInterceptor = ArgSingleDataInterceptor(
    dataFactory: DataFactory,
    whiteListRequest: WhiteListHandler,
    throttler: InterceptorThrottler)

  datatype ArgPeerAuthenticationInterceptor = ArgPeerAuthenticationInterceptor(
    base: ArgSingleDataInterceptor,
    marshalizer: Option<Marshalizer>,
    validatorChecker: Option<ValidatorChecker>,
    authenticationProcessor: Option<AuthenticationProcessor>,
    observersThrottler: Option<InterceptorThrottler>)

  datatype Interceptor = Interceptor(
    dataFactory: DataFactory,
    whiteListRequest: WhiteListHandler,
    throttler: InterceptorThrottler,
    marshalizer: Marshalizer,
    validatorChecker: ValidatorChecker,
    peerAuthenticationProcessor: AuthenticationProcessor,
    observersThrottler: InterceptorThrottler)

  /** The error for a missing observers throttler: the generic throttler
      error, wrapped with the throttler's role. */
  const ErrNilObserversThrottler: Error := Wrapped(ErrNilInterceptorThrottler, "for the observers throttler")

  /** The checks that follow the shared argument checks, in order. */
  function InterceptorChecks(arg: ArgPeerAuthenticationInterceptor): seq<Check> {
    [ Check(arg.marshalizer.Some?, ErrNilMarshalizer),
      Check(arg.validatorChecker.Some?, ErrNilValidatorChecker),
      Check(arg.authenticationProcessor.Some?, ErrNilAuthenticationProcessor),
      Check(arg.observersThrottler.Some?, ErrNilObserversThrottler) ]
  }

  predicate InterceptorArgumentsGiven(arg: ArgPeerAuthenticationInterceptor) {
    && arg.marshalizer.Some?
    && arg.validatorChecker.Some?
    && arg.authenticationProcessor.Some?
    && arg.observersThrottler.Some?
  }

  lemma ChecksPassIffInterceptorArgumentsGiven(arg: ArgPeerAuthenticationInterceptor)
    ensures InterceptorArgumentsGiven(arg) <==>
            forall i :: 0 <= i < |InterceptorChecks(arg)| ==> InterceptorChecks(arg)[i].ok
  {
    var c := InterceptorChecks(arg);
    if !InterceptorArgumentsGiven(arg) {
      var i := if arg.marshalizer.None? then 0 else if arg.validatorChecker.None? then 1
               else if arg.authenticationProcessor.None? then 2 else 3;
      assert !c[i].ok;
    }
  }

  /** `NewPeerAuthenticationInterceptor`. `baseCheck` is what the shared
      argument check answers for `arg.base`; its error wins over every other. */
  function NewPeerAuthenticationInterceptor(arg: ArgPeerAuthenticationInterceptor, baseCheck: Option<Error>)
    : (r: Result<Interceptor, Error>)
    ensures baseCheck.Some? ==> r == Failure(baseCheck.value)
    ensures baseCheck.None? ==>
      forall i :: FailsFirstAt(InterceptorChecks(arg), i) ==> r == Failure(InterceptorChecks(arg)[i].err)
    ensures r.Success? <==> baseCheck.None? && InterceptorArgumentsGiven(arg)
    ensures baseCheck.None? && InterceptorArgumentsGiven(arg) ==>
      && r.value.dataFactory == arg.base.dataFactory
      && r.value.whiteListRequest == arg.base.whiteListRequest
      && r.value.throttler == arg.base.throttler
      && r.value.marshalizer == arg.marshalizer.value
      && r.value.validatorChecker == arg.validatorChecker.value
      && r.value.peerAuthenticationProcessor == arg.authenticationProcessor.value
      && r.value.observersThrottler == arg.observersThrottler.value
  {
    ChecksPassIffInterceptorArgumentsGiven(arg);
    if baseCheck.Some? then Failure(baseCheck.value)
    else match FirstFailure(InterceptorChecks(arg))
      case Some(e) => Failure(e)
      case None =>
        Success(Interceptor(
          arg.base.dataFactory, arg.base.whiteListRequest, arg.base.throttler, arg.marshalizer.value,
          arg.validatorChecker.value, arg.authenticationProcessor.value, arg.observersThrottler.value))
  }

  /** A missing observers throttler is reported as a throttler error. */
  lemma MissingObserversThrottlerIsThrottlerError(arg: ArgPeerAuthenticationInterceptor)
    requires arg.marshalizer.Some? && arg.validatorChecker.Some? && arg.authenticationProcessor.Some?
    requires arg.observersThrottler.None?
    ensures NewPeerAuthenticationInterceptor(arg, None).Failure?
    ensures Is(NewPeerAuthenticationInterceptor(arg, None).error, ErrNilInterceptorThrottler)
  {
    assert FailsFirstAt(InterceptorChecks(arg), 3);
  }

  const WrongTypeCause: string := "intercepted data is not of type process.InterceptedPeerInfo"
  const ProcessingErrorCause: string := "peer info processing error"

  /** One blacklisting of the message's originator and of the peer it came
      through, with its cause and the error behind it. */
  datatype Blacklisting = Blacklisting(cause: string, err: Option<Error>, originator: PeerId, fromConnectedPeer: PeerId)

  /** What one call did besides returning: the general throttler's
      `EndProcessing` calls, the observers throttler's `StartProcessing` and
      `EndProcessing` calls, the positions of the items `CanProcess` was asked
      about, the blacklist entries written, and the messages handed to the
      authentication processor. */
  datatype Effects = Effects(
    generalEnds: nat,
    observerStarts: nat,
    observerEnds: nat,
    canProcessQueries: seq<nat>,
    blacklist: seq<Blacklisting>,
    delivered: seq<PeerAuth>)

  const NoEffects: Effects := Effects(0, 0, 0, [], [], [])

  /** The fate of one item, decided by that item alone. */
  datatype Verdict =
    | DecodeFailed(err: Error)
    | WrongType
    | SkippedObserver
    | NotAddressed(isObserver: bool)
    | ProcessFailed(err: Error, auth: PeerAuth, isObserver: bool)
    | Processed(auth: PeerAuth, isObserver: bool)

  /** The item at position `k`, `buff`, decoded as a peer-authentication
      message whose public key is not a validator's. */
  predicate IsObserverItem(pai: Interceptor, message: Message, fromConnectedPeer: PeerId, buff: seq<byte>) {
    var decoded := pai.dataFactory(buff, message.peer, fromConnectedPeer);
    && decoded.Success? && decoded.value.PeerAuthData?
    && pai.validatorChecker(Heartbeat.PublicKey(decoded.value.auth)).err.Some?
  }

  /** The reference classification of the item at position `k`.
      `canProcess(k)` is what the observers throttler's `CanProcess` answers
      if it is asked about that item. */
  function Classify(pai: Interceptor, message: Message, fromConnectedPeer: PeerId, canProcess: nat -> bool,
                    k: nat, buff: seq<byte>): Verdict
  {
    match pai.dataFactory(buff, message.peer, fromConnectedPeer)
    case Failure(e) => DecodeFailed(e)
    case Success(OtherData) => WrongType
    case Success(PeerAuthData(a)) =>
      var lookup := pai.validatorChecker(Heartbeat.PublicKey(a));
      var auth := Heartbeat.SetComputedShardID(a, lookup.shardId);
      var isObserver := lookup.err.Some?;
      if isObserver && !canProcess(k) then SkippedObserver
      else if !(message.peer == Heartbeat.PeerId(auth) || pai.whiteListRequest(auth)) then NotAddressed(isObserver)
      else match pai.peerAuthenticationProcessor(message, auth)
        case Some(e) => ProcessFailed(e, auth, isObserver)
        case None => Processed(auth, isObserver)
  }

  function Verdicts(pai: Interceptor, message: Message, fromConnectedPeer: PeerId, canProcess: nat -> bool,
                    buffs: seq<seq<byte>>): (vs: seq<Verdict>)
    ensures |vs| == |buffs|
  {
    seq(|buffs|, k requires 0 <= k < |buffs| => Classify(pai, message, fromConnectedPeer, canProcess, k, buffs[k]))
  }

  /** The reference verdict of one item. */
  lemma VerdictAt(pai: Interceptor, message: Message, fromConnectedPeer: PeerId, canProcess: nat -> bool,
                  buffs: seq<seq<byte>>, k: nat)
    requires k < |buffs|
    ensures Verdicts(pai, message, fromConnectedPeer, canProcess, buffs)[k]
         == Classify(pai, message, fromConnectedPeer, canProcess, k, buffs[k])
  {
  }

  /** Items that end the call. */
  predicate IsTerminal(v: Verdict) {
    v.DecodeFailed? || v.WrongType? || v.ProcessFailed?
  }

  predicate IsIgnored(v: Verdict) {
    v.SkippedObserver? || v.NotAddressed?
  }

  /** Whether `CanProcess` was asked about the item: exactly the items that
      got past the type check and belong to an observer. */
  predicate AskedCanProcess(v: Verdict) {
    v.SkippedObserver? || ((v.NotAddressed? || v.ProcessFailed? || v.Processed?) && v.isObserver)
  }

  predicate WasDelivered(v: Verdict) {
    v.ProcessFailed? || v.Processed?
  }

  /** Position of the first item that ends the call; `|vs|` if none does. */
  function FirstTerminal(vs: seq<Verdict>): (t: nat)
    ensures t <= |vs|
    ensures t < |vs| ==> IsTerminal(vs[t])
    ensures forall k :: 0 <= k < t ==> !IsTerminal(vs[k])
  {
    if |vs| == 0 then 0
    else if IsTerminal(vs[0]) then 0
    else 1 + FirstTerminal(vs[1..])
  }

  /** The items the call looked at: up to and including the one that ended it. */
  function Examined(vs: seq<Verdict>): (e: seq<Verdict>)
    ensures e <= vs
  {
    var t := FirstTerminal(vs);
    if t < |vs| then vs[..t + 1] else vs
  }

  function CountDelivered(vs: seq<Verdict>): nat {
    if |vs| == 0 then 0
    else CountDelivered(vs[..|vs| - 1]) + (if WasDelivered(vs[|vs| - 1]) then 1 else 0)
  }

  function DeliveredAuths(vs: seq<Verdict>): seq<PeerAuth> {
    if |vs| == 0 then []
    else DeliveredAuths(vs[..|vs| - 1]) + (if WasDelivered(vs[|vs| - 1]) then [vs[|vs| - 1].auth] else [])
  }

  function AskedPositions(vs: seq<Verdict>): seq<nat> {
    if |vs| == 0 then []
    else AskedPositions(vs[..|vs| - 1]) + (if AskedCanProcess(vs[|vs| - 1]) then [|vs| - 1] else [])
  }

  /** The blacklisting the item that ended the call asks for, if any. */
  function TerminalBlacklist(v: Verdict, message: Message, fromConnectedPeer: PeerId): seq<Blacklisting> {
    match v
    case WrongType => [Blacklisting(WrongTypeCause, None, message.peer, fromConnectedPeer)]
    case ProcessFailed(e, _, _) => [Blacklisting(ProcessingErrorCause, Some(e), message.peer, fromConnectedPeer)]
    case _ => []
  }

  function TerminalError(v: Verdict): Error {
    match v
    case DecodeFailed(e) => e
    case ProcessFailed(e, _, _) => e
    case _ => Custom(WrongTypeCause)
  }

  /** The reference outcome: the error of the item that ended the call;
      otherwise, once every item was looked at, the observers error if any
      item was ignored and no error if none was. */
  function ReferenceError(vs: seq<Verdict>): Option<Error> {
    var t := FirstTerminal(vs);
    if t < |vs| then Some(TerminalError(vs[t]))
    else if exists k :: 0 <= k < |vs| && IsIgnored(vs[k]) then Some(ErrPeerAuthenticationForObservers)
    else None
  }

  function ReferenceEffects(vs: seq<Verdict>, message: Message, fromConnectedPeer: PeerId): Effects {
    var t := FirstTerminal(vs);
    var e := Examined(vs);
    Effects(
      1, CountDelivered(e), CountDelivered(e), AskedPositions(e),
      if t < |vs| then TerminalBlacklist(vs[t], message, fromConnectedPeer) else [],
      DeliveredAuths(e))
  }

  /** Only items of observers are ever asked about. */
  lemma {:induction false} AskedPositionsAreObservers(vs: seq<Verdict>, q: nat)
    requires q in AskedPositions(vs)
    ensures q < |vs| && AskedCanProcess(vs[q])
    decreases |vs|
  {
    var n := |vs|;
    if q !in AskedPositions(vs[..n - 1]) {
      assert q == n - 1;
    } else {
      AskedPositionsAreObservers(vs[..n - 1], q);
    }
  }

  lemma AskedMeansObserver(pai: Interceptor, message: Message, fromConnectedPeer: PeerId, canProcess: nat -> bool,
                           k: nat, buff: seq<byte>)
    requires AskedCanProcess(Classify(pai, message, fromConnectedPeer, canProcess, k, buff))
    ensures IsObserverItem(pai, message, fromConnectedPeer, buff)
  {
  }

  /** The effects of looking at the items of `p` without any of them ending the call. */
  function Running(p: seq<Verdict>): Effects {
    Effects(1, CountDelivered(p), CountDelivered(p), AskedPositions(p), [], DeliveredAuths(p))
  }

  lemma RunningStep(vs: seq<Verdict>, i: nat)
    requires i < |vs|
    ensures var r := Running(vs[..i]);
      Running(vs[..i + 1]) == r.(
        observerStarts := r.observerStarts + (if WasDelivered(vs[i]) then 1 else 0),
        observerEnds := r.observerEnds + (if WasDelivered(vs[i]) then 1 else 0),
        canProcessQueries := r.canProcessQueries + (if AskedCanProcess(vs[i]) then [i] else []),
        delivered := r.delivered + (if WasDelivered(vs[i]) then [vs[i].auth] else []))
  {
    assert vs[..i + 1][..i] == vs[..i];
  }

  /** The reference outcome when item `i` is the first to end the call. */
  lemma ReferenceAtTerminal(vs: seq<Verdict>, i: nat, message: Message, fromConnectedPeer: PeerId)
    requires i < |vs| && IsTerminal(vs[i])
    requires forall k :: 0 <= k < i ==> !IsTerminal(vs[k])
    ensures ReferenceError(vs) == Some(TerminalError(vs[i]))
    ensures ReferenceEffects(vs, message, fromConnectedPeer)
         == Running(vs[..i + 1]).(blacklist := TerminalBlacklist(vs[i], message, fromConnectedPeer))
  {
    FirstTerminalAt(vs, i);
  }

  /** The reference outcome when no item ends the call. */
  lemma ReferenceAtEnd(vs: seq<Verdict>, message: Message, fromConnectedPeer: PeerId)
    requires forall k :: 0 <= k < |vs| ==> !IsTerminal(vs[k])
    ensures ReferenceError(vs)
         == if exists k :: 0 <= k < |vs| && IsIgnored(vs[k]) then Some(ErrPeerAuthenticationForObservers) else None
    ensures ReferenceEffects(vs, message, fromConnectedPeer) == Running(vs)
  {
    NoTerminalMeansAllExamined(vs);
  }

  /** Validators never reach `CanProcess`: every item the reference asks
      about decodes to a peer-authentication message of an observer. */
  lemma OnlyObserversAsked(pai: Interceptor, message: Message, fromConnectedPeer: PeerId, canProcess: nat -> bool,
                           buffs: seq<seq<byte>>)
    ensures var vs := Verdicts(pai, message, fromConnectedPeer, canProcess, buffs);
      forall q :: q in ReferenceEffects(vs, message, fromConnectedPeer).canProcessQueries ==>
        q < |buffs| && IsObserverItem(pai, message, fromConnectedPeer, buffs[q])
  {
    var vs := Verdicts(pai, message, fromConnectedPeer, canProcess, buffs);
    var e := Examined(vs);
    forall q | q in ReferenceEffects(vs, message, fromConnectedPeer).canProcessQueries
      ensures q < |buffs| && IsObserverItem(pai, message, fromConnectedPeer, buffs[q])
    {
      AskedPositionsAreObservers(e, q);
      assert e[q] == vs[q];
      VerdictAt(pai, message, fromConnectedPeer, canProcess, buffs, q);
      AskedMeansObserver(pai, message, fromConnectedPeer, canProcess, q, buffs[q]);
    }
  }

  /** How handling one item ended: the call goes on (noting whether the item
      was ignored), or it stops with an error and the blacklisting it asked for. */
  datatype ItemOutcome = Continue(ignored: bool) | Stop(err: Error, blacklist: seq<Blacklisting>)

  /** The body of the loop in `ProcessReceivedMessage` for the item `buff`
      at position `k`, statement by statement. It takes the observer-throttler
      counts, the `CanProcess` queries and the delivered messages so far, and
      returns them updated. */
  method InterceptItem(pai: Interceptor, message: Message, fromConnectedPeer: PeerId, canProcess: nat -> bool,
                       k: nat, buff: seq<byte>, starts: nat, ends: nat, asked: seq<nat>, delivered: seq<PeerAuth>)
      returns (outcome: ItemOutcome, starts': nat, ends': nat, asked': seq<nat>, delivered': seq<PeerAuth>)
    // A buffer the data factory rejects stops the call with its error; nothing else happens.
    ensures var decoded := pai.dataFactory(buff, message.peer, fromConnectedPeer);
      decoded.Failure? ==>
        && outcome == Stop(decoded.error, [])
        && starts' == starts && ends' == ends && asked' == asked && delivered' == delivered
    // Data of another type stops the call and blacklists both peers, before any observer slot.
    ensures var decoded := pai.dataFactory(buff, message.peer, fromConnectedPeer);
      decoded.Success? && decoded.value.OtherData? ==>
        && outcome == Stop(Custom(WrongTypeCause), [Blacklisting(WrongTypeCause, None, message.peer, fromConnectedPeer)])
        && starts' == starts && ends' == ends && asked' == asked && delivered' == delivered
    // A peer-authentication message: `CanProcess` is asked exactly when the
    // public key is not a validator's; the message gets its computed shard.
    ensures var decoded := pai.dataFactory(buff, message.peer, fromConnectedPeer);
      decoded.Success? && decoded.value.PeerAuthData? ==>
        var lookup := pai.validatorChecker(Heartbeat.PublicKey(decoded.value.auth));
        var auth := Heartbeat.SetComputedShardID(decoded.value.auth, lookup.shardId);
        var isObserver := lookup.err.Some?;
        var skipped := isObserver && !canProcess(k);
        var addressed := message.peer == Heartbeat.PeerId(auth) || pai.whiteListRequest(auth);
        && asked' == asked + (if isObserver then [k] else [])
        // A skipped observer, or a message neither from its own peer nor
        // whitelisted, is ignored without taking an observer slot.
        && (skipped || !addressed ==>
              outcome == Continue(true) && starts' == starts && ends' == ends && delivered' == delivered)
        // Otherwise it is processed inside one observer slot, which is released either way.
        && (!skipped && addressed ==>
              && starts' == starts + 1 && ends' == ends + 1 && delivered' == delivered + [auth]
              && outcome == match pai.peerAuthenticationProcessor(message, auth)
                            case Some(e) => Stop(e, [Blacklisting(ProcessingErrorCause, Some(e), message.peer, fromConnectedPeer)])
                            case None => Continue(false))
    // The same outcome, read off the reference classification.
    ensures var v := Classify(pai, message, fromConnectedPeer, canProcess, k, buff);
      && (outcome.Stop? <==> IsTerminal(v))
      && (outcome.Stop? ==> outcome.err == TerminalError(v)
                            && outcome.blacklist == TerminalBlacklist(v, message, fromConnectedPeer))
      && (outcome.Continue? ==> (outcome.ignored <==> IsIgnored(v)))
    ensures var v := Classify(pai, message, fromConnectedPeer, canProcess, k, buff);
      && starts' == starts + (if WasDelivered(v) then 1 else 0)
      && ends' == ends + (if WasDelivered(v) then 1 else 0)
      && asked' == asked + (if AskedCanProcess(v) then [k] else [])
      && delivered' == delivered + (if WasDelivered(v) then [v.auth] else [])
  {
    starts', ends', asked', delivered' := starts, ends, asked, delivered;
    var decoded := pai.dataFactory(buff, message.peer, fromConnectedPeer);
    if decoded.Failure? {
      return Stop(decoded.error, []), starts', ends', asked', delivered';
    }
    if decoded.value.OtherData? {
      var entry := Blacklisting(WrongTypeCause, None, message.peer, fromConnectedPeer);
      return Stop(Custom(WrongTypeCause), [entry]), starts', ends', asked', delivered';
    }
    var lookup := pai.validatorChecker(Heartbeat.PublicKey(decoded.value.auth));
    var peerAuth := Heartbeat.SetComputedShardID(decoded.value.auth, lookup.shardId);
    var isObserver := lookup.err.Some?;
    if isObserver {
      asked' := asked' + [k];
    }
    if isObserver && !canProcess(k) {
      return Continue(true), starts', ends', asked', delivered';
    }
    var shouldProcessAuthMessage := message.peer == Heartbeat.PeerId(peerAuth) || pai.whiteListRequest(peerAuth);
    if !shouldProcessAuthMessage {
      return Continue(true), starts', ends', asked', delivered';
    }
    starts' := starts' + 1;
    delivered' := delivered' + [peerAuth];
    var errProcess := pai.peerAuthenticationProcessor(message, peerAuth);
    if errProcess.Some? {
      ends' := ends' + 1;
      var entry := Blacklisting(ProcessingErrorCause, errProcess, message.peer, fromConnectedPeer);
      return Stop(errProcess.value, [entry]), starts', ends', asked', delivered';
    }
    ends' := ends' + 1;
    return Continue(false), starts', ends', asked', delivered';
  }

  /** `ProcessReceivedMessage`: pre-process the message, hand each item to
      `InterceptItem` until one ends the call, end the general throttler
      once, and report whether any item was ignored. `preProcessed` is what
      the shared pre-processing answers for the message (the item buffers or
      an error). */
  method ProcessReceivedMessage(pai: Interceptor, message: Message, fromConnectedPeer: PeerId,
                                preProcessed: Result<seq<seq<byte>>, Error>, canProcess: nat -> bool)
      returns (err: Option<Error>, effects: Effects)
    // A failed pre-processing is returned as-is and nothing else happens.
    ensures preProcessed.Failure? ==> err == Some(preProcessed.error) && effects == NoEffects
    // Otherwise the outcome is the reference's.
    ensures preProcessed.Success? ==>
      var vs := Verdicts(pai, message, fromConnectedPeer, canProcess, preProcessed.value);
      && err == ReferenceError(vs)
      && effects == ReferenceEffects(vs, message, fromConnectedPeer)
    // The general throttler is ended exactly once and observer slots are paired.
    ensures preProcessed.Success? ==> effects.generalEnds == 1
    ensures effects.observerStarts == effects.observerEnds
  {
    if preProcessed.Failure? {
      return Some(preProcessed.error), NoEffects;
    }
    var buffs := preProcessed.value;
    ghost var vs := Verdicts(pai, message, fromConnectedPeer, canProcess, buffs);
    var observerStarts, observerEnds := 0, 0;
    var asked: seq<nat> := [];
    var delivered: seq<PeerAuth> := [];
    var authMessageIgnored := false;
    var i := 0;
    while i < |buffs|
      invariant 0 <= i <= |buffs|
      invariant forall k :: 0 <= k < i ==> !IsTerminal(vs[k])
      invariant Effects(1, observerStarts, observerEnds, asked, [], delivered) == Running(vs[..i])
      invariant authMessageIgnored <==> exists k :: 0 <= k < i && IsIgnored(vs[k])
    {
      VerdictAt(pai, message, fromConnectedPeer, canProcess, buffs, i);
      RunningStep(vs, i);
      var outcome;
      outcome, observerStarts, observerEnds, asked, delivered :=
        InterceptItem(pai, message, fromConnectedPeer, canProcess, i, buffs[i],
                      observerStarts, observerEnds, asked, delivered);
      if outcome.Stop? {
        ReferenceAtTerminal(vs, i, message, fromConnectedPeer);
        return Some(outcome.err), Effects(1, observerStarts, observerEnds, asked, outcome.blacklist, delivered);
      }
      if outcome.ignored {
        authMessageIgnored := true;
      }
      i := i + 1;
    }
    assert vs[..i] == vs;
    ReferenceAtEnd(vs, message, fromConnectedPeer);
    if authMessageIgnored {
      return Some(ErrPeerAuthenticationForObservers), Effects(1, observerStarts, observerEnds, asked, [], delivered);
    }
    return None, Effects(1, observerStarts, observerEnds, asked, [], delivered);
  }

  lemma FirstTerminalAt(vs: seq<Verdict>, i: nat)
    requires i < |vs| && IsTerminal(vs[i])
    requires forall k :: 0 <= k < i ==> !IsTerminal(vs[k])
    ensures FirstTerminal(vs) == i
    ensures Examined(vs) == vs[..i + 1]
  {
  }

  lemma NoTerminalMeansAllExamined(vs: seq<Verdict>)
    requires forall k :: 0 <= k < |vs| ==> !IsTerminal(vs[k])
    ensures FirstTerminal(vs) == |vs| && Examined(vs) == vs
  {
  }

  /** Only an item of the wrong type or a processing error blacklists, and
      then once; decode failures and ignored items never do. */
  lemma BlacklistOnlyOnWrongTypeOrProcessingError(vs: seq<Verdict>, message: Message, fromConnectedPeer: PeerId)
    ensures var b := ReferenceEffects(vs, message, fromConnectedPeer).blacklist;
      && |b| <= 1
      && (b != [] <==> FirstTerminal(vs) < |vs| && (vs[FirstTerminal(vs)].WrongType? || vs[FirstTerminal(vs)].ProcessFailed?))
      && (b != [] ==> b[0].cause in {WrongTypeCause, ProcessingErrorCause}
                      && b[0].originator == message.peer && b[0].fromConnectedPeer == fromConnectedPeer)
  {
  }

  /** A call that looks at every item returns the observers error exactly
      when some item was ignored, and no error otherwise. */
  lemma CompletedCallReportsIgnored(vs: seq<Verdict>)
    requires forall k :: 0 <= k < |vs| ==> !IsTerminal(vs[k])
    ensures ReferenceError(vs) == Some(ErrPeerAuthenticationForObservers) <==>
            exists k :: 0 <= k < |vs| && IsIgnored(vs[k])
    ensures ReferenceError(vs) == None <==> forall k :: 0 <= k < |vs| ==> !IsIgnored(vs[k])
  {
    NoTerminalMeansAllExamined(vs);
  }

  lemma SamePrefixSameFirstTerminal(vs: seq<Verdict>, ws: seq<Verdict>, t: nat)
    requires t < |vs| && t < |ws| && vs[..t + 1] == ws[..t + 1]
    requires IsTerminal(vs[t]) && forall k :: 0 <= k < t ==> !IsTerminal(vs[k])
    ensures ws[t] == vs[t] && IsTerminal(ws[t]) && forall k :: 0 <= k < t ==> !IsTerminal(ws[k])
  {
    assert ws[t] == ws[..t + 1][t];
    forall k | 0 <= k < t ensures !IsTerminal(ws[k]) {
      assert ws[k] == ws[..t + 1][k];
    }
  }

  /** The items after the one that ends the call play no part: two calls
      whose items agree up to and including that one have the same outcome. */
  lemma LaterItemsIrrelevant(vs: seq<Verdict>, ws: seq<Verdict>, t: nat, message: Message, fromConnectedPeer: PeerId)
    requires t < |vs| && IsTerminal(vs[t]) && forall k :: 0 <= k < t ==> !IsTerminal(vs[k])
    requires t < |ws| && vs[..t + 1] == ws[..t + 1]
    ensures ReferenceError(ws) == ReferenceError(vs)
    ensures ReferenceEffects(ws, message, fromConnectedPeer) == ReferenceEffects(vs, message, fromConnectedPeer)
  {
    SamePrefixSameFirstTerminal(vs, ws, t);
    ReferenceAtTerminal(vs, t, message, fromConnectedPeer);
    ReferenceAtTerminal(ws, t, message, fromConnectedPeer);
  }
}
