/** The meta-chain fork detector's bookkeeping: `NewMetaForkDetector` and
    `AddHeader`. The detector keeps the headers it has seen (grouped by
    nonce), a list of checkpoints (one per processed header), the final
    checkpoint, the last block round, the probable highest nonce and a flag
    telling whether notarisation of shard blocks is stuck.

    The shared base detector's helpers (basic validity, forced-fork
    activation, the should-add rule, pruning and the probable-nonce
    computation) are parameters: `AddHeader` fixes the order in which they
    run and what is done with their answers, never what they answer. The
    base detector's forced-fork bookkeeping is the type parameter `F`. */
module MetaForkDetector {
  import opened Wrappers
  import opened Bytes
  import opened Errors

  datatype BlockHeaderState = BHReceived | BHReceivedTooLate | BHNotarized | BHProcessed | BHProposed

  /** The parts of a meta header the detector reads. */
  datatype Header = Header(nonce: u64, round: u64)

  /** One header record. */
  datatype HeaderInfo = HeaderInfo(nonce: u64, round: u64, hash: seq<byte>, state: BlockHeaderState)

  datatype Checkpoint = Checkpoint(nonce: u64, round: u64)

  /** The rounder and the blacklist handler are held, never consulted, by
      the code modelled here, so only whether they were given is modelled.
      The rounder's current index is an argument of `AddHeader`, which hands
      it to every base helper that may read the rounder. */
  datatype Rounder = Rounder(name: string)
  datatype BlackListHandler = BlackListHandler(name: string)

  datatype Detector<F> = Detector(
    rounder: Rounder,
    blackListHandler: BlackListHandler,
    headers: map<u64, seq<HeaderInfo>>,
    checkpoints: seq<Checkpoint>,
    finalCheckpoint: Checkpoint,
    lastBlockRound: u64,
    probableHighestNonce: u64,
    isNotarizedShardStuck: bool,
    fork: F)

  /** What the base detector's pruning leaves: the header records and the
      checkpoints it keeps. */
  datatype Pruned = Pruned(headers: map<u64, seq<HeaderInfo>>, checkpoints: seq<Checkpoint>)

  /** The base detector's helpers, each reading the detector as it stands
      when `AddHeader` calls it and, except for `append`, the rounder's
      current index. The should-add rule is the one for the meta
      chain's block finality. Pruning is seen through the records and
      checkpoints it keeps, and `append` through the header records it
      leaves. */
  datatype BaseHelpers<!F> = BaseHelpers(
    checkBlockBasicValidity: (Detector<F>, Header, BlockHeaderState, i64) -> Option<Error>,
    activateForcedForkIfNeeded: (Detector<F>, Header, BlockHeaderState, i64) -> F,
    shouldAddBlockInForkDetector: (Detector<F>, Header, BlockHeaderState, i64) -> Option<Error>,
    removePastOrInvalidRecords: (Detector<F>, i64) -> Pruned,
    append: (Detector<F>, HeaderInfo) -> map<u64, seq<HeaderInfo>>,
    computeProbableHighestNonce: (Detector<F>, i64) -> u64)

  /** What `AddHeader` leaves behind: the detector and the error it returned. */
  datatype AddOutcome<F> = AddOutcome(detector: Detector<F>, err: Option<Error>)

  const ZeroCheckpoint: Checkpoint := Checkpoint(0, 0)

  /** The checkpoint list is never empty, and the final checkpoint is the
      last checkpoint or the one before it. */
  predicate WellFormed<F>(d: Detector<F>) {
    && 1 <= |d.checkpoints|
    && (d.finalCheckpoint == d.checkpoints[|d.checkpoints| - 1]
        || (2 <= |d.checkpoints| && d.finalCheckpoint == d.checkpoints[|d.checkpoints| - 2]))
  }

  function LastCheckpoint<F>(d: Detector<F>): Checkpoint
    requires 1 <= |d.checkpoints|
  {
    d.checkpoints[|d.checkpoints| - 1]
  }

  /** `NewMetaForkDetector`. The rounder is checked before the blacklist
      handler. A new detector has no header records, and the zero checkpoint
      is both its only checkpoint and its final one. */
  function NewMetaForkDetector<F>(rounder: Option<Rounder>, blackListHandler: Option<BlackListHandler>, fork: F)
    : (r: Result<Detector<F>, Error>)
    ensures rounder.None? ==> r == Failure(ErrNilRounder)
    ensures rounder.Some? && blackListHandler.None? ==> r == Failure(ErrNilBlackListHandler)
    ensures r.Success? <==> rounder.Some? && blackListHandler.Some?
    ensures r.Success? ==>
      && r.value.headers == map[]
      && r.value.checkpoints == [ZeroCheckpoint]
      && r.value.finalCheckpoint == ZeroCheckpoint
      && r.value.rounder == rounder.value
      && r.value.blackListHandler == blackListHandler.value
      && r.value.lastBlockRound == 0
      && r.value.probableHighestNonce == 0
      && !r.value.isNotarizedShardStuck
      && r.value.fork == fork
      && WellFormed(r.value)
  {
    if rounder.None? then Failure(ErrNilRounder)
    else if blackListHandler.None? then Failure(ErrNilBlackListHandler)
    else
      var checkpoint := ZeroCheckpoint;
      Success(Detector(rounder.value, blackListHandler.value, map[], [checkpoint], checkpoint, 0, 0, false, fork))
  }

  /** The records kept for `nonce`, none if the nonce was never seen. */
  function RecordsAt(headers: map<u64, seq<HeaderInfo>>, nonce: u64): seq<HeaderInfo> {
    if nonce in headers then headers[nonce] else []
  }

  /** Whether some record kept for `nonce` carries `hash`. */
  predicate HashKeptAt(headers: map<u64, seq<HeaderInfo>>, nonce: u64, hash: seq<byte>) {
    exists i :: 0 <= i < |RecordsAt(headers, nonce)| && RecordsAt(headers, nonce)[i].hash == hash
  }

  /** The records `after` differ from `before` only by `info`: it is added at
      the end of its nonce's list, or that list already holds a record with
      the same hash and stays as it is. No other nonce's list changes. */
  predicate AppendedOrKept(before: map<u64, seq<HeaderInfo>>, after: map<u64, seq<HeaderInfo>>, info: HeaderInfo) {
    && (forall k :: k != info.nonce ==> RecordsAt(after, k) == RecordsAt(before, k))
    && (|| RecordsAt(after, info.nonce) == RecordsAt(before, info.nonce) + [info]
        || (RecordsAt(after, info.nonce) == RecordsAt(before, info.nonce) && HashKeptAt(before, info.nonce, info.hash)))
  }

  /** An assumption about the base detector's `append`, which is not part of
      this model: it treats the records as `AppendedOrKept` says. */
  ghost predicate AppendsOrKeeps<F(!new)>(base: BaseHelpers<F>) {
    forall d: Detector<F>, info: HeaderInfo :: AppendedOrKept(d.headers, base.append(d, info), info)
  }

  /** `kept` ends with the last two checkpoints of `all`, in order. */
  predicate EndsWithLastTwo(kept: seq<Checkpoint>, all: seq<Checkpoint>)
    requires 2 <= |all|
  {
    && 2 <= |kept|
    && kept[|kept| - 1] == all[|all| - 1]
    && kept[|kept| - 2] == all[|all| - 2]
  }

  /** An assumption about the base detector's pruning, which is not part of
      this model: whatever checkpoints it drops, the last two stay at the end. */
  ghost predicate PruningKeepsLastTwo<F(!new)>(base: BaseHelpers<F>) {
    forall d: Detector<F>, roundIndex: i64 | 2 <= |d.checkpoints| ::
      EndsWithLastTwo(base.removePastOrInvalidRecords(d, roundIndex).checkpoints, d.checkpoints)
  }

  /** The processed-header step: the old last checkpoint becomes final, the
      header's checkpoint is added, pruning runs on the result and the stuck
      flag is recorded. The final checkpoint is set before pruning runs, so
      pruning cannot change it. */
  function AdvanceCheckpoint<F>(d: Detector<F>, base: BaseHelpers<F>, header: Header, isNotarizedShardStuck: bool, roundIndex: i64)
    : (r: Detector<F>)
    requires 1 <= |d.checkpoints|
    ensures r.finalCheckpoint == LastCheckpoint(d)
    ensures r.isNotarizedShardStuck == isNotarizedShardStuck
    ensures r.rounder == d.rounder && r.blackListHandler == d.blackListHandler && r.fork == d.fork
  {
    var d1 := d.(finalCheckpoint := LastCheckpoint(d));
    var d2 := d1.(checkpoints := d1.checkpoints + [Checkpoint(header.nonce, header.round)]);
    var pruned := base.removePastOrInvalidRecords(d2, roundIndex);
    var d3 := d2.(headers := pruned.headers, checkpoints := pruned.checkpoints);
    d3.(isNotarizedShardStuck := isNotarizedShardStuck)
  }

  /** `AddHeader`. `header == None` and `headerHash == None` stand for nil;
      `roundIndex` is what the rounder's `Index` answers during the call.
      The final headers and their hashes are accepted by Go's `AddHeader`
      but not read, so they are not parameters here. */
  function AddHeader<F>(
    d: Detector<F>,
    base: BaseHelpers<F>,
    header: Option<Header>,
    headerHash: Option<seq<byte>>,
    state: BlockHeaderState,
    isNotarizedShardStuck: bool,
    roundIndex: i64)
    : (r: AddOutcome<F>)
    requires 1 <= |d.checkpoints|
    // Guards, in order; the first two leave the detector untouched.
    ensures header.None? ==> r == AddOutcome(d, Some(ErrNilHeader))
    ensures header.Some? && headerHash.None? ==> r == AddOutcome(d, Some(ErrNilHash))
    ensures header.Some? && headerHash.Some? ==>
      var validity := base.checkBlockBasicValidity(d, header.value, state, roundIndex);
      validity.Some? ==> r == AddOutcome(d, validity)
    // A should-add rejection comes after the forced-fork check, whose effect remains.
    ensures header.Some? && headerHash.Some? && base.checkBlockBasicValidity(d, header.value, state, roundIndex).None? ==>
      var forked := d.(fork := base.activateForcedForkIfNeeded(d, header.value, state, roundIndex));
      var admit := base.shouldAddBlockInForkDetector(forked, header.value, state, roundIndex);
      admit.Some? ==> r == AddOutcome(forked, admit)
    ensures r.err.None? <==>
      && header.Some? && headerHash.Some?
      && base.checkBlockBasicValidity(d, header.value, state, roundIndex).None?
      && base.shouldAddBlockInForkDetector(
           d.(fork := base.activateForcedForkIfNeeded(d, header.value, state, roundIndex)), header.value, state, roundIndex).None?
    // Effects of an accepted header.
    ensures r.err.None? ==>
      && r.detector.lastBlockRound == ToU64(roundIndex)
      && r.detector.fork == base.activateForcedForkIfNeeded(d, header.value, state, roundIndex)
      && r.detector.rounder == d.rounder
      && r.detector.blackListHandler == d.blackListHandler
    // A processed header: the old last checkpoint becomes final and the
    // header's checkpoint is added before pruning runs; the record is
    // appended after pruning.
    ensures r.err.None? && state == BHProcessed ==>
      var h := header.value;
      var forked := d.(fork := base.activateForcedForkIfNeeded(d, h, state, roundIndex));
      var grown := forked.(finalCheckpoint := LastCheckpoint(d),
                           checkpoints := d.checkpoints + [Checkpoint(h.nonce, h.round)]);
      var pruned := base.removePastOrInvalidRecords(grown, roundIndex);
      && r.detector.finalCheckpoint == LastCheckpoint(d)
      && r.detector.checkpoints == pruned.checkpoints
      && r.detector.isNotarizedShardStuck == isNotarizedShardStuck
      && r.detector.headers
         == base.append(grown.(headers := pruned.headers, checkpoints := pruned.checkpoints,
                               isNotarizedShardStuck := isNotarizedShardStuck),
                        HeaderInfo(h.nonce, h.round, headerHash.value, state))
    // Any other state leaves the checkpoints alone.
    ensures r.err.None? && state != BHProcessed ==>
      && r.detector.finalCheckpoint == d.finalCheckpoint
      && r.detector.checkpoints == d.checkpoints
      && r.detector.isNotarizedShardStuck == d.isNotarizedShardStuck
      && r.detector.headers
         == base.append(d.(fork := base.activateForcedForkIfNeeded(d, header.value, state, roundIndex)),
                        HeaderInfo(header.value.nonce, header.value.round, headerHash.value, state))
  {
    if header.None? then AddOutcome(d, Some(ErrNilHeader))
    else if headerHash.None? then AddOutcome(d, Some(ErrNilHash))
    else
      var h := header.value;
      var validity := base.checkBlockBasicValidity(d, h, state, roundIndex);
      if validity.Some? then AddOutcome(d, validity)
      else
        var forked := d.(fork := base.activateForcedForkIfNeeded(d, h, state, roundIndex));
        var admit := base.shouldAddBlockInForkDetector(forked, h, state, roundIndex);
        if admit.Some? then AddOutcome(forked, admit)
        else
          var advanced := if state == BHProcessed then AdvanceCheckpoint(forked, base, h, isNotarizedShardStuck, roundIndex) else forked;
          var appended := advanced.(headers := base.append(advanced, HeaderInfo(h.nonce, h.round, headerHash.value, state)));
          var probableHighestNonce := base.computeProbableHighestNonce(appended, roundIndex);
          var updated := appended.(lastBlockRound := ToU64(roundIndex));
          AddOutcome(updated.(probableHighestNonce := probableHighestNonce), None)
  }

  /** The probable highest nonce is computed once the record is in place and
      before the last block round changes. */
  lemma ProbableNonceSeesNewRecord<F>(
    d: Detector<F>, base: BaseHelpers<F>, header: Option<Header>, headerHash: Option<seq<byte>>,
    state: BlockHeaderState, isNotarizedShardStuck: bool, roundIndex: i64)
    requires 1 <= |d.checkpoints|
    requires AddHeader(d, base, header, headerHash, state, isNotarizedShardStuck, roundIndex).err.None?
    ensures var r := AddHeader(d, base, header, headerHash, state, isNotarizedShardStuck, roundIndex).detector;
      r.probableHighestNonce
        == base.computeProbableHighestNonce(r.(lastBlockRound := d.lastBlockRound,
                                               probableHighestNonce := d.probableHighestNonce),
                                            roundIndex)
  {
  }

  /** A processed header's checkpoint becomes the last one, right after the
      old last checkpoint, which is now final; provided pruning keeps the last
      two checkpoints. */
  lemma ProcessedHeaderBecomesLastCheckpoint<F(!new)>(
    d: Detector<F>, base: BaseHelpers<F>, h: Header, hash: seq<byte>, isNotarizedShardStuck: bool, roundIndex: i64)
    requires 1 <= |d.checkpoints|
    requires PruningKeepsLastTwo(base)
    requires AddHeader(d, base, Some(h), Some(hash), BHProcessed, isNotarizedShardStuck, roundIndex).err.None?
    ensures var r := AddHeader(d, base, Some(h), Some(hash), BHProcessed, isNotarizedShardStuck, roundIndex).detector;
      && 2 <= |r.checkpoints|
      && LastCheckpoint(r) == Checkpoint(h.nonce, h.round)
      && r.checkpoints[|r.checkpoints| - 2] == LastCheckpoint(d)
      && r.finalCheckpoint == LastCheckpoint(d)
  {
    var forked := d.(fork := base.activateForcedForkIfNeeded(d, h, BHProcessed, roundIndex));
    var grown := forked.(finalCheckpoint := LastCheckpoint(d),
                         checkpoints := d.checkpoints + [Checkpoint(h.nonce, h.round)]);
    assert EndsWithLastTwo(base.removePastOrInvalidRecords(grown, roundIndex).checkpoints, grown.checkpoints);
  }

  /** `AddHeader` keeps the detector well formed, provided pruning keeps the
      last two checkpoints. */
  lemma AddHeaderKeepsWellFormed<F(!new)>(
    d: Detector<F>, base: BaseHelpers<F>, header: Option<Header>, headerHash: Option<seq<byte>>,
    state: BlockHeaderState, isNotarizedShardStuck: bool, roundIndex: i64)
    requires WellFormed(d)
    requires PruningKeepsLastTwo(base)
    ensures WellFormed(AddHeader(d, base, header, headerHash, state, isNotarizedShardStuck, roundIndex).detector)
  {
    var r := AddHeader(d, base, header, headerHash, state, isNotarizedShardStuck, roundIndex);
    if r.err.None? && state == BHProcessed {
      ProcessedHeaderBecomesLastCheckpoint(d, base, header.value, headerHash.value, isNotarizedShardStuck, roundIndex);
    }
  }

  /** A rejected header changes nothing but, after the validity check has
      passed, the forced-fork bookkeeping. */
  lemma RejectedHeaderKeepsBookkeeping<F>(
    d: Detector<F>, base: BaseHelpers<F>, header: Option<Header>, headerHash: Option<seq<byte>>,
    state: BlockHeaderState, isNotarizedShardStuck: bool, roundIndex: i64)
    requires 1 <= |d.checkpoints|
    requires AddHeader(d, base, header, headerHash, state, isNotarizedShardStuck, roundIndex).err.Some?
    ensures var r := AddHeader(d, base, header, headerHash, state, isNotarizedShardStuck, roundIndex).detector;
      r == d.(fork := r.fork)
    ensures var r := AddHeader(d, base, header, headerHash, state, isNotarizedShardStuck, roundIndex).detector;
      r.fork != d.fork ==>
        header.Some? && headerHash.Some? && base.checkBlockBasicValidity(d, header.value, state, roundIndex).None?
  {
  }

  /** An accepted header's hash is kept for its nonce, provided `append`
      adds or keeps records as `AppendedOrKept` says. */
  lemma AcceptedHeaderHashIsKept<F(!new)>(
    d: Detector<F>, base: BaseHelpers<F>, header: Option<Header>, headerHash: Option<seq<byte>>,
    state: BlockHeaderState, isNotarizedShardStuck: bool, roundIndex: i64)
    requires 1 <= |d.checkpoints|
    requires AppendsOrKeeps(base)
    requires AddHeader(d, base, header, headerHash, state, isNotarizedShardStuck, roundIndex).err.None?
    ensures var r := AddHeader(d, base, header, headerHash, state, isNotarizedShardStuck, roundIndex).detector;
      HashKeptAt(r.headers, header.value.nonce, headerHash.value)
  {
    var h := header.value;
    var info := HeaderInfo(h.nonce, h.round, headerHash.value, state);
    var forked := d.(fork := base.activateForcedForkIfNeeded(d, h, state, roundIndex));
    var advanced := if state == BHProcessed then AdvanceCheckpoint(forked, base, h, isNotarizedShardStuck, roundIndex) else forked;
    var after := base.append(advanced, info);
    assert AppendedOrKept(advanced.headers, after, info);
    if RecordsAt(after, info.nonce) == RecordsAt(advanced.headers, info.nonce) + [info] {
      var i := |RecordsAt(after, info.nonce)| - 1;
      assert RecordsAt(after, info.nonce)[i].hash == info.hash;
    }
  }

  /** Headers in any state but processed only add records: every record
      already kept stays, in order, at the front of its nonce's list;
      provided `append` adds or keeps records as `AppendedOrKept` says. */
  lemma UnprocessedHeaderOnlyAddsRecords<F(!new)>(
    d: Detector<F>, base: BaseHelpers<F>, header: Option<Header>, headerHash: Option<seq<byte>>,
    state: BlockHeaderState, isNotarizedShardStuck: bool, roundIndex: i64)
    requires 1 <= |d.checkpoints|
    requires AppendsOrKeeps(base)
    requires state != BHProcessed
    ensures var r := AddHeader(d, base, header, headerHash, state, isNotarizedShardStuck, roundIndex).detector;
      forall k :: RecordsAt(d.headers, k) <= RecordsAt(r.headers, k)
  {
    var r := AddHeader(d, base, header, headerHash, state, isNotarizedShardStuck, roundIndex);
    if r.err.None? {
      var info := HeaderInfo(header.value.nonce, header.value.round, headerHash.value, state);
      var forked := d.(fork := base.activateForcedForkIfNeeded(d, header.value, state, roundIndex));
      assert AppendedOrKept(forked.headers, r.detector.headers, info);
      forall k ensures RecordsAt(d.headers, k) <= RecordsAt(r.detector.headers, k) {
        if k == info.nonce {
          assert RecordsAt(d.headers, k) <= RecordsAt(d.headers, k) + [info];
        }
      }
    }
  }

  /** Two processed headers in a row: the first becomes the final checkpoint
      and the second the last one, provided pruning keeps the last two
      checkpoints. */
  lemma {:induction false} TwoProcessedHeaders<F(!new)>(
    d: Detector<F>, base: BaseHelpers<F>, h1: Header, hash1: seq<byte>, h2: Header, hash2: seq<byte>,
    stuck1: bool, stuck2: bool, index1: i64, index2: i64)
    requires 1 <= |d.checkpoints|
    requires PruningKeepsLastTwo(base)
    requires AddHeader(d, base, Some(h1), Some(hash1), BHProcessed, stuck1, index1).err.None?
    requires var d1 := AddHeader(d, base, Some(h1), Some(hash1), BHProcessed, stuck1, index1).detector;
      1 <= |d1.checkpoints| && AddHeader(d1, base, Some(h2), Some(hash2), BHProcessed, stuck2, index2).err.None?
    ensures var d1 := AddHeader(d, base, Some(h1), Some(hash1), BHProcessed, stuck1, index1).detector;
            var d2 := AddHeader(d1, base, Some(h2), Some(hash2), BHProcessed, stuck2, index2).detector;
      && d2.finalCheckpoint == Checkpoint(h1.nonce, h1.round)
      && LastCheckpoint(d2) == Checkpoint(h2.nonce, h2.round)
      && d2.isNotarizedShardStuck == stuck2
  {
    var d1 := AddHeader(d, base, Some(h1), Some(hash1), BHProcessed, stuck1, index1).detector;
    ProcessedHeaderBecomesLastCheckpoint(d, base, h1, hash1, stuck1, index1);
    ProcessedHeaderBecomesLastCheckpoint(d1, base, h2, hash2, stuck2, index2);
  }
}
