/**
 The authorisation check of the validation package: every program attached
 to a signable object must hash to the code hash claimed for it and, run on a
 fresh engine, halt with exactly one true value on its evaluation stack.
 A direct signature check sits beside it.
 */
module Validation {
  import opened Wrappers
  import opened Collaborators

  /**
   Why a verification failed. The source reports only error messages; this
   classification follows its branches, and the index is the program's
   position in the object.
   */
  datatype VerifyError =
    | FetchError(cause: SourceError)
    | LengthMismatch
    | HashMismatch(index: nat)
    | NotHalted(index: nat)
    | BadStackCount(index: nat)
    | ScriptFalse(index: nat)
    | SignatureInvalid(reason: CryptoError)
  {
    /** True for the errors raised while checking one program. */
    predicate IsIndexed() {
      HashMismatch? || NotHalted? || BadStackCount? || ScriptFalse?
    }
  }

  /** An observable step of the check: a code hash computed, or an engine run. */
  datatype Event = HashedCode(index: nat) | Executed(index: nat, loaded: seq<Segment>)

  /** The verdict of one program: its failure, if any, and the steps taken for it. */
  datatype Step = Step(failure: Option<VerifyError>, events: seq<Event>)

  /** The verdict of a whole check and the steps it took, in order. */
  datatype Run = Run(outcome: Outcome<VerifyError>, trace: seq<Event>)

  // ---------------------------------------------------------------------------
  // Reference definitions: what the check is meant to decide and to do.
  // ---------------------------------------------------------------------------

  /** The segments a program's engine is meant to hold: its code, then its parameter. */
  function LoadedSegments(p: Program): seq<Segment>
  {
    [Segment(p.code, false), Segment(p.parameter, true)]
  }

  /** The final record of running program `p` on its own engine for `data`. */
  function RunProgram(sv: Services, data: SignableData, p: Program): ExecutionRecord
  {
    sv.execute(data, LoadedSegments(p))
  }

  /** Program `p` authorises its claim: the hash matches and the script halts with a single true. */
  predicate Accepts(sv: Services, data: SignableData, claimed: Uint160, p: Program)
  {
    && CodeHash(sv, p.code) == claimed
    && RunProgram(sv, data, p).state == HALT
    && RunProgram(sv, data, p).stackCount == 1
    && RunProgram(sv, data, p).result
  }

  /** Every claim is authorised by the program at the same index. */
  predicate AllAccept(sv: Services, data: SignableData, hashes: seq<Uint160>, programs: seq<Program>)
    requires |hashes| == |programs|
  {
    forall j :: 0 <= j < |programs| ==> Accepts(sv, data, hashes[j], programs[j])
  }

  /** The object is authorised: hashes fetched, counts equal, every pair accepted. */
  predicate Authorized(sv: Services, data: SignableData)
  {
    && data.programHashes.Success?
    && |data.programHashes.value| == |data.programs|
    && AllAccept(sv, data, data.programHashes.value, data.programs)
  }

  /** The steps taken for index `i` when its hash matches: hash the code, then run the engine. */
  function ProgramSteps(programs: seq<Program>, i: nat): seq<Event>
    requires i < |programs|
  {
    [HashedCode(i), Executed(i, LoadedSegments(programs[i]))]
  }

  /** Every step a successful check takes from index `i` on, index by index. */
  function ScheduleFrom(programs: seq<Program>, i: nat): (s: seq<Event>)
    requires i <= |programs|
    decreases |programs| - i
    ensures |s| == 2 * (|programs| - i)
  {
    if i == |programs| then [] else ProgramSteps(programs, i) + ScheduleFrom(programs, i + 1)
  }

  /** Every step a full, successful check takes. */
  function Schedule(programs: seq<Program>): seq<Event>
  {
    ScheduleFrom(programs, 0)
  }

  /**
   How far into `Schedule` a check with this outcome goes: the whole of it on
   success, nothing on a structural failure, up to the hash of index `i` on a
   hash mismatch there, and up to the engine run of index `i` on an engine failure.
   */
  function TraceEnd(o: Outcome<VerifyError>, n: nat): nat
  {
    match o
    case Pass => 2 * n
    case Fail(e) =>
      match e
      case HashMismatch(i) => 2 * i + 1
      case NotHalted(i) => 2 * i + 2
      case BadStackCount(i) => 2 * i + 2
      case ScriptFalse(i) => 2 * i + 2
      case _ => 0
  }

  // ---------------------------------------------------------------------------
  // The check itself.
  // ---------------------------------------------------------------------------

  /**
   Checks the program at index `i` against its claim: hash comparison first;
   only on a match is a fresh engine built, loaded with the code and then the
   parameter, and run; its state, stack depth and result are tested in that order.
   */
  function CheckProgram(sv: Services, data: SignableData, claimed: Uint160, p: Program, i: nat): (r: Step)
    ensures r.failure.None? <==> Accepts(sv, data, claimed, p)
    ensures r.failure == Some(HashMismatch(i)) <==> CodeHash(sv, p.code) != claimed
    ensures r.failure == Some(NotHalted(i)) <==>
      CodeHash(sv, p.code) == claimed && RunProgram(sv, data, p).state != HALT
    ensures r.failure == Some(BadStackCount(i)) <==>
      && CodeHash(sv, p.code) == claimed && RunProgram(sv, data, p).state == HALT
      && RunProgram(sv, data, p).stackCount != 1
    ensures r.failure == Some(ScriptFalse(i)) <==>
      && CodeHash(sv, p.code) == claimed && RunProgram(sv, data, p).state == HALT
      && RunProgram(sv, data, p).stackCount == 1 && !RunProgram(sv, data, p).result
    ensures r.failure.Some? ==> r.failure.value.IsIndexed() && r.failure.value.index == i
    ensures r.failure == Some(HashMismatch(i)) ==> r.events == [HashedCode(i)]
    ensures r.failure != Some(HashMismatch(i)) ==>
      r.events == [HashedCode(i), Executed(i, LoadedSegments(p))]
  {
    var temp := CodeHash(sv, p.code);
    if claimed != temp then
      Step(Some(HashMismatch(i)), [HashedCode(i)])
    else
      var se := LoadCode(LoadCode(NewEngine(data), p.code, false), p.parameter, true);
      assert se.loaded == LoadedSegments(p);
      var record := Execute(sv, se);
      var events := [HashedCode(i), Executed(i, se.loaded)];
      if record.state != HALT then
        Step(Some(NotHalted(i)), events)
      else if record.stackCount != 1 then
        Step(Some(BadStackCount(i)), events)
      else if !record.result then
        Step(Some(ScriptFalse(i)), events)
      else
        Step(None, events)
  }

  /**
   The loop over indices `i..`: stops at the first program that fails and
   reports it; otherwise carries on to the next index.
   */
  function CheckFrom(sv: Services, data: SignableData, hashes: seq<Uint160>, programs: seq<Program>, i: nat): (r: Run)
    requires |hashes| == |programs| && i <= |programs|
    decreases |programs| - i
    ensures r.outcome.Pass? <==>
      forall j :: i <= j < |programs| ==> Accepts(sv, data, hashes[j], programs[j])
    ensures r.outcome.Fail? ==>
      && r.outcome.error.IsIndexed()
      && i <= r.outcome.error.index < |programs|
      && (forall j :: i <= j < r.outcome.error.index ==> Accepts(sv, data, hashes[j], programs[j]))
      && CheckProgram(sv, data, hashes[r.outcome.error.index], programs[r.outcome.error.index],
                      r.outcome.error.index).failure == Some(r.outcome.error)
    ensures 2 * i <= TraceEnd(r.outcome, |programs|) <= 2 * |programs|
    ensures r.trace == ScheduleFrom(programs, i)[.. TraceEnd(r.outcome, |programs|) - 2 * i]
  {
    if i == |programs| then
      Run(Pass, [])
    else
      var step := CheckProgram(sv, data, hashes[i], programs[i], i);
      var later := ScheduleFrom(programs, i + 1);
      assert ScheduleFrom(programs, i) == ProgramSteps(programs, i) + later;
      if step.failure.Some? then
        Run(Fail(step.failure.value), step.events)
      else
        var rest := CheckFrom(sv, data, hashes, programs, i + 1);
        var n := TraceEnd(rest.outcome, |programs|) - 2 * (i + 1);
        assert (ProgramSteps(programs, i) + later)[.. 2 + n] == ProgramSteps(programs, i) + later[.. n];
        Run(rest.outcome, step.events + rest.trace)
  }

  /**
   Verifies a signable object: fails with the fetch error if the program
   hashes cannot be fetched, with `LengthMismatch` if there are not as many
   programs as hashes, and otherwise checks the programs in index order.
   `Pass` stands for the source's `(true, nil)`, `Fail(e)` for `(false, e)`.
   */
  function VerifySignableData(sv: Services, data: SignableData): (r: Run)
    ensures r.outcome.Pass? <==> Authorized(sv, data)
    ensures data.programHashes.Failure? ==>
      r == Run(Fail(FetchError(data.programHashes.error)), [])
    ensures data.programHashes.Success? && |data.programHashes.value| != |data.programs| ==>
      r == Run(Fail(LengthMismatch), [])
    ensures r.outcome.Fail? && r.outcome.error.IsIndexed() ==>
      && Authorized(sv, data) == false
      && data.programHashes.Success?
      && |data.programHashes.value| == |data.programs|
      && r.outcome.error.index < |data.programs|
      && (forall j :: 0 <= j < r.outcome.error.index ==>
            Accepts(sv, data, data.programHashes.value[j], data.programs[j]))
      && !Accepts(sv, data, data.programHashes.value[r.outcome.error.index],
                  data.programs[r.outcome.error.index])
    ensures data.programHashes.Success? && |data.programHashes.value| == |data.programs| && r.outcome.Fail? ==>
      && r.outcome.error.IsIndexed()
      && r.outcome.error.index < |data.programs|
      && CheckProgram(sv, data, data.programHashes.value[r.outcome.error.index],
                      data.programs[r.outcome.error.index], r.outcome.error.index).failure == Some(r.outcome.error)
    ensures TraceEnd(r.outcome, |data.programs|) <= 2 * |data.programs|
    ensures r.trace == Schedule(data.programs)[.. TraceEnd(r.outcome, |data.programs|)]
  {
    match data.programHashes
    case Failure(err) => Run(Fail(FetchError(err)), [])
    case Success(hashes) =>
      var programs := data.programs;
      if |hashes| != |programs| then
        Run(Fail(LengthMismatch), [])
      else
        CheckFrom(sv, data, hashes, data.programs, 0)
  }

  /**
   Checks `signature` over the object's hash data under `pubkey`; fails with
   the primitive's error when it reports one.
   */
  function VerifySignature(sv: Services, data: SignableData, pubkey: PubKey, signature: Bytes): (r: Outcome<VerifyError>)
    ensures r.Pass? <==> sv.cryptoVerify(pubkey, data.hashData, signature).None?
    ensures r.Fail? ==> r.error == SignatureInvalid(sv.cryptoVerify(pubkey, data.hashData, signature).value)
  {
    match sv.cryptoVerify(pubkey, data.hashData, signature)
    case Some(err) => Fail(SignatureInvalid(err))
    case None => Pass
  }
}
