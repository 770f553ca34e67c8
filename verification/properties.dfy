/**
 Properties of the validation check that relate several calls or hold for
 every input: the order of the steps it takes, that a paired reordering of
 claims and programs cannot change its verdict, and the source's treatment of
 a failing code-hash computation.
 */
module ValidationProperties {
  import opened Wrappers
  import opened Collaborators
  import opened Validation

  // ---------------------------------------------------------------------------
  // Order of the steps
  // ---------------------------------------------------------------------------

  /** Position `2 * (i - k)` of the steps from index `k` is the hash of program `i`, followed by its run. */
  lemma {:induction false} ScheduleFromAt(programs: seq<Program>, k: nat, i: nat)
    requires k <= i < |programs|
    decreases i - k
    ensures ScheduleFrom(programs, k)[2 * (i - k)] == HashedCode(i)
    ensures ScheduleFrom(programs, k)[2 * (i - k) + 1] == Executed(i, LoadedSegments(programs[i]))
  {
    if k < i {
      ScheduleFromAt(programs, k + 1, i);
      assert ScheduleFrom(programs, k) == ProgramSteps(programs, k) + ScheduleFrom(programs, k + 1);
    }
  }

  /**
   A full check visits the programs in index order; for each it hashes the
   code first and then runs one engine loaded with the code segment followed
   by the parameter segment.
   */
  lemma ScheduleOrder(programs: seq<Program>)
    ensures |Schedule(programs)| == 2 * |programs|
    ensures forall i :: 0 <= i < |programs| ==>
      && Schedule(programs)[2 * i] == HashedCode(i)
      && Schedule(programs)[2 * i + 1] == Executed(i, [Segment(programs[i].code, false), Segment(programs[i].parameter, true)])
  {
    forall i | 0 <= i < |programs|
      ensures Schedule(programs)[2 * i] == HashedCode(i)
      ensures Schedule(programs)[2 * i + 1] == Executed(i, [Segment(programs[i].code, false), Segment(programs[i].parameter, true)])
    {
      ScheduleFromAt(programs, 0, i);
    }
  }

  /**
   After a failure at index `i` no engine has run for `i` or any later index
   when the failure is a hash mismatch, and none for any later index when it
   is an engine failure; structural failures take no step at all.
   */
  lemma NothingRunsAfterFailure(sv: Services, data: SignableData)
    ensures var r := VerifySignableData(sv, data);
      r.outcome.Fail? && !r.outcome.error.IsIndexed() ==> |r.trace| == 0
    ensures var r := VerifySignableData(sv, data);
      r.outcome.Fail? && r.outcome.error.HashMismatch? ==>
        forall e :: e in r.trace ==> e.index <= r.outcome.error.index && (e.Executed? ==> e.index < r.outcome.error.index)
    ensures var r := VerifySignableData(sv, data);
      r.outcome.Fail? && r.outcome.error.IsIndexed() ==>
        forall e :: e in r.trace ==> e.index <= r.outcome.error.index
  {
    var r := VerifySignableData(sv, data);
    var s := Schedule(data.programs);
    if r.outcome.Fail? && r.outcome.error.IsIndexed() {
      var f := r.outcome.error.index;
      var end := TraceEnd(r.outcome, |data.programs|);
      assert end <= 2 * f + 2;
      assert r.outcome.error.HashMismatch? ==> end == 2 * f + 1;
      forall e | e in r.trace
        ensures e.index <= f
        ensures r.outcome.error.HashMismatch? && e.Executed? ==> e.index < f
      {
        var k :| 0 <= k < |r.trace| && r.trace[k] == e;
        assert k < end && e == s[k];
        var i := k / 2;
        assert 2 * i <= k <= 2 * i + 1;
        ScheduleFromAt(data.programs, 0, i);
        if k == 2 * i {
          assert e == HashedCode(i);
        } else {
          assert e == Executed(i, LoadedSegments(data.programs[i]));
        }
      }
    }
  }

  /**
   When program `i` does not hash to its claim the check fails, and no engine
   runs for index `i` or any later index, whichever index the failure reports.
   */
  lemma HashDiffersNoEngineFromI(sv: Services, data: SignableData, i: nat)
    requires data.programHashes.Success? && |data.programHashes.value| == |data.programs|
    requires i < |data.programs|
    requires CodeHash(sv, data.programs[i].code) != data.programHashes.value[i]
    ensures VerifySignableData(sv, data).outcome.Fail?
    ensures forall e :: e in VerifySignableData(sv, data).trace && e.Executed? ==> e.index < i
  {
    var hashes, programs := data.programHashes.value, data.programs;
    var r := VerifySignableData(sv, data);
    assert r == CheckFrom(sv, data, hashes, programs, 0);
    assert !Accepts(sv, data, hashes[i], programs[i]);
    var f := r.outcome.error.index;
    assert f <= i;
    NothingRunsAfterFailure(sv, data);
    if f == i {
      assert CheckProgram(sv, data, hashes[i], programs[i], i).failure == Some(HashMismatch(i));
      assert r.outcome.error == HashMismatch(i);
    }
  }

  // ---------------------------------------------------------------------------
  // Paired reordering
  // ---------------------------------------------------------------------------

  /** The claims paired with the programs at the same index. */
  function Pairs(hashes: seq<Uint160>, programs: seq<Program>): seq<(Uint160, Program)>
    requires |hashes| == |programs|
  {
    seq(|hashes|, j requires 0 <= j < |hashes| => (hashes[j], programs[j]))
  }

  /** The engine cannot tell the two objects apart: every load of segments runs alike on both. */
  ghost predicate SameScriptView(sv: Services, d: SignableData, d': SignableData)
  {
    forall segments :: sv.execute(d, segments) == sv.execute(d', segments)
  }

  /** `d'` holds the same claim/program pairs as `d`, possibly in another order. */
  ghost predicate PairedReorder(d: SignableData, d': SignableData)
  {
    && d.programHashes.Success? && d'.programHashes.Success?
    && |d.programHashes.value| == |d.programs|
    && |d'.programHashes.value| == |d'.programs|
    && multiset(Pairs(d.programHashes.value, d.programs)) == multiset(Pairs(d'.programHashes.value, d'.programs))
  }

  /** One direction of the reordering argument: every pair of `d'` occurs in `d`, where it was accepted. */
  lemma {:induction false} ReorderKeepsAcceptance(sv: Services, d: SignableData, d': SignableData)
    requires PairedReorder(d, d') && SameScriptView(sv, d, d')
    requires Authorized(sv, d)
    ensures Authorized(sv, d')
  {
    var h, ps := d.programHashes.value, d.programs;
    var h', ps' := d'.programHashes.value, d'.programs;
    var P, P' := Pairs(h, ps), Pairs(h', ps');
    forall j | 0 <= j < |ps'|
      ensures Accepts(sv, d', h'[j], ps'[j])
    {
      assert P'[j] in multiset(P');
      assert P'[j] in P;
      var k :| 0 <= k < |P| && P[k] == P'[j];
      assert Accepts(sv, d, h[k], ps[k]);
      assert sv.execute(d, LoadedSegments(ps[k])) == sv.execute(d', LoadedSegments(ps[k]));
    }
  }

  /**
   Each program runs on its own fresh engine, so reordering the claims and
   programs together leaves the verdict unchanged; only the index a failure
   reports can move.
   */
  lemma PairedReorderPreservesVerdict(sv: Services, d: SignableData, d': SignableData)
    requires PairedReorder(d, d') && SameScriptView(sv, d, d')
    ensures VerifySignableData(sv, d).outcome.Pass? <==> VerifySignableData(sv, d').outcome.Pass?
  {
    if Authorized(sv, d) {
      ReorderKeepsAcceptance(sv, d, d');
    }
    if Authorized(sv, d') {
      ReorderKeepsAcceptance(sv, d', d);
    }
  }

  // ---------------------------------------------------------------------------
  // The discarded code-hash error
  // ---------------------------------------------------------------------------

  /**
   A program whose code cannot be hashed is not rejected for that reason: it
   passes the hash comparison exactly when its claim is the zero hash.
   */
  lemma UnhashableCodeMatchesOnlyZero(sv: Services, data: SignableData, claimed: Uint160, p: Program, i: nat)
    requires sv.toCodeHash(p.code).None?
    ensures CheckProgram(sv, data, claimed, p, i).failure != Some(HashMismatch(i)) <==> claimed == ZeroHash
  {
  }

  // ---------------------------------------------------------------------------
  // Direct signature check
  // ---------------------------------------------------------------------------

  /**
   The signature check looks only at the object's hash data: two objects
   with the same hash data get the same verdict, whatever their programs.
   */
  lemma VerifySignatureReadsOnlyHashData(sv: Services, d: SignableData, d': SignableData, pubkey: PubKey, signature: Bytes)
    requires d.hashData == d'.hashData
    ensures VerifySignature(sv, d, pubkey, signature) == VerifySignature(sv, d', pubkey, signature)
  {
  }

  // ---------------------------------------------------------------------------
  // Scenarios
  // ---------------------------------------------------------------------------

  /** One claim, one program that hashes to it and halts with a single true: the object is verified. */
  lemma SingleProgramVerified(sv: Services, data: SignableData, h: Uint160, p: Program)
    requires data.programHashes == Success([h]) && data.programs == [p]
    requires CodeHash(sv, p.code) == h
    requires RunProgram(sv, data, p) == ExecutionRecord(HALT, 1, true)
    ensures VerifySignableData(sv, data).outcome == Pass
  {
  }

  /** The first program is valid and the second does not hash to its claim: the failure is at index 1. */
  lemma SecondHashMismatchReported(sv: Services, data: SignableData, h0: Uint160, h1: Uint160, p0: Program, p1: Program)
    requires data.programHashes == Success([h0, h1]) && data.programs == [p0, p1]
    requires Accepts(sv, data, h0, p0)
    requires CodeHash(sv, p1.code) != h1
    ensures VerifySignableData(sv, data).outcome == Fail(HashMismatch(1))
  {
    var r := VerifySignableData(sv, data);
    assert r.outcome.Fail?;
  }

  /** One program whose hash matches and which halts leaving two values: a stack-count failure at index 0. */
  lemma TwoStackValuesRejected(sv: Services, data: SignableData, h: Uint160, p: Program, result: bool)
    requires data.programHashes == Success([h]) && data.programs == [p]
    requires CodeHash(sv, p.code) == h
    requires RunProgram(sv, data, p) == ExecutionRecord(HALT, 2, result)
    ensures VerifySignableData(sv, data).outcome == Fail(BadStackCount(0))
  {
  }
}
