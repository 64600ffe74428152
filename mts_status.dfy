/** Classification of the raw status of a multi-converter sync into the outcome the
    MTS layer reports. The classification is an equality chain over the status codes:
    it never tests individual bits, so a status that combines two flags is not any of
    the listed codes and falls into the generic failure. */
module MtsStatus {
  import opened MtsDefs

  datatype SyncOutcome =
    | Ok
    | Timeout
    | NotSupported
    | DtcInvalid
    | NotEnabled
    | SysrefGateError
    | SysrefFreqNotDone
    | BadRefTile
    | Failed  // any other status: "did not complete successfully"

  /** The classifier. Each listed code maps to its own outcome; every other value,
      including the codes 4..64 and combinations of flags, is the generic failure. */
  function Classify(status: u32): (o: SyncOutcome)
    ensures o == Ok <==> status == MtsOk
    ensures o == Timeout <==> status == MtsTimeout
    ensures o == NotSupported <==> status == MtsNotSupported
    ensures o == DtcInvalid <==> status == MtsDtcInvalid
    ensures o == NotEnabled <==> status == MtsNotEnabled
    ensures o == SysrefGateError <==> status == MtsSysrefGateError
    ensures o == SysrefFreqNotDone <==> status == MtsSysrefFreqNdone
    ensures o == BadRefTile <==> status == MtsBadRefTile
    ensures o == Failed <==> status !in ClassifiedCodes
  {
    if status == MtsOk then Ok
    else if status == MtsTimeout then Timeout
    else if status == MtsNotSupported then NotSupported
    else if status == MtsDtcInvalid then DtcInvalid
    else if status == MtsNotEnabled then NotEnabled
    else if status == MtsSysrefGateError then SysrefGateError
    else if status == MtsSysrefFreqNdone then SysrefFreqNotDone
    else if status == MtsBadRefTile then BadRefTile
    else Failed
  }

  /** The tests of the classifier, in the order it makes them. */
  const Branches: seq<(u32, SyncOutcome)> := [
    (MtsOk, Ok),
    (MtsTimeout, Timeout),
    (MtsNotSupported, NotSupported),
    (MtsDtcInvalid, DtcInvalid),
    (MtsNotEnabled, NotEnabled),
    (MtsSysrefGateError, SysrefGateError),
    (MtsSysrefFreqNdone, SysrefFreqNotDone),
    (MtsBadRefTile, BadRefTile)]

  /** The codes the classifier names individually. */
  const ClassifiedCodes: set<u32> :=
    {MtsOk, MtsTimeout, MtsNotSupported, MtsDtcInvalid, MtsNotEnabled,
     MtsSysrefGateError, MtsSysrefFreqNdone, MtsBadRefTile}

  /** The code that a (named) outcome stands for; the generic failure has none. */
  function CodeOf(o: SyncOutcome): (c: Option<u32>)
    ensures c.None? <==> o == Failed
  {
    match o
    case Ok => Some(MtsOk)
    case Timeout => Some(MtsTimeout)
    case NotSupported => Some(MtsNotSupported)
    case DtcInvalid => Some(MtsDtcInvalid)
    case NotEnabled => Some(MtsNotEnabled)
    case SysrefGateError => Some(MtsSysrefGateError)
    case SysrefFreqNotDone => Some(MtsSysrefFreqNdone)
    case BadRefTile => Some(MtsBadRefTile)
    case Failed => None
  }

  /** Classification and CodeOf are inverse on the named outcomes. */
  lemma ClassifyCodeOf(status: u32, o: SyncOutcome)
    ensures Classify(status) != Failed ==> CodeOf(Classify(status)) == Some(status)
    ensures o != Failed ==> Classify(CodeOf(o).value) == o
  {
  }

  /** A status that is neither success nor a single bit is the generic failure: in
      particular any combination of two or more failure flags. */
  lemma {:induction false} CombinedFlagsAreFailed(status: u32)
    requires status != MtsOk
    requires forall k: nat :: k <= 31 ==> status != Pow2(k)
    ensures Classify(status) == Failed
  {
    PowersUpTo13();
    assert status != Pow2(1) && status != Pow2(0) && status != Pow2(7);
    assert status != Pow2(9) && status != Pow2(11) && status != Pow2(12) && status != Pow2(13);
  }

  /** The OR of two distinct failure codes, such as `2 | 8192`, is the generic failure. */
  lemma {:induction false} TwoFlagsAreFailed(x: bv32, y: bv32)
    requires x as int in FailureCodes && y as int in FailureCodes && x != y
    ensures Classify((x | y) as int) == Failed
  {
    FailureCodeIsSingleBit(x);
    FailureCodeIsSingleBit(y);
    OrOfTwoBits(x, y);
    if (x | y) as int in ClassifiedCodes {
      ClassifiedCodeIsSingleBit(x | y);
    }
  }

  /** A word with exactly one bit set. */
  predicate SingleBit(x: bv32) {
    x != 0 && x & (x - 1) == 0
  }

  lemma FailureCodeIsSingleBit(x: bv32)
    requires x as int in FailureCodes
    ensures SingleBit(x)
  {
  }

  lemma ClassifiedCodeIsSingleBit(x: bv32)
    requires x as int in ClassifiedCodes
    ensures x == 0 || SingleBit(x)
  {
  }

  /** The OR of two distinct single bits is non-zero and has more than one bit set. */
  lemma OrOfTwoBits(x: bv32, y: bv32)
    requires SingleBit(x) && SingleBit(y) && x != y
    ensures x | y != 0 && !SingleBit(x | y)
  {
  }

  /** The failure codes 4, 8, 16, 32 and 64 have no branch of their own. */
  lemma UnnamedCodesAreFailed()
    ensures Classify(MtsMarkerRun) == Failed && Classify(MtsMarkerMism) == Failed
    ensures Classify(MtsDelayOver) == Failed && Classify(MtsTargetLow) == Failed
    ensures Classify(MtsIpNotReady) == Failed
  {
  }

  /** The outcome of the first test in `table` whose code equals `status`. */
  function FirstMatch(table: seq<(u32, SyncOutcome)>, status: u32): Option<SyncOutcome> {
    if table == [] then None
    else if table[0].0 == status then Some(table[0].1)
    else FirstMatch(table[1..], status)
  }

  /** The classification made by running the tests of `table` in order. */
  function ClassifyBy(table: seq<(u32, SyncOutcome)>, status: u32): SyncOutcome {
    match FirstMatch(table, status)
    case Some(o) => o
    case None => Failed
  }

  /** No two tests of a table test the same code for different outcomes. */
  predicate Functional(table: seq<(u32, SyncOutcome)>) {
    forall i, j :: 0 <= i < |table| && 0 <= j < |table| && table[i].0 == table[j].0 ==>
      table[i].1 == table[j].1
  }

  lemma {:induction false} FirstMatchFound(table: seq<(u32, SyncOutcome)>, status: u32)
    ensures FirstMatch(table, status).Some? ==> (status, FirstMatch(table, status).value) in table
    ensures FirstMatch(table, status).None? <==> forall p :: p in table ==> p.0 != status
  {
    if table != [] {
      FirstMatchFound(table[1..], status);
      assert forall p :: p in table <==> p == table[0] || p in table[1..];
    }
  }

  /** In a functional table, any test for `status` gives the outcome of the first one. */
  lemma {:induction false} FirstMatchFunctional(table: seq<(u32, SyncOutcome)>, status: u32, o: SyncOutcome)
    requires Functional(table)
    requires (status, o) in table
    ensures FirstMatch(table, status) == Some(o)
  {
    if table[0].0 != status {
      assert Functional(table[1..]) by {
        forall i, j | 0 <= i < |table| - 1 && 0 <= j < |table| - 1 && table[1..][i].0 == table[1..][j].0
          ensures table[1..][i].1 == table[1..][j].1
        {
          assert table[1..][i] == table[i + 1] && table[1..][j] == table[j + 1];
        }
      }
      FirstMatchFunctional(table[1..], status, o);
    } else {
      var k :| 0 <= k < |table| && table[k] == (status, o);
      assert table[0].1 == table[k].1;
    }
  }

  /** The tests compare against pairwise distinct codes, so a status passes at most
      one of them, and it passes one exactly when it is a named code. */
  lemma {:induction false} AtMostOneBranch(status: u32)
    ensures forall i, j :: 0 <= i < j < |Branches| ==> Branches[i].0 != Branches[j].0
    ensures (exists i :: 0 <= i < |Branches| && Branches[i].0 == status) <==> status in ClassifiedCodes
  {
    if status in ClassifiedCodes {
      assert Classify(status) != Failed;
      ClassifyIsFirstMatch(status);
      FirstMatchFound(Branches, status);
      var i :| 0 <= i < |Branches| && Branches[i] == (status, Classify(status));
    }
  }

  /** The classifier runs exactly the tests of `Branches`, in that order. */
  lemma {:induction false} ClassifyIsFirstMatch(status: u32)
    ensures Classify(status) == ClassifyBy(Branches, status)
  {
    assert Functional(Branches);
    FirstMatchFound(Branches, status);
    if Classify(status) != Failed {
      FirstMatchFunctional(Branches, status, Classify(status));
    }
  }

  /** Each status passes at most one test, so the order of the tests does not matter:
      running any rearrangement of them classifies every status as the source does. */
  lemma {:induction false} ClassifyOrderFree(table: seq<(u32, SyncOutcome)>, status: u32)
    requires forall p :: p in table <==> p in Branches
    ensures ClassifyBy(table, status) == Classify(status)
  {
    assert Functional(Branches);
    ClassifyIsFirstMatch(status);
    FirstMatchFound(table, status);
    FirstMatchFound(Branches, status);
    match FirstMatch(table, status)
    case Some(o) =>
      FirstMatchFunctional(Branches, status, o);
    case None =>
  }
}
