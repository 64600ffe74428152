/** Records and constants of the multi-tile synchronization (MTS) extension of the
    RF data-converter driver: the per-tile DTC settings, the sync configuration that
    a synchronization pass reads and fills in, the SYSREF and scan switches, and the
    status codes the driver's sync call returns. */
module MtsDefs {

  /** C `u32`. */
  type u32 = x: int | 0 <= x < 0x1_0000_0000

  /** C `int` (32-bit, two's complement). */
  type i32 = x: int | -0x8000_0000 <= x < 0x8000_0000

  /** A C array `int X[4]`: one slot per tile of a converter type. */
  type Slots = s: seq<i32> | |s| == 4 witness [0, 0, 0, 0]

  /** A C array `u32 X[4]`. */
  type USlots = s: seq<u32> | |s| == 4 witness [0, 0, 0, 0]

  datatype Option<T> = None | Some(value: T)

  /** `XRFdc_MTS_DTC_Settings`: one delay-tuning-circuit sweep (PLL or T1 stage). */
  datatype DtcSettings = DtcSettings(
    refTile: u32,
    isPll: u32,
    target: Slots,
    scanMode: i32,
    dtcCode: Slots,
    numWindows: Slots,
    maxGap: Slots,
    minGap: Slots,
    maxOverlap: Slots)

  /** `XRFdc_MultiConverter_Sync_Config`: the request fields (refTile, tiles,
      targetLatency, sysRefEnable) and the fields a sync pass reports back. */
  datatype SyncConfig = SyncConfig(
    refTile: u32,
    tiles: u32,
    targetLatency: i32,
    offset: Slots,
    latency: Slots,
    markerDelay: i32,
    sysRefEnable: i32,
    dtcSetPll: DtcSettings,
    dtcSetT1: DtcSettings)

  /** `XRFdc_MTS_Marker`. */
  datatype Marker = Marker(count: USlots, loc: USlots)

  const ZeroSlots: Slots := [0, 0, 0, 0]

  /** The all-zero DTC record, as a freshly allocated C struct holds it. */
  const ZeroDtc: DtcSettings :=
    DtcSettings(0, 0, ZeroSlots, 0, ZeroSlots, ZeroSlots, ZeroSlots, ZeroSlots, ZeroSlots)

  /** The all-zero sync configuration, as a freshly allocated C struct holds it. */
  const ZeroConfig: SyncConfig :=
    SyncConfig(0, 0, 0, ZeroSlots, ZeroSlots, 0, 0, ZeroDtc, ZeroDtc)

  // SYSREF capture switch and DTC scan modes.
  const SysrefDisable: u32 := 0
  const SysrefEnable: u32 := 1
  const ScanInit: u32 := 0
  const ScanReload: u32 := 1

  // Status codes returned by the driver's multi-converter sync.
  const MtsOk: u32 := 0
  const MtsNotSupported: u32 := 1
  const MtsTimeout: u32 := 2
  const MtsMarkerRun: u32 := 4
  const MtsMarkerMism: u32 := 8
  const MtsDelayOver: u32 := 16
  const MtsTargetLow: u32 := 32
  const MtsIpNotReady: u32 := 64
  const MtsDtcInvalid: u32 := 128
  const MtsNotEnabled: u32 := 512
  const MtsSysrefGateError: u32 := 2048
  const MtsSysrefFreqNdone: u32 := 4096
  const MtsBadRefTile: u32 := 8192

  /** Every failure code, in the order the header defines them. */
  const FailureCodes: seq<u32> := [
    MtsNotSupported, MtsTimeout, MtsMarkerRun, MtsMarkerMism, MtsDelayOver,
    MtsTargetLow, MtsIpNotReady, MtsDtcInvalid, MtsNotEnabled,
    MtsSysrefGateError, MtsSysrefFreqNdone, MtsBadRefTile]

  function Pow2(k: nat): nat {
    if k == 0 then 1 else 2 * Pow2(k - 1)
  }

  /** Success is the zero status, and each failure code is the single bit `Pow2(k)` for
      a distinct k in 0..13, so failures are flags that may be OR-ed into one status. */
  lemma {:induction false} FailureCodesAreFlags()
    ensures MtsOk == 0 && MtsOk !in FailureCodes
    ensures forall i, j :: 0 <= i < j < |FailureCodes| ==> FailureCodes[i] != FailureCodes[j]
    ensures forall i :: 0 <= i < |FailureCodes| ==>
              exists k: nat :: k <= 13 && FailureCodes[i] == Pow2(k)
  {
    var bits := [0, 1, 2, 3, 4, 5, 6, 7, 9, 11, 12, 13];
    PowersUpTo13();
    forall i | 0 <= i < |FailureCodes|
      ensures exists k: nat :: k <= 13 && FailureCodes[i] == Pow2(k)
    {
      assert FailureCodes[i] == Pow2(bits[i]);
    }
  }

  /** Bits 8 and 10 (values 256 and 1024) carry no status code, and no code is larger
      than bit 13 (8192, the bad-reference-tile code). */
  lemma {:induction false} UnassignedBits()
    ensures Pow2(8) == 256 && Pow2(10) == 1024 && Pow2(13) == MtsBadRefTile
    ensures Pow2(8) !in FailureCodes && Pow2(10) !in FailureCodes
    ensures forall c :: c in FailureCodes ==> c <= Pow2(13)
  {
    PowersUpTo13();
  }

  /** The values of the first fourteen powers of two. */
  lemma {:induction false} PowersUpTo13()
    ensures Pow2(0) == 1 && Pow2(1) == 2 && Pow2(2) == 4 && Pow2(3) == 8
    ensures Pow2(4) == 16 && Pow2(5) == 32 && Pow2(6) == 64 && Pow2(7) == 128
    ensures Pow2(8) == 256 && Pow2(9) == 512 && Pow2(10) == 1024 && Pow2(11) == 2048
    ensures Pow2(12) == 4096 && Pow2(13) == 8192
  {
  }
}
