/** The MTS coordinator `RFdcMTS`: one synchronization pass over the DAC tiles and then
    the ADC tiles, and the per-converter sync report. The vendor driver's
    multi-converter init and sync are reached through `RfdcDriver`, whose calls are
    recorded in a log; what the driver writes and returns is left arbitrary. */
module Mts {
  import opened MtsDefs
  import opened MtsStatus

  /** `XRFDC_DAC_TILE` / `XRFDC_ADC_TILE`. */
  datatype ConverterType = Dac | Adc

  /** One call into the driver, with what it was given and what it gave back. */
  datatype DriverCall =
    | InitCall(input: SyncConfig, status: u32, output: SyncConfig)
    | SyncCall(conv: ConverterType, input: SyncConfig, status: u32, output: SyncConfig)

  /** The RF data-converter driver instance. Its behaviour is an arbitrary pair of
      functions fixed when it is created; its methods promise only to log the call. */
  class RfdcDriver {
    const initFn: SyncConfig -> (u32, SyncConfig)
    const syncFn: (ConverterType, SyncConfig) -> (u32, SyncConfig)
    var log: seq<DriverCall>

    constructor (initFn: SyncConfig -> (u32, SyncConfig), syncFn: (ConverterType, SyncConfig) -> (u32, SyncConfig))
      ensures this.initFn == initFn && this.syncFn == syncFn && log == []
    {
      this.initFn := initFn;
      this.syncFn := syncFn;
      log := [];
    }

    /** `XRFdc_MultiConverter_Init`: fills in a configuration with driver defaults. */
    method MultiConverterInit(config: SyncConfig) returns (status: u32, result: SyncConfig)
      modifies this
      ensures log == old(log) + [InitCall(config, status, result)]
    {
      status, result := initFn(config).0, initFn(config).1;
      log := log + [InitCall(config, status, result)];
    }

    /** `XRFdc_MultiConverter_Sync`: runs the hardware sync for one converter type,
        writes its measurements back into the configuration and returns a status. */
    method MultiConverterSync(conv: ConverterType, config: SyncConfig) returns (status: u32, result: SyncConfig)
      modifies this
      ensures log == old(log) + [SyncCall(conv, config, status, result)]
    {
      status, result := syncFn(conv, config).0, syncFn(conv, config).1;
      log := log + [SyncCall(conv, config, status, result)];
    }
  }

  // ---------------------------------------------------------------------------
  // Tile selection and the sync report

  /** The report's test `(1 << i) & Tiles` for tile i. */
  predicate TileEnabled(tiles: u32, i: nat)
    requires i < 4
  {
    (tiles as bv32) & ((1 as bv32) << i) != 0
  }

  /** The tiles below n whose bit is set in `tiles`, in ascending order. */
  function SelectedBelow(tiles: u32, n: nat): (r: seq<nat>)
    requires n <= 4
    ensures forall k :: 0 <= k < |r| ==> r[k] < n
    ensures forall k, l :: 0 <= k < l < |r| ==> r[k] < r[l]
    ensures forall i: nat :: i in r <==> i < n && TileEnabled(tiles, i)
  {
    if n == 0 then []
    else SelectedBelow(tiles, n - 1) + (if TileEnabled(tiles, n - 1) then [n - 1] else [])
  }

  /** The tiles the report visits. */
  function SelectedTiles(tiles: u32): seq<nat> {
    SelectedBelow(tiles, 4)
  }

  /** Only bits 0..3 of the mask select tiles: two masks with the same low four bits
      select the same tiles, and a mask whose low four bits are clear selects none. */
  lemma {:induction false} SelectedTilesLowBits(t1: u32, t2: u32)
    requires (t1 as bv32) & 0xF == (t2 as bv32) & 0xF
    ensures SelectedTiles(t1) == SelectedTiles(t2)
    ensures (t1 as bv32) & 0xF == 0 ==> SelectedTiles(t1) == []
  {
    forall i: nat | i < 4
      ensures TileEnabled(t1, i) <==> TileEnabled(t2, i)
      ensures (t1 as bv32) & 0xF == 0 ==> !TileEnabled(t1, i)
    {
      LowBit(t1 as bv32, i);
      LowBit(t2 as bv32, i);
    }
    SelectedBelowAgree(t1, t2, 4);
    if (t1 as bv32) & 0xF == 0 {
      forall i: nat | i < 4
        ensures TileEnabled(t1, i) <==> TileEnabled(0, i)
      {
      }
      SelectedBelowAgree(t1, 0, 4);
    }
  }

  /** Bit i < 4 of a word is bit i of its low four bits. */
  lemma LowBit(w: bv32, i: nat)
    requires i < 4
    ensures w & ((1 as bv32) << i) == (w & 0xF) & ((1 as bv32) << i)
  {
  }

  lemma {:induction false} SelectedBelowAgree(t1: u32, t2: u32, n: nat)
    requires n <= 4
    requires forall i: nat :: i < n ==> (TileEnabled(t1, i) <==> TileEnabled(t2, i))
    ensures SelectedBelow(t1, n) == SelectedBelow(t2, n)
  {
    if n > 0 {
      SelectedBelowAgree(t1, t2, n - 1);
    }
  }

  /** What the report shows of one DTC sweep for one tile. */
  datatype DtcTileReport = DtcTileReport(dtcCode: i32, numWindows: i32, maxGap: i32, minGap: i32, maxOverlap: i32)

  /** What the report shows for one tile. */
  datatype TileReport = TileReport(
    tile: nat,
    latency: i32,
    offset: i32,
    markerDelay: i32,
    pll: DtcTileReport,
    t1: DtcTileReport)

  /** What `_SyncReport` emits: the classified status with the per-tile detail of a
      converter type, or one of its two argument errors. */
  datatype ReportOutput =
    | Emitted(conv: ConverterType, outcome: SyncOutcome, detail: seq<TileReport>)
    | NotAString
    | UnknownConverter(name: string)

  /** The `converter` argument of `_SyncReport`, which need not be a string. */
  datatype ConverterArg = Str(s: string) | NotStr

  function DtcTile(d: DtcSettings, i: nat): DtcTileReport
    requires i < 4
  {
    DtcTileReport(d.dtcCode[i], d.numWindows[i], d.maxGap[i], d.minGap[i], d.maxOverlap[i])
  }

  function TileReportOf(cfg: SyncConfig, i: nat): TileReport
    requires i < 4
  {
    TileReport(i, cfg.latency[i], cfg.offset[i], cfg.markerDelay, DtcTile(cfg.dtcSetPll, i), DtcTile(cfg.dtcSetT1, i))
  }

  function TileReports(cfg: SyncConfig, tiles: seq<nat>): seq<TileReport>
    requires forall k :: 0 <= k < |tiles| ==> tiles[k] < 4
  {
    seq(|tiles|, k requires 0 <= k < |tiles| => TileReportOf(cfg, tiles[k]))
  }

  /** The report of one converter type for a sync status and the configuration the
      sync left. */
  function ReportOf(conv: ConverterType, status: u32, cfg: SyncConfig): ReportOutput {
    Emitted(conv, Classify(status), if status == MtsOk then TileReports(cfg, SelectedTiles(cfg.tiles)) else [])
  }

  /** A report always carries the classified status; it shows per-tile detail only on
      success, and then exactly the tiles whose bit is set, in ascending order, each
      with the latency, offset, marker delay and both DTC sweeps of its own slot. */
  lemma ReportDetail(conv: ConverterType, status: u32, cfg: SyncConfig)
    ensures var r := ReportOf(conv, status, cfg);
            r.Emitted? && r.conv == conv && r.outcome == Classify(status)
            && (r.detail != [] ==> r.outcome == Ok)
            && (status == MtsOk ==> |r.detail| == |SelectedTiles(cfg.tiles)|)
            && (forall k :: 0 <= k < |r.detail| ==>
                  r.detail[k].tile < 4 && TileEnabled(cfg.tiles, r.detail[k].tile)
                  && r.detail[k] == TileReportOf(cfg, r.detail[k].tile))
            && (forall k, l :: 0 <= k < l < |r.detail| ==> r.detail[k].tile < r.detail[l].tile)
  {
  }

  /** On success the report covers every tile whose bit is set in the low four bits. */
  lemma ReportCoversEnabledTiles(conv: ConverterType, cfg: SyncConfig, i: nat)
    requires i < 4 && TileEnabled(cfg.tiles, i)
    ensures exists k :: 0 <= k < |ReportOf(conv, MtsOk, cfg).detail| && ReportOf(conv, MtsOk, cfg).detail[k].tile == i
  {
    var ts := SelectedTiles(cfg.tiles);
    var k :| 0 <= k < |ts| && ts[k] == i;
    ReportDetail(conv, MtsOk, cfg);
    assert ReportOf(conv, MtsOk, cfg).detail[k].tile == i;
  }

  /** The per-tile part of a successful report: tiles 0..3 in turn, each one whose
      bit is set in the mask. */
  method TileDetail(cfg: SyncConfig) returns (detail: seq<TileReport>)
    ensures detail == TileReports(cfg, SelectedTiles(cfg.tiles))
  {
    detail := [];
    var i := 0;
    while i < 4
      invariant 0 <= i <= 4
      invariant detail == TileReports(cfg, SelectedBelow(cfg.tiles, i))
    {
      ghost var before := SelectedBelow(cfg.tiles, i);
      if TileEnabled(cfg.tiles, i) {
        assert SelectedBelow(cfg.tiles, i + 1) == before + [i];
        detail := detail + [TileReportOf(cfg, i)];
      } else {
        assert SelectedBelow(cfg.tiles, i + 1) == before;
      }
      i := i + 1;
    }
  }

  // ---------------------------------------------------------------------------
  // One MTS run, as the sequence of driver calls it makes

  /** The request fields a pass writes after the driver's init, leaving the rest
      of the configuration as init left it. */
  function Apply(cfg: SyncConfig, tiles: u32, targetLatency: i32): SyncConfig {
    cfg.(refTile := 0, tiles := tiles, sysRefEnable := SysrefEnable as i32, targetLatency := targetLatency)
  }

  /** The arguments of `RunMTS`. */
  datatype MtsRequest = MtsRequest(targetLatencyDac: i32, tilesDac: u32, targetLatencyAdc: i32, tilesAdc: u32)

  function PassLength(tiles: u32): nat {
    if tiles != 0 then 2 else 1
  }

  /** The driver calls of one converter type's pass: init on a fresh configuration,
      then, for a non-zero mask only, sync on the initialised configuration with the
      request fields applied. */
  predicate PassCalls(conv: ConverterType, targetLatency: i32, tiles: u32, calls: seq<DriverCall>) {
    |calls| == PassLength(tiles)
    && calls[0].InitCall? && calls[0].input == ZeroConfig
    && (tiles != 0 ==>
          calls[1].SyncCall? && calls[1].conv == conv
          && calls[1].input == Apply(calls[0].output, tiles, targetLatency))
  }

  /** The configuration a pass leaves behind. */
  function PassConfig(conv: ConverterType, targetLatency: i32, tiles: u32, calls: seq<DriverCall>): SyncConfig
    requires PassCalls(conv, targetLatency, tiles, calls)
  {
    if tiles != 0 then calls[1].output else Apply(calls[0].output, tiles, targetLatency)
  }

  /** The reports a pass emits. */
  function PassReports(conv: ConverterType, targetLatency: i32, tiles: u32, calls: seq<DriverCall>): seq<ReportOutput>
    requires PassCalls(conv, targetLatency, tiles, calls)
  {
    if tiles != 0 then [ReportOf(conv, calls[1].status, calls[1].output)] else []
  }

  function DacCalls(req: MtsRequest, calls: seq<DriverCall>): seq<DriverCall>
    requires PassLength(req.tilesDac) <= |calls|
  {
    calls[..PassLength(req.tilesDac)]
  }

  function AdcCalls(req: MtsRequest, calls: seq<DriverCall>): seq<DriverCall>
    requires PassLength(req.tilesDac) <= |calls|
  {
    calls[PassLength(req.tilesDac)..]
  }

  /** The driver calls of a whole run: the DAC pass, then the ADC pass. */
  predicate RunCalls(req: MtsRequest, calls: seq<DriverCall>) {
    PassLength(req.tilesDac) <= |calls|
    && PassCalls(Dac, req.targetLatencyDac, req.tilesDac, DacCalls(req, calls))
    && PassCalls(Adc, req.targetLatencyAdc, req.tilesAdc, AdcCalls(req, calls))
  }

  function RunReports(req: MtsRequest, calls: seq<DriverCall>): seq<ReportOutput>
    requires RunCalls(req, calls)
  {
    PassReports(Dac, req.targetLatencyDac, req.tilesDac, DacCalls(req, calls))
    + PassReports(Adc, req.targetLatencyAdc, req.tilesAdc, AdcCalls(req, calls))
  }

  /** The status of the last sync call in `calls`, if there is one. */
  function LastSyncStatus(calls: seq<DriverCall>): Option<u32> {
    if calls == [] then None
    else if calls[|calls| - 1].SyncCall? then Some(calls[|calls| - 1].status)
    else LastSyncStatus(calls[..|calls| - 1])
  }

  /** The request fields as a pass writes them. */
  predicate RequestApplied(cfg: SyncConfig, tiles: u32, targetLatency: i32) {
    cfg.refTile == 0 && cfg.tiles == tiles && cfg.sysRefEnable == 1 && cfg.targetLatency == targetLatency
  }

  /** The driver's sync left the request fields of its input in place. */
  predicate KeepsRequest(call: DriverCall) {
    call.SyncCall?
    && call.output.refTile == call.input.refTile && call.output.tiles == call.input.tiles
    && call.output.sysRefEnable == call.input.sysRefEnable
    && call.output.targetLatency == call.input.targetLatency
  }

  /** A run of the two passes, concatenated. */
  lemma {:induction false} JoinPasses(req: MtsRequest, d: seq<DriverCall>, a: seq<DriverCall>)
    requires PassCalls(Dac, req.targetLatencyDac, req.tilesDac, d)
    requires PassCalls(Adc, req.targetLatencyAdc, req.tilesAdc, a)
    ensures RunCalls(req, d + a)
    ensures DacCalls(req, d + a) == d && AdcCalls(req, d + a) == a
  {
  }

  /** The calls of a run, one by one: init for DAC at 0, the DAC sync at 1 for a
      non-zero DAC mask, init for ADC next, the ADC sync last for a non-zero ADC mask,
      and no other sync call. */
  lemma {:induction false} RunShape(req: MtsRequest, calls: seq<DriverCall>)
    requires RunCalls(req, calls)
    ensures |calls| == PassLength(req.tilesDac) + PassLength(req.tilesAdc)
    ensures calls[0].InitCall? && calls[0].input == ZeroConfig
    ensures req.tilesDac != 0 ==>
              calls[1].SyncCall? && calls[1].conv == Dac
              && calls[1].input == Apply(calls[0].output, req.tilesDac, req.targetLatencyDac)
    ensures var n := PassLength(req.tilesDac);
            calls[n].InitCall? && calls[n].input == ZeroConfig
            && (req.tilesAdc != 0 ==>
                  calls[n + 1].SyncCall? && calls[n + 1].conv == Adc
                  && calls[n + 1].input == Apply(calls[n].output, req.tilesAdc, req.targetLatencyAdc))
    ensures forall i :: 0 <= i < |calls| && calls[i].SyncCall? ==>
              (i == 1 && req.tilesDac != 0 && calls[i].conv == Dac)
              || (i == PassLength(req.tilesDac) + 1 && req.tilesAdc != 0 && calls[i].conv == Adc)
  {
  }

  /** Every sync call of a run is handed reference tile 0, SYSREF enabled and the
      requested mask and target latency of its converter type. Each pass leaves its
      configuration so, for a zero mask unconditionally and for a non-zero mask when
      the driver's sync does not overwrite those fields. */
  lemma {:induction false} RequestFieldsOfRun(req: MtsRequest, calls: seq<DriverCall>)
    requires RunCalls(req, calls)
    ensures forall i :: 0 <= i < |calls| && calls[i].SyncCall? && calls[i].conv == Dac ==>
              RequestApplied(calls[i].input, req.tilesDac, req.targetLatencyDac)
    ensures forall i :: 0 <= i < |calls| && calls[i].SyncCall? && calls[i].conv == Adc ==>
              RequestApplied(calls[i].input, req.tilesAdc, req.targetLatencyAdc)
    ensures (req.tilesDac == 0 || KeepsRequest(calls[1])) ==>
              RequestApplied(PassConfig(Dac, req.targetLatencyDac, req.tilesDac, DacCalls(req, calls)),
                             req.tilesDac, req.targetLatencyDac)
    ensures (req.tilesAdc == 0 || KeepsRequest(calls[|calls| - 1])) ==>
              RequestApplied(PassConfig(Adc, req.targetLatencyAdc, req.tilesAdc, AdcCalls(req, calls)),
                             req.tilesAdc, req.targetLatencyAdc)
  {
  }

  /** A converter type's driver sync is called exactly when its mask is non-zero. */
  lemma {:induction false} SyncOnlyForNonZeroMask(req: MtsRequest, calls: seq<DriverCall>)
    requires RunCalls(req, calls)
    ensures req.tilesDac != 0 <==> exists i :: 0 <= i < |calls| && calls[i].SyncCall? && calls[i].conv == Dac
    ensures req.tilesAdc != 0 <==> exists i :: 0 <= i < |calls| && calls[i].SyncCall? && calls[i].conv == Adc
  {
  }

  /** A converter type's report is emitted exactly when its mask is non-zero, and
      the DAC report comes first. */
  lemma {:induction false} ReportOnlyForNonZeroMask(req: MtsRequest, calls: seq<DriverCall>)
    requires RunCalls(req, calls)
    ensures |RunReports(req, calls)| == (if req.tilesDac != 0 then 1 else 0) + (if req.tilesAdc != 0 then 1 else 0)
    ensures forall k :: 0 <= k < |RunReports(req, calls)| ==> RunReports(req, calls)[k].Emitted?
    ensures req.tilesDac != 0 ==> RunReports(req, calls)[0].conv == Dac
    ensures req.tilesAdc != 0 ==> RunReports(req, calls)[|RunReports(req, calls)| - 1].conv == Adc
  {
  }

  /** The DAC pass comes first: every DAC sync precedes the ADC init, which
      precedes every ADC sync. */
  lemma {:induction false} DacBeforeAdc(req: MtsRequest, calls: seq<DriverCall>)
    requires RunCalls(req, calls)
    ensures calls[PassLength(req.tilesDac)].InitCall?
    ensures forall i :: 0 <= i < |calls| && calls[i].SyncCall? && calls[i].conv == Dac ==> i < PassLength(req.tilesDac)
    ensures forall i :: 0 <= i < |calls| && calls[i].SyncCall? && calls[i].conv == Adc ==> PassLength(req.tilesDac) < i
  {
  }

  /** The DAC status does not stop the ADC pass: replacing the DAC sync's status by
      any other value leaves a valid run with the same ADC pass. */
  lemma {:induction false} AdcPassIgnoresDacStatus(req: MtsRequest, calls: seq<DriverCall>, other: u32)
    requires RunCalls(req, calls) && req.tilesDac != 0
    ensures RunCalls(req, calls[1 := calls[1].(status := other)])
    ensures AdcCalls(req, calls[1 := calls[1].(status := other)]) == AdcCalls(req, calls)
  {
  }

  /** After a run, `status1` holds the status of the last sync made: the ADC status
      when the ADC mask is non-zero, else the DAC status when the DAC mask is. */
  lemma {:induction false} LastSyncOfRun(req: MtsRequest, calls: seq<DriverCall>)
    requires RunCalls(req, calls)
    ensures LastSyncStatus(calls) ==
      if req.tilesAdc != 0 then Some(calls[|calls| - 1].status)
      else if req.tilesDac != 0 then Some(calls[1].status)
      else None
  {
    RunShape(req, calls);
    var n := PassLength(req.tilesDac);
    if req.tilesAdc == 0 {
      assert calls[..|calls| - 1] == calls[..n];
      if req.tilesDac == 0 {
        assert calls[..1][0] == calls[0];
        assert LastSyncStatus(calls[..1][..0]) == None;
        assert LastSyncStatus(calls[..1]) == None;
      } else {
        assert calls[..2][..1] == calls[..1];
        assert calls[..1][..0] == [];
      }
    }
  }

  // ---------------------------------------------------------------------------
  // The coordinator

  class RFdcMTS {
    const instance: RfdcDriver
    var dacConfig: SyncConfig
    var adcConfig: SyncConfig
    /** The status of the last sync made; None before the first one. */
    var status1: Option<u32>
    /** Every report emitted so far. */
    var reports: seq<ReportOutput>

    constructor (instance: RfdcDriver)
      ensures this.instance == instance
      ensures dacConfig == ZeroConfig && adcConfig == ZeroConfig
      ensures status1 == None && reports == []
    {
      this.instance := instance;
      dacConfig, adcConfig := ZeroConfig, ZeroConfig;
      status1, reports := None, [];
    }

    /** `_SyncReport`: the report of one converter type from its current
        configuration, which is emitted (appended to `reports`), and the latencies
        of its tiles 0 and 1. A wrong argument emits its error instead. */
    method SyncReport(converter: ConverterArg, status: u32) returns (latencies: Option<seq<i32>>, out: ReportOutput)
      modifies this
      ensures reports == old(reports) + [out]
      ensures dacConfig == old(dacConfig) && adcConfig == old(adcConfig) && status1 == old(status1)
      ensures converter == Str("ADC") ==>
                latencies == Some([adcConfig.latency[0], adcConfig.latency[1]])
                && out == ReportOf(Adc, status, adcConfig)
      ensures converter == Str("DAC") ==>
                latencies == Some([dacConfig.latency[0], dacConfig.latency[1]])
                && out == ReportOf(Dac, status, dacConfig)
      ensures converter == NotStr ==> latencies == None && out == NotAString
      ensures converter.Str? && converter.s != "ADC" && converter.s != "DAC" ==>
                latencies == None && out == UnknownConverter(converter.s)
    {
      if converter.NotStr? {
        latencies, out := None, NotAString;
        reports := reports + [out];
        return;
      }
      var conv: ConverterType;
      if converter.s == "ADC" {
        conv := Adc;
      } else if converter.s == "DAC" {
        conv := Dac;
      } else {
        latencies, out := None, UnknownConverter(converter.s);
        reports := reports + [out];
        return;
      }
      var cfg := if conv == Adc then adcConfig else dacConfig;
      var detail: seq<TileReport> := [];
      if status == MtsOk {
        detail := TileDetail(cfg);
      }
      out := Emitted(conv, Classify(status), detail);
      var lat: seq<i32> := [];
      var j := 0;
      while j < 2
        invariant 0 <= j <= 2
        invariant lat == cfg.latency[..j]
      {
        lat := lat + [cfg.latency[j]];
        j := j + 1;
      }
      assert lat == [cfg.latency[0], cfg.latency[1]];
      latencies := Some(lat);
      reports := reports + [out];
    }

    /** The configuration of converter type `conv`. */
    function ConfigOf(conv: ConverterType): SyncConfig
      reads this
    {
      if conv == Dac then dacConfig else adcConfig
    }

    /** One pass of `RunMTS` for converter type `conv`: the driver's init on the
        freshly allocated configuration, the four request fields written over it and,
        for a non-zero mask only, the driver's sync, whose status goes to `status1`,
        followed by the report. */
    method Pass(conv: ConverterType, targetLatency: i32, tiles: u32) returns (ghost calls: seq<DriverCall>)
      requires ConfigOf(conv) == ZeroConfig
      modifies this, instance
      ensures instance.log == old(instance.log) + calls
      ensures PassCalls(conv, targetLatency, tiles, calls)
      ensures ConfigOf(conv) == PassConfig(conv, targetLatency, tiles, calls)
      ensures conv == Dac ==> adcConfig == old(adcConfig)
      ensures conv == Adc ==> dacConfig == old(dacConfig)
      ensures status1 == if tiles != 0 then Some(calls[1].status) else old(status1)
      ensures reports == old(reports) + PassReports(conv, targetLatency, tiles, calls)
    {
      var initStatus, cfg := instance.MultiConverterInit(ConfigOf(conv));
      calls := [InitCall(ZeroConfig, initStatus, cfg)];
      cfg := cfg.(refTile := 0);
      cfg := cfg.(tiles := tiles);
      cfg := cfg.(sysRefEnable := SysrefEnable as i32);
      cfg := cfg.(targetLatency := targetLatency);
      if conv == Dac { dacConfig := cfg; } else { adcConfig := cfg; }
      if tiles != 0 {
        var status, synced := instance.MultiConverterSync(conv, cfg);
        calls := calls + [SyncCall(conv, cfg, status, synced)];
        if conv == Dac { dacConfig := synced; } else { adcConfig := synced; }
        status1 := Some(status);
        var _, _ := SyncReport(Str(if conv == Dac then "DAC" else "ADC"), status);
      }
    }

    /** `RunMTS`: a DAC pass, then an ADC pass, each on a freshly allocated
        configuration. Nothing is raised, whatever the statuses. The driver calls of
        the two passes are `dacCalls` and `adcCalls`. */
    method RunMTS(targetLatencyDac: i32, tilesDac: u32, targetLatencyAdc: i32, tilesAdc: u32)
      returns (ghost dacCalls: seq<DriverCall>, ghost adcCalls: seq<DriverCall>)
      modifies this, instance
      ensures instance.log == old(instance.log) + dacCalls + adcCalls
      ensures PassCalls(Dac, targetLatencyDac, tilesDac, dacCalls)
      ensures PassCalls(Adc, targetLatencyAdc, tilesAdc, adcCalls)
      ensures dacConfig == PassConfig(Dac, targetLatencyDac, tilesDac, dacCalls)
      ensures adcConfig == PassConfig(Adc, targetLatencyAdc, tilesAdc, adcCalls)
      ensures status1 == if tilesAdc != 0 then Some(adcCalls[1].status)
                         else if tilesDac != 0 then Some(dacCalls[1].status)
                         else old(status1)
      ensures reports == old(reports) + PassReports(Dac, targetLatencyDac, tilesDac, dacCalls)
                                      + PassReports(Adc, targetLatencyAdc, tilesAdc, adcCalls)
      ensures RunCalls(MtsRequest(targetLatencyDac, tilesDac, targetLatencyAdc, tilesAdc), dacCalls + adcCalls)
      ensures tilesDac != 0 || tilesAdc != 0 ==> status1 == LastSyncStatus(dacCalls + adcCalls)
    {
      dacConfig := ZeroConfig;
      adcConfig := ZeroConfig;
      dacCalls := Pass(Dac, targetLatencyDac, tilesDac);
      adcCalls := Pass(Adc, targetLatencyAdc, tilesAdc);
      var req := MtsRequest(targetLatencyDac, tilesDac, targetLatencyAdc, tilesAdc);
      JoinPasses(req, dacCalls, adcCalls);
      LastSyncOfRun(req, dacCalls + adcCalls);
    }
  }
}
