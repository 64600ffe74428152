# Multi-tile synchronization coordinator for RF data converters

This project is a Dafny model of the small coordination layer `RFdcMTS`, which runs
one Multi-Tile Synchronization (MTS) pass over the DAC tiles and then over the ADC
tiles of an RF data-converter block, and of the C records and constants that layer
uses.

- `mts_defs.dfy` (module `MtsDefs`) holds the records and constants of
  `xrfdc_functions.c`.
  - The 32-bit C integers become the subset types `u32` and `i32`.
  - A per-tile array `int X[4]` becomes `Slots` and `u32 X[4]` becomes `USlots`, each a
    sequence of exactly four entries.
  - `XRFdc_MTS_DTC_Settings`, `XRFdc_MultiConverter_Sync_Config` and
    `XRFdc_MTS_Marker` become datatypes.
  - The SYSREF switches (disable 0, enable 1), the scan modes and the thirteen
    status codes are constants.
  - A freshly allocated C struct is `ZeroConfig`.
- `mts_status.dfy` (module `MtsStatus`) models `_MTS_Sync_Status_Msg`. It maps the
  status as a function returning a `SyncOutcome` rather than printing a message. The
  mapping is an equality chain over eight codes. It does not test bits, so any other
  value is the generic failure `Failed`.
- `mts.dfy` (module `Mts`) holds three things.
  - The driver instance `RfdcDriver`. Its init and sync are unseen C functions. Each
    call is appended to `log` together with its input, its status and its output;
    the contracts promise nothing else about what the driver writes or returns.
  - The class `RFdcMTS` with its two sync configurations, `status1` and the list of
    reports emitted so far. Console output is abstracted to `ReportOutput` values.
  - `RunMTS`, `_SyncReport`, and the run-level predicates and lemmas.

`RunMTS` is specified over the driver calls of each pass (`PassCalls`), and it also
ensures that their concatenation is a run (`RunCalls`, the form `JoinPasses` proves),
which the lemmas about a whole run take as their premise.

Three facts about the code shape the model:
- The classifier tests equality, not bits, so a combined status such as `2 | 8192`
  is the generic failure, not `Timeout`.
- `RunMTS` is the only method that runs a synchronization.
- Statuses are only reported, never raised, and the ADC pass runs whatever the DAC
  status was.

## Model

| member | source | states |
|---|---|---|
| `MtsDefs.FailureCodesAreFlags` | xrfdc_mts/xrfdc_functions.c:55-67 | Success is 0 and is not a failure code. The twelve failure codes are pairwise distinct, and each is a single bit `2^k` with k ≤ 13, so failures are flags that can be combined in one status. |
| `MtsDefs.UnassignedBits` | xrfdc_mts/xrfdc_functions.c:63-67 | Bits 8 and 10 (256 and 1024) carry no status code. No code is above bit 13 (8192), which is `BAD_REF_TILE`. |
| `MtsStatus.Classify` | xrfdc_mts/xrfdc_mts.py:172-191 | Both directions: the outcome is Ok exactly when status is 0. Each of TIMEOUT, NOT_SUPPORTED, DTC_INVALID, NOT_ENABLED, SYSREF_GATE_ERROR, SYSREF_FREQ_NDONE and BAD_REF_TILE maps to its own outcome exactly for its own code. The outcome is the generic failure exactly for every other value. |
| `MtsStatus.ClassifyCodeOf` | xrfdc_mts/xrfdc_mts.py:174-189 | Classification and `CodeOf` (outcome to its code) are inverse on the named outcomes. |
| `MtsStatus.CombinedFlagsAreFailed` | xrfdc_mts/xrfdc_mts.py:174-191 | A non-zero status that is not a single bit, such as any combination of two or more flags, is the generic failure. |
| `MtsStatus.TwoFlagsAreFailed` | xrfdc_mts/xrfdc_mts.py:174-191 | The bitwise OR of two distinct failure codes (such as `2 \| 8192`), taken as 32-bit words, is the generic failure. |
| `MtsStatus.UnnamedCodesAreFailed` | xrfdc_mts/xrfdc_mts.py:190-191 | The codes 4, 8, 16, 32 and 64 (marker run, marker mismatch, delay over, target low, IP not ready) fall into the generic failure. |
| `MtsStatus.AtMostOneBranch` | xrfdc_mts/xrfdc_mts.py:174-189 | The eight tests compare against pairwise distinct codes. A status passes one of them exactly when it is a named code. |
| `MtsStatus.ClassifyIsFirstMatch` | xrfdc_mts/xrfdc_mts.py:174-191 | The classifier is the first-match run of its eight tests in source order, with the generic failure when none matches. |
| `MtsStatus.ClassifyOrderFree` | xrfdc_mts/xrfdc_mts.py:174-191 | Running any rearrangement of the eight tests classifies every status exactly as the source order does. |
| `Mts.RfdcDriver.MultiConverterInit` | xrfdc_mts/xrfdc_functions.c:72 | The driver's init logs its input, status and output. The output configuration is otherwise arbitrary. |
| `Mts.RfdcDriver.MultiConverterSync` | xrfdc_mts/xrfdc_functions.c:73 | The driver's sync for one converter type logs its input, status and output. Both the status and the written-back configuration are otherwise arbitrary. |
| `Mts.SelectedBelow` | xrfdc_mts/xrfdc_mts.py:95-96 | The tiles visited below n are strictly ascending and all below n. A tile i is among them exactly when i < n and `(1 << i) & Tiles` is non-zero. |
| `Mts.SelectedTilesLowBits` | xrfdc_mts/xrfdc_mts.py:95-96 | Only bits 0..3 of the mask matter: masks with equal low four bits visit the same tiles. A mask whose low four bits are clear (0, 16, …) visits none. |
| `Mts.TileDetail` | xrfdc_mts/xrfdc_mts.py:95-114 | The `for i in range(0,4)` loop yields one tile report per visited tile, in ascending order. |
| `Mts.ReportDetail` | xrfdc_mts/xrfdc_mts.py:88-117 | A report always carries the classified status. It has per-tile detail only on OK, and then only for tiles whose bit is set, in ascending order. Each tile's entry holds the latency, offset, marker delay and PLL/T1 DTC values of its own slot. |
| `Mts.ReportCoversEnabledTiles` | xrfdc_mts/xrfdc_mts.py:95-96 | On OK, every tile 0..3 whose bit is set appears in the detail. |
| `Mts.RFdcMTS.SyncReport` | xrfdc_mts/xrfdc_mts.py:78-164 | "ADC"/"DAC": returns `[Latency[0], Latency[1]]` of that configuration whatever the status or mask, and emits (appends to `reports`) that type's report. A non-string argument returns nothing and emits the type error. Any other string returns nothing and emits the invalid-converter error. Configurations and `status1` are unchanged. |
| `Mts.RFdcMTS.constructor` | xrfdc_mts/xrfdc_mts.py:34-35 | A new coordinator is bound to its driver instance, has no sync status yet and has emitted no report. |
| `Mts.RFdcMTS.Pass` | xrfdc_mts/xrfdc_mts.py:47-57 | One pass: init on the fresh configuration, then the four request fields. For a non-zero mask only, it then runs sync with that configuration, stores the status in `status1` and appends the report. The other type's configuration is unchanged. |
| `Mts.RFdcMTS.RunMTS` | xrfdc_mts/xrfdc_mts.py:37-75 | The log grows by the DAC pass's calls, then the ADC pass's calls. Each configuration is what its pass left. `status1` is the ADC sync status if the ADC mask is non-zero, else the DAC sync status if the DAC mask is non-zero, else unchanged. The reports are the DAC pass's, then the ADC pass's. The two passes' calls together form a run (`RunCalls`), and whenever a mask is non-zero `status1` is the status of the last sync in it. |
| `Mts.JoinPasses` | xrfdc_mts/xrfdc_mts.py:46-75 | A DAC pass followed by an ADC pass is a run, and splitting the run gives back the two passes. |
| `Mts.RunShape` | xrfdc_mts/xrfdc_mts.py:46-75 | The calls of a run, one by one. DAC init comes first, then the DAC sync iff the DAC mask is non-zero. ADC init comes next, then the ADC sync iff the ADC mask is non-zero. There is no other sync. |
| `Mts.RequestFieldsOfRun` | xrfdc_mts/xrfdc_mts.py:49-52 | Every sync is handed RefTile 0, SysRef_Enable 1 and its type's requested Tiles and Target_Latency. The final configuration has these fields for a zero mask. For a non-zero mask it has them when the driver's sync kept them. |
| `Mts.SyncOnlyForNonZeroMask` | xrfdc_mts/xrfdc_mts.py:54-56 | A converter type's sync is called iff its mask is non-zero. |
| `Mts.ReportOnlyForNonZeroMask` | xrfdc_mts/xrfdc_mts.py:54-57 | A run emits one report per converter type with a non-zero mask, DAC first, and none for a zero mask. |
| `Mts.DacBeforeAdc` | xrfdc_mts/xrfdc_mts.py:46-75 | Every DAC sync precedes the ADC init, which precedes every ADC sync. |
| `Mts.AdcPassIgnoresDacStatus` | xrfdc_mts/xrfdc_mts.py:54-75 | Replacing the DAC sync's status by any value still gives a valid run with the same ADC pass, so a failing DAC status does not stop the ADC pass. |
| `Mts.LastSyncOfRun` | xrfdc_mts/xrfdc_mts.py:56-74 | The status of the last sync call in a run is the ADC status if the ADC mask is non-zero, else the DAC status if the DAC mask is non-zero, else there is none. |

## Left out

- Console output, the ANSI colour strings, the printing of `Target_Latency` and `printLatency` are left out. They are display only. A report is modelled as the `ReportOutput` value it would print.
- `time.sleep(0.5)` between the passes is left out. It is timing only.
- The CFFI header loading, `cdef`, the overlay binding (`bindto`) and the base-class `__init__` are left out. They are foreign-library plumbing. The constructor models only the state a coordinator starts with.
- The bodies of `XRFdc_MultiConverter_Init` and `XRFdc_MultiConverter_Sync` are not part of this model. `RfdcDriver` stands for them: it promises only to log each call, and its bodies are arbitrary functions fixed at creation.
- Init's `PLL_CodesPtr`/`T1_CodesPtr` pointer arguments and its `RefTile` argument are not modelled. Init's status is kept in the log but, as in the source, ignored.
- `XRFdc_GetDecimationFactor` in the report is left out. It fetches a value for display only.
- The other driver prototypes (`XRFdc_MTS_Sysref_Config`, `XRFdc_GetMTSEnable`, `XRFdc_GetMasterTile`, `XRFdc_GetSysRefSource`, `XRFdc_MTS_Dtc_Scan`) are left out. The coordinator never calls them.
- RequestFieldsOfRun: after a pass with a non-zero mask, the four request fields are proved only under the condition that the driver's sync kept them. The driver's code is not part of this model, so the unconditional form cannot be stated.
- `RunMTS` takes its masks as `u32` and its latencies as `i32`. The overflow error CFFI raises for Python integers out of those ranges is not modelled.
- Calling `_SyncReport` with "ADC" or "DAC" before any `RunMTS` fails in Python, because the configuration attributes do not yet exist. The model starts both configurations at `ZeroConfig` instead. `status1` likewise starts as `None`.
- `setup.py` is left out. It is packaging.
