# Slot-machine reel-stop cadence builder

A Dafny model of the cadence builder of the slot-machine game
(`test-js/Cadence/SlotMachineCadence.ts`). For one game round it receives the
grid coordinates of the special symbols and produces one cadence value per reel
column, in ascending column order: the anticipation cadence when some special
symbol lies in that column, the default cadence otherwise. A second operation
does this for each of the three fixed rounds and returns a new record with the
three cadences.

Everything lives in `SlotMachineCadence.dfy`, module `SlotMachineCadence`:

- data: `AnticipatorConfig`, `SlotCoordinate`, `SpecialSymbol`, `RoundsSymbols`,
  `RoundsCadences` as immutable datatypes, `Round` as the closed set of round
  identifiers, and the shipped constants `ShippedConfig` and `GameRounds`;
- specification: `HasSpecialSymbol`, `ColumnCadence`, `CadencePrefix` and
  `Cadence`, pure functions describing the expected cadence;
- operations: `SlotCadence`, an imperative method with the outer loop over the
  columns, the inner search over the symbols that stops at the first hit, and a
  pushed-to accumulator, proved equal to `Cadence`; `HandleCadences`, which
  starts from an empty record and fills its three fields one by one;
- properties: lemmas about `Cadence` (length, per-column value, the
  if-and-only-if, two-valuedness, which inputs are ignored) and the shipped
  results.

The source's functions read the module-level constant `anticipatorConfig`; the
model passes the configuration as a parameter, and `GameRoundsCadences` and
`ShippedCadences` instantiate it with the shipped values. The
if-and-only-if of `AnticipateIff` needs the two cadence values to differ (with
equal values every entry equals both); the shipped configuration has 2 and
0.25.

## Model

| member | source | states |
|---|---|---|
| `SlotMachineCadence.SlotCadence` | test-js/Cadence/SlotMachineCadence.ts:87-110 | the pushed cadence equals the specification `Cadence`: column by column, anticipation cadence exactly when the inner search finds a symbol in that column |
| `SlotMachineCadence.HandleCadences` | test-js/Cadence/SlotMachineCadence.ts:117-130 | for every round of the closed set, the returned field is the cadence of that same round's special symbols; inputs are values and stay unchanged |
| `SlotMachineCadence.GameRoundsCadences` | test-js/Cadence/SlotMachineCadence.ts:132-134 | the cadences computed for the shipped rounds are [2, 2, 0.25, 2, 0.25], [2, 0.25, 0.25, 0.25, 0.25] and [0.25, 0.25, 0.25, 0.25, 2] |
| `SlotMachineCadence.CadencePrefixAt` | test-js/Cadence/SlotMachineCadence.ts:91-107 | after n columns the accumulator holds n entries, entry c being the cadence of column c |
| `SlotMachineCadence.CadenceLength` | test-js/Cadence/SlotMachineCadence.ts:91-107 | a cadence has exactly `columnSize` entries |
| `SlotMachineCadence.CadenceAt` | test-js/Cadence/SlotMachineCadence.ts:95-106 | entry c is the anticipation cadence when some symbol lies in column c and the default cadence when none does |
| `SlotMachineCadence.AnticipateIff` | test-js/Cadence/SlotMachineCadence.ts:95-105 | with distinct cadence values, entry c is the anticipation cadence iff some coordinate has column c, and the default cadence iff none has |
| `SlotMachineCadence.CadenceTwoValued` | test-js/Cadence/SlotMachineCadence.ts:103-106 | every entry is the anticipation or the default cadence, never another value |
| `SlotMachineCadence.CadencePrefixSameColumns` | test-js/Cadence/SlotMachineCadence.ts:91-100 | two symbol lists that agree on which of the first n columns hold a symbol give the same first n entries |
| `SlotMachineCadence.CadenceSameColumns` | test-js/Cadence/SlotMachineCadence.ts:91-100 | the cadence depends only on which in-range columns hold a special symbol |
| `SlotMachineCadence.RowsIgnored` | test-js/Cadence/SlotMachineCadence.ts:96 | symbol lists differing only in rows give the same cadence |
| `SlotMachineCadence.OutOfRangeIgnored` | test-js/Cadence/SlotMachineCadence.ts:91-100 | appending coordinates whose column lies outside [0, columnSize) changes nothing and raises no error |
| `SlotMachineCadence.OrderAndDuplicatesIgnored` | test-js/Cadence/SlotMachineCadence.ts:95-100 | symbol lists with the same elements, in any order and multiplicity, give the same cadence |
| `SlotMachineCadence.ThresholdsIgnored` | test-js/Cadence/SlotMachineCadence.ts:1-7 | changing `minToAnticipate` and `maxToAnticipate` never changes the cadence |
| `SlotMachineCadence.ShippedCadences` | test-js/Cadence/SlotMachineCadence.ts:38-69 | the specification gives the three expected cadences for the shipped configuration and rounds |

## Left out

- The `console.log` calls (test-js/Cadence/SlotMachineCadence.ts:132-134) are output only; `GameRoundsCadences` computes the value they print.
- The `slotMachineCadences` placeholder (test-js/Cadence/SlotMachineCadence.ts:74-78) is never read or written by any function.
- Floating point: cadence values are only copied, so they are `real` and no IEEE arithmetic is modelled.
- JavaScript `number` for columns, rows and `columnSize`: the model uses integers, so a fractional column or column count is not represented (a fractional column would never match, as with `===`).
- The configuration is a parameter rather than a module-level constant; the shipped constant is supplied by `GameRoundsCadences`.
- The winning-combination line scanner (test-js/Winning Combinations/src/winning-combinations.ts) is a separate script and is not part of this model.
