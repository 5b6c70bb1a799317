/**
 * Reel-stop cadence builder of a slot machine.
 *
 * For one game round, the positions of the special symbols decide, column by
 * column, whether the reel stop is slowed down ("anticipated") or runs at the
 * default speed. The three rounds of a game are mapped independently.
 *
 * Cadence values are only ever copied from the configuration, never computed
 * with, so they are modelled as `real` (the shipped values 2 and 0.25 are
 * exact there).
 */
module SlotMachineCadence {

  /** Immutable anticipation configuration of the machine. */
  datatype AnticipatorConfig = AnticipatorConfig(
    columnSize: nat,          // number of reel columns
    minToAnticipate: int,     // declared, never read by the cadence builder
    maxToAnticipate: int,     // declared, never read by the cadence builder
    anticipateCadence: real,  // cadence of a column holding a special symbol
    defaultCadence: real      // cadence of every other column
  )

  /** A cell of the reel grid. */
  datatype SlotCoordinate = SlotCoordinate(column: int, row: int)

  /** The special-symbol positions of one round. */
  datatype SpecialSymbol = SpecialSymbol(specialSymbols: seq<SlotCoordinate>)

  /** The closed set of round identifiers. */
  datatype Round = RoundOne | RoundTwo | RoundThree

  /** Special symbols of the three fixed rounds. */
  datatype RoundsSymbols = RoundsSymbols(roundOne: SpecialSymbol, roundTwo: SpecialSymbol, roundThree: SpecialSymbol)
  {
    function Get(r: Round): SpecialSymbol
    {
      match r
      case RoundOne => roundOne
      case RoundTwo => roundTwo
      case RoundThree => roundThree
    }
  }

  /** Cadences of the three fixed rounds. */
  datatype RoundsCadences = RoundsCadences(roundOne: seq<real>, roundTwo: seq<real>, roundThree: seq<real>)
  {
    function Get(r: Round): seq<real>
    {
      match r
      case RoundOne => roundOne
      case RoundTwo => roundTwo
      case RoundThree => roundThree
    }
  }

  /** The configuration the machine ships with. */
  const ShippedConfig := AnticipatorConfig(5, 2, 3, 2.0, 0.25)

  /** The round layouts the machine ships with. */
  const GameRounds := RoundsSymbols(
    SpecialSymbol([SlotCoordinate(0, 2), SlotCoordinate(1, 3), SlotCoordinate(3, 4)]),
    SpecialSymbol([SlotCoordinate(0, 2), SlotCoordinate(0, 3)]),
    SpecialSymbol([SlotCoordinate(4, 2), SlotCoordinate(4, 3)]))

  // ---------------------------------------------------------------------------
  // Specification

  /** Some special symbol lies in `column` (its row does not matter). */
  predicate HasSpecialSymbol(symbols: seq<SlotCoordinate>, column: int)
  {
    exists s :: s in symbols && s.column == column
  }

  /** The cadence a single column receives. */
  function ColumnCadence(config: AnticipatorConfig, symbols: seq<SlotCoordinate>, column: int): real
  {
    if HasSpecialSymbol(symbols, column) then config.anticipateCadence else config.defaultCadence
  }

  /** The cadences of columns 0 .. n-1, in ascending column order. */
  function CadencePrefix(config: AnticipatorConfig, symbols: seq<SlotCoordinate>, n: nat): seq<real>
  {
    if n == 0 then [] else CadencePrefix(config, symbols, n - 1) + [ColumnCadence(config, symbols, n - 1)]
  }

  /** The full cadence of one round: one entry per column of the machine. */
  function Cadence(config: AnticipatorConfig, symbols: seq<SlotCoordinate>): seq<real>
  {
    CadencePrefix(config, symbols, config.columnSize)
  }

  // ---------------------------------------------------------------------------
  // Operations

  /**
   * Builds the cadence of one round: for each column in ascending order, scan
   * the special symbols until one lies in that column, then push the
   * anticipation cadence if one was found and the default cadence otherwise.
   */
  method SlotCadence(config: AnticipatorConfig, symbols: seq<SlotCoordinate>) returns (cadence: seq<real>)
    ensures cadence == Cadence(config, symbols)
  {
    cadence := [];
    for column := 0 to config.columnSize
      invariant cadence == CadencePrefix(config, symbols, column)
    {
      var hasSpecialSymbol := false;
      for i := 0 to |symbols|
        invariant !hasSpecialSymbol
        invariant forall j :: 0 <= j < i ==> symbols[j].column != column
      {
        if symbols[i].column == column {
          hasSpecialSymbol := true;
          break;
        }
      }
      assert hasSpecialSymbol == HasSpecialSymbol(symbols, column);
      var columnCadence := if hasSpecialSymbol then config.anticipateCadence else config.defaultCadence;
      cadence := cadence + [columnCadence];
    }
  }

  /**
   * Builds a fresh record holding the cadence of each of the three rounds,
   * starting from empty cadences and filling the fields one by one.
   */
  method HandleCadences(config: AnticipatorConfig, rounds: RoundsSymbols) returns (cadences: RoundsCadences)
    ensures forall r: Round :: cadences.Get(r) == Cadence(config, rounds.Get(r).specialSymbols)
  {
    cadences := RoundsCadences([], [], []);
    var one := SlotCadence(config, rounds.roundOne.specialSymbols);
    cadences := cadences.(roundOne := one);
    var two := SlotCadence(config, rounds.roundTwo.specialSymbols);
    cadences := cadences.(roundTwo := two);
    var three := SlotCadence(config, rounds.roundThree.specialSymbols);
    cadences := cadences.(roundThree := three);
    forall r: Round ensures cadences.Get(r) == Cadence(config, rounds.Get(r).specialSymbols) {
      match r
      case RoundOne =>
      case RoundTwo =>
      case RoundThree =>
    }
  }

  /** The cadences of the shipped rounds under the shipped configuration. */
  method GameRoundsCadences() returns (cadences: RoundsCadences)
    ensures cadences.roundOne == [2.0, 2.0, 0.25, 2.0, 0.25]
    ensures cadences.roundTwo == [2.0, 0.25, 0.25, 0.25, 0.25]
    ensures cadences.roundThree == [0.25, 0.25, 0.25, 0.25, 2.0]
  {
    cadences := HandleCadences(ShippedConfig, GameRounds);
    assert cadences.Get(RoundOne) == Cadence(ShippedConfig, GameRounds.roundOne.specialSymbols);
    assert cadences.Get(RoundTwo) == Cadence(ShippedConfig, GameRounds.roundTwo.specialSymbols);
    assert cadences.Get(RoundThree) == Cadence(ShippedConfig, GameRounds.roundThree.specialSymbols);
    ShippedCadences();
  }

  // ---------------------------------------------------------------------------
  // Properties

  /** The prefix for n columns has n entries, entry c being column c's cadence. */
  lemma {:induction false} CadencePrefixAt(config: AnticipatorConfig, symbols: seq<SlotCoordinate>, n: nat)
    ensures |CadencePrefix(config, symbols, n)| == n
    ensures forall c :: 0 <= c < n ==> CadencePrefix(config, symbols, n)[c] == ColumnCadence(config, symbols, c)
  {
    if n > 0 {
      CadencePrefixAt(config, symbols, n - 1);
    }
  }

  /** A cadence has exactly one entry per column of the machine. */
  lemma CadenceLength(config: AnticipatorConfig, symbols: seq<SlotCoordinate>)
    ensures |Cadence(config, symbols)| == config.columnSize
  {
    CadencePrefixAt(config, symbols, config.columnSize);
  }

  /**
   * Entry c is the anticipation cadence when column c holds a special symbol
   * and the default cadence when it does not.
   */
  lemma CadenceAt(config: AnticipatorConfig, symbols: seq<SlotCoordinate>, c: int)
    requires 0 <= c < config.columnSize
    ensures |Cadence(config, symbols)| == config.columnSize
    ensures HasSpecialSymbol(symbols, c) ==> Cadence(config, symbols)[c] == config.anticipateCadence
    ensures !HasSpecialSymbol(symbols, c) ==> Cadence(config, symbols)[c] == config.defaultCadence
  {
    CadencePrefixAt(config, symbols, config.columnSize);
  }

  /**
   * When the two cadence values differ, entry c is the anticipation cadence
   * if and only if some special symbol lies in column c.
   */
  lemma AnticipateIff(config: AnticipatorConfig, symbols: seq<SlotCoordinate>, c: int)
    requires config.anticipateCadence != config.defaultCadence
    requires 0 <= c < config.columnSize
    ensures |Cadence(config, symbols)| == config.columnSize
    ensures Cadence(config, symbols)[c] == config.anticipateCadence
        <==> exists s :: s in symbols && s.column == c
    ensures Cadence(config, symbols)[c] == config.defaultCadence
        <==> !exists s :: s in symbols && s.column == c
  {
    CadenceAt(config, symbols, c);
  }

  /** Every entry is one of the two configured cadences, and nothing else. */
  lemma CadenceTwoValued(config: AnticipatorConfig, symbols: seq<SlotCoordinate>)
    ensures forall x :: x in Cadence(config, symbols) ==> x == config.anticipateCadence || x == config.defaultCadence
  {
    CadencePrefixAt(config, symbols, config.columnSize);
  }

  /**
   * The cadence depends only on which in-range columns hold a special symbol:
   * two symbol lists that agree on that give the same cadence.
   */
  lemma {:induction false} CadencePrefixSameColumns(config: AnticipatorConfig, a: seq<SlotCoordinate>, b: seq<SlotCoordinate>, n: nat)
    requires forall c :: 0 <= c < n ==> (HasSpecialSymbol(a, c) <==> HasSpecialSymbol(b, c))
    ensures CadencePrefix(config, a, n) == CadencePrefix(config, b, n)
  {
    if n > 0 {
      CadencePrefixSameColumns(config, a, b, n - 1);
      assert HasSpecialSymbol(a, n - 1) <==> HasSpecialSymbol(b, n - 1);
    }
  }

  lemma CadenceSameColumns(config: AnticipatorConfig, a: seq<SlotCoordinate>, b: seq<SlotCoordinate>)
    requires forall c :: 0 <= c < config.columnSize ==> (HasSpecialSymbol(a, c) <==> HasSpecialSymbol(b, c))
    ensures Cadence(config, a) == Cadence(config, b)
  {
    CadencePrefixSameColumns(config, a, b, config.columnSize);
  }

  /** Rows are never consulted: lists that differ only in rows give the same cadence. */
  lemma RowsIgnored(config: AnticipatorConfig, a: seq<SlotCoordinate>, b: seq<SlotCoordinate>)
    requires |a| == |b|
    requires forall i :: 0 <= i < |a| ==> a[i].column == b[i].column
    ensures Cadence(config, a) == Cadence(config, b)
  {
    forall c | 0 <= c < config.columnSize ensures HasSpecialSymbol(a, c) <==> HasSpecialSymbol(b, c) {
      if HasSpecialSymbol(a, c) {
        var s :| s in a && s.column == c;
        var i :| 0 <= i < |a| && a[i] == s;
        assert b[i] in b;
      }
      if HasSpecialSymbol(b, c) {
        var s :| s in b && s.column == c;
        var i :| 0 <= i < |b| && b[i] == s;
        assert a[i] in a;
      }
    }
    CadenceSameColumns(config, a, b);
  }

  /** Coordinates outside the columns of the machine are silently ignored. */
  lemma OutOfRangeIgnored(config: AnticipatorConfig, symbols: seq<SlotCoordinate>, extra: seq<SlotCoordinate>)
    requires forall s :: s in extra ==> s.column < 0 || config.columnSize <= s.column
    ensures Cadence(config, symbols + extra) == Cadence(config, symbols)
  {
    forall c | 0 <= c < config.columnSize
      ensures HasSpecialSymbol(symbols + extra, c) <==> HasSpecialSymbol(symbols, c)
    {
      if HasSpecialSymbol(symbols + extra, c) {
        var s :| s in symbols + extra && s.column == c;
        assert s in symbols;
      }
      if HasSpecialSymbol(symbols, c) {
        var s :| s in symbols && s.column == c;
        assert s in symbols + extra;
      }
    }
    CadenceSameColumns(config, symbols + extra, symbols);
  }

  /**
   * Only the set of coordinates matters: reordering or duplicating them
   * leaves the cadence unchanged.
   */
  lemma OrderAndDuplicatesIgnored(config: AnticipatorConfig, a: seq<SlotCoordinate>, b: seq<SlotCoordinate>)
    requires forall s :: s in a <==> s in b
    ensures Cadence(config, a) == Cadence(config, b)
  {
    CadenceSameColumns(config, a, b);
  }

  /** The anticipation thresholds of the configuration never affect the cadence. */
  lemma {:induction false} ThresholdsIgnored(config: AnticipatorConfig, symbols: seq<SlotCoordinate>, minToAnticipate: int, maxToAnticipate: int)
    ensures Cadence(config.(minToAnticipate := minToAnticipate, maxToAnticipate := maxToAnticipate), symbols)
         == Cadence(config, symbols)
  {
    var other := config.(minToAnticipate := minToAnticipate, maxToAnticipate := maxToAnticipate);
    CadencePrefixAt(config, symbols, config.columnSize);
    CadencePrefixAt(other, symbols, other.columnSize);
  }

  /** The shipped rounds under the shipped configuration. */
  lemma ShippedCadences()
    ensures Cadence(ShippedConfig, GameRounds.roundOne.specialSymbols) == [2.0, 2.0, 0.25, 2.0, 0.25]
    ensures Cadence(ShippedConfig, GameRounds.roundTwo.specialSymbols) == [2.0, 0.25, 0.25, 0.25, 0.25]
    ensures Cadence(ShippedConfig, GameRounds.roundThree.specialSymbols) == [0.25, 0.25, 0.25, 0.25, 2.0]
  {
    // Dafny evaluates the recursive specification on these literals unaided.
  }
}
