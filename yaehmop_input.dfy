/**
 * The `Geometry` and `lattice` sections of the input that the yaehmop
 * plugin writes for the external tight-binding program
 * (`Yaehmop::createGeometryAndLatticeInput`).
 *
 * The text is modelled as a sequence of lines, each a sequence of fields;
 * how a number is rendered as characters is not modelled.  The layout is
 *
 *   line 0                 Geometry
 *   line 1                 N = numAtoms + numDim + 1
 *   lines 2 .. N+1         the N numbered records: the atoms, then
 *                          numDim + 1 dummy atoms `&` that mark the lattice
 *   line N+2               lattice
 *   line N+3               numDim
 *   line N+4               one overlap count per lattice dimension
 *   lines N+5 .. N+4+numDim one pair of record numbers per lattice vector
 */
module YaehmopInput {

  /** Three components: an atom position or one row of the cell matrix. */
  type Vec3 = v: seq<real> | |v| == 3 witness [0.0, 0.0, 0.0]

  /** A 3x3 matrix, stored as its rows. */
  type Matrix3 = m: seq<Vec3> | |m| == 3 witness [ZeroVec, ZeroVec, ZeroVec]

  const ZeroVec: Vec3 := [0.0, 0.0, 0.0]

  /** Atomic numbers are stored as unsigned char. */
  type AtomicNumber = n: int | 0 <= n < 256

  /** The unit cell as the plugin reads it: the cell matrix and the lattice lengths a, b and c. */
  datatype UnitCell = UnitCell(cellMatrix: Matrix3, a: real, b: real, c: real)

  /** One whitespace-separated field of the generated input. */
  datatype Field =
    | Word(w: string)      // a keyword or an element symbol
    | Count(n: int)        // an integer
    | Coord(x: real)       // a coordinate
    | Raw(text: string)    // text copied verbatim

  type Line = seq<Field>

  /** Numbers whose magnitude is below this threshold are written as 0. */
  const MinNum: real := 1e-8
  /** Every lattice direction uses at least this many overlaps. */
  const MinOverlap: int := 3
  /** Overlaps times lattice length must reach this many Angstroms. */
  const OverlapSpan: real := 20.0
  /** Symbol of the dummy atoms that mark the lattice vectors. */
  const DummySymbol: string := "&"

  function Abs(x: real): real { if x < 0.0 then -x else x }

  // ---------------------------------------------------------------------
  // Near-zero snapping
  // ---------------------------------------------------------------------

  /** An atom coordinate as written: kept only when its magnitude is strictly above 1e-8. */
  function SnapAtom(x: real): (r: real)
    ensures r == 0.0 || Abs(r) > MinNum
    ensures r != 0.0 ==> r == x
    ensures Abs(x) > MinNum ==> r == x
  {
    if Abs(x) > MinNum then x else 0.0
  }

  /** A cell-matrix entry as written: zeroed only when its magnitude is strictly below 1e-8. */
  function SnapCell(x: real): (r: real)
    ensures r == 0.0 || Abs(r) >= MinNum
    ensures r != 0.0 ==> r == x
    ensures Abs(x) >= MinNum ==> r == x
  {
    if Abs(x) < MinNum then 0.0 else x
  }

  /** The two thresholds differ exactly at 1e-8: an atom coordinate of 1e-8 is written as 0, a cell entry is kept. */
  lemma SnapThresholdsDiffer()
    ensures SnapAtom(MinNum) == 0.0 && SnapAtom(-MinNum) == 0.0
    ensures SnapCell(MinNum) == MinNum && SnapCell(-MinNum) == -MinNum
    ensures SnapAtom(1e-9) == 0.0 && SnapAtom(1e-7) == 1e-7
  {
  }

  // ---------------------------------------------------------------------
  // Overlap counts
  // ---------------------------------------------------------------------

  /**
   * `n` is the overlap count for an axis of this length: at least 3, long
   * enough to span 20 Angstroms, and not one more than needed.
   */
  ghost predicate IsOverlapFor(n: int, length: real)
  {
    && MinOverlap <= n
    && (n as real) * length >= OverlapSpan
    && (n == MinOverlap || ((n - 1) as real) * length < OverlapSpan)
  }

  lemma PositiveFactor(a: real, c: real)
    requires c > 0.0 && a * c > 0.0
    ensures a > 0.0
  {
  }

  lemma QuotientTimes(s: real, c: real)
    requires c > 0.0
    ensures (s / c) * c == s
  {
  }

  /** Multiplication by a positive number can be cancelled from a strict inequality. */
  lemma MulLessCancel(a: real, b: real, c: real)
    requires c > 0.0 && a * c < b * c
    ensures a < b
  {
    calc {
      (b - a) * c;
    ==
      b * c - a * c;
    >
      0.0;
    }
    PositiveFactor(b - a, c);
  }

  /** While `n` overlaps fall short of the span, `n` is bounded by 20 / length: the count cannot grow forever. */
  lemma BelowSpanBound(n: int, length: real)
    requires length > 0.0 && (n as real) * length < OverlapSpan
    ensures n <= (OverlapSpan / length).Floor
  {
    var q := OverlapSpan / length;
    QuotientTimes(OverlapSpan, length);
    calc {
      (q - n as real) * length;
    ==
      q * length - (n as real) * length;
    ==  { assert q * length == OverlapSpan; }
      OverlapSpan - (n as real) * length;
    >
      0.0;
    }
    PositiveFactor(q - n as real, length);
  }

  /** The count reached by incrementing from `n` while the span is not reached. */
  function OverlapFrom(n: int, length: real): (r: int)
    requires length > 0.0 && MinOverlap <= n
    requires n == MinOverlap || ((n - 1) as real) * length < OverlapSpan
    ensures n <= r && IsOverlapFor(r, length)
    decreases (OverlapSpan / length).Floor - n
  {
    if (n as real) * length >= OverlapSpan then n
    else
      BelowSpanBound(n, length);
      OverlapFrom(n + 1, length)
  }

  /** The overlap count chosen for an axis of the given length. */
  function Overlap(length: real): (n: int)
    requires length > 0.0
    ensures IsOverlapFor(n, length)
  {
    OverlapFrom(MinOverlap, length)
  }

  /** The overlap count is the smallest integer of at least 3 whose product with the length reaches 20. */
  lemma OverlapIsLeast(n: int, length: real, m: int)
    requires length > 0.0 && IsOverlapFor(n, length)
    requires MinOverlap <= m && (m as real) * length >= OverlapSpan
    ensures n <= m
  {
    if n > MinOverlap {
      calc {
        ((n - 1) as real) * length;
      <
        OverlapSpan;
      <=
        (m as real) * length;
      }
      MulLessCancel((n - 1) as real, m as real, length);
    }
  }

  /** Only one count satisfies the overlap rule, and it is the one `Overlap` computes. */
  lemma OverlapUnique(n: int, length: real)
    requires length > 0.0 && IsOverlapFor(n, length)
    ensures n == Overlap(length)
  {
    var o := Overlap(length);
    OverlapIsLeast(n, length, o);
    OverlapIsLeast(o, length, n);
  }

  /** An axis at least 20/3 Angstroms long keeps the minimum of 3 overlaps. */
  lemma OverlapStaysAtMinimum(length: real)
    requires length > 0.0 && (MinOverlap as real) * length >= OverlapSpan
    ensures Overlap(length) == MinOverlap
  {
    OverlapIsLeast(Overlap(length), length, MinOverlap);
  }

  /**
   * The overlap count never exceeds max(3, floor(20 / length) + 1); for a
   * very short axis this exceeds the range of a 32-bit counter.
   */
  lemma OverlapAtMost(length: real)
    requires length > 0.0
    ensures Overlap(length) == MinOverlap || Overlap(length) <= (OverlapSpan / length).Floor + 1
  {
    var n := Overlap(length);
    if n != MinOverlap {
      BelowSpanBound(n - 1, length);
    }
  }

  /** A lattice vector 4 Angstroms long needs 5 overlaps. */
  lemma OverlapForLengthFour()
    ensures Overlap(4.0) == 5
  {
    OverlapUnique(5, 4.0);
  }

  /**
   * The overlap loop: every axis starts at 3 and is incremented while
   * overlaps times length is below 20.  The loop runs for all three axes,
   * whatever the lattice dimension, so all three lengths must be positive.
   */
  method Overlaps(lengths: Vec3) returns (overlaps: seq<int>)
    requires forall k :: 0 <= k < 3 ==> lengths[k] > 0.0
    ensures |overlaps| == 3
    ensures forall k :: 0 <= k < 3 ==> overlaps[k] == Overlap(lengths[k])
  {
    overlaps := [MinOverlap, MinOverlap, MinOverlap];
    for i := 0 to 3
      invariant |overlaps| == 3
      invariant forall k :: 0 <= k < i ==> overlaps[k] == Overlap(lengths[k])
      invariant forall k :: i <= k < 3 ==> overlaps[k] == MinOverlap
    {
      while (overlaps[i] as real) * lengths[i] < OverlapSpan
        invariant |overlaps| == 3
        invariant MinOverlap <= overlaps[i]
        invariant overlaps[i] == MinOverlap || ((overlaps[i] - 1) as real) * lengths[i] < OverlapSpan
        invariant forall k :: 0 <= k < i ==> overlaps[k] == Overlap(lengths[k])
        invariant forall k :: i < k < 3 ==> overlaps[k] == MinOverlap
        decreases (OverlapSpan / lengths[i]).Floor - overlaps[i]
      {
        BelowSpanBound(overlaps[i], lengths[i]);
        overlaps := overlaps[i := overlaps[i] + 1];
      }
      OverlapUnique(overlaps[i], lengths[i]);
    }
  }

  // ---------------------------------------------------------------------
  // The lines of the two sections
  // ---------------------------------------------------------------------

  /** The lattice lengths are all positive: the overlap loop terminates only then. */
  predicate PositiveLengths(cell: UnitCell)
  {
    cell.a > 0.0 && cell.b > 0.0 && cell.c > 0.0
  }

  function LatticeOverlaps(cell: UnitCell): seq<int>
    requires PositiveLengths(cell)
  {
    [Overlap(cell.a), Overlap(cell.b), Overlap(cell.c)]
  }

  function GeometryHeader(numAtoms: nat, numDim: nat): seq<Line>
  {
    [[Word("Geometry")], [Count(numAtoms + numDim + 1)]]
  }

  /** The record of atom `i` (0-based): number i+1, its symbol, its snapped coordinates. */
  function AtomLine(i: nat, symbol: string, pos: Vec3): Line
  {
    [Count(i + 1), Word(symbol), Coord(SnapAtom(pos[0])), Coord(SnapAtom(pos[1])), Coord(SnapAtom(pos[2]))]
  }

  /** The record of dummy `k`: dummy 0 sits at the origin, dummy k >= 1 at row k-1 of the cell matrix. */
  function DummyLine(numAtoms: nat, k: nat, cellMatrix: Matrix3): Line
    requires k <= 3
  {
    if k == 0 then
      [Count(numAtoms + 1), Word(DummySymbol), Coord(0.0), Coord(0.0), Coord(0.0)]
    else
      var row := cellMatrix[k - 1];
      [Count(numAtoms + k + 1), Word(DummySymbol), Coord(SnapCell(row[0])), Coord(SnapCell(row[1])), Coord(SnapCell(row[2]))]
  }

  /** The records of the first `count` atoms. */
  function AtomLines(numbers: seq<AtomicNumber>, positions: seq<Vec3>, symbol: AtomicNumber -> string, count: nat): (r: seq<Line>)
    requires count <= |numbers| && count <= |positions|
    ensures |r| == count
  {
    if count == 0 then []
    else AtomLines(numbers, positions, symbol, count - 1) + [AtomLine(count - 1, symbol(numbers[count - 1]), positions[count - 1])]
  }

  /** The records of the first `count` dummies. */
  function DummyLines(numAtoms: nat, cellMatrix: Matrix3, count: nat): (r: seq<Line>)
    requires count <= 4
    ensures |r| == count
  {
    if count == 0 then []
    else DummyLines(numAtoms, cellMatrix, count - 1) + [DummyLine(numAtoms, count - 1, cellMatrix)]
  }

  /** The first `count` overlap counts, as one line. */
  function OverlapFields(overlaps: seq<int>, count: nat): (r: Line)
    requires count <= |overlaps|
    ensures |r| == count
  {
    if count == 0 then []
    else OverlapFields(overlaps, count - 1) + [Count(overlaps[count - 1])]
  }

  /** The first `count` lattice vectors, each as the pair of record numbers it runs between. */
  function PairLines(numAtoms: nat, count: nat): (r: seq<Line>)
    ensures |r| == count
  {
    if count == 0 then []
    else PairLines(numAtoms, count - 1) + [[Count(numAtoms + 1), Count(numAtoms + count + 1)]]
  }

  /** The preconditions under which the source writes both sections. */
  predicate WellFormedInput(numbers: seq<AtomicNumber>, positions: seq<Vec3>, cell: UnitCell, numDim: nat)
  {
    |positions| == |numbers| && PositiveLengths(cell) && numDim <= 3
  }

  function GeometrySection(numbers: seq<AtomicNumber>, positions: seq<Vec3>, cell: UnitCell, numDim: nat,
                           symbol: AtomicNumber -> string): seq<Line>
    requires WellFormedInput(numbers, positions, cell, numDim)
  {
    GeometryHeader(|numbers|, numDim)
    + AtomLines(numbers, positions, symbol, |numbers|)
    + DummyLines(|numbers|, cell.cellMatrix, numDim + 1)
  }

  function LatticeSection(numAtoms: nat, numDim: nat, overlaps: seq<int>): seq<Line>
    requires numDim <= |overlaps|
  {
    [[Word("lattice")], [Count(numDim)], OverlapFields(overlaps, numDim)] + PairLines(numAtoms, numDim)
  }

  /** Both sections, as `createGeometryAndLatticeInput` produces them for a molecule with a unit cell. */
  function GeometryAndLattice(numbers: seq<AtomicNumber>, positions: seq<Vec3>, cell: UnitCell, numDim: nat,
                              symbol: AtomicNumber -> string): seq<Line>
    requires WellFormedInput(numbers, positions, cell, numDim)
  {
    GeometrySection(numbers, positions, cell, numDim, symbol)
    + LatticeSection(|numbers|, numDim, LatticeOverlaps(cell))
  }

  // ---------------------------------------------------------------------
  // Indexing the recursive pieces
  // ---------------------------------------------------------------------

  lemma {:induction false} AtomLinesAt(numbers: seq<AtomicNumber>, positions: seq<Vec3>, symbol: AtomicNumber -> string,
                                       count: nat, i: nat)
    requires count <= |numbers| && count <= |positions| && i < count
    ensures AtomLines(numbers, positions, symbol, count)[i] == AtomLine(i, symbol(numbers[i]), positions[i])
  {
    if i < count - 1 {
      AtomLinesAt(numbers, positions, symbol, count - 1, i);
    }
  }

  lemma {:induction false} DummyLinesAt(numAtoms: nat, cellMatrix: Matrix3, count: nat, k: nat)
    requires count <= 4 && k < count
    ensures DummyLines(numAtoms, cellMatrix, count)[k] == DummyLine(numAtoms, k, cellMatrix)
  {
    if k < count - 1 {
      DummyLinesAt(numAtoms, cellMatrix, count - 1, k);
    }
  }

  lemma {:induction false} OverlapFieldsAt(overlaps: seq<int>, count: nat, i: nat)
    requires count <= |overlaps| && i < count
    ensures OverlapFields(overlaps, count)[i] == Count(overlaps[i])
  {
    if i < count - 1 {
      OverlapFieldsAt(overlaps, count - 1, i);
    }
  }

  lemma {:induction false} PairLinesAt(numAtoms: nat, count: nat, i: nat)
    requires i < count
    ensures PairLines(numAtoms, count)[i] == [Count(numAtoms + 1), Count(numAtoms + i + 2)]
  {
    if i < count - 1 {
      PairLinesAt(numAtoms, count - 1, i);
    }
  }

  // ---------------------------------------------------------------------
  // What the generated sections say
  // ---------------------------------------------------------------------

  /**
   * The Geometry header announces numAtoms + numDim + 1 records, exactly
   * that many five-field records follow, numbered 1, 2, ... in order, and
   * the lattice section starts right after them.
   */
  lemma GeometryHeaderCountsRecords(numbers: seq<AtomicNumber>, positions: seq<Vec3>, cell: UnitCell, numDim: nat,
                                    symbol: AtomicNumber -> string)
    requires WellFormedInput(numbers, positions, cell, numDim)
    ensures var g := GeometryAndLattice(numbers, positions, cell, numDim, symbol);
            var n := |numbers| + numDim + 1;
            && |g| == n + numDim + 5
            && g[0] == [Word("Geometry")]
            && g[1] == [Count(n)]
            && (forall j :: 2 <= j < n + 2 ==> |g[j]| == 5 && g[j][0] == Count(j - 1))
            && g[n + 2] == [Word("lattice")]
            && g[n + 3] == [Count(numDim)]
  {
    var g := GeometryAndLattice(numbers, positions, cell, numDim, symbol);
    var numAtoms := |numbers|;
    var atoms := AtomLines(numbers, positions, symbol, numAtoms);
    var dummies := DummyLines(numAtoms, cell.cellMatrix, numDim + 1);
    forall j | 2 <= j < numAtoms + numDim + 3
      ensures |g[j]| == 5 && g[j][0] == Count(j - 1)
    {
      if j < numAtoms + 2 {
        AtomLinesAt(numbers, positions, symbol, numAtoms, j - 2);
        assert g[j] == atoms[j - 2];
      } else {
        DummyLinesAt(numAtoms, cell.cellMatrix, numDim + 1, j - numAtoms - 2);
        assert g[j] == dummies[j - numAtoms - 2];
      }
    }
  }

  /** Atom `i` is record i+1: its symbol, then each coordinate, written as 0 unless its magnitude exceeds 1e-8. */
  lemma AtomRecords(numbers: seq<AtomicNumber>, positions: seq<Vec3>, cell: UnitCell, numDim: nat,
                    symbol: AtomicNumber -> string)
    requires WellFormedInput(numbers, positions, cell, numDim)
    ensures var g := GeometryAndLattice(numbers, positions, cell, numDim, symbol);
            forall j :: 2 <= j < |numbers| + 2 ==>
              var i := j - 2;
              g[j] == [Count(i + 1), Word(symbol(numbers[i])),
                       Coord(SnapAtom(positions[i][0])), Coord(SnapAtom(positions[i][1])), Coord(SnapAtom(positions[i][2]))]
  {
    var g := GeometryAndLattice(numbers, positions, cell, numDim, symbol);
    var atoms := AtomLines(numbers, positions, symbol, |numbers|);
    forall j | 2 <= j < |numbers| + 2
      ensures g[j] == AtomLine(j - 2, symbol(numbers[j - 2]), positions[j - 2])
    {
      AtomLinesAt(numbers, positions, symbol, |numbers|, j - 2);
      assert g[j] == atoms[j - 2];
    }
  }

  /**
   * The numDim + 1 dummies follow the atoms as records numAtoms+1 ..
   * numAtoms+numDim+1, all with symbol `&`: the first at the origin, dummy
   * k >= 1 at row k-1 of the cell matrix, each entry zeroed only when its
   * magnitude is below 1e-8.
   */
  lemma DummyRecords(numbers: seq<AtomicNumber>, positions: seq<Vec3>, cell: UnitCell, numDim: nat,
                     symbol: AtomicNumber -> string)
    requires WellFormedInput(numbers, positions, cell, numDim)
    ensures var g := GeometryAndLattice(numbers, positions, cell, numDim, symbol);
            var n := |numbers|;
            && g[n + 2] == [Count(n + 1), Word(DummySymbol), Coord(0.0), Coord(0.0), Coord(0.0)]
            && forall j :: n + 3 <= j < n + numDim + 3 ==>
                 var row := cell.cellMatrix[j - n - 3];
                 g[j] == [Count(j - 1), Word(DummySymbol),
                          Coord(SnapCell(row[0])), Coord(SnapCell(row[1])), Coord(SnapCell(row[2]))]
  {
    var g := GeometryAndLattice(numbers, positions, cell, numDim, symbol);
    var n := |numbers|;
    var dummies := DummyLines(n, cell.cellMatrix, numDim + 1);
    DummyLinesAt(n, cell.cellMatrix, numDim + 1, 0);
    assert g[n + 2] == dummies[0];
    forall j | n + 3 <= j < n + numDim + 3
      ensures g[j] == DummyLine(n, j - n - 2, cell.cellMatrix)
    {
      DummyLinesAt(n, cell.cellMatrix, numDim + 1, j - n - 2);
      assert g[j] == dummies[j - n - 2];
    }
  }

  /**
   * The lattice section lists only the first numDim overlap counts, one for
   * each axis of the cell, each the least count of at least 3 that spans 20
   * Angstroms along that axis.
   */
  lemma LatticeOverlapLine(numbers: seq<AtomicNumber>, positions: seq<Vec3>, cell: UnitCell, numDim: nat,
                           symbol: AtomicNumber -> string)
    requires WellFormedInput(numbers, positions, cell, numDim)
    ensures var g := GeometryAndLattice(numbers, positions, cell, numDim, symbol);
            var line := g[|numbers| + numDim + 5];
            var lengths := [cell.a, cell.b, cell.c];
            && |line| == numDim
            && forall i :: 0 <= i < numDim ==> line[i].Count? && IsOverlapFor(line[i].n, lengths[i])
  {
    var g := GeometryAndLattice(numbers, positions, cell, numDim, symbol);
    var geometry := GeometrySection(numbers, positions, cell, numDim, symbol);
    var overlaps := LatticeOverlaps(cell);
    assert |geometry| == |numbers| + numDim + 3;
    assert g[|numbers| + numDim + 5] == OverlapFields(overlaps, numDim);
    forall i | 0 <= i < numDim
      ensures OverlapFields(overlaps, numDim)[i] == Count(overlaps[i])
    {
      OverlapFieldsAt(overlaps, numDim, i);
    }
  }

  /**
   * Each of the numDim lattice vectors is a pair of record numbers: the
   * first is always the origin dummy, the second the dummy holding that
   * vector's row of the cell matrix.  The records these numbers name carry
   * those very numbers.
   */
  lemma LatticeVectorsRunFromOrigin(numbers: seq<AtomicNumber>, positions: seq<Vec3>, cell: UnitCell, numDim: nat,
                                    symbol: AtomicNumber -> string)
    requires WellFormedInput(numbers, positions, cell, numDim)
    ensures var g := GeometryAndLattice(numbers, positions, cell, numDim, symbol);
            var n := |numbers|;
            var first := n + numDim + 6;
            && |g| == first + numDim
            && g[n + 2] == [Count(n + 1), Word(DummySymbol), Coord(0.0), Coord(0.0), Coord(0.0)]
            && forall i :: 0 <= i < numDim ==>
                 var row := cell.cellMatrix[i];
                 && g[first + i] == [Count(n + 1), Count(n + i + 2)]
                 && g[n + i + 3] == [Count(n + i + 2), Word(DummySymbol),
                                     Coord(SnapCell(row[0])), Coord(SnapCell(row[1])), Coord(SnapCell(row[2]))]
  {
    var g := GeometryAndLattice(numbers, positions, cell, numDim, symbol);
    var n := |numbers|;
    var first := n + numDim + 6;
    var geometry := GeometrySection(numbers, positions, cell, numDim, symbol);
    var pairs := PairLines(n, numDim);
    assert |geometry| == n + numDim + 3;
    var dummies := DummyLines(n, cell.cellMatrix, numDim + 1);
    DummyLinesAt(n, cell.cellMatrix, numDim + 1, 0);
    assert g[n + 2] == dummies[0];
    forall i | 0 <= i < numDim
      ensures pairs[i] == [Count(n + 1), Count(n + i + 2)] && g[first + i] == pairs[i]
      ensures dummies[i + 1] == DummyLine(n, i + 1, cell.cellMatrix) && g[n + i + 3] == dummies[i + 1]
    {
      PairLinesAt(n, numDim, i);
      DummyLinesAt(n, cell.cellMatrix, numDim + 1, i + 1);
    }
  }

  // ---------------------------------------------------------------------
  // The generator
  // ---------------------------------------------------------------------

  /** One atom record, its coordinates snapped one by one. */
  method WriteAtomLine(i: nat, symbol: string, pos: Vec3) returns (line: Line)
    ensures line == AtomLine(i, symbol, pos)
  {
    line := [Count(i + 1), Word(symbol)];
    for j := 0 to 3
      invariant |line| == j + 2
      invariant line[..2] == [Count(i + 1), Word(symbol)]
      invariant forall k :: 2 <= k < |line| ==> line[k] == Coord(SnapAtom(pos[k - 2]))
    {
      line := line + [Coord(if Abs(pos[j]) > MinNum then pos[j] else 0.0)];
    }
  }

  /** One dummy record: the origin for k == 0, else row k-1 of the cell matrix with small entries zeroed. */
  method WriteDummyLine(numAtoms: nat, k: nat, cellMatrix: Matrix3) returns (line: Line)
    requires k <= 3
    ensures line == DummyLine(numAtoms, k, cellMatrix)
  {
    line := [Count(numAtoms + k + 1), Word(DummySymbol)];
    if k == 0 {
      line := line + [Coord(0.0), Coord(0.0), Coord(0.0)];
    } else {
      for j := 0 to 3
        invariant |line| == j + 2
        invariant line[..2] == [Count(numAtoms + k + 1), Word(DummySymbol)]
        invariant forall m :: 2 <= m < |line| ==> line[m] == Coord(SnapCell(cellMatrix[k - 1][m - 2]))
      {
        var val := cellMatrix[k - 1][j];
        if Abs(val) < MinNum {
          val := 0.0;
        }
        line := line + [Coord(val)];
      }
    }
  }

  /** The Geometry section: the header, the atoms in order, then the numDim + 1 dummies. */
  method WriteGeometry(numbers: seq<AtomicNumber>, positions: seq<Vec3>, cell: UnitCell, numDim: nat,
                       symbol: AtomicNumber -> string) returns (lines: seq<Line>)
    requires WellFormedInput(numbers, positions, cell, numDim)
    ensures lines == GeometrySection(numbers, positions, cell, numDim, symbol)
  {
    var numAtoms := |numbers|;
    lines := [[Word("Geometry")], [Count(numAtoms + numDim + 1)]];
    for i := 0 to numAtoms
      invariant lines == GeometryHeader(numAtoms, numDim) + AtomLines(numbers, positions, symbol, i)
    {
      var line := WriteAtomLine(i, symbol(numbers[i]), positions[i]);
      lines := lines + [line];
    }
    ghost var atoms := lines;
    for i := 0 to numDim + 1
      invariant lines == atoms + DummyLines(numAtoms, cell.cellMatrix, i)
    {
      var line := WriteDummyLine(numAtoms, i, cell.cellMatrix);
      lines := lines + [line];
    }
  }

  /** The lattice section: `lattice`, numDim, the first numDim overlap counts, then one pair per vector. */
  method WriteLattice(numAtoms: nat, numDim: nat, overlaps: seq<int>) returns (lines: seq<Line>)
    requires numDim <= |overlaps|
    ensures lines == LatticeSection(numAtoms, numDim, overlaps)
  {
    var overlapLine := [];
    for i := 0 to numDim
      invariant overlapLine == OverlapFields(overlaps, i)
    {
      overlapLine := overlapLine + [Count(overlaps[i])];
    }
    lines := [[Word("lattice")], [Count(numDim)], overlapLine];
    for i := 0 to numDim
      invariant lines == [[Word("lattice")], [Count(numDim)], overlapLine] + PairLines(numAtoms, i)
    {
      lines := lines + [[Count(numAtoms + 1), Count(numAtoms + i + 2)]];
    }
  }

  /**
   * The body of `createGeometryAndLatticeInput` once a molecule with a unit
   * cell is at hand: the Geometry section, the overlap counts, the lattice section.
   */
  method GeometryAndLatticeLines(numbers: seq<AtomicNumber>, positions: seq<Vec3>, cell: UnitCell, numDim: nat,
                                 symbol: AtomicNumber -> string) returns (lines: seq<Line>)
    requires WellFormedInput(numbers, positions, cell, numDim)
    ensures lines == GeometryAndLattice(numbers, positions, cell, numDim, symbol)
  {
    var geometry := WriteGeometry(numbers, positions, cell, numDim, symbol);
    var overlaps := Overlaps([cell.a, cell.b, cell.c]);
    assert overlaps == LatticeOverlaps(cell);
    var lattice := WriteLattice(|numbers|, numDim, overlaps);
    lines := geometry + lattice;
  }
}
