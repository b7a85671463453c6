/** The tab-separated tables the script writes: one row per bin index, each
    row the concatenation of a fixed-width block of cells per snapshot. A
    binned relation contributes (centre, mean, spread, count) with 'NaN' for
    a missing value or a bin the snapshot does not have; a mass function
    contributes (x, y) with empty cells past the end of a shorter curve. */
module Tables {
  import opened Numerics
  import Binning
  import MassFunctions

  /** One field of a written row: a number, or text written as it is. */
  datatype Cell = Num(v: real) | Text(t: string)

  /** The text written for a missing value. */
  const NaN: Cell := Text("NaN")
  /** The empty field that pads a shorter curve. */
  const Blank: Cell := Text("")

  /** The blocks of a row laid end to end, the way each `row.extend(...)`
      appends one block. */
  function Concat<T>(blocks: seq<seq<T>>): seq<T>
  {
    if blocks == [] then [] else Concat(blocks[..|blocks| - 1]) + blocks[|blocks| - 1]
  }

  /** When every block is w cells wide, the concatenation is w times as long
      as the number of blocks. */
  lemma {:induction false} ConcatLength<T>(blocks: seq<seq<T>>, w: nat)
    requires forall k :: 0 <= k < |blocks| ==> |blocks[k]| == w
    ensures |Concat(blocks)| == w * |blocks|
  {
    if blocks != [] {
      var n := |blocks|;
      ConcatLength(blocks[..n - 1], w);
      assert w * n == w * (n - 1) + w;
    }
  }

  /** Laying out two runs of blocks one after the other is laying out their
      concatenation. */
  lemma {:induction false} ConcatAppend<T>(a: seq<seq<T>>, b: seq<seq<T>>)
    ensures Concat(a + b) == Concat(a) + Concat(b)
  {
    if b == [] {
      assert a + b == a;
    } else {
      var init := b[..|b| - 1];
      ConcatAppend(a, init);
      assert (a + b)[..|a + b| - 1] == a + init;
    }
  }

  /** When every block is w cells wide, block k sits at cells
      [w * k, w * k + w) of the concatenation. */
  lemma ConcatBlock<T>(blocks: seq<seq<T>>, w: nat, k: nat)
    requires forall j :: 0 <= j < |blocks| ==> |blocks[j]| == w
    requires k < |blocks|
    ensures w * k + w <= |Concat(blocks)|
    ensures Concat(blocks)[w * k..w * k + w] == blocks[k]
  {
    var front, rest := blocks[..k], blocks[k + 1..];
    assert blocks == front + ([blocks[k]] + rest);
    ConcatAppend(front, [blocks[k]] + rest);
    ConcatAppend([blocks[k]], rest);
    assert [blocks[k]][..0] == [];
    ConcatLength(front, w);
    SliceOfMiddle(Concat(front), blocks[k], Concat(rest));
  }

  /** The middle part of a three-part concatenation sits right after the
      first part. */
  lemma SliceOfMiddle<T>(front: seq<T>, middle: seq<T>, back: seq<T>)
    ensures (front + (middle + back))[|front|..|front| + |middle|] == middle
  {
  }

  /** Extending the first k blocks by block k gives the first k + 1. */
  lemma ConcatPrefix<T>(blocks: seq<seq<T>>, k: nat)
    requires k < |blocks|
    ensures Concat(blocks[..k + 1]) == Concat(blocks[..k]) + blocks[k]
  {
    assert blocks[..k + 1][..k] == blocks[..k];
  }

  // ---------------------------------------------------------------------
  // The binned-relation table.

  /** A missing value is written as 'NaN', a present one after applying f
      (the identity for means, the square root for spreads). */
  function MissingAsNaN(o: Option<real>, f: real -> real): (c: Cell)
    ensures c == NaN <==> o.None?
  {
    match o
    case None => NaN
    case Some(v) => Num(f(v))
  }

  /** The four statistics of one aggregate line up bin by bin. */
  predicate WellFormed(d: Binning.BinnedData)
  {
    |d.means| == |d.centers| && |d.spreads| == |d.centers| && |d.counts| == |d.centers|
  }

  /** One snapshot's block in row i: centre, mean, standard deviation (the
      square root of the stored variance) and count of bin i, or four 'NaN'
      cells when the snapshot has no bin i. */
  function BinnedCells(d: Binning.BinnedData, i: nat, sqrt: real -> real): (cells: seq<Cell>)
    requires WellFormed(d)
    ensures |cells| == 4
    ensures cells == [NaN, NaN, NaN, NaN] <==> i >= |d.centers|
  {
    if i < |d.centers|
    then [Num(d.centers[i]), MissingAsNaN(d.means[i], x => x), MissingAsNaN(d.spreads[i], sqrt),
          Num(d.counts[i] as real)]
    else [NaN, NaN, NaN, NaN]
  }

  /** Every snapshot's block of row i. */
  function BinnedBlocks(binned: seq<Binning.BinnedData>, i: nat, sqrt: real -> real): (blocks: seq<seq<Cell>>)
    requires forall k :: 0 <= k < |binned| ==> WellFormed(binned[k])
    ensures |blocks| == |binned|
    ensures forall k :: 0 <= k < |binned| ==> |blocks[k]| == 4
  {
    seq(|binned|, k requires 0 <= k < |binned| => BinnedCells(binned[k], i, sqrt))
  }

  /** Row i of the binned table. */
  function BinnedRow(binned: seq<Binning.BinnedData>, i: nat, sqrt: real -> real): seq<Cell>
    requires forall k :: 0 <= k < |binned| ==> WellFormed(binned[k])
  {
    Concat(BinnedBlocks(binned, i, sqrt))
  }

  /** Row i holds four cells per snapshot, snapshot k's at [4k, 4k + 4). */
  lemma BinnedRowLayout(binned: seq<Binning.BinnedData>, i: nat, sqrt: real -> real)
    requires forall k :: 0 <= k < |binned| ==> WellFormed(binned[k])
    ensures |BinnedRow(binned, i, sqrt)| == 4 * |binned|
    ensures forall k :: 0 <= k < |binned| ==>
              BinnedRow(binned, i, sqrt)[4 * k..4 * k + 4] == BinnedCells(binned[k], i, sqrt)
  {
    var blocks := BinnedBlocks(binned, i, sqrt);
    ConcatLength(blocks, 4);
    forall k | 0 <= k < |binned|
      ensures BinnedRow(binned, i, sqrt)[4 * k..4 * k + 4] == BinnedCells(binned[k], i, sqrt)
    {
      ConcatBlock(blocks, 4, k);
    }
  }

  /** The script's nested loop writing nRows rows, one block per snapshot
      in each. */
  method BinnedRows(binned: seq<Binning.BinnedData>, nRows: nat, sqrt: real -> real)
    returns (rows: seq<seq<Cell>>)
    requires forall k :: 0 <= k < |binned| ==> WellFormed(binned[k])
    ensures |rows| == nRows
    ensures forall i :: 0 <= i < nRows ==> rows[i] == BinnedRow(binned, i, sqrt)
  {
    rows := [];
    for i := 0 to nRows
      invariant |rows| == i
      invariant forall r :: 0 <= r < i ==> rows[r] == BinnedRow(binned, r, sqrt)
    {
      ghost var blocks := BinnedBlocks(binned, i, sqrt);
      var row: seq<Cell> := [];
      for k := 0 to |binned|
        invariant row == Concat(blocks[..k])
      {
        ConcatPrefix(blocks, k);
        row := row + BinnedCells(binned[k], i, sqrt);
      }
      assert blocks[..|binned|] == blocks;
      rows := rows + [row];
    }
  }

  /** In a table of aggregates, a bin's mean and spread cells read 'NaN'
      exactly when its count cell is 0, and its centre and count are
      written as numbers. */
  lemma EmptyBinsReadNaN(x: seq<real>, y: seq<real>, n: nat, i: nat, sqrt: real -> real)
    requires |x| == |y| > 0 && n > 0 && i < n
    ensures WellFormed(Binning.Aggregate(x, y, n))
    ensures var d := Binning.Aggregate(x, y, n);
            var cells := BinnedCells(d, i, sqrt);
            && cells[0] == Num(d.centers[i])
            && cells[3] == Num(d.counts[i] as real)
            && (cells[1] == NaN <==> d.counts[i] == 0)
            && (cells[2] == NaN <==> d.counts[i] == 0)
  {
  }

  /** A snapshot with fewer than i + 1 bins writes four 'NaN' cells in row i;
      with n-bin aggregates and n rows, as in the script, that never
      happens: every block of every row starts with a numeric centre. */
  lemma {:induction false} PanelRowsAreFull(xMass: seq<seq<real>>, yMass: seq<seq<real>>, snaps: seq<nat>,
                                            log10: real -> real, n: nat, i: nat, sqrt: real -> real)
    requires Binning.PanelInputs(xMass, yMass, snaps) && n > 0 && i < n
    ensures var binned := Binning.Panel(xMass, yMass, snaps, log10, n);
            && (forall k :: 0 <= k < |binned| ==> WellFormed(binned[k]))
            && |BinnedRow(binned, i, sqrt)| == 4 * |binned|
            && (forall k :: 0 <= k < |binned| ==>
                  BinnedRow(binned, i, sqrt)[4 * k] == Num(binned[k].centers[i]))
  {
    var binned := Binning.Panel(xMass, yMass, snaps, log10, n);
    BinnedRowLayout(binned, i, sqrt);
    forall k | 0 <= k < |binned|
      ensures BinnedRow(binned, i, sqrt)[4 * k] == Num(binned[k].centers[i])
    {
      assert BinnedRow(binned, i, sqrt)[4 * k..4 * k + 4][0] == BinnedCells(binned[k], i, sqrt)[0];
    }
  }

  // ---------------------------------------------------------------------
  // The mass-function table.

  /** Positions and densities of a curve line up. */
  predicate Paired(mf: MassFunctions.MassFunction)
  {
    |mf.x| == |mf.y|
  }

  /** `max(len(x) for x, _ in data)`: the length of the longest curve. */
  function MaxLength(data: seq<MassFunctions.MassFunction>): (m: nat)
    requires |data| > 0
    ensures forall k :: 0 <= k < |data| ==> |data[k].x| <= m
    ensures exists k :: 0 <= k < |data| && |data[k].x| == m
  {
    if |data| == 1 then |data[0].x|
    else
      var rest := MaxLength(data[1..]);
      assert forall k :: 1 <= k < |data| ==> data[k] == data[1..][k - 1];
      if |data[0].x| >= rest then |data[0].x| else rest
  }

  /** One curve's block in row i: its position and density, or two empty
      cells past its end. */
  function CurveCells(mf: MassFunctions.MassFunction, i: nat): (cells: seq<Cell>)
    requires Paired(mf)
    ensures |cells| == 2
    ensures cells == [Blank, Blank] <==> i >= |mf.x|
  {
    if i < |mf.x| then [Num(mf.x[i]), Num(mf.y[i])] else [Blank, Blank]
  }

  /** Every curve's block of row i. */
  function CurveBlocks(data: seq<MassFunctions.MassFunction>, i: nat): (blocks: seq<seq<Cell>>)
    requires forall k :: 0 <= k < |data| ==> Paired(data[k])
    ensures |blocks| == |data|
    ensures forall k :: 0 <= k < |data| ==> |blocks[k]| == 2
  {
    seq(|data|, k requires 0 <= k < |data| => CurveCells(data[k], i))
  }

  /** Row i of the mass-function table. */
  function CurveRow(data: seq<MassFunctions.MassFunction>, i: nat): seq<Cell>
    requires forall k :: 0 <= k < |data| ==> Paired(data[k])
  {
    Concat(CurveBlocks(data, i))
  }

  /** Row i holds two cells per curve, curve k's at [2k, 2k + 2). */
  lemma CurveRowLayout(data: seq<MassFunctions.MassFunction>, i: nat)
    requires forall k :: 0 <= k < |data| ==> Paired(data[k])
    ensures |CurveRow(data, i)| == 2 * |data|
    ensures forall k :: 0 <= k < |data| ==> CurveRow(data, i)[2 * k..2 * k + 2] == CurveCells(data[k], i)
  {
    var blocks := CurveBlocks(data, i);
    ConcatLength(blocks, 2);
    forall k | 0 <= k < |data|
      ensures CurveRow(data, i)[2 * k..2 * k + 2] == CurveCells(data[k], i)
    {
      ConcatBlock(blocks, 2, k);
    }
  }

  /** The script's nested loop writing one row per index of the longest
      curve, one block per curve in each. */
  method MassFunctionRows(data: seq<MassFunctions.MassFunction>) returns (rows: seq<seq<Cell>>)
    requires |data| > 0
    requires forall k :: 0 <= k < |data| ==> Paired(data[k])
    ensures |rows| == MaxLength(data)
    ensures forall i :: 0 <= i < |rows| ==> rows[i] == CurveRow(data, i)
  {
    var maxLength := MaxLength(data);
    rows := [];
    for i := 0 to maxLength
      invariant |rows| == i
      invariant forall r :: 0 <= r < i ==> rows[r] == CurveRow(data, r)
    {
      ghost var blocks := CurveBlocks(data, i);
      var row: seq<Cell> := [];
      for k := 0 to |data|
        invariant row == Concat(blocks[..k])
      {
        ConcatPrefix(blocks, k);
        row := row + CurveCells(data[k], i);
      }
      assert blocks[..|data|] == blocks;
      rows := rows + [row];
    }
  }

  /** When all curves have the same length L, as the mass functions of one
      configured range do, the table has L rows and no empty cell: row i
      holds every curve's i-th position and density. */
  lemma {:induction false} AlignedCurvesHaveNoBlanks(data: seq<MassFunctions.MassFunction>, len: nat, i: nat)
    requires |data| > 0 && i < len
    requires forall k :: 0 <= k < |data| ==> |data[k].x| == len && |data[k].y| == len
    ensures (forall k :: 0 <= k < |data| ==> Paired(data[k])) && MaxLength(data) == len
    ensures |CurveRow(data, i)| == 2 * |data|
    ensures forall k :: 0 <= k < |data| ==>
              CurveRow(data, i)[2 * k..2 * k + 2] == [Num(data[k].x[i]), Num(data[k].y[i])]
  {
    CurveRowLayout(data, i);
  }
}
