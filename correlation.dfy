/** `components/CorrelationMatrix.tsx`: a sector-based stand-in for the
    correlation of the first six signals, and the colour of each cell. */
module Correlation {
  import opened Seqs
  import opened LegacyTypes

  /** `getCorrelation(a, b)`. */
  function GetCorrelation(a: AssetSignal, b: AssetSignal): real
  {
    if a.ticker == b.ticker then 1.0
    else if a.sector == b.sector then 0.85
    else if a.sector == "Index" || b.sector == "Index" then 0.65
    else 0.25
  }

  /** The correlation is symmetric, 1 for an asset with itself, one of four
      levels, and 1 only for the same ticker; otherwise 0.85 within a sector,
      0.65 across sectors when either side is the index, and 0.25 else. */
  lemma GetCorrelationSpec(a: AssetSignal, b: AssetSignal)
    ensures GetCorrelation(a, b) == GetCorrelation(b, a)
    ensures GetCorrelation(a, a) == 1.0
    ensures GetCorrelation(a, b) in {1.0, 0.85, 0.65, 0.25}
    ensures GetCorrelation(a, b) == 1.0 <==> a.ticker == b.ticker
    ensures a.ticker != b.ticker && a.sector == b.sector ==> GetCorrelation(a, b) == 0.85
    ensures a.ticker != b.ticker && a.sector != b.sector && (a.sector == "Index" || b.sector == "Index") ==> GetCorrelation(a, b) == 0.65
    ensures a.ticker != b.ticker && a.sector != b.sector && a.sector != "Index" && b.sector != "Index" ==> GetCorrelation(a, b) == 0.25
  {
  }

  datatype CellColour = Slate | Rose | Amber | Emerald

  /** `getColor(val)`. */
  function GetColour(v: real): CellColour
  {
    if v == 1.0 then Slate
    else if v > 0.7 then Rose
    else if v > 0.4 then Amber
    else Emerald
  }

  /** Each correlation level has its own colour: the diagonal is slate, the
      same sector rose, a pairing with the index amber and the rest emerald. */
  lemma ColourOfLevels(a: AssetSignal, b: AssetSignal)
    ensures GetColour(GetCorrelation(a, b)) == Slate <==> a.ticker == b.ticker
    ensures GetColour(GetCorrelation(a, b)) == Rose <==> GetCorrelation(a, b) == 0.85
    ensures GetColour(GetCorrelation(a, b)) == Amber <==> GetCorrelation(a, b) == 0.65
    ensures GetColour(GetCorrelation(a, b)) == Emerald <==> GetCorrelation(a, b) == 0.25
  {
  }

  /** The colour thresholds: above 0.7 (other than exactly 1) is rose, above
      0.4 up to 0.7 amber, 0.4 and below emerald. */
  lemma GetColourSpec(v: real)
    ensures GetColour(v) == Rose <==> v != 1.0 && v > 0.7
    ensures GetColour(v) == Amber <==> 0.4 < v <= 0.7
    ensures GetColour(v) == Emerald <==> v <= 0.4
  {
  }

  /** `activeAssets`: the first six signals. */
  function ActiveAssets(signals: seq<AssetSignal>): seq<AssetSignal>
  {
    Take(signals, 6)
  }

  /** The grid of correlations, row by row. */
  function Matrix(signals: seq<AssetSignal>): seq<seq<real>>
  {
    var a := ActiveAssets(signals);
    seq(|a|, i requires 0 <= i < |a| => seq(|a|, j requires 0 <= j < |a| => GetCorrelation(a[i], a[j])))
  }

  /** The grid is square with min(6, n) rows of the first signals, symmetric,
      with 1 on its diagonal. */
  lemma MatrixSpec(signals: seq<AssetSignal>)
    ensures var n := if |signals| < 6 then |signals| else 6;
      |Matrix(signals)| == n &&
      (forall i :: 0 <= i < n ==> |Matrix(signals)[i]| == n && Matrix(signals)[i][i] == 1.0)
    ensures forall i, j :: 0 <= i < |Matrix(signals)| && 0 <= j < |Matrix(signals)| ==>
      Matrix(signals)[i][j] == Matrix(signals)[j][i] &&
      Matrix(signals)[i][j] == GetCorrelation(signals[i], signals[j])
  {
    var a := ActiveAssets(signals);
    forall i, j | 0 <= i < |a| && 0 <= j < |a|
      ensures Matrix(signals)[i][j] == Matrix(signals)[j][i]
    {
      GetCorrelationSpec(a[i], a[j]);
    }
  }
}
