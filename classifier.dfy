/** The two value-investing labels computed for every ticker (funds.py, `classifica_graham`
    and `classifica_greenblatt`). */
module Classifier {
  import opened Values

  /** The labels the screener displays: "Barata" (cheap), "Cara" (expensive) and
      "Indefinido" (not enough data). */
  datatype Label = Barata | Cara | Indefinido

  /** Graham's bound on the product P/L times P/VP. */
  const GrahamBound: real := 22.5
  /** Greenblatt's bounds: P/L below 15 and ROE above 15%. */
  const MagicMaxPl: real := 15.0
  const MagicMinRoe: real := 0.15

  /** A ratio the classifiers treat as absent: `None` or zero. */
  predicate Missing(x: Option<real>) {
    !Truthy(x)
  }

  /** A ratio is missing exactly when it is `None` or zero. */
  lemma MissingMeansNoneOrZero(x: Option<real>)
    ensures Missing(x) <==> x == None || x == Some(0.0)
  {
  }

  /** Graham's rule: cheap when P/L times P/VP is below 22.5. */
  function GrahamLabel(pl: Option<real>, pvp: Option<real>): (r: Label)
    ensures r == Indefinido <==> Missing(pl) || Missing(pvp)
    ensures r == Barata <==> !Missing(pl) && !Missing(pvp) && pl.value * pvp.value < GrahamBound
    ensures r == Cara <==> !Missing(pl) && !Missing(pvp) && pl.value * pvp.value >= GrahamBound
  {
    if Truthy(pl) && Truthy(pvp) then
      var score := pl.value * pvp.value;
      if score < GrahamBound then Barata else Cara
    else
      Indefinido
  }

  /** Greenblatt's "magic formula" rule: cheap when P/L is below 15 and ROE above 0.15. */
  function MagicLabel(pl: Option<real>, roe: Option<real>): (r: Label)
    ensures r == Indefinido <==> Missing(pl) || Missing(roe)
    ensures r == Barata <==> !Missing(pl) && !Missing(roe) && pl.value < MagicMaxPl && roe.value > MagicMinRoe
    ensures r == Cara <==> !Missing(pl) && !Missing(roe) && (pl.value >= MagicMaxPl || roe.value <= MagicMinRoe)
  {
    if Truthy(pl) && Truthy(roe) then
      if pl.value < MagicMaxPl && roe.value > MagicMinRoe then Barata else Cara
    else
      Indefinido
  }

  /** The worked examples of both rules. */
  lemma LabelExamples()
    ensures GrahamLabel(Some(10.0), Some(2.0)) == Barata
    ensures GrahamLabel(Some(20.0), Some(2.0)) == Cara
    ensures MagicLabel(Some(10.0), Some(0.20)) == Barata
    ensures MagicLabel(Some(20.0), Some(0.20)) == Cara
    ensures GrahamLabel(None, Some(2.0)) == Indefinido
    ensures MagicLabel(Some(10.0), Some(0.0)) == Indefinido
  {
  }

  /** Lowering either positive Graham ratio keeps a cheap ticker cheap. */
  lemma GrahamCheapIsDownwardClosed(pl: real, pvp: real, pl': real, pvp': real)
    requires GrahamLabel(Some(pl), Some(pvp)) == Barata
    requires 0.0 < pl' <= pl && 0.0 < pvp' <= pvp
    ensures GrahamLabel(Some(pl'), Some(pvp')) == Barata
  {
    assert (pl - pl') * pvp' >= 0.0;
    assert pl * (pvp - pvp') >= 0.0;
    assert pl' * pvp' <= pl * pvp;
  }

  /** Signs are not checked: a negative P/L with a positive P/VP is cheap under Graham. */
  lemma GrahamNegativePlIsCheap(pl: real, pvp: real)
    requires pl < 0.0 && pvp > 0.0
    ensures GrahamLabel(Some(pl), Some(pvp)) == Barata
  {
    assert pl * pvp < 0.0;
  }

  /** Lowering P/L (to a non-zero value) or raising ROE keeps a cheap ticker cheap under Greenblatt,
      and a negative P/L counts as cheap as well. */
  lemma MagicCheapIsMonotone(pl: real, roe: real, pl': real, roe': real)
    requires MagicLabel(Some(pl), Some(roe)) == Barata
    requires pl' <= pl && pl' != 0.0 && roe' >= roe
    ensures MagicLabel(Some(pl'), Some(roe')) == Barata
  {
  }
}
