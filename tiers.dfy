/**
 * Loyalty levels and the material rate table: the ordered tier names used by
 * the reward filter, the threshold chain a deposit applies, and the
 * points-per-kilogram table.
 */
module Tiers {
  import opened Seqs

  /** The tier names in ascending order, as the reward filter lists them. */
  const Niveles: seq<string> := ["novato", "guardián", "líder verde", "héroe ecológico", "leyenda"]

  /** Lowest point total of each tier, aligned with Niveles. */
  const Umbrales: seq<int> := [0, 500, 1500, 3000, 5000]

  /** `niveles.indexOf(nivel)`: the rank of a level name, -1 when it is not a tier name. */
  function LevelRank(nivel: string): (r: int)
    ensures -1 <= r < |Niveles|
    ensures r < 0 <==> nivel !in Niveles
    ensures 0 <= r ==> Niveles[r] == nivel
  {
    IndexOf(Niveles, nivel)
  }

  /** Index of the highest tier among 0..k whose lower bound is at most `p` (0 when none is). */
  function TierFrom(p: int, k: nat): (i: nat)
    requires k < |Umbrales|
    ensures i <= k
    ensures 0 < i ==> Umbrales[i] <= p
    ensures forall j :: i < j <= k ==> p < Umbrales[j]
  {
    if k == 0 then 0
    else if Umbrales[k] <= p then k
    else TierFrom(p, k - 1)
  }

  /** The tier whose range contains `p`; totals below zero fall in the first tier. */
  function TierIndex(p: int): (i: nat)
    ensures i < |Niveles|
    ensures 0 < i ==> Umbrales[i] <= p
    ensures i + 1 < |Umbrales| ==> p < Umbrales[i + 1]
  {
    TierFrom(p, |Umbrales| - 1)
  }

  function TierOf(p: int): string
  {
    Niveles[TierIndex(p)]
  }

  /**
   * The if-chain a deposit runs after crediting points: the highest threshold
   * reached sets the level; below the lowest one the current level is kept.
   */
  function UpgradeLevel(ecoPuntos: int, nivel: string): (r: string)
    ensures ecoPuntos < Umbrales[1] ==> r == nivel
    ensures ecoPuntos >= Umbrales[1] ==> r in Niveles[1..]
  {
    if ecoPuntos >= 5000 then "leyenda"
    else if ecoPuntos >= 3000 then "héroe ecológico"
    else if ecoPuntos >= 1500 then "líder verde"
    else if ecoPuntos >= 500 then "guardián"
    else nivel
  }

  /** The threshold chain and the ordered tier array agree: one tier table, two spellings. */
  lemma UpgradeMatchesTierTable(ecoPuntos: int, nivel: string)
    ensures UpgradeLevel(ecoPuntos, nivel) == if ecoPuntos >= Umbrales[1] then TierOf(ecoPuntos) else nivel
  {
    var i := TierIndex(ecoPuntos);
    if ecoPuntos >= Umbrales[1] {
      assert 0 < i;
    }
  }

  /** A tier name's rank is its position in the tier table. */
  lemma RankOfTier(p: int)
    ensures LevelRank(TierOf(p)) == TierIndex(p)
  {
    var i := TierIndex(p);
    var r := LevelRank(TierOf(p));
    assert Niveles[r] == Niveles[i];
  }

  /** A name ranked at most "novato" is not one of the higher tier names. */
  lemma RankedAtMostNovato(nivel: string)
    requires LevelRank(nivel) <= 0
    ensures nivel !in Niveles[1..]
  {
    forall j | 1 <= j < |Niveles|
      ensures Niveles[j] != nivel
    {
      assert Niveles[j] != Niveles[0];
    }
  }

  /** More points never place a user in a lower tier. */
  lemma TierMonotone(p: int, q: int)
    requires p <= q
    ensures TierIndex(p) <= TierIndex(q)
  {
  }

  /** The tier table at its boundaries. */
  lemma TierBoundaries()
    ensures TierOf(0) == "novato" && TierOf(499) == "novato"
    ensures TierOf(500) == "guardián" && TierOf(1499) == "guardián"
    ensures TierOf(1500) == "líder verde" && TierOf(2999) == "líder verde"
    ensures TierOf(3000) == "héroe ecológico" && TierOf(4999) == "héroe ecológico"
    ensures TierOf(5000) == "leyenda"
  {
    assert TierIndex(0) == 0 && TierIndex(499) == 0;
    assert TierIndex(500) == 1 && TierIndex(1499) == 1;
    assert TierIndex(1500) == 2 && TierIndex(2999) == 2;
    assert TierIndex(3000) == 3 && TierIndex(4999) == 3;
    assert TierIndex(5000) == 4;
  }

  /** Points per kilogram of each recognised material. */
  const PuntosPorKg: map<string, nat> :=
    map["plastico" := 10, "vidrio" := 10, "carton" := 10, "organico" := 5, "metal" := 12, "electronico" := 15]

  /** `puntosPorKg[tipoResiduo] || 0`: the rate of a material, 0 for anything not in the table. */
  function Rate(tipoResiduo: string): (r: nat)
    ensures r == 0 <==> tipoResiduo !in PuntosPorKg
  {
    if tipoResiduo in PuntosPorKg then PuntosPorKg[tipoResiduo] else 0
  }

  lemma RateTable(other: string)
    requires other !in {"plastico", "vidrio", "carton", "organico", "metal", "electronico"}
    ensures Rate("plastico") == 10 && Rate("vidrio") == 10 && Rate("carton") == 10
    ensures Rate("organico") == 5 && Rate("metal") == 12 && Rate("electronico") == 15
    ensures Rate(other) == 0
  {
  }

  /** Points awarded for a deposit: rate times quantity. */
  function DepositPoints(tipoResiduo: string, cantidad: int): (puntos: int)
    ensures cantidad >= 0 ==> puntos >= 0
    ensures tipoResiduo !in PuntosPorKg ==> puntos == 0
  {
    Rate(tipoResiduo) * cantidad
  }
}
