/**
 * The reward catalogue and its listing filter: an optional category filter
 * followed by an optional level filter that compares positions in the
 * ordered tier array.
 */
module Rewards {
  import opened Wrappers
  import opened Seqs
  import opened Text
  import opened Tiers

  datatype Reward = Reward(
    id: string,
    nombre: string,
    descripcion: string,
    categoria: string,
    puntos: int,
    stock: int,
    tipo: string,
    proveedor: string,
    popular: bool,
    novedad: bool,
    nivelRequerido: string)

  function RewardId(r: Reward): string { r.id }

  /** `recompensas.find(r => r.id === id)` as an index, -1 when absent. */
  function FindReward(recompensas: seq<Reward>, id: string): (i: int)
    ensures -1 <= i < |recompensas|
    ensures 0 <= i ==> recompensas[i].id == id
    ensures i < 0 <==> forall j :: 0 <= j < |recompensas| ==> recompensas[j].id != id
    ensures forall j :: 0 <= j < |recompensas| && (i < 0 || j < i) ==> recompensas[j].id != id
  {
    FirstIndex(recompensas, RewardId, id)
  }

  /** The catalogue the server starts with. */
  const Catalogo: seq<Reward> := [
    Reward("1", "Kit de Jardinería Ecológica", "Incluye semillas, tierra orgánica y herramientas básicas",
           "jardineria", 500, 15, "fisico", "EcoGarden", true, false, "novato"),
    Reward("2", "Descuento 20% en Tienda Verde", "Cupón de descuento para productos ecológicos",
           "descuento", 300, 50, "digital", "Tienda Verde", true, true, "novato"),
    Reward("3", "Curso Online de Compostaje", "Aprende técnicas avanzadas de compostaje doméstico",
           "educacion", 800, 30, "digital", "EcoAcademy", false, true, "guardián"),
    Reward("4", "Bicicleta Reciclada Premium", "Bicicleta restaurada con materiales reciclados",
           "transporte", 2500, 3, "fisico", "BikeEco", false, false, "líder verde"),
    Reward("5", "Certificado de Héroe Ecológico", "Certificado digital reconocido por instituciones ambientales",
           "reconocimiento", 1500, 100, "digital", "TákemLink", false, false, "héroe ecológico")
  ]

  /** Whether the category query restricts the listing: given and not the sentinel "todas". */
  predicate FiltersCategory(categoria: Option<string>) { Given(categoria) && categoria.value != "todas" }

  /** The level test for one reward: user rank at least required rank, both as `indexOf` (-1 if unknown). */
  predicate Eligible(nivel: string, r: Reward) { LevelRank(nivel) >= LevelRank(r.nivelRequerido) }

  predicate InCategory(categoria: Option<string>, r: Reward) { categoria.Some? && r.categoria == categoria.value }

  predicate EligibleAt(nivel: Option<string>, r: Reward) { nivel.Some? && Eligible(nivel.value, r) }

  /** Whether a reward survives both filters of a listing. */
  predicate Listed(categoria: Option<string>, nivel: Option<string>, r: Reward)
  {
    (!FiltersCategory(categoria) || InCategory(categoria, r)) && (!Given(nivel) || EligibleAt(nivel, r))
  }

  /** GET /api/recompensas: the catalogue filtered by category, then by level. */
  function ListRewards(recompensas: seq<Reward>, categoria: Option<string>, nivel: Option<string>): (r: seq<Reward>)
    ensures IsSubsequence(r, recompensas)
    ensures forall i :: 0 <= i < |r| ==> r[i] in recompensas && Listed(categoria, nivel, r[i])
    ensures forall i :: 0 <= i < |recompensas| && Listed(categoria, nivel, recompensas[i]) ==> recompensas[i] in r
    ensures forall x :: multiset(r)[x] == if Listed(categoria, nivel, x) then multiset(recompensas)[x] else 0
  {
    var enCategoria := (x: Reward) => InCategory(categoria, x);
    var alNivel := (x: Reward) => EligibleAt(nivel, x);
    FilterWhenTwice(recompensas, FiltersCategory(categoria), enCategoria, Given(nivel), alNivel,
                    (x: Reward) => Listed(categoria, nivel, x));
    FilterWhen(Given(nivel), FilterWhen(FiltersCategory(categoria), recompensas, enCategoria), alNivel)
  }

  /** A reward whose required level is not a tier name passes every level filter. */
  lemma UnknownRequirementAlwaysListed(recompensas: seq<Reward>, categoria: Option<string>, nivel: Option<string>, k: nat)
    requires k < |recompensas|
    requires LevelRank(recompensas[k].nivelRequerido) < 0
    requires !FiltersCategory(categoria) || recompensas[k].categoria == categoria.value
    ensures recompensas[k] in ListRewards(recompensas, categoria, nivel)
  {
  }

  /** A user whose level is not a tier name sees exactly the rewards whose requirement is not one either. */
  lemma UnknownLevelSeesOnlyUnknownRequirements(recompensas: seq<Reward>, nivel: string)
    requires nivel != "" && nivel !in Niveles
    ensures forall i :: 0 <= i < |recompensas| ==>
      (recompensas[i] in ListRewards(recompensas, None, Some(nivel)) <==> recompensas[i].nivelRequerido !in Niveles)
  {
    var r := ListRewards(recompensas, None, Some(nivel));
    forall i | 0 <= i < |recompensas|
      ensures recompensas[i] in r <==> recompensas[i].nivelRequerido !in Niveles
    {
      if recompensas[i] in r {
        var k :| 0 <= k < |r| && r[k] == recompensas[i];
        assert Eligible(nivel, r[k]);
      }
    }
  }

  /** A higher level sees every reward a lower level sees. */
  lemma HigherLevelSeesMore(recompensas: seq<Reward>, categoria: Option<string>, bajo: string, alto: string)
    requires bajo != "" && alto != "" && LevelRank(bajo) <= LevelRank(alto)
    ensures var menos := ListRewards(recompensas, categoria, Some(bajo));
            forall k :: 0 <= k < |menos| ==> menos[k] in ListRewards(recompensas, categoria, Some(alto))
  {
    var menos := ListRewards(recompensas, categoria, Some(bajo));
    var mas := ListRewards(recompensas, categoria, Some(alto));
    forall k | 0 <= k < |menos|
      ensures menos[k] in mas
    {
      var x := menos[k];
      assert x in multiset(menos);
      assert Listed(categoria, Some(alto), x);
      assert multiset(mas)[x] == multiset(recompensas)[x] == multiset(menos)[x];
    }
  }

  /** A "novato" never sees a reward that requires a higher tier. */
  lemma NovatoExcludesHigherTiers(recompensas: seq<Reward>, categoria: Option<string>)
    ensures var r := ListRewards(recompensas, categoria, Some("novato"));
            forall k :: 0 <= k < |r| ==> r[k].nivelRequerido !in Niveles[1..]
  {
    var r := ListRewards(recompensas, categoria, Some("novato"));
    assert LevelRank("novato") == 0;
    forall k | 0 <= k < |r|
      ensures r[k].nivelRequerido !in Niveles[1..]
    {
      assert Eligible("novato", r[k]);
      RankedAtMostNovato(r[k].nivelRequerido);
    }
  }
}
