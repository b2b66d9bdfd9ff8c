/**
 * The loyalty ledger: registered users with their EcoPuntos balance and level,
 * the deposit log, the reward catalogue with its stock, and redemptions.
 * The four collections are the server's module-level arrays, updated in place
 * by the request handlers.
 */
module Ledger {
  import opened Wrappers
  import opened Seqs
  import opened Text
  import opened Tiers
  import opened Rewards

  datatype User = User(
    id: string,
    nombre: string,
    email: string,
    tipo: string,
    zona: string,
    residuos: seq<string>,
    ecoPuntos: int,
    nivel: string,
    fechaRegistro: int,
    ranking: int)

  /** One logged deposit. */
  datatype Registro = Registro(id: string, usuarioId: string, tipoResiduo: string, cantidad: int, puntos: int, fecha: int)

  /** One redemption. */
  datatype Canje = Canje(
    id: string,
    usuarioId: string,
    recompensaId: string,
    recompensaNombre: string,
    puntos: int,
    fecha: int,
    estado: string)

  datatype DepositReply = DepositReply(puntosGanados: int, puntosTotales: int, nivel: string)

  datatype RedeemReply = RedeemReply(canje: Canje, puntosRestantes: int)

  /** A 400 reply that always lists all four required fields, whichever are missing. */
  datatype RegistrationError = MissingFields(camposRequeridos: seq<string>)

  const CamposRequeridos: seq<string> := ["nombre", "email", "tipo", "zona"]

  datatype RedeemError = NotFound | InsufficientPoints | OutOfStock {
    function Status(): int {
      if NotFound? then 404 else 400
    }

    function Message(): string {
      match this
      case NotFound => "Usuario o recompensa no encontrado"
      case InsufficientPoints => "EcoPuntos insuficientes"
      case OutOfStock => "Recompensa agotada"
    }
  }

  function UserId(u: User): string { u.id }

  /** `usuarios.find(u => u.id === id)` as an index, -1 when absent. */
  function FindUser(usuarios: seq<User>, id: string): (i: int)
    ensures -1 <= i < |usuarios|
    ensures 0 <= i ==> usuarios[i].id == id
    ensures i < 0 <==> forall j :: 0 <= j < |usuarios| ==> usuarios[j].id != id
    ensures forall j :: 0 <= j < |usuarios| && (i < 0 || j < i) ==> usuarios[j].id != id
  {
    FirstIndex(usuarios, UserId, id)
  }

  /** A user after a deposit worth `puntos`: balance credited, then the level chain applied. */
  function Credited(u: User, puntos: int): (r: User)
    ensures r.ecoPuntos == u.ecoPuntos + puntos
    ensures r.(ecoPuntos := u.ecoPuntos, nivel := u.nivel) == u
    ensures r.ecoPuntos >= Umbrales[1] ==> LevelConsistent(r)
  {
    var total := u.ecoPuntos + puntos;
    UpgradeMatchesTierTable(total, u.nivel);
    u.(ecoPuntos := total, nivel := UpgradeLevel(total, u.nivel))
  }

  /** A user after a redemption costing `puntos`: only the balance changes. */
  function Debited(u: User, puntos: int): (r: User)
    ensures r.ecoPuntos == u.ecoPuntos - puntos
    ensures r.(ecoPuntos := u.ecoPuntos) == u
  {
    u.(ecoPuntos := u.ecoPuntos - puntos)
  }

  /** The stored level is the tier of the stored balance. */
  predicate LevelConsistent(u: User)
  {
    u.nivel == TierOf(u.ecoPuntos)
  }

  /**
   * A non-negative deposit on a user whose level is up to date keeps it up to
   * date and never lowers it.
   */
  lemma CreditNeverDemotes(u: User, puntos: int)
    requires LevelConsistent(u) && puntos >= 0
    ensures Credited(u, puntos).ecoPuntos == u.ecoPuntos + puntos
    ensures LevelConsistent(Credited(u, puntos))
    ensures LevelRank(Credited(u, puntos).nivel) >= LevelRank(u.nivel)
  {
    var total := u.ecoPuntos + puntos;
    var v := Credited(u, puntos);
    TierMonotone(u.ecoPuntos, total);
    RankOfTier(u.ecoPuntos);
    if total < Umbrales[1] {
      assert TierIndex(u.ecoPuntos) == TierIndex(total);
      assert v.nivel == u.nivel;
    } else {
      RankOfTier(total);
    }
  }

  /** Crediting one user with non-negative points keeps every balance non-negative and every level matching. */
  lemma CreditKeepsInvariants(usuarios: seq<User>, i: int, puntos: int)
    requires 0 <= i < |usuarios| && puntos >= 0
    ensures var v := usuarios[i := Credited(usuarios[i], puntos)];
      && ((forall j :: 0 <= j < |usuarios| ==> usuarios[j].ecoPuntos >= 0) ==> forall j :: 0 <= j < |v| ==> v[j].ecoPuntos >= 0)
      && ((forall j :: 0 <= j < |usuarios| ==> LevelConsistent(usuarios[j])) ==>
            forall j :: 0 <= j < |v| ==> LevelConsistent(v[j]))
  {
    if LevelConsistent(usuarios[i]) {
      CreditNeverDemotes(usuarios[i], puntos);
    }
  }

  /** Below the first threshold a deposit leaves the level as it was, whatever it was. */
  lemma CreditBelowThresholdKeepsLevel(u: User, puntos: int)
    requires u.ecoPuntos + puntos < Umbrales[1]
    ensures Credited(u, puntos).nivel == u.nivel
  {
    UpgradeMatchesTierTable(u.ecoPuntos + puntos, u.nivel);
  }

  /** A redemption that crosses a tier boundary downward leaves the stored level stale. */
  lemma DebitLeavesLevelStale(u: User, puntos: int)
    requires LevelConsistent(u)
    requires TierIndex(u.ecoPuntos - puntos) < TierIndex(u.ecoPuntos)
    ensures Debited(u, puntos).nivel == u.nivel
    ensures !LevelConsistent(Debited(u, puntos))
  {
    RankOfTier(u.ecoPuntos);
    RankOfTier(u.ecoPuntos - puntos);
  }

  /**
   * Once the stored level is above the tier of the balance (after a
   * redemption), a deposit that reaches the first threshold lowers the level.
   */
  lemma CreditAfterStaleLevelDemotes(u: User, puntos: int)
    requires u.ecoPuntos + puntos >= Umbrales[1]
    requires LevelRank(u.nivel) > TierIndex(u.ecoPuntos + puntos)
    ensures LevelRank(Credited(u, puntos).nivel) < LevelRank(u.nivel)
  {
    UpgradeMatchesTierTable(u.ecoPuntos + puntos, u.nivel);
    RankOfTier(u.ecoPuntos + puntos);
  }

  /** A deposit of a negative quantity is not rejected and can drive the balance below zero. */
  lemma NegativeQuantityLowersBalance(u: User, tipoResiduo: string, cantidad: int)
    requires tipoResiduo in PuntosPorKg && cantidad < 0
    ensures Credited(u, DepositPoints(tipoResiduo, cantidad)).ecoPuntos < u.ecoPuntos
  {
  }

  /**
   * The redemption checks in the order the handler runs them: unknown user or
   * reward, then balance, then stock. None means the redemption goes ahead.
   */
  function RedeemCheck(usuarios: seq<User>, recompensas: seq<Reward>, usuarioId: string, recompensaId: string)
    : (e: Option<RedeemError>)
    ensures e.None? <==>
      var i := FindUser(usuarios, usuarioId);
      var j := FindReward(recompensas, recompensaId);
      0 <= i && 0 <= j && usuarios[i].ecoPuntos >= recompensas[j].puntos && recompensas[j].stock > 0
    ensures e == Some(NotFound) <==>
      (forall k :: 0 <= k < |usuarios| ==> usuarios[k].id != usuarioId) ||
      (forall k :: 0 <= k < |recompensas| ==> recompensas[k].id != recompensaId)
    ensures e == Some(InsufficientPoints) <==>
      var i := FindUser(usuarios, usuarioId);
      var j := FindReward(recompensas, recompensaId);
      0 <= i && 0 <= j && usuarios[i].ecoPuntos < recompensas[j].puntos
    ensures e == Some(OutOfStock) <==>
      var i := FindUser(usuarios, usuarioId);
      var j := FindReward(recompensas, recompensaId);
      0 <= i && 0 <= j && usuarios[i].ecoPuntos >= recompensas[j].puntos && recompensas[j].stock <= 0
  {
    var i := FindUser(usuarios, usuarioId);
    var j := FindReward(recompensas, recompensaId);
    if i < 0 || j < 0 then Some(NotFound)
    else if usuarios[i].ecoPuntos < recompensas[j].puntos then Some(InsufficientPoints)
    else if recompensas[j].stock <= 0 then Some(OutOfStock)
    else None
  }

  /**
   * Redeeming the last unit with exactly enough points succeeds; redeeming it
   * again is refused for lack of points (the balance check runs first), and
   * only a free reward reports it out of stock.
   */
  lemma SecondRedeemOfLastUnit(u: User, premio: Reward)
    requires u.ecoPuntos == premio.puntos && premio.stock == 1
    ensures RedeemCheck([u], [premio], u.id, premio.id) == None
    ensures RedeemCheck([Debited(u, premio.puntos)], [premio.(stock := premio.stock - 1)], u.id, premio.id)
            == if premio.puntos > 0 then Some(InsufficientPoints) else Some(OutOfStock)
  {
    assert FindUser([u], u.id) == 0;
    assert FindReward([premio], premio.id) == 0;
    assert FindUser([Debited(u, premio.puntos)], u.id) == 0;
    assert FindReward([premio.(stock := premio.stock - 1)], premio.id) == 0;
  }

  /** GET /api/usuarios/:id/canjes: one user's redemptions, in the order they were made. */
  function CanjesDe(canjes: seq<Canje>, usuarioId: string): (r: seq<Canje>)
    ensures IsSubsequence(r, canjes)
    ensures forall i :: 0 <= i < |r| ==> r[i] in canjes && r[i].usuarioId == usuarioId
    ensures forall i :: 0 <= i < |canjes| && canjes[i].usuarioId == usuarioId ==> canjes[i] in r
    ensures forall x :: multiset(r)[x] == if x.usuarioId == usuarioId then multiset(canjes)[x] else 0
  {
    var deUsuario := (c: Canje) => c.usuarioId == usuarioId;
    FilterIsSubsequence(canjes, deUsuario);
    Filter(canjes, deUsuario)
  }

  class LedgerStore {
    var usuarios: seq<User>
    var ecoRegistros: seq<Registro>
    var recompensas: seq<Reward>
    var canjes: seq<Canje>

    /** No balance and no stock below zero. */
    ghost predicate Balanced()
      reads this
    {
      && (forall i :: 0 <= i < |usuarios| ==> usuarios[i].ecoPuntos >= 0)
      && (forall j :: 0 <= j < |recompensas| ==> recompensas[j].stock >= 0)
    }

    /** Every stored level is the tier of its balance. */
    ghost predicate LevelsConsistent()
      reads this
    {
      forall i :: 0 <= i < |usuarios| ==> LevelConsistent(usuarios[i])
    }

    constructor ()
      ensures usuarios == [] && ecoRegistros == [] && recompensas == Catalogo && canjes == []
      ensures Balanced() && LevelsConsistent()
    {
      usuarios := [];
      ecoRegistros := [];
      recompensas := Catalogo;
      canjes := [];
    }

    /** GET /api/usuarios/:id: the first user with that id. */
    function GetUser(id: string): (r: Option<User>)
      reads this
      ensures r.Some? ==> r.value in usuarios && r.value.id == id
      ensures r.Some? ==> r.value == usuarios[FindUser(usuarios, id)]
      ensures r.None? <==> forall j :: 0 <= j < |usuarios| ==> usuarios[j].id != id
    {
      var i := FindUser(usuarios, id);
      if i < 0 then None else Some(usuarios[i])
    }

    /**
     * POST /api/usuarios/registro. The identifier, timestamp and ranking are
     * supplied by the caller (the server draws them from the clock and a
     * random number in 1..100).
     */
    method Register(
      nombre: Option<string>, email: Option<string>, tipo: Option<string>, zona: Option<string>,
      residuos: Option<seq<string>>, id: string, fechaRegistro: int, ranking: int)
      returns (r: Result<User, RegistrationError>)
      requires 1 <= ranking <= 100
      modifies this`usuarios
      ensures r.Failure? <==> !(Given(nombre) && Given(email) && Given(tipo) && Given(zona))
      ensures r.Failure? ==> usuarios == old(usuarios) && r.error == MissingFields(CamposRequeridos)
      ensures r.Success? ==> usuarios == old(usuarios) + [r.value]
      ensures r.Success? ==>
        r.value == User(id, Trim(nombre.value), Trim(email.value), Trim(tipo.value), Trim(zona.value),
                        if residuos.Some? then residuos.value else [], 0, "novato", fechaRegistro, ranking)
      ensures old(Balanced()) ==> Balanced()
      ensures old(LevelsConsistent()) ==> LevelsConsistent()
    {
      if !Given(nombre) || !Given(email) || !Given(tipo) || !Given(zona) {
        return Failure(MissingFields(CamposRequeridos));
      }
      var nuevo := User(id, Trim(nombre.value), Trim(email.value), Trim(tipo.value), Trim(zona.value),
                        if residuos.Some? then residuos.value else [], 0, "novato", fechaRegistro, ranking);
      assert LevelConsistent(nuevo) by {
        TierBoundaries();
      }
      usuarios := usuarios + [nuevo];
      r := Success(nuevo);
    }

    /**
     * POST /api/ecopuntos/registrar. Points are rate times quantity; the first
     * user with the id, if any, is credited and its level chain applied; a
     * deposit record is logged in every case. The record identifier and
     * timestamp are supplied by the caller.
     */
    method Deposit(usuarioId: string, tipoResiduo: string, cantidad: int, registroId: string, fecha: int)
      returns (reply: DepositReply)
      modifies this`usuarios, this`ecoRegistros
      ensures var puntos := DepositPoints(tipoResiduo, cantidad);
              ecoRegistros == old(ecoRegistros) + [Registro(registroId, usuarioId, tipoResiduo, cantidad, puntos, fecha)]
              && reply.puntosGanados == puntos
      ensures var i := FindUser(old(usuarios), usuarioId);
              i < 0 ==> usuarios == old(usuarios) && reply.puntosTotales == 0 && reply.nivel == "novato"
      ensures var i := FindUser(old(usuarios), usuarioId);
              0 <= i ==>
                && usuarios == old(usuarios)[i := Credited(old(usuarios)[i], DepositPoints(tipoResiduo, cantidad))]
                && reply.puntosTotales == old(usuarios)[i].ecoPuntos + DepositPoints(tipoResiduo, cantidad)
                && reply.nivel == usuarios[i].nivel
      ensures cantidad >= 0 && old(Balanced()) ==> Balanced()
      ensures cantidad >= 0 && old(LevelsConsistent()) ==> LevelsConsistent()
    {
      var puntos := DepositPoints(tipoResiduo, cantidad);
      var i := FindUser(usuarios, usuarioId);
      if 0 <= i {
        if cantidad >= 0 {
          CreditKeepsInvariants(usuarios, i, puntos);
        }
        usuarios := usuarios[i := Credited(usuarios[i], puntos)];
      }
      ecoRegistros := ecoRegistros + [Registro(registroId, usuarioId, tipoResiduo, cantidad, puntos, fecha)];
      if 0 <= i {
        reply := DepositReply(puntos, usuarios[i].ecoPuntos, usuarios[i].nivel);
      } else {
        reply := DepositReply(puntos, 0, "novato");
      }
    }

    /**
     * POST /api/recompensas/canjear. The first failing check decides the
     * error and nothing changes; otherwise the balance drops by the price,
     * the stock by one, and a pending redemption is logged. The level is not
     * recomputed. The redemption identifier and timestamp are supplied by the
     * caller.
     */
    method Redeem(usuarioId: string, recompensaId: string, canjeId: string, fecha: int)
      returns (r: Result<RedeemReply, RedeemError>)
      modifies this`usuarios, this`recompensas, this`canjes
      ensures var check := RedeemCheck(old(usuarios), old(recompensas), usuarioId, recompensaId);
              (r.Failure? <==> check.Some?) && (r.Failure? ==> r.error == check.value)
      ensures r.Failure? ==> usuarios == old(usuarios) && recompensas == old(recompensas) && canjes == old(canjes)
      ensures r.Success? ==>
        var i := FindUser(old(usuarios), usuarioId);
        var j := FindReward(old(recompensas), recompensaId);
        && 0 <= i && 0 <= j
        && usuarios == old(usuarios)[i := Debited(old(usuarios)[i], old(recompensas)[j].puntos)]
        && recompensas == old(recompensas)[j := old(recompensas)[j].(stock := old(recompensas)[j].stock - 1)]
        && canjes == old(canjes) + [Canje(canjeId, usuarioId, recompensaId, old(recompensas)[j].nombre,
                                          old(recompensas)[j].puntos, fecha, "pendiente")]
        && r.value == RedeemReply(canjes[|canjes| - 1], usuarios[i].ecoPuntos)
        && usuarios[i].nivel == old(usuarios)[i].nivel
        && usuarios[i].ecoPuntos >= 0 && recompensas[j].stock >= 0
      ensures old(Balanced()) ==> Balanced()
    {
      var i := FindUser(usuarios, usuarioId);
      var j := FindReward(recompensas, recompensaId);
      if i < 0 || j < 0 {
        return Failure(NotFound);
      }
      var usuario, premio := usuarios[i], recompensas[j];
      if usuario.ecoPuntos < premio.puntos {
        return Failure(InsufficientPoints);
      }
      if premio.stock <= 0 {
        return Failure(OutOfStock);
      }
      usuarios := usuarios[i := Debited(usuario, premio.puntos)];
      recompensas := recompensas[j := premio.(stock := premio.stock - 1)];
      var canje := Canje(canjeId, usuarioId, recompensaId, premio.nombre, premio.puntos, fecha, "pendiente");
      canjes := canjes + [canje];
      r := Success(RedeemReply(canje, usuarios[i].ecoPuntos));
    }
  }
}
