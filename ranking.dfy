/**
 The two leaderboards, best customers and best salespeople. Both run the
 same aggregation over the orders: keep the COMPLETADO orders (`$match`),
 group them by customer or by salesperson summing `total` (`$group`), sort
 the groups by that sum, largest first (`$sort`), and keep the first ten
 (`$limit`). The order among equal sums is not specified and nothing here
 depends on it.
 */
module Ranking {
  import opened Domain

  /** How many rows a leaderboard keeps. */
  const Limite: nat := 10

  /** Which order field the groups are keyed on. */
  datatype Agrupacion = PorCliente | PorVendedor

  /** One leaderboard row: the group's id and the sum of its orders' totals. */
  datatype Entrada = Entrada(id: string, total: int)

  function Clave(p: Pedido, g: Agrupacion): string
  {
    match g
    case PorCliente => p.cliente
    case PorVendedor => p.vendedor
  }

  // ---------------------------------------------------------------------
  // $match
  // ---------------------------------------------------------------------

  /** The COMPLETADO orders, in the order they were stored. */
  function Completados(ps: seq<Pedido>): (r: seq<Pedido>)
    ensures forall x :: x in r <==> x in ps && x.estado == Completado
    decreases |ps|
  {
    if ps == [] then []
    else
      var last := ps[|ps| - 1];
      assert forall x :: x in ps <==> x in ps[..|ps| - 1] || x == last by {
        assert ps == ps[..|ps| - 1] + [last];
      }
      Completados(ps[..|ps| - 1]) + (if last.estado == Completado then [last] else [])
  }

  /**
   The filter keeps every COMPLETADO order as many times as it is stored, and
   no other order at all.
   */
  lemma {:induction false} CompletadosMultiplicidad(ps: seq<Pedido>)
    ensures forall x :: multiset(Completados(ps))[x] == if x.estado == Completado then multiset(ps)[x] else 0
    decreases |ps|
  {
    if ps != [] {
      var init := ps[..|ps| - 1];
      var last := ps[|ps| - 1];
      CompletadosMultiplicidad(init);
      assert ps == init + [last];
      assert multiset(ps) == multiset(init) + multiset{last};
      if last.estado == Completado {
        assert multiset(Completados(ps)) == multiset(Completados(init)) + multiset{last};
      } else {
        assert Completados(ps) == Completados(init);
      }
    }
  }

  /**
   The revenue of key `k` read straight off the orders: the sum of `total`
   over every COMPLETADO order whose key is `k`, each stored order counted
   once, repeated identical orders included.
   */
  function IngresosDirectos(ps: seq<Pedido>, g: Agrupacion, k: string): int
    decreases |ps|
  {
    if ps == [] then 0
    else
      var last := ps[|ps| - 1];
      IngresosDirectos(ps[..|ps| - 1], g, k) +
        (if last.estado == Completado && Clave(last, g) == k then last.total else 0)
  }

  /** Filtering then summing per key gives the revenue read straight off the orders. */
  lemma {:induction false} IngresosSonDirectos(ps: seq<Pedido>, g: Agrupacion, k: string)
    ensures Ingresos(ps, g, k) == IngresosDirectos(ps, g, k)
    decreases |ps|
  {
    if ps != [] {
      var init := ps[..|ps| - 1];
      var last := ps[|ps| - 1];
      IngresosSonDirectos(init, g, k);
      var c := Completados(init);
      if last.estado == Completado {
        assert Completados(ps) == c + [last];
        SumaUltimo(c, last, g, k);
      } else {
        assert Completados(ps) == c;
      }
    }
  }

  /** Appending one order to a list adds its total to its own key's sum only. */
  lemma SumaUltimo(c: seq<Pedido>, last: Pedido, g: Agrupacion, k: string)
    ensures Suma(c + [last], g, k) == Suma(c, g, k) + (if Clave(last, g) == k then last.total else 0)
  {
    assert (c + [last])[..|c + [last]| - 1] == c;
  }

  /**
   An order in any status other than COMPLETADO, wherever it stands in the
   collection, is dropped by the filter as if it were not there.
   */
  lemma {:induction false} CompletadosIgnora(antes: seq<Pedido>, o: Pedido, despues: seq<Pedido>)
    requires o.estado != Completado
    ensures Completados(antes + [o] + despues) == Completados(antes + despues)
    decreases |despues|
  {
    if despues == [] {
      assert antes + [o] + despues == antes + [o];
      assert (antes + [o])[..|antes|] == antes;
      assert antes + despues == antes;
    } else {
      var init := despues[..|despues| - 1];
      var last := despues[|despues| - 1];
      CompletadosIgnora(antes, o, init);
      assert (antes + [o] + despues)[..|antes + [o] + despues| - 1] == antes + [o] + init;
      assert (antes + despues)[..|antes + despues| - 1] == antes + init;
    }
  }

  // ---------------------------------------------------------------------
  // $group: the specification of a group's key set and sum
  // ---------------------------------------------------------------------

  /** The keys of the given orders. */
  function Claves(ps: seq<Pedido>, g: Agrupacion): (r: set<string>)
    ensures forall k :: k in r <==> exists j :: 0 <= j < |ps| && Clave(ps[j], g) == k
    decreases |ps|
  {
    if ps == [] then {}
    else
      var init := ps[..|ps| - 1];
      var r := Claves(init, g) + {Clave(ps[|ps| - 1], g)};
      assert forall k :: k in r ==> exists j :: 0 <= j < |ps| && Clave(ps[j], g) == k by {
        forall k | k in r
          ensures exists j :: 0 <= j < |ps| && Clave(ps[j], g) == k
        {
          if k in Claves(init, g) {
            var j :| 0 <= j < |init| && Clave(init[j], g) == k;
            assert ps[j] == init[j];
          } else {
            assert Clave(ps[|ps| - 1], g) == k;
          }
        }
      }
      assert forall j :: 0 <= j < |ps| - 1 ==> ps[j] == init[j];
      r
  }

  /** The sum of `total` over the given orders whose key is `k`. */
  function Suma(ps: seq<Pedido>, g: Agrupacion, k: string): int
    decreases |ps|
  {
    if ps == [] then 0
    else
      var last := ps[|ps| - 1];
      Suma(ps[..|ps| - 1], g, k) + (if Clave(last, g) == k then last.total else 0)
  }

  /** The customers (or salespeople) that have at least one COMPLETADO order. */
  function Participantes(ps: seq<Pedido>, g: Agrupacion): set<string>
  {
    Claves(Completados(ps), g)
  }

  /** The revenue of customer (or salesperson) `k`: the sum of its COMPLETADO orders' totals. */
  function Ingresos(ps: seq<Pedido>, g: Agrupacion, k: string): int
  {
    Suma(Completados(ps), g, k)
  }

  // ---------------------------------------------------------------------
  // Rows, their ids and their uniqueness
  // ---------------------------------------------------------------------

  /** The ids of a list of rows. */
  function Ids(es: seq<Entrada>): (r: set<string>)
    ensures forall i :: 0 <= i < |es| ==> es[i].id in r
    ensures forall x :: x in r ==> exists i :: 0 <= i < |es| && es[i].id == x
    decreases |es|
  {
    if es == [] then {}
    else
      var r := {es[0].id} + Ids(es[1..]);
      assert forall x :: x in r ==> exists i :: 0 <= i < |es| && es[i].id == x by {
        forall x | x in r
          ensures exists i :: 0 <= i < |es| && es[i].id == x
        {
          if x != es[0].id {
            var i :| 0 <= i < |es[1..]| && es[1..][i].id == x;
            assert es[i + 1].id == x;
          }
        }
      }
      assert forall i :: 1 <= i < |es| ==> es[i] == es[1..][i - 1];
      r
  }

  /** No id appears on two rows. */
  predicate Distintos(es: seq<Entrada>)
    decreases |es|
  {
    es == [] || (es[0].id !in Ids(es[1..]) && Distintos(es[1..]))
  }

  lemma {:induction false} DistintosIndices(es: seq<Entrada>)
    requires Distintos(es)
    ensures forall i, j :: 0 <= i < j < |es| ==> es[i].id != es[j].id
    decreases |es|
  {
    if es != [] {
      DistintosIndices(es[1..]);
      forall i, j | 0 <= i < j < |es|
        ensures es[i].id != es[j].id
      {
        assert es[j] == es[1..][j - 1];
        if i > 0 {
          assert es[i] == es[1..][i - 1];
        }
      }
    }
  }

  /** The total of the first row with id `x`, or 0 when there is none. */
  function TotalDe(es: seq<Entrada>, x: string): int
    decreases |es|
  {
    if es == [] then 0
    else if es[0].id == x then es[0].total
    else TotalDe(es[1..], x)
  }

  /** In rows with distinct ids, the row with id `x` is the one `TotalDe` reads. */
  lemma {:induction false} TotalDeEn(es: seq<Entrada>, i: nat)
    requires Distintos(es) && i < |es|
    ensures TotalDe(es, es[i].id) == es[i].total
    decreases |es|
  {
    if i > 0 {
      assert es[i] == es[1..][i - 1];
      TotalDeEn(es[1..], i - 1);
    }
  }

  // ---------------------------------------------------------------------
  // $group
  // ---------------------------------------------------------------------

  /** Adds `t` to the row with id `k`, appending a new row when there is none. */
  function Acumular(es: seq<Entrada>, k: string, t: int): (r: seq<Entrada>)
    ensures Ids(r) == Ids(es) + {k}
    ensures Distintos(es) ==> Distintos(r)
    ensures forall x :: TotalDe(r, x) == TotalDe(es, x) + (if x == k then t else 0)
    decreases |es|
  {
    if es == [] then
      [Entrada(k, t)]
    else if es[0].id == k then
      var r := [Entrada(k, es[0].total + t)] + es[1..];
      assert r[1..] == es[1..];
      r
    else
      var r := [es[0]] + Acumular(es[1..], k, t);
      assert r[1..] == Acumular(es[1..], k, t);
      r
  }

  /**
   One row per key of the given orders, with distinct ids, each holding the
   sum of the totals of that key's orders.
   */
  function Grupos(ps: seq<Pedido>, g: Agrupacion): (r: seq<Entrada>)
    ensures Distintos(r)
    ensures Ids(r) == Claves(ps, g)
    ensures forall k :: TotalDe(r, k) == Suma(ps, g, k)
    decreases |ps|
  {
    if ps == [] then []
    else
      var last := ps[|ps| - 1];
      Acumular(Grupos(ps[..|ps| - 1], g), Clave(last, g), last.total)
  }

  // ---------------------------------------------------------------------
  // $sort (descending by total)
  // ---------------------------------------------------------------------

  /** Rows in non-increasing order of total. */
  predicate Descendente(es: seq<Entrada>)
  {
    forall i, j :: 0 <= i < j < |es| ==> es[i].total >= es[j].total
  }

  /** Inserts a row into rows sorted largest first, before the first smaller total. */
  function Insertar(e: Entrada, es: seq<Entrada>): (r: seq<Entrada>)
    requires Descendente(es)
    ensures Descendente(r)
    ensures forall x :: x in r <==> x == e || x in es
    decreases |es|
  {
    if es == [] || e.total >= es[0].total then
      [e] + es
    else
      var resto := Insertar(e, es[1..]);
      assert forall x :: x in es[1..] ==> x.total <= es[0].total;
      assert forall x :: x in es <==> x == es[0] || x in es[1..] by {
        assert es == [es[0]] + es[1..];
      }
      [es[0]] + resto
  }

  /** Inserting adds exactly one row, the inserted one, and loses none. */
  lemma {:induction false} InsertarPermuta(e: Entrada, es: seq<Entrada>)
    requires Descendente(es)
    ensures multiset(Insertar(e, es)) == multiset(es) + multiset{e}
    decreases |es|
  {
    if es != [] && e.total < es[0].total {
      InsertarPermuta(e, es[1..]);
      assert es == [es[0]] + es[1..];
    }
  }

  /** Inserting a row with a new id keeps ids distinct and adds just that id. */
  lemma {:induction false} InsertarIds(e: Entrada, es: seq<Entrada>)
    requires Descendente(es)
    ensures Ids(Insertar(e, es)) == Ids(es) + {e.id}
    ensures Distintos(es) && e.id !in Ids(es) ==> Distintos(Insertar(e, es))
    decreases |es|
  {
    var r := Insertar(e, es);
    if es == [] || e.total >= es[0].total {
      assert r[1..] == es;
    } else {
      InsertarIds(e, es[1..]);
      assert r[1..] == Insertar(e, es[1..]);
    }
  }

  /** The rows sorted largest total first. */
  function Ordenar(es: seq<Entrada>): (r: seq<Entrada>)
    ensures Descendente(r)
    decreases |es|
  {
    if es == [] then [] else Insertar(es[0], Ordenar(es[1..]))
  }

  /** Sorting is a permutation of its input. */
  lemma {:induction false} OrdenarPermuta(es: seq<Entrada>)
    ensures multiset(Ordenar(es)) == multiset(es)
    decreases |es|
  {
    if es != [] {
      var resto := Ordenar(es[1..]);
      OrdenarPermuta(es[1..]);
      InsertarPermuta(es[0], resto);
      assert es == [es[0]] + es[1..];
      assert multiset(es) == multiset{es[0]} + multiset(es[1..]);
    }
  }

  /** Sorting keeps the set of ids and their distinctness. */
  lemma {:induction false} OrdenarIds(es: seq<Entrada>)
    ensures Ids(Ordenar(es)) == Ids(es)
    ensures Distintos(es) ==> Distintos(Ordenar(es))
    decreases |es|
  {
    if es != [] {
      OrdenarIds(es[1..]);
      InsertarIds(es[0], Ordenar(es[1..]));
    }
  }

  // ---------------------------------------------------------------------
  // $limit and the whole pipeline
  // ---------------------------------------------------------------------

  /** The first `Limite` rows. */
  function Limitar(es: seq<Entrada>): (r: seq<Entrada>)
    ensures r <= es
    ensures |r| == if |es| <= Limite then |es| else Limite
  {
    if |es| <= Limite then es else es[..Limite]
  }

  /**
   What a leaderboard promises: at most ten rows, largest total first, no
   id twice; each row is a customer (or salesperson) with COMPLETADO orders
   and carries exactly its revenue from them; and any such customer left off
   the board was left off only because the board is full with rows whose
   totals are at least its own.
   */
  predicate EsRanking(ps: seq<Pedido>, g: Agrupacion, r: seq<Entrada>)
  {
    && |r| <= Limite
    && Descendente(r)
    && (forall i, j :: 0 <= i < j < |r| ==> r[i].id != r[j].id)
    && (forall i :: 0 <= i < |r| ==> r[i].id in Participantes(ps, g) && r[i].total == Ingresos(ps, g, r[i].id))
    && (forall k :: k in Participantes(ps, g) && k !in Ids(r) ==>
          |r| == Limite && Ingresos(ps, g, k) <= r[Limite - 1].total)
  }

  /** The aggregation `$match`, `$group`, `$sort`, `$limit` over the orders collection. */
  function Top(ps: seq<Pedido>, g: Agrupacion): (r: seq<Entrada>)
    ensures EsRanking(ps, g, r)
  {
    TopEsRanking(ps, g);
    Limitar(Ordenar(Grupos(Completados(ps), g)))
  }

  /** Every sorted group row is a customer with COMPLETADO orders, carrying its revenue. */
  lemma FilasSonIngresos(ps: seq<Pedido>, g: Agrupacion)
    ensures forall m :: 0 <= m < |Ordenar(Grupos(Completados(ps), g))| ==>
              var o := Ordenar(Grupos(Completados(ps), g));
              o[m].id in Participantes(ps, g) && o[m].total == Ingresos(ps, g, o[m].id)
  {
    var gr := Grupos(Completados(ps), g);
    var o := Ordenar(gr);
    OrdenarPermuta(gr);
    forall m | 0 <= m < |o|
      ensures o[m].id in Participantes(ps, g) && o[m].total == Ingresos(ps, g, o[m].id)
    {
      assert o[m] in multiset(gr);
      var j :| 0 <= j < |gr| && gr[j] == o[m];
      TotalDeEn(gr, j);
    }
  }

  /** Every customer with COMPLETADO orders has a row among the sorted group rows. */
  lemma ParticipantesTienenFila(ps: seq<Pedido>, g: Agrupacion, k: string)
    requires k in Participantes(ps, g)
    ensures exists m :: 0 <= m < |Ordenar(Grupos(Completados(ps), g))| &&
              Ordenar(Grupos(Completados(ps), g))[m].id == k
  {
    var gr := Grupos(Completados(ps), g);
    OrdenarIds(gr);
    assert k in Ids(Ordenar(gr));
  }

  /** A sorted row cut off by the limit is outranked by the last row kept, and the board is full. */
  lemma {:induction false} FueraDelLimite(o: seq<Entrada>, m: nat)
    requires Descendente(o) && m < |o| && o[m].id !in Ids(Limitar(o))
    ensures |Limitar(o)| == Limite && o[m].total <= Limitar(o)[Limite - 1].total
  {
    assert Limitar(o)[Limite - 1] == o[Limite - 1];
  }

  /** A customer with COMPLETADO orders that is not on the board was outranked by a full board. */
  lemma FueraSoloSiSuperado(ps: seq<Pedido>, g: Agrupacion, k: string)
    requires k in Participantes(ps, g)
    requires k !in Ids(Limitar(Ordenar(Grupos(Completados(ps), g))))
    ensures var r := Limitar(Ordenar(Grupos(Completados(ps), g)));
            |r| == Limite && Ingresos(ps, g, k) <= r[Limite - 1].total
  {
    var o := Ordenar(Grupos(Completados(ps), g));
    ParticipantesTienenFila(ps, g, k);
    var m :| 0 <= m < |o| && o[m].id == k;
    FueraDelLimite(o, m);
    FilasSonIngresos(ps, g);
  }

  lemma RankingOrdenadoYDistinto(ps: seq<Pedido>, g: Agrupacion)
    ensures var r := Limitar(Ordenar(Grupos(Completados(ps), g)));
            Descendente(r) && forall i, j :: 0 <= i < j < |r| ==> r[i].id != r[j].id
  {
    var gr := Grupos(Completados(ps), g);
    var o := Ordenar(gr);
    var r := Limitar(o);
    assert forall i :: 0 <= i < |r| ==> r[i] == o[i];
    OrdenarIds(gr);
    DistintosIndices(o);
  }

  lemma RankingFilas(ps: seq<Pedido>, g: Agrupacion)
    ensures var r := Limitar(Ordenar(Grupos(Completados(ps), g)));
            forall i :: 0 <= i < |r| ==> r[i].id in Participantes(ps, g) && r[i].total == Ingresos(ps, g, r[i].id)
  {
    var o := Ordenar(Grupos(Completados(ps), g));
    var r := Limitar(o);
    assert forall i :: 0 <= i < |r| ==> r[i] == o[i];
    FilasSonIngresos(ps, g);
  }

  lemma TopEsRanking(ps: seq<Pedido>, g: Agrupacion)
    ensures EsRanking(ps, g, Limitar(Ordenar(Grupos(Completados(ps), g))))
  {
    var r := Limitar(Ordenar(Grupos(Completados(ps), g)));
    RankingOrdenadoYDistinto(ps, g);
    RankingFilas(ps, g);
    forall k | k in Participantes(ps, g) && k !in Ids(r)
      ensures |r| == Limite && Ingresos(ps, g, k) <= r[Limite - 1].total
    {
      FueraSoloSiSuperado(ps, g, k);
    }
  }

  /**
   Orders in any status other than COMPLETADO contribute nothing: adding
   one anywhere in the collection leaves the leaderboard as it was.
   */
  lemma SoloCompletadosCuentan(antes: seq<Pedido>, o: Pedido, despues: seq<Pedido>, g: Agrupacion)
    requires o.estado != Completado
    ensures Top(antes + [o] + despues, g) == Top(antes + despues, g)
  {
    CompletadosIgnora(antes, o, despues);
  }
}
