/**
 Stock bookkeeping for orders. Creating an order takes each line item's
 quantity out of stock; updating an order's status applies to every line
 item one instruction (take out, put back, or leave alone) chosen from the
 new status and the status the order held before. The product table is a
 map from product id to a stock count that has no floor.
 */
module Inventario {
  import opened Domain

  /** What an order update does to the stock of each of its line items. */
  datatype Instruccion = Decrementar | Incrementar | SinCambio

  /**
   The instruction an order update applies, chosen from the new status and
   the status the order held before; nothing else is consulted.
   */
  function InstruccionPara(estado: Estado, anterior: Estado): (r: Instruccion)
    ensures r == Incrementar <==> estado == Cancelado
    ensures r == SinCambio <==>
              (estado == Completado && anterior == Pendiente) ||
              (estado == Pendiente && anterior == Completado)
  {
    if estado == Completado then
      (if anterior == Pendiente then SinCambio else Decrementar)
    else if estado == Cancelado then
      Incrementar
    else
      assert estado == Pendiente;
      (if anterior == Completado then SinCambio else Decrementar)
  }

  /**
   The signed change in stock one instruction makes for `cantidad` units:
   taken out, put back, or none at all (the text `0*n` is not a number, so
   that update does nothing).
   */
  function Delta(i: Instruccion, cantidad: nat): (r: int)
    ensures r == 0 <==> i == SinCambio || cantidad == 0
    ensures r < 0 ==> i == Decrementar
    ensures r > 0 ==> i == Incrementar
    ensures -(cantidad as int) <= r <= cantidad
  {
    match i
    case Decrementar => -(cantidad as int)
    case Incrementar => cantidad
    case SinCambio => 0
  }

  /**
   One `$inc` of product `id` by `d`. An id that names no product matches
   nothing, and the table is left as it was.
   */
  function Incrementar1(stock: map<ProductId, int>, id: ProductId, d: int): (r: map<ProductId, int>)
    ensures r.Keys == stock.Keys
    ensures forall p :: p in stock && p != id ==> r[p] == stock[p]
    ensures id in stock ==> r[id] == stock[id] + d
  {
    if id in stock then stock[id := stock[id] + d] else stock
  }

  /**
   The stock after the instruction has been applied to every line item, first
   to last. No product is added or dropped, and "no change" changes nothing.
   */
  function Ajustar(stock: map<ProductId, int>, items: seq<LineItem>, i: Instruccion): (r: map<ProductId, int>)
    ensures r.Keys == stock.Keys
    ensures i == SinCambio ==> r == stock
    decreases |items|
  {
    if items == [] then stock
    else
      var last := items[|items| - 1];
      Incrementar1(Ajustar(stock, items[..|items| - 1], i), last.id, Delta(i, last.cantidad))
  }

  /** The number of units the line items name of product `p`, summed over repeated items. */
  function Cantidad(items: seq<LineItem>, p: ProductId): nat
    decreases |items|
  {
    if items == [] then 0
    else
      var last := items[|items| - 1];
      Cantidad(items[..|items| - 1], p) + (if last.id == p then last.cantidad else 0)
  }

  /** True when some line item names product `p`. */
  predicate Nombrado(items: seq<LineItem>, p: ProductId)
  {
    exists j :: 0 <= j < |items| && items[j].id == p
  }

  /**
   Applying an instruction changes every product by the instruction's delta
   for the total quantity the order names of it, and adds or drops no product.
   */
  lemma {:induction false} AjustarEfecto(stock: map<ProductId, int>, items: seq<LineItem>, i: Instruccion)
    ensures Ajustar(stock, items, i).Keys == stock.Keys
    ensures forall p :: p in stock ==> Ajustar(stock, items, i)[p] == stock[p] + Delta(i, Cantidad(items, p))
    decreases |items|
  {
    if items != [] {
      AjustarEfecto(stock, items[..|items| - 1], i);
    }
  }

  /** A product that no line item names has quantity zero in the order. */
  lemma {:induction false} CantidadNoNombrado(items: seq<LineItem>, p: ProductId)
    requires !Nombrado(items, p)
    ensures Cantidad(items, p) == 0
    decreases |items|
  {
    if items != [] {
      var init := items[..|items| - 1];
      assert !Nombrado(init, p) by {
        assert forall j :: 0 <= j < |init| ==> init[j] == items[j];
      }
      CantidadNoNombrado(init, p);
    }
  }

  /** Stock of a product that no line item names is left exactly as it was. */
  lemma NoNombradoSinCambio(stock: map<ProductId, int>, items: seq<LineItem>, i: Instruccion, p: ProductId)
    requires p in stock && !Nombrado(items, p)
    ensures p in Ajustar(stock, items, i) && Ajustar(stock, items, i)[p] == stock[p]
  {
    AjustarEfecto(stock, items, i);
    CantidadNoNombrado(items, p);
  }

  /**
   Creating an order and then cancelling it from PENDIENTE with the same line
   items gives back the stock table that was there before.
   */
  lemma CrearYCancelarRestaura(stock: map<ProductId, int>, items: seq<LineItem>)
    ensures Ajustar(Ajustar(stock, items, Decrementar), items, InstruccionPara(Cancelado, Pendiente)) == stock
  {
    var creado := Ajustar(stock, items, Decrementar);
    AjustarEfecto(stock, items, Decrementar);
    AjustarEfecto(creado, items, Incrementar);
  }

  /**
   Units of an item an order holds out of stock while in status `e`:
   all of them unless the order is cancelled.
   */
  function Reservado(e: Estado, cantidad: nat): nat
  {
    if e == Cancelado then 0 else cantidad
  }

  /**
   A real status change moves stock by exactly the difference in what the
   order holds out of stock before and after it.
   */
  lemma CambioRespetaReserva(estado: Estado, anterior: Estado, cantidad: nat)
    requires estado != anterior
    ensures Delta(InstruccionPara(estado, anterior), cantidad) == Reservado(anterior, cantidad) - Reservado(estado, cantidad)
  {
  }

  /**
   An update that names the status the order already holds still moves
   stock: out again for PENDIENTE and COMPLETADO, back in again for CANCELADO.
   */
  lemma MismoEstadoDesvia(e: Estado, cantidad: nat)
    requires cantidad > 0
    ensures Delta(InstruccionPara(e, e), cantidad) == (if e == Cancelado then cantidad as int else -(cantidad as int))
    ensures Delta(InstruccionPara(e, e), cantidad) != Reservado(e, cantidad) - Reservado(e, cantidad)
  {
  }

  /** The status an order holds after a history of updates that starts at PENDIENTE. */
  function Ultimo(estados: seq<Estado>): Estado
  {
    if estados == [] then Pendiente else estados[|estados| - 1]
  }

  /** True when every update in the history names a status other than the one before it. */
  predicate CambiosReales(estados: seq<Estado>)
  {
    forall k :: 0 <= k < |estados| ==> estados[k] != Ultimo(estados[..k])
  }

  /**
   The stock after an order with `items` is created and then updated through
   `estados`, each update sent with the status the order held before it.
   */
  function Ciclo(stock: map<ProductId, int>, items: seq<LineItem>, estados: seq<Estado>): map<ProductId, int>
    decreases |estados|
  {
    if estados == [] then Ajustar(stock, items, Decrementar)
    else
      var previos := estados[..|estados| - 1];
      Ajustar(Ciclo(stock, items, previos), items, InstruccionPara(estados[|estados| - 1], Ultimo(previos)))
  }

  /**
   Over any history of real status changes, every product's stock is its
   starting stock less what the order holds in its final status: all its
   units unless the order ended CANCELADO, none if it did.
   */
  lemma {:induction false} CicloConserva(stock: map<ProductId, int>, items: seq<LineItem>, estados: seq<Estado>)
    requires CambiosReales(estados)
    ensures Ciclo(stock, items, estados).Keys == stock.Keys
    ensures forall p :: p in stock ==>
              Ciclo(stock, items, estados)[p] == stock[p] - Reservado(Ultimo(estados), Cantidad(items, p))
    decreases |estados|
  {
    if estados == [] {
      AjustarEfecto(stock, items, Decrementar);
    } else {
      var previos := estados[..|estados| - 1];
      assert CambiosReales(previos) by {
        forall k | 0 <= k < |previos|
          ensures previos[k] != Ultimo(previos[..k])
        {
          assert previos[..k] == estados[..k];
        }
      }
      CicloConserva(stock, items, previos);
      var antes := Ciclo(stock, items, previos);
      var e := estados[|estados| - 1];
      assert e != Ultimo(previos) by {
        assert estados[..|estados| - 1] == previos;
      }
      var i := InstruccionPara(e, Ultimo(previos));
      AjustarEfecto(antes, items, i);
      forall p | p in stock
        ensures Ciclo(stock, items, estados)[p] == stock[p] - Reservado(e, Cantidad(items, p))
      {
        CambioRespetaReserva(e, Ultimo(previos), Cantidad(items, p));
      }
    }
  }
}
