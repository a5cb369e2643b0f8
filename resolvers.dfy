/**
 The mutations and queries of the sales API that carry decision logic, as
 methods and functions of one object that holds the three collections they
 touch: the product stock table, the orders and the user accounts.
 */
module Resolvers {
  import opened Domain
  import opened Inventario
  import opened Ranking
  import opened Usuarios

  class BaseDeDatos {
    /** Stock of each product, by product id; it has no floor. */
    var stock: map<ProductId, int>
    /** The orders collection; an order's id is its position. */
    var pedidos: seq<Pedido>
    /** The users collection. */
    var usuarios: seq<Usuario>

    /** The store's invariant: login names are unique. */
    ghost predicate Valid()
      reads this
    {
      LoginsUnicos(usuarios)
    }

    constructor (stock: map<ProductId, int>, pedidos: seq<Pedido>, usuarios: seq<Usuario>)
      requires LoginsUnicos(usuarios)
      ensures Valid()
      ensures this.stock == stock && this.pedidos == pedidos && this.usuarios == usuarios
    {
      this.stock := stock;
      this.pedidos := pedidos;
      this.usuarios := usuarios;
    }

    /**
     Creates an order: every line item's quantity comes out of its product's
     stock, and the order is stored as PENDIENTE whatever status the form
     carries.
     */
    method CrearPedido(formulario: Pedido) returns (id: nat, nuevo: Pedido)
      requires Valid()
      modifies this
      ensures Valid()
      ensures nuevo.estado == Pendiente
      ensures nuevo == formulario.(estado := Pendiente)
      ensures id == |old(pedidos)| && pedidos == old(pedidos) + [nuevo]
      ensures stock == Ajustar(old(stock), formulario.pedido, Decrementar)
      ensures stock.Keys == old(stock).Keys
      ensures forall p :: p in stock ==> stock[p] == old(stock)[p] - Cantidad(formulario.pedido, p)
      ensures usuarios == old(usuarios)
    {
      var items := formulario.pedido;
      var i := 0;
      while i < |items|
        invariant 0 <= i <= |items|
        invariant stock == Ajustar(old(stock), items[..i], Decrementar)
        invariant pedidos == old(pedidos) && usuarios == old(usuarios)
      {
        var item := items[i];
        if item.id in stock {
          stock := stock[item.id := stock[item.id] - item.cantidad];
        }
        assert items[..i + 1][..i] == items[..i];
        i := i + 1;
      }
      assert items[..|items|] == items;
      AjustarEfecto(old(stock), items, Decrementar);
      nuevo := formulario.(estado := Pendiente);
      id := |pedidos|;
      pedidos := pedidos + [nuevo];
    }

    /**
     Updates an order: applies to every submitted line item the instruction
     chosen from the new status and the status the client says the order
     held before, then overwrites the stored order with the form. An id that
     names no order leaves the orders as they were; the stock is adjusted
     all the same.
     */
    method ActualizarPedido(id: nat, formulario: Pedido, estadoAnterior: Estado)
      requires Valid()
      modifies this
      ensures Valid()
      ensures stock == Ajustar(old(stock), formulario.pedido, InstruccionPara(formulario.estado, estadoAnterior))
      ensures stock.Keys == old(stock).Keys
      ensures forall p :: p in stock ==>
                stock[p] == old(stock)[p] + Delta(InstruccionPara(formulario.estado, estadoAnterior), Cantidad(formulario.pedido, p))
      ensures pedidos == if id < |old(pedidos)| then old(pedidos)[id := formulario] else old(pedidos)
      ensures usuarios == old(usuarios)
    {
      var instruccion := InstruccionPara(formulario.estado, estadoAnterior);
      var items := formulario.pedido;
      var i := 0;
      while i < |items|
        invariant 0 <= i <= |items|
        invariant stock == Ajustar(old(stock), items[..i], instruccion)
        invariant pedidos == old(pedidos) && usuarios == old(usuarios)
      {
        var item := items[i];
        match instruccion {
          case SinCambio =>
            // The increment "0*n" is not a number: the update fails and its error is dropped.
            assert Incrementar1(stock, item.id, 0) == stock;
          case Decrementar =>
            if item.id in stock {
              stock := stock[item.id := stock[item.id] - item.cantidad];
            }
          case Incrementar =>
            if item.id in stock {
              stock := stock[item.id := stock[item.id] + item.cantidad];
            }
        }
        assert items[..i + 1][..i] == items[..i];
        i := i + 1;
      }
      assert items[..|items|] == items;
      AjustarEfecto(old(stock), items, instruccion);
      if id < |pedidos| {
        pedidos := pedidos[id := formulario];
      }
    }

    /**
     Registers a user: fails when the login name is taken, and otherwise
     appends exactly one account, leaving the existing ones as they were.
     */
    method CrearUsuario(usuario: string, nombre: string, password: string, rol: string)
      returns (r: Resultado<string>)
      requires Valid()
      modifies this
      ensures Valid()
      ensures (exists k :: 0 <= k < |old(usuarios)| && old(usuarios)[k].usuario == usuario) ==>
                r == Err(UsuarioYaExiste) && usuarios == old(usuarios)
      ensures (forall k :: 0 <= k < |old(usuarios)| ==> old(usuarios)[k].usuario != usuario) ==>
                r.Ok? && usuarios == old(usuarios) + [Usuario(usuario, nombre, password, rol)]
      ensures stock == old(stock) && pedidos == old(pedidos)
    {
      var existe := Buscar(usuarios, usuario);
      if existe.Some? {
        r := Err(UsuarioYaExiste);
      } else {
        var nuevo := Usuario(usuario, nombre, password, rol);
        AltaConservaUnicos(usuarios, nuevo);
        usuarios := usuarios + [nuevo];
        r := Ok("Usuario creado PERFEKTAMENTE");
      }
    }

    /**
     Logs a user in: fails when no account has the login name or when
     `compara(password, stored)` rejects the password; otherwise hands out a
     token for that login name. `compara` is the password check against the
     stored credential.
     */
    function AutenticarUsuario(usuario: string, password: string, compara: (string, string) -> bool): (r: Resultado<Token>)
      reads this
      ensures r == Err(UsuarioNoExiste) <==> forall k :: 0 <= k < |usuarios| ==> usuarios[k].usuario != usuario
      ensures r.Ok? ==> r.value == Token(usuario, Expira)
      ensures r.Ok? ==> exists k :: 0 <= k < |usuarios| && usuarios[k].usuario == usuario && compara(password, usuarios[k].password)
      ensures Valid() ==>
                (r.Ok? <==> exists k :: 0 <= k < |usuarios| && usuarios[k].usuario == usuario && compara(password, usuarios[k].password))
      ensures r != Err(UsuarioYaExiste)
    {
      match Buscar(usuarios, usuario)
      case None => Err(UsuarioNoExiste)
      case Some(k) =>
        if !compara(password, usuarios[k].password) then Err(PasswordIncorrecta)
        else Ok(CrearToken(usuarios[k]))
    }

    /** The best customers by revenue from COMPLETADO orders. */
    function TopClientes(): (r: seq<Entrada>)
      reads this
      ensures EsRanking(pedidos, PorCliente, r)
    {
      Top(pedidos, PorCliente)
    }

    /** The best salespeople by revenue from COMPLETADO orders. */
    function TopVendedores(): (r: seq<Entrada>)
      reads this
      ensures EsRanking(pedidos, PorVendedor, r)
    {
      Top(pedidos, PorVendedor)
    }
  }

  /**
   A product with 10 units; an order for 3 takes it to 7, and cancelling
   that order from PENDIENTE brings it back to 10.
   */
  method EscenarioCrearYCancelar()
  {
    var db := new BaseDeDatos(map["mesa" := 10], [], []);
    var form := Pedido([LineItem("mesa", 3)], 300, "cliente-1", Completado, "ana");
    var id, nuevo := db.CrearPedido(form);
    assert nuevo.estado == Pendiente;
    assert Cantidad(form.pedido, "mesa") == 3;
    assert db.stock["mesa"] == 7;
    db.ActualizarPedido(id, form.(estado := Cancelado), Pendiente);
    assert db.stock["mesa"] == 10;
    assert db.pedidos[id].estado == Cancelado;
  }

  /**
   Registering the same login name twice: the second attempt fails and
   changes nothing. Logging in then fails with a wrong password and yields a
   token for "ana" with the right one; a plain comparison stands in for the
   password check.
   */
  method EscenarioUsuarioDuplicado()
  {
    var db := new BaseDeDatos(map[], [], []);
    var r1 := db.CrearUsuario("ana", "Ana", "pw123", "VENDEDOR");
    assert r1.Ok? && |db.usuarios| == 1;
    var r2 := db.CrearUsuario("ana", "Ana", "otra", "VENDEDOR");
    assert db.usuarios[0].usuario == "ana";
    assert r2 == Err(UsuarioYaExiste) && |db.usuarios| == 1;
    var compara := (plano: string, guardado: string) => plano == guardado;
    assert db.usuarios[0].password == "pw123";
    assert db.AutenticarUsuario("ana", "wrongpw", compara) == Err(PasswordIncorrecta);
    assert db.AutenticarUsuario("ana", "pw123", compara) == Ok(Token("ana", Expira));
    assert db.AutenticarUsuario("bea", "pw123", compara) == Err(UsuarioNoExiste);
  }
}
