/** Values that the view receives from awaited calls. */
module Outcomes {
  /** A JavaScript value that may be absent: `null`/`undefined` is `None`. */
  datatype Option<T> = None | Some(value: T)

  /** An awaited call that resolved with a value, or rejected with an error whose `message` is kept. */
  datatype Result<T> = Ok(value: T) | Err(message: string)

  /** An awaited call whose resolved value the view ignores. */
  datatype ApiOutcome = Success | Failure(message: string)
}

/** Movement and container records, the type filter and the badge table of the movements view. */
module Movimientos {
  import opened Outcomes

  /** A movement row as the backend returns it; the fields are the columns ID_MOVIMIENTO, ID_CONTENEDOR,
      CODIGO_CONTENEDOR, TIPO_MOVIMIENTO, FECHA_MOVIMIENTO and OBSERVACIONES. */
  datatype BackendMovimiento = BackendMovimiento(
    idMovimiento: int,
    idContenedor: int,
    codigoContenedor: Option<string>,
    tipoMovimiento: Option<string>,
    fechaMovimiento: Option<string>,
    observaciones: Option<string>)

  /** A movement in the view's own shape. */
  datatype Movimiento = Movimiento(
    id: int,
    idContenedor: int,
    contenedor: string,
    tipoMovimiento: string,
    fechaMovimiento: Option<string>,
    observaciones: string)

  /** A container row as the backend returns it (ID_CONTENEDOR, CODIGO_CONTENEDOR, CLIENTE_NOMBRE). */
  datatype BackendContenedor = BackendContenedor(
    idContenedor: int,
    codigoContenedor: Option<string>,
    clienteNombre: Option<string>)

  /** An entry of the container selector. */
  datatype Contenedor = Contenedor(id: int, codigo: Option<string>, cliente: string)

  // ---------------------------------------------------------------------------------------------
  // The `||` operator on nullable text
  // ---------------------------------------------------------------------------------------------

  /** JavaScript truthiness of a nullable string: absent and empty are falsy. */
  predicate Truthy(o: Option<string>) {
    o.Some? && o.value != ""
  }

  /** `o || ""`: the text itself when it is truthy, the empty string otherwise. */
  function OrEmpty(o: Option<string>): (r: string)
    ensures Truthy(o) ==> Some(r) == o
    ensures !Truthy(o) ==> r == ""
  {
    match o
    case Some(s) => s
    case None => ""
  }

  // ---------------------------------------------------------------------------------------------
  // Record mappers
  // ---------------------------------------------------------------------------------------------

  /** One backend movement in the view's shape: identifiers and timestamp copied as they are,
      the three text fields defaulted to "" when falsy. */
  function ToMovimiento(b: BackendMovimiento): (m: Movimiento)
    ensures m.id == b.idMovimiento && m.idContenedor == b.idContenedor
    ensures m.fechaMovimiento == b.fechaMovimiento
    ensures Truthy(b.codigoContenedor) ==> Some(m.contenedor) == b.codigoContenedor
    ensures !Truthy(b.codigoContenedor) ==> m.contenedor == ""
    ensures Truthy(b.tipoMovimiento) ==> Some(m.tipoMovimiento) == b.tipoMovimiento
    ensures !Truthy(b.tipoMovimiento) ==> m.tipoMovimiento == ""
    ensures Truthy(b.observaciones) ==> Some(m.observaciones) == b.observaciones
    ensures !Truthy(b.observaciones) ==> m.observaciones == ""
  {
    Movimiento(
      b.idMovimiento,
      b.idContenedor,
      OrEmpty(b.codigoContenedor),
      OrEmpty(b.tipoMovimiento),
      b.fechaMovimiento,
      OrEmpty(b.observaciones))
  }

  /** The backend movement list mapped record by record, in order. */
  function MapMovimientos(bs: seq<BackendMovimiento>): (ms: seq<Movimiento>)
    ensures |ms| == |bs|
    ensures forall i :: 0 <= i < |bs| ==> ms[i] == ToMovimiento(bs[i])
  {
    if bs == [] then [] else [ToMovimiento(bs[0])] + MapMovimientos(bs[1..])
  }

  /** One backend container as a selector entry: `cliente` defaulted to "" when falsy, the code copied. */
  function ToContenedor(b: BackendContenedor): (c: Contenedor)
    ensures c.id == b.idContenedor && c.codigo == b.codigoContenedor
    ensures Truthy(b.clienteNombre) ==> Some(c.cliente) == b.clienteNombre
    ensures !Truthy(b.clienteNombre) ==> c.cliente == ""
  {
    Contenedor(b.idContenedor, b.codigoContenedor, OrEmpty(b.clienteNombre))
  }

  /** The backend container list mapped record by record, in order. */
  function MapContenedores(bs: seq<BackendContenedor>): (cs: seq<Contenedor>)
    ensures |cs| == |bs|
    ensures forall i :: 0 <= i < |bs| ==> cs[i] == ToContenedor(bs[i])
  {
    if bs == [] then [] else [ToContenedor(bs[0])] + MapContenedores(bs[1..])
  }

  /** A row with null notes maps to a record with empty notes and every other field copied. */
  lemma MapExample()
    ensures ToMovimiento(BackendMovimiento(7, 3, Some("MSKU1"), Some("Entrada"), Some("2024-01-01 10:00:00"), None))
         == Movimiento(7, 3, "MSKU1", "Entrada", Some("2024-01-01 10:00:00"), "")
  {
  }

  // ---------------------------------------------------------------------------------------------
  // Type filter
  // ---------------------------------------------------------------------------------------------

  /** The filter value that shows every movement. */
  const Todos: string := "Todos"

  /** `a` is an in-order subsequence of `b` (greedy matching decides it). */
  predicate IsSubsequence<T(==)>(a: seq<T>, b: seq<T>)
    decreases |b|
  {
    if a == [] then true
    else if b == [] then false
    else if a[0] == b[0] then IsSubsequence(a[1..], b[1..])
    else IsSubsequence(a, b[1..])
  }

  /** The movements whose type equals `f` exactly, in their original order. */
  function FilterTipo(ms: seq<Movimiento>, f: string): (r: seq<Movimiento>)
    ensures |r| <= |ms|
    ensures forall i :: 0 <= i < |r| ==> r[i].tipoMovimiento == f
    ensures forall i :: 0 <= i < |ms| && ms[i].tipoMovimiento == f ==> ms[i] in r
  {
    if ms == [] then []
    else
      var rest := FilterTipo(ms[1..], f);
      assert forall i :: 1 <= i < |ms| ==> ms[i] == ms[1..][i - 1];
      if ms[0].tipoMovimiento == f then [ms[0]] + rest else rest
  }

  /** What the table shows: every movement under "Todos", otherwise only those of the selected type. */
  function VisibleMovimientos(ms: seq<Movimiento>, filtro: string): (r: seq<Movimiento>)
    ensures filtro == Todos ==> r == ms
    ensures filtro != Todos ==> IsSubsequence(r, ms) && forall i :: 0 <= i < |r| ==> r[i].tipoMovimiento == filtro
  {
    if filtro == Todos then ms
    else
      FilterIsSubsequence(ms, filtro);
      FilterTipo(ms, filtro)
  }

  /** Under "Todos" the table shows the list unchanged. */
  lemma VisibleTodos(ms: seq<Movimiento>)
    ensures VisibleMovimientos(ms, Todos) == ms
  {
  }

  /** The filtered list is an in-order subsequence of the input. */
  lemma {:induction false} FilterIsSubsequence(ms: seq<Movimiento>, f: string)
    ensures IsSubsequence(FilterTipo(ms, f), ms)
  {
    if ms != [] {
      FilterIsSubsequence(ms[1..], f);
      if ms[0].tipoMovimiento != f {
        SubsequenceOfTail(FilterTipo(ms[1..], f), ms);
      }
    }
  }

  /** A subsequence of the tail is a subsequence of the whole. */
  lemma {:induction false} SubsequenceOfTail<T>(a: seq<T>, b: seq<T>)
    requires b != [] && IsSubsequence(a, b[1..])
    ensures IsSubsequence(a, b)
    decreases |b|, 0
  {
    if a != [] && a[0] == b[0] {
      SubsequenceDropHead(a, b[1..]);
    }
  }

  /** Dropping the first element of a non-empty subsequence keeps it a subsequence. */
  lemma {:induction false} SubsequenceDropHead<T>(a: seq<T>, b: seq<T>)
    requires a != [] && IsSubsequence(a, b)
    ensures IsSubsequence(a[1..], b)
    decreases |b|, 1
  {
    assert b != [];
    if a[0] == b[0] {
      if a[1..] != [] {
        SubsequenceOfTail(a[1..], b);
      }
    } else {
      SubsequenceDropHead(a, b[1..]);
      if a[1..] != [] {
        SubsequenceOfTail(a[1..], b);
      }
    }
  }

  /** Each movement occurs in the filtered list exactly as often as in the input when its type is `f`,
      and not at all otherwise. */
  lemma {:induction false} FilterMultiset(ms: seq<Movimiento>, f: string, m: Movimiento)
    ensures multiset(FilterTipo(ms, f))[m] == if m.tipoMovimiento == f then multiset(ms)[m] else 0
  {
    if ms != [] {
      FilterMultiset(ms[1..], f, m);
      assert ms == [ms[0]] + ms[1..];
    }
  }

  /** Any filter value other than "Todos" shows exactly the movements of that type, in order. */
  lemma VisibleOther(ms: seq<Movimiento>, f: string)
    requires f != Todos
    ensures IsSubsequence(VisibleMovimientos(ms, f), ms)
    ensures forall m :: multiset(VisibleMovimientos(ms, f))[m] == if m.tipoMovimiento == f then multiset(ms)[m] else 0
  {
    FilterIsSubsequence(ms, f);
    forall m ensures multiset(VisibleMovimientos(ms, f))[m] == if m.tipoMovimiento == f then multiset(ms)[m] else 0 {
      FilterMultiset(ms, f, m);
    }
  }

  // ---------------------------------------------------------------------------------------------
  // Badge table
  // ---------------------------------------------------------------------------------------------

  /** The six movement types offered by the filter buttons and the form. */
  const TiposMovimiento: seq<string> := ["Entrada", "Salida", "Carga", "Descarga", "Transferencia", "Inspección"]

  /** The style for each movement type. */
  const Colors: map<string, string> := map[
    "Entrada" := "bg-green-100 text-green-700",
    "Salida" := "bg-blue-100 text-blue-700",
    "Carga" := "bg-yellow-100 text-yellow-700",
    "Descarga" := "bg-orange-100 text-orange-700",
    "Transferencia" := "bg-purple-100 text-purple-700",
    "Inspección" := "bg-red-100 text-red-700"]

  /** The neutral style for any other type. */
  const Gray: string := "bg-gray-100 text-gray-700"

  /** The badge style of a movement type, looking only at the table's own keys. */
  function TipoMovimientoBadge(tipo: string): (cls: string)
    ensures tipo in TiposMovimiento ==> cls == Colors[tipo]
    ensures cls == Gray <==> tipo !in TiposMovimiento
  {
    if tipo in Colors then Colors[tipo] else Gray
  }

  /** Each of the six types has its own listed style. */
  lemma BadgeTable()
    ensures TipoMovimientoBadge("Entrada") == "bg-green-100 text-green-700"
    ensures TipoMovimientoBadge("Salida") == "bg-blue-100 text-blue-700"
    ensures TipoMovimientoBadge("Carga") == "bg-yellow-100 text-yellow-700"
    ensures TipoMovimientoBadge("Descarga") == "bg-orange-100 text-orange-700"
    ensures TipoMovimientoBadge("Transferencia") == "bg-purple-100 text-purple-700"
    ensures TipoMovimientoBadge("Inspección") == "bg-red-100 text-red-700"
    ensures TipoMovimientoBadge("") == Gray
  {
  }

  /** What a property read `colors[tipo]` on an object literal yields: one of its own entries, a member
      inherited from `Object.prototype` (a function or an object, never a class string), or `undefined`. */
  datatype PropertyRead = OwnEntry(cls: string) | InheritedMember(name: string) | Undefined

  /** The names every object literal inherits from `Object.prototype`. */
  const ObjectPrototypeMembers: set<string> := {
    "constructor", "hasOwnProperty", "isPrototypeOf", "propertyIsEnumerable", "toLocaleString",
    "toString", "valueOf", "__proto__", "__defineGetter__", "__defineSetter__",
    "__lookupGetter__", "__lookupSetter__"}

  /** `colors[tipo]` as the view evaluates it. */
  function ColorsLookup(tipo: string): (r: PropertyRead)
    ensures r.OwnEntry? <==> tipo in TiposMovimiento
    ensures r.OwnEntry? ==> r.cls == Colors[tipo]
    ensures r.InheritedMember? <==> tipo in ObjectPrototypeMembers
    ensures r.InheritedMember? ==> r.name == tipo
  {
    if tipo in Colors then OwnEntry(Colors[tipo])
    else if tipo in ObjectPrototypeMembers then InheritedMember(tipo)
    else Undefined
  }

  /** `colors[tipo] || "bg-gray-100 text-gray-700"` as written: an inherited member is truthy, so it is returned. */
  function BadgeAsWritten(tipo: string): (r: PropertyRead)
    ensures !r.Undefined?
    ensures ColorsLookup(tipo).Undefined? ==> r == OwnEntry(Gray)
    ensures !ColorsLookup(tipo).Undefined? ==> r == ColorsLookup(tipo)
  {
    match ColorsLookup(tipo)
    case Undefined => OwnEntry(Gray)
    case other => other
  }

  /** As written, a type named like an inherited member, such as "toString", yields that member and not the
      grey fallback; for every other type the written lookup agrees with the own-key badge. */
  lemma BadgeAsWrittenInherits(tipo: string)
    ensures tipo in ObjectPrototypeMembers ==> BadgeAsWritten(tipo) == InheritedMember(tipo)
    ensures tipo !in ObjectPrototypeMembers ==> BadgeAsWritten(tipo) == OwnEntry(TipoMovimientoBadge(tipo))
    ensures BadgeAsWritten("toString") != OwnEntry(Gray)
  {
  }
}
