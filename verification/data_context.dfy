/**
 * The shared data store of the ERP front-end (`DataContext`): one object
 * holding every collection of records, and the operations every module
 * uses on it.
 *
 * React state is kept in two parts. `data` is the latest state, which a
 * functional update `setData(prev => ...)` receives as `prev`; `view` is
 * the state of the render in which the running handler was created, which
 * is what a handler reads when it says `data`. The two agree again only
 * after a re-render (`Render`).
 */
module DataContext {
  import opened Js
  import opened Text
  import opened Installments

  /** The store: collection name to records. A collection may be absent. */
  type Data = map<string, seq<Record>>

  /** `data[category] || []`. */
  function Collection(d: Data, c: string): seq<Record> {
    if c in d then d[c] else []
  }

  /** `item.id === id`. */
  predicate HasId(r: Record, id: Value) {
    StrictEq(Get(r, "id"), id)
  }

  // ------------------------------------------------------------------ ids

  /** The id of a record as `Math.max` reads it. */
  function IdNumber(r: Record): Value {
    ToNumber(Get(r, "id"))
  }

  /** `Math.max(a, b)` on two numbers. */
  function Max2(a: Value, b: Value): Value
    requires IsNumber(a) && IsNumber(b)
  {
    if a.NaN? || b.NaN? then NaN
    else if a.NegInf? then b
    else if b.NegInf? then a
    else Num(if a.n >= b.n then a.n else b.n)
  }

  /** `Math.max(...ids)`: `NaN` if any id is not a number, `-Infinity` for no ids. */
  function MaxId(coll: seq<Record>): (m: Value)
    ensures IsNumber(m)
    ensures m.NaN? <==> exists i :: 0 <= i < |coll| && IdNumber(coll[i]).NaN?
    ensures m.NegInf? <==> forall i :: 0 <= i < |coll| ==> IdNumber(coll[i]).NegInf?
    ensures m.Num? ==>
      (forall i :: 0 <= i < |coll| ==> IdNumber(coll[i]).NegInf? || IdNumber(coll[i]).n <= m.n)
      && exists i :: 0 <= i < |coll| && IdNumber(coll[i]) == m
  {
    if coll == [] then NegInf
    else
      var init := coll[..|coll| - 1];
      assert forall i :: 0 <= i < |init| ==> init[i] == coll[i];
      Max2(MaxId(init), IdNumber(coll[|coll| - 1]))
  }

  /** `x + 1` on a number. */
  function Inc(x: Value): Value
    requires IsNumber(x)
  {
    if x.Num? then Num(x.n + 1.0) else x
  }

  /** Every record of the collection has a finite numeric id. */
  predicate NumericIds(coll: seq<Record>) {
    forall i :: 0 <= i < |coll| ==> Get(coll[i], "id").Num?
  }

  /**
   * The id `addItem` gives a new record of collection `c`, computed from the
   * render's state: `Math.max(...(data[c]?.map(i => i.id) || [0])) + 1`.
   */
  function NextId(view: Data, c: string): (id: Value)
    ensures c !in view ==> id == Num(1.0)
    ensures c in view && view[c] == [] ==> id == NegInf
    ensures c in view && view[c] != [] && NumericIds(view[c]) ==>
      id.Num?
      && (forall i :: 0 <= i < |view[c]| ==> Get(view[c][i], "id").n < id.n)
      && exists i :: 0 <= i < |view[c]| && id.n == Get(view[c][i], "id").n + 1.0
    ensures c in view && (exists i :: 0 <= i < |view[c]| && IdNumber(view[c][i]).NaN?) ==> id == NaN
  {
    if c in view then Inc(MaxId(view[c])) else Num(1.0)
  }

  /**
   * As written, a collection that is present but empty (every record
   * deleted) gets `-Infinity` as its next id, and so does every record
   * added after it: two records added one after the other share their id.
   */
  lemma EmptiedCollectionRepeatsId(d: Data, c: string, x: Record, y: Record)
    requires c in d && d[c] == []
    ensures var a := x["id" := NextId(d, c)];
      var b := y["id" := NextId(Appended(d, c, [a]), c)];
      Get(a, "id") == NegInf && Get(b, "id") == NegInf && HasId(b, Get(a, "id"))
  {
    var a := x["id" := NextId(d, c)];
    var d1 := Appended(d, c, [a]);
    assert d1[c] == [a];
    assert MaxId([a]) == Max2(MaxId([]), IdNumber(a));
  }

  /**
   * The next id as intended: `Math.max(0, ...ids) + 1`, so an absent or
   * empty collection starts at 1 and a new id is above every id present.
   */
  function NextIdFixed(d: Data, c: string): (id: Value)
    ensures NumericIds(Collection(d, c)) ==>
      id.Num? && id.n >= 1.0
      && forall i :: 0 <= i < |Collection(d, c)| ==> Get(Collection(d, c)[i], "id").n < id.n
  {
    Inc(Max2(Num(0.0), MaxId(Collection(d, c))))
  }

  /**
   * With the intended generator reading the latest state, each record added
   * gets a larger id than the one before, so ids never repeat however many
   * records one handler adds.
   */
  lemma FixedIdsIncrease(d: Data, c: string, x: Record)
    requires NumericIds(Collection(d, c))
    ensures var a := x["id" := NextIdFixed(d, c)];
      var d1 := Appended(d, c, [a]);
      NumericIds(Collection(d1, c)) && NextIdFixed(d1, c).n > NextIdFixed(d, c).n
  {
    var a := x["id" := NextIdFixed(d, c)];
    var d1 := Appended(d, c, [a]);
    CollectionAppended(d, c, [a], c);
    var coll := Collection(d1, c);
    assert coll[|coll| - 1] == a;
    assert forall i :: 0 <= i < |coll| - 1 ==> coll[i] == Collection(d, c)[i];
  }

  // ------------------------------------------------------------------ records

  /**
   * `prev[c]?.map(item => item.id === id ? {...item, ...updates} : item)`:
   * a shallow merge into every record with that id. Keys are taken
   * literally: `"aprovacao.status"` is a new top-level key, not a path.
   */
  function MergeById(coll: seq<Record>, id: Value, updates: Record): (r: seq<Record>)
    ensures |r| == |coll|
    ensures forall i :: 0 <= i < |coll| && !HasId(coll[i], id) ==> r[i] == coll[i]
    ensures forall i :: 0 <= i < |coll| && HasId(coll[i], id) ==>
      r[i].Keys == coll[i].Keys + updates.Keys
      && (forall k :: k in updates ==> r[i][k] == updates[k])
      && (forall k :: k in coll[i] && k !in updates ==> r[i][k] == coll[i][k])
  {
    seq(|coll|, i requires 0 <= i < |coll| => if HasId(coll[i], id) then coll[i] + updates else coll[i])
  }

  /** `prev[c]?.filter(item => item.id !== id)`. */
  function RemoveById(coll: seq<Record>, id: Value): (r: seq<Record>)
    ensures |r| <= |coll|
  {
    if coll == [] then []
    else (if HasId(coll[0], id) then [] else [coll[0]]) + RemoveById(coll[1..], id)
  }

  /** A record survives the removal exactly when it was there and does not carry the id. */
  lemma {:induction false} RemoveByIdMembers(coll: seq<Record>, id: Value)
    ensures forall x :: x in RemoveById(coll, id) <==> x in coll && !HasId(x, id)
  {
    if coll != [] {
      RemoveByIdMembers(coll[1..], id);
      assert forall x :: x in coll <==> x == coll[0] || x in coll[1..];
    }
  }

  /** Removing keeps the survivors in their order: it distributes over concatenation. */
  lemma {:induction false} RemoveByIdAppend(a: seq<Record>, b: seq<Record>, id: Value)
    ensures RemoveById(a + b, id) == RemoveById(a, id) + RemoveById(b, id)
  {
    if a == [] {
      assert a + b == b;
    } else {
      var head := if HasId(a[0], id) then [] else [a[0]];
      assert (a + b)[0] == a[0];
      assert (a + b)[1..] == a[1..] + b;
      assert RemoveById(a + b, id) == head + RemoveById(a[1..] + b, id);
      RemoveByIdAppend(a[1..], b, id);
      assert RemoveById(a, id) == head + RemoveById(a[1..], id);
      assert RemoveById(a + b, id) == head + (RemoveById(a[1..], id) + RemoveById(b, id));
      SeqAssoc(head, RemoveById(a[1..], id), RemoveById(b, id));
    }
  }

  lemma SeqAssoc<T>(x: seq<T>, y: seq<T>, z: seq<T>)
    ensures x + (y + z) == (x + y) + z
  {
  }

  /** Removing by an id nobody has changes nothing. */
  lemma {:induction false} RemoveByIdAbsent(coll: seq<Record>, id: Value)
    requires forall i :: 0 <= i < |coll| ==> !HasId(coll[i], id)
    ensures RemoveById(coll, id) == coll
  {
    if coll != [] {
      RemoveByIdAbsent(coll[1..], id);
      assert [coll[0]] + coll[1..] == coll;
    }
  }

  /** The position of the first record with the id, or `|coll|`. */
  function FirstMatch(coll: seq<Record>, id: Value): (k: nat)
    ensures k <= |coll|
    ensures k < |coll| ==> HasId(coll[k], id)
    ensures forall j :: 0 <= j < k ==> !HasId(coll[j], id)
  {
    if coll == [] then 0
    else if HasId(coll[0], id) then 0
    else 1 + FirstMatch(coll[1..], id)
  }

  /** `coll.find(item => item.id === id)`. */
  function FindById(coll: seq<Record>, id: Value): Option<Record> {
    var k := FirstMatch(coll, id);
    if k < |coll| then Some(coll[k]) else None
  }

  /** `coll.filter(r => r.status === status).length`. */
  function CountStatus(coll: seq<Record>, status: string): (n: nat)
    ensures n <= |coll|
  {
    if coll == [] then 0
    else (if Get(coll[0], "status") == Str(status) then 1 else 0) + CountStatus(coll[1..], status)
  }

  // ------------------------------------------------------------------ numbers

  /** `item.numero.includes(...)` needs `numero` to be text whenever it is set. */
  predicate NumerosReadable(coll: seq<Record>) {
    forall i :: 0 <= i < |coll| ==> (Truthy(Get(coll[i], "numero")) ==> Get(coll[i], "numero").Str?)
  }

  /** `item.numero && item.numero.includes(year)`. */
  predicate NumberedIn(r: Record, year: string)
    requires Truthy(Get(r, "numero")) ==> Get(r, "numero").Str?
  {
    Truthy(Get(r, "numero")) && Contains(Get(r, "numero").s, year)
  }

  /** How many records carry a number mentioning the year. */
  function CountNumbered(coll: seq<Record>, year: string): (n: nat)
    requires NumerosReadable(coll)
    ensures n <= |coll|
  {
    if coll == [] then 0
    else CountNumbered(coll[..|coll| - 1], year) + (if NumberedIn(coll[|coll| - 1], year) then 1 else 0)
  }

  /** The fixed part of a document number: `PREFIX-YEAR-`. */
  function NumberHead(prefix: string, year: nat): string {
    prefix + "-" + Dec(year) + "-"
  }

  /**
   * `generateNumber(prefix, c)` in year `year`: the head, then one more than
   * the count of numbers of that year, padded to three digits.
   */
  function GenerateNumber(d: Data, prefix: string, c: string, year: nat): (numero: string)
    requires NumerosReadable(Collection(d, c))
    ensures NumberHead(prefix, year) <= numero
    ensures var tail := numero[|NumberHead(prefix, year)|..];
      AllDigits(tail)
      && |tail| == (var n := |Dec(CountNumbered(Collection(d, c), Dec(year)) + 1)|; if n >= 3 then n else 3)
      && DigitsValue(tail) == CountNumbered(Collection(d, c), Dec(year)) + 1
  {
    var count := CountNumbered(Collection(d, c), Dec(year)) + 1;
    PadStart3Value(count);
    NumberHead(prefix, year) + PadStart3(Dec(count))
  }

  lemma {:induction false} ContainsInside(a: string, t: string, b: string)
    ensures Contains(a + t + b, t)
  {
    if a == [] {
      assert a + t + b == t + b;
    } else {
      assert (a + t + b)[1..] == a[1..] + t + b;
      ContainsInside(a[1..], t, b);
    }
  }

  /** A generated number mentions its year. */
  lemma NumberMentionsYear(d: Data, prefix: string, c: string, year: nat)
    requires NumerosReadable(Collection(d, c))
    ensures Contains(GenerateNumber(d, prefix, c, year), Dec(year))
  {
    var numero := GenerateNumber(d, prefix, c, year);
    var tail := PadStart3(Dec(CountNumbered(Collection(d, c), Dec(year)) + 1));
    var a := prefix + "-";
    assert numero == ((a + Dec(year)) + "-") + tail;
    SeqAssoc(a + Dec(year), "-", tail);
    ContainsInside(a, Dec(year), "-" + tail);
  }

  /** Appending a record numbered in the year adds one to the count. */
  lemma CountNumberedAppend(coll: seq<Record>, r: Record, year: string)
    requires NumerosReadable(coll)
    requires Get(r, "numero").Str? && Contains(Get(r, "numero").s, year) && Get(r, "numero").s != ""
    ensures NumerosReadable(coll + [r])
    ensures CountNumbered(coll + [r], year) == CountNumbered(coll, year) + 1
  {
    var all := coll + [r];
    assert forall i :: 0 <= i < |coll| ==> all[i] == coll[i];
    assert all[..|all| - 1] == coll;
  }

  /**
   * A number handed out for the year mentions the year, so the record that
   * carries it is counted by the next number of that collection.
   */
  lemma NumberCountedNext(d: Data, prefix: string, c: string, year: nat, r: Record)
    requires NumerosReadable(Collection(d, c))
    requires Get(r, "numero") == Str(GenerateNumber(d, prefix, c, year))
    ensures NumerosReadable(Collection(d, c) + [r])
    ensures CountNumbered(Collection(d, c) + [r], Dec(year))
         == CountNumbered(Collection(d, c), Dec(year)) + 1
  {
    NumberMentionsYear(d, prefix, c, year);
    CountNumberedAppend(Collection(d, c), r, Dec(year));
  }

  // ------------------------------------------------------------------ bill of materials

  /** `component.materiaPrimaId` needs an object; a found material needs numeric cost and quantity. */
  predicate Priced(produtos: seq<Record>, component: Value) {
    component.Obj?
    && match FindById(produtos, Prop(component, "materiaPrimaId"))
       case None => true
       case Some(m) => Get(m, "custo").Num? && Prop(component, "quantidade").Num?
  }

  /** What one component adds: `materiaPrima.custo * component.quantidade`, or nothing when not found. */
  function ComponentCost(produtos: seq<Record>, component: Value): real
    requires Priced(produtos, component)
  {
    match FindById(produtos, Prop(component, "materiaPrimaId"))
    case None => 0.0
    case Some(m) => Get(m, "custo").n * Prop(component, "quantidade").n
  }

  predicate AllPriced(produtos: seq<Record>, bom: seq<Value>) {
    forall i :: 0 <= i < |bom| ==> Priced(produtos, bom[i])
  }

  /** `bom.reduce((total, component) => ..., 0)`. */
  function BomTotal(produtos: seq<Record>, bom: seq<Value>): real
    requires AllPriced(produtos, bom)
  {
    if bom == [] then 0.0
    else BomTotal(produtos, bom[..|bom| - 1]) + ComponentCost(produtos, bom[|bom| - 1])
  }

  /** `calculateBOMCost(bom, produtos)`: nothing but an array has a cost. */
  function CalculateBomCost(bom: Value, produtos: seq<Record>): (cost: real)
    requires bom.Arr? ==> AllPriced(produtos, bom.elems)
    ensures !bom.Arr? ==> cost == 0.0
    ensures bom.Arr? && bom.elems == [] ==> cost == 0.0
  {
    if !Truthy(bom) || !bom.Arr? then 0.0 else BomTotal(produtos, bom.elems)
  }

  /** The cost of a bill of materials is the sum of the costs of its parts. */
  lemma {:induction false} BomTotalAppend(produtos: seq<Record>, a: seq<Value>, b: seq<Value>)
    requires AllPriced(produtos, a) && AllPriced(produtos, b)
    ensures AllPriced(produtos, a + b)
    ensures BomTotal(produtos, a + b) == BomTotal(produtos, a) + BomTotal(produtos, b)
    decreases |b|
  {
    if b == [] {
      assert a + b == a;
    } else {
      var b' := b[..|b| - 1];
      assert (a + b)[..|a + b| - 1] == a + b';
      BomTotalAppend(produtos, a, b');
    }
  }

  /** A component whose material is not in the catalogue adds nothing, wherever it stands. */
  lemma UnknownMaterialCostsNothing(produtos: seq<Record>, a: seq<Value>, component: Value, b: seq<Value>)
    requires AllPriced(produtos, a) && AllPriced(produtos, b)
    requires component.Obj? && FindById(produtos, Prop(component, "materiaPrimaId")).None?
    ensures AllPriced(produtos, a + [component] + b)
    ensures BomTotal(produtos, a + [component] + b) == BomTotal(produtos, a + b)
  {
    assert Priced(produtos, component);
    assert BomTotal(produtos, [component]) == 0.0 by {
      assert [component][..0] == [];
    }
    BomTotalAppend(produtos, a, [component]);
    BomTotalAppend(produtos, a + [component], b);
    BomTotalAppend(produtos, a, b);
  }

  /** With non-negative costs and quantities the cost is never negative. */
  lemma {:induction false} BomTotalNonNegative(produtos: seq<Record>, bom: seq<Value>)
    requires AllPriced(produtos, bom)
    requires forall i :: 0 <= i < |produtos| ==> Get(produtos[i], "custo").Num? ==> Get(produtos[i], "custo").n >= 0.0
    requires forall i :: 0 <= i < |bom| ==> Prop(bom[i], "quantidade").Num? ==> Prop(bom[i], "quantidade").n >= 0.0
    ensures BomTotal(produtos, bom) >= 0.0
  {
    if bom != [] {
      var init := bom[..|bom| - 1];
      assert forall i :: 0 <= i < |init| ==> init[i] == bom[i];
      BomTotalNonNegative(produtos, init);
      var last := bom[|bom| - 1];
      match FindById(produtos, Prop(last, "materiaPrimaId"))
      case None =>
      case Some(m) =>
        var k := FirstMatch(produtos, Prop(last, "materiaPrimaId"));
        assert m == produtos[k];
        var x := Get(m, "custo").n;
        var y := Prop(last, "quantidade").n;
        assert x >= 0.0 && y >= 0.0;
        assert x * y >= 0.0;
    }
  }

  // ------------------------------------------------------------------ payable titles

  /** What `createTitulosPagar` reads of an order: text number, numeric total, issue day. */
  predicate OrderHead(pedido: Record) {
    Get(pedido, "numero").Str? && Get(pedido, "valorTotal").Num? && Get(pedido, "dataEmissao").Day?
  }

  /** The planned titles for an order and its supplier. */
  function OrderPlan(pedido: Record, fornecedor: Record): seq<Planned>
    requires OrderHead(pedido) && TermsReadable(Get(fornecedor, "termosPagamento"))
  {
    Plan(Get(pedido, "valorTotal").n, Get(pedido, "dataEmissao").day,
         TermsOf(Get(fornecedor, "termosPagamento")))
  }

  /** The payable title built for one planned instalment, before `addItem` gives it an id. */
  function TitleRecord(pedido: Record, fornecedor: Record, p: Planned): Record
    requires Get(pedido, "numero").Str?
  {
    map[
      "descricao" := Str("Compra de Materiais - " + Get(pedido, "numero").s),
      "origem" := Str("Pedido de Compra"),
      "pedidoId" := Get(pedido, "id"),
      "fornecedorId" := Get(fornecedor, "id"),
      "fornecedor" := Get(fornecedor, "nome"),
      "valor" := Num(p.valor),
      "dataVencimento" := Day(p.due),
      "dataEmissao" := Get(pedido, "dataEmissao"),
      "status" := Str("pendente"),
      "parcela" := Str(p.parcela),
      "observacoes" := Str(p.observacoes)
    ]
  }

  // ------------------------------------------------------------------ the store

  /** The store after appending `items` to collection `c` (nothing at all for no items). */
  function Appended(d: Data, c: string, items: seq<Record>): Data {
    if items == [] then d else d[c := Collection(d, c) + items]
  }

  /** Reading a collection after an append. */
  lemma CollectionAppended(d: Data, c: string, items: seq<Record>, other: string)
    ensures Collection(Appended(d, c, items), c) == Collection(d, c) + items
    ensures other != c ==> Collection(Appended(d, c, items), other) == Collection(d, other)
  {
    if items == [] {
      assert Collection(d, c) + items == Collection(d, c);
    }
  }

  lemma AppendedStep(d: Data, c: string, items: seq<Record>, x: Record)
    ensures Appended(Appended(d, c, items), c, [x]) == Appended(d, c, items + [x])
  {
    if items == [] {
      assert items + [x] == [x];
    } else {
      SeqAssoc(Collection(d, c), items, [x]);
    }
  }

  class Store {
    /** The latest state: what a functional update receives as `prev`. */
    var data: Data
    /** The state of the render the running handler belongs to. */
    var view: Data

    constructor(initial: Data)
      ensures data == initial && view == initial
    {
      data := initial;
      view := initial;
    }

    /** A re-render: handlers created from now on see the latest state. */
    method Render()
      modifies this
      ensures data == old(data) && view == data
    {
      view := data;
    }

    /**
     * `addItem(c, item)`: the new record is `item` with the next id of the
     * render's state; it is appended to the latest state and returned.
     */
    method AddItem(c: string, item: Record) returns (newItem: Record)
      modifies this
      ensures newItem == item["id" := NextId(old(view), c)]
      ensures data == Appended(old(data), c, [newItem])
      ensures view == old(view)
    {
      newItem := item["id" := NextId(view, c)];
      data := data[c := Collection(data, c) + [newItem]];
    }

    /**
     * `addItem` as intended: the id is taken from the latest state, inside
     * the functional update, with `NextIdFixed`.
     */
    method AddItemLatest(c: string, item: Record) returns (newItem: Record)
      modifies this
      ensures newItem == item["id" := NextIdFixed(old(data), c)]
      ensures data == Appended(old(data), c, [newItem])
      ensures view == old(view)
    {
      newItem := item["id" := NextIdFixed(data, c)];
      data := data[c := Collection(data, c) + [newItem]];
    }

    /** `updateItem(c, id, updates)`: shallow-merges `updates` into the records with that id. */
    method UpdateItem(c: string, id: Value, updates: Record)
      modifies this
      ensures data == old(data)[c := MergeById(Collection(old(data), c), id, updates)]
      ensures view == old(view)
    {
      data := data[c := MergeById(Collection(data, c), id, updates)];
    }

    /** `deleteItem(c, id)`: drops every record with that id. */
    method DeleteItem(c: string, id: Value)
      modifies this
      ensures data == old(data)[c := RemoveById(Collection(old(data), c), id)]
      ensures view == old(view)
    {
      data := data[c := RemoveById(Collection(data, c), id)];
    }

    /** `getItem(c, id)`: the first record of the render's state with that id. */
    function GetItem(c: string, id: Value): (r: Option<Record>)
      reads this
      ensures r.None? <==> forall i :: 0 <= i < |Collection(view, c)| ==> !HasId(Collection(view, c)[i], id)
      ensures r.Some? ==> r.value in Collection(view, c) && HasId(r.value, id)
      ensures r.Some? ==> exists k ::
          0 <= k < |Collection(view, c)| && r.value == Collection(view, c)[k]
          && forall j :: 0 <= j < k ==> !HasId(Collection(view, c)[j], id)
    {
      FindById(Collection(view, c), id)
    }

    /**
     * `createTitulosPagar(pedido, fornecedor)`: appends the payable titles of
     * the order's plan, one `addItem` each, and returns them. When a piece of
     * the terms does not parse, building its due date throws: the titles
     * added before it stay and `completed` is false.
     */
    method CreateTitulosPagar(pedido: Record, fornecedor: Record) returns (titulos: seq<Record>, completed: bool)
      requires OrderHead(pedido) && TermsReadable(Get(fornecedor, "termosPagamento"))
      modifies this
      ensures completed <==> Complete(TermsOf(Get(fornecedor, "termosPagamento")))
      ensures titulos == StampedTitles(pedido, fornecedor, OrderPlan(pedido, fornecedor), NextId(old(view), "titulosPagar"))
      ensures data == Appended(old(data), "titulosPagar", titulos)
      ensures view == old(view)
    {
      var condicoes := TermsOf(Get(fornecedor, "termosPagamento"));
      var total := Get(pedido, "valorTotal").n;
      var issue := Get(pedido, "dataEmissao").day;
      if IsInstalments(condicoes) {
        titulos, completed := AddInstalments(pedido, fornecedor, total, issue, Parcelas(condicoes));
      } else {
        var dias := CashDays(condicoes);
        var planned := Planned(total, issue + dias, "1/1", condicoes);
        assert [planned] == OrderPlan(pedido, fornecedor);
        var added := AddItem("titulosPagar", TitleRecord(pedido, fornecedor, planned));
        titulos := [added];
        completed := true;
      }
    }

    /** The `parcelas.forEach(...)` loop: one title per parsed piece, until one does not parse. */
    method AddInstalments(pedido: Record, fornecedor: Record, total: real, issue: int, parcelas: seq<Option<int>>)
      returns (titulos: seq<Record>, completed: bool)
      requires Get(pedido, "numero").Str? && |parcelas| >= 1
      modifies this
      ensures completed <==> AllParsed(parcelas)
      ensures titulos == StampedTitles(pedido, fornecedor, Instalments(total, issue, parcelas), NextId(old(view), "titulosPagar"))
      ensures data == Appended(old(data), "titulosPagar", titulos)
      ensures view == old(view)
    {
      ghost var plan := Instalments(total, issue, parcelas);
      ghost var id := NextId(view, "titulosPagar");
      var n := |parcelas|;
      titulos := [];
      var index := 0;
      while index < n
        invariant 0 <= index <= n
        invariant forall j :: 0 <= j < index ==> parcelas[j].Some?
        invariant index <= |plan|
        invariant titulos == StampedTitles(pedido, fornecedor, plan[..index], id)
        invariant data == Appended(old(data), "titulosPagar", titulos)
        invariant view == old(view)
      {
        if parcelas[index].None? {
          // `new Date(...)` moved by a NaN day count: `toISOString` throws here
          completed := false;
          InstalmentsLength(total, issue, parcelas, index);
          assert plan[..index] == plan;
          return;
        }
        var dias := parcelas[index].value;
        var planned := InstalmentAt(total, issue, n, index, dias);
        InstalmentsAt(total, issue, parcelas, index);
        titulos := AddInstalment(pedido, fornecedor, plan, index, id, old(data), titulos, planned);
        index := index + 1;
      }
      completed := true;
      InstalmentsLength(total, issue, parcelas, index);
      assert plan[..index] == plan;
    }

    /** One turn of the loop: the title of the plan's piece `index` is added and stamped. */
    method AddInstalment(pedido: Record, fornecedor: Record, ghost plan: seq<Planned>, index: nat, ghost id: Value,
                         ghost base: Data, titulos: seq<Record>, planned: Planned)
      returns (next: seq<Record>)
      requires Get(pedido, "numero").Str? && index < |plan| && plan[index] == planned
      requires id == NextId(view, "titulosPagar")
      requires titulos == StampedTitles(pedido, fornecedor, plan[..index], id)
      requires data == Appended(base, "titulosPagar", titulos)
      modifies this
      ensures next == StampedTitles(pedido, fornecedor, plan[..index + 1], id)
      ensures data == Appended(base, "titulosPagar", next)
      ensures view == old(view)
    {
      var added := AddItem("titulosPagar", TitleRecord(pedido, fornecedor, planned));
      AppendedStep(base, "titulosPagar", titulos, added);
      StampedTitlesStep(pedido, fornecedor, plan, index, id);
      next := titulos + [added];
    }
  }

  /** The titles of a plan, each stamped with the id `addItem` gave it. */
  function StampedTitles(pedido: Record, fornecedor: Record, plan: seq<Planned>, id: Value): (ts: seq<Record>)
    requires Get(pedido, "numero").Str?
    ensures |ts| == |plan|
  {
    if plan == [] then []
    else StampedTitles(pedido, fornecedor, plan[..|plan| - 1], id)
         + [TitleRecord(pedido, fornecedor, plan[|plan| - 1])["id" := id]]
  }

  lemma StampedTitlesStep(pedido: Record, fornecedor: Record, plan: seq<Planned>, k: nat, id: Value)
    requires Get(pedido, "numero").Str? && k < |plan|
    ensures StampedTitles(pedido, fornecedor, plan[..k + 1], id)
         == StampedTitles(pedido, fornecedor, plan[..k], id) + [TitleRecord(pedido, fornecedor, plan[k])["id" := id]]
  {
    assert plan[..k + 1][..k] == plan[..k];
  }

  /** All the titles of one call share one id: each `addItem` reads the same render's state. */
  lemma {:induction false} StampedTitlesShareId(pedido: Record, fornecedor: Record, plan: seq<Planned>, id: Value)
    requires Get(pedido, "numero").Str?
    ensures forall k :: 0 <= k < |plan| ==> Get(StampedTitles(pedido, fornecedor, plan, id)[k], "id") == id
  {
    if plan != [] {
      StampedTitlesShareId(pedido, fornecedor, plan[..|plan| - 1], id);
    }
  }
}
