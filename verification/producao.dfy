/**
 * The production screen (`ProducaoModule`): the production orders with
 * their product names, the actions offered for each order's status, the
 * start, pause and conclude handlers that write the status through the
 * store's `updateItem`, the progress bar and the summary figures.
 */
module Producao {
  import opened Js
  import opened DataContext

  const Ordens: string := "ordensProducao"

  const Planejada: string := "planejada"
  const EmAndamento: string := "em-andamento"
  const Pausada: string := "pausada"
  const Concluida: string := "concluida"

  const ProdutoDesconhecido: string := "Produto não encontrado"
  const CodigoDesconhecido: string := "-"

  // ------------------------------------------------------------------ status machine

  /** The buttons of an order's row. */
  datatype Action = Iniciar | Pausar | Concluir

  /** The actions offered: start for a planned order, pause and conclude for one in progress, none otherwise. */
  function Actions(status: Value): (a: set<Action>)
    ensures Iniciar in a <==> status == Str(Planejada)
    ensures Pausar in a <==> status == Str(EmAndamento)
    ensures Concluir in a <==> status == Str(EmAndamento)
  {
    if status == Str(Planejada) then {Iniciar}
    else if status == Str(EmAndamento) then {Pausar, Concluir}
    else {}
  }

  /** The status an action writes. */
  function Target(a: Action): string {
    match a
    case Iniciar => EmAndamento
    case Pausar => Pausada
    case Concluir => Concluida
  }

  /** A sequence of button presses, each offered by the status the previous one left. */
  predicate OfferedRun(status: Value, run: seq<Action>)
    decreases |run|
  {
    run == [] || (run[0] in Actions(status) && OfferedRun(Str(Target(run[0])), run[1..]))
  }

  /**
   * The buttons never cycle: at most two presses are possible on one order,
   * and two only as start then pause or conclude; a paused or concluded
   * order offers nothing more.
   */
  lemma {:induction false} OfferedRunsAreShort(status: Value, run: seq<Action>)
    requires OfferedRun(status, run)
    ensures |run| <= 2
    ensures |run| == 2 ==> status == Str(Planejada) && run[0] == Iniciar
    ensures run != [] ==> Target(run[|run| - 1]) in {EmAndamento, Pausada, Concluida}
  {
    if run != [] {
      var next := Str(Target(run[0]));
      if run[1..] != [] {
        var rest := run[1..];
        assert OfferedRun(next, rest);
        assert run[0] == Iniciar && rest[0] in Actions(next);
        var last := Str(Target(rest[0]));
        assert Actions(last) == {};
        assert OfferedRun(last, rest[1..]);
        assert rest[1..] == [];
      }
    }
  }

  // ------------------------------------------------------------------ handlers

  /** The fields the start handler writes. */
  function StartUpdate(): Record {
    map["status" := Str(EmAndamento)]
  }

  /** The fields the pause handler writes. */
  function PauseUpdate(): Record {
    map["status" := Str(Pausada)]
  }

  /** The fields the conclude handler writes: the status and today's date. */
  function ConcludeUpdate(today: int): Record {
    map["status" := Str(Concluida), "dataConclusao" := Day(today)]
  }

  /**
   * The status an update leaves on the orders: every order with the id has
   * the new status, every other order is as it was, and no other field of
   * the orders changes except the conclusion date the update carries.
   */
  lemma UpdateSetsStatus(ordens: seq<Record>, id: Value, updates: Record, status: string)
    requires updates == StartUpdate() || updates == PauseUpdate() || exists d :: updates == ConcludeUpdate(d)
    requires updates["status"] == Str(status)
    ensures var after := MergeById(ordens, id, updates);
      |after| == |ordens|
      && (forall i :: 0 <= i < |ordens| && HasId(ordens[i], id) ==>
            Get(after[i], "status") == Str(status)
            && forall k :: k in ordens[i] && k != "status" && k != "dataConclusao" ==> Get(after[i], k) == Get(ordens[i], k))
      && (forall i :: 0 <= i < |ordens| && !HasId(ordens[i], id) ==> after[i] == ordens[i])
  {
    var after := MergeById(ordens, id, updates);
    forall i | 0 <= i < |ordens| && HasId(ordens[i], id)
      ensures Get(after[i], "status") == Str(status)
      ensures forall k :: k in ordens[i] && k != "status" && k != "dataConclusao" ==> Get(after[i], k) == Get(ordens[i], k)
    {
      assert updates.Keys <= {"status", "dataConclusao"};
    }
  }

  /** `handleIniciarOP`: the order is put in progress. */
  method IniciarOP(s: Store, id: Value)
    modifies s
    ensures s.data == old(s.data)[Ordens := MergeById(Collection(old(s.data), Ordens), id, StartUpdate())]
    ensures s.view == old(s.view)
  {
    s.UpdateItem(Ordens, id, StartUpdate());
  }

  /** `handlePausarOP`: the order is paused. */
  method PausarOP(s: Store, id: Value)
    modifies s
    ensures s.data == old(s.data)[Ordens := MergeById(Collection(old(s.data), Ordens), id, PauseUpdate())]
    ensures s.view == old(s.view)
  {
    s.UpdateItem(Ordens, id, PauseUpdate());
  }

  /** `handleConcluirOP`: the order is concluded, dated `today`. */
  method ConcluirOP(s: Store, id: Value, today: int)
    modifies s
    ensures s.data == old(s.data)[Ordens := MergeById(Collection(old(s.data), Ordens), id, ConcludeUpdate(today))]
    ensures s.view == old(s.view)
  {
    s.UpdateItem(Ordens, id, ConcludeUpdate(today));
  }

  // ------------------------------------------------------------------ rows

  /** The product of an order: `produtos.find(p => p.id === op.produtoId)`. */
  function ProdutoOf(produtos: seq<Record>, op: Record): Option<Record> {
    FindById(produtos, Get(op, "produtoId"))
  }

  /** The product name shown for an order, `'Produto não encontrado'` when there is none. */
  function ProdutoNome(produtos: seq<Record>, op: Record): (v: Value)
    ensures ProdutoOf(produtos, op).None? ==> v == Str(ProdutoDesconhecido)
    ensures ProdutoOf(produtos, op).Some? && Truthy(Get(ProdutoOf(produtos, op).value, "descricao")) ==>
      v == Get(ProdutoOf(produtos, op).value, "descricao")
    ensures Truthy(v)
  {
    var p := ProdutoOf(produtos, op);
    if p.Some? then Or(Get(p.value, "descricao"), Str(ProdutoDesconhecido)) else Str(ProdutoDesconhecido)
  }

  /** The product code shown for an order, `'-'` when there is none. */
  function ProdutoCodigo(produtos: seq<Record>, op: Record): (v: Value)
    ensures ProdutoOf(produtos, op).None? ==> v == Str(CodigoDesconhecido)
    ensures ProdutoOf(produtos, op).Some? && Truthy(Get(ProdutoOf(produtos, op).value, "codigo")) ==>
      v == Get(ProdutoOf(produtos, op).value, "codigo")
    ensures Truthy(v)
  {
    var p := ProdutoOf(produtos, op);
    if p.Some? then Or(Get(p.value, "codigo"), Str(CodigoDesconhecido)) else Str(CodigoDesconhecido)
  }

  /** `ordensComProdutos`: every order with its product name and code. */
  function OrdensComProdutos(produtos: seq<Record>, ordens: seq<Record>): (rows: seq<Record>)
    ensures |rows| == |ordens|
    ensures forall i :: 0 <= i < |rows| ==>
      rows[i].Keys == ordens[i].Keys + {"produto", "codigoProduto"}
      && rows[i]["produto"] == ProdutoNome(produtos, ordens[i])
      && rows[i]["codigoProduto"] == ProdutoCodigo(produtos, ordens[i])
      && forall k :: k in ordens[i] && k != "produto" && k != "codigoProduto" ==> rows[i][k] == ordens[i][k]
  {
    seq(|ordens|, i requires 0 <= i < |ordens| =>
      ordens[i]["produto" := ProdutoNome(produtos, ordens[i])]["codigoProduto" := ProdutoCodigo(produtos, ordens[i])])
  }

  /** The progress of an order in percent, produced over ordered. */
  function Progress(produzida: real, quantidade: real): (p: real)
    requires quantidade != 0.0
    ensures 0.0 <= produzida <= quantidade ==> 0.0 <= p <= 100.0
    ensures quantidade > 0.0 && produzida > quantidade ==> p > 100.0
  {
    var ratio := produzida / quantidade;
    assert 0.0 <= produzida <= quantidade ==> 0.0 <= ratio <= 1.0;
    assert quantidade > 0.0 && produzida > quantidade ==> ratio > 1.0;
    ratio * 100.0
  }

  /** The width of the progress bar, `Math.min(progresso, 100)` percent. */
  function BarWidth(progress: real): (w: real)
    ensures w <= 100.0
    ensures w == progress || w == 100.0
    ensures progress <= 100.0 ==> w == progress
  {
    if progress < 100.0 then progress else 100.0
  }

  // ------------------------------------------------------------------ statistics

  /** An order in progress whose forecast date began before `now` (both in days since the epoch). */
  predicate Late(op: Record, now: real) {
    Get(op, "status") == Str(EmAndamento)
    && Get(op, "dataPrevisao").Day? && (Get(op, "dataPrevisao").day as real) < now
  }

  /** `ordens.filter(op => op.status === 'em-andamento' && new Date(op.dataPrevisao) < new Date()).length`. */
  function CountLate(ordens: seq<Record>, now: real): nat {
    if ordens == [] then 0 else (if Late(ordens[0], now) then 1 else 0) + CountLate(ordens[1..], now)
  }

  /** Only orders in progress can be late. */
  lemma {:induction false} LateAreRunning(ordens: seq<Record>, now: real)
    ensures CountLate(ordens, now) <= CountStatus(ordens, EmAndamento)
  {
    if ordens != [] {
      LateAreRunning(ordens[1..], now);
    }
  }

  datatype Stats = Stats(total: nat, emAndamento: nat, concluidas: nat, atrasadas: nat)

  /** The summary figures: late orders are among those in progress, which are among all orders. */
  function ProducaoStats(d: Data, now: real): (s: Stats)
    ensures s.total == |Collection(d, Ordens)|
    ensures s.emAndamento == CountStatus(Collection(d, Ordens), EmAndamento)
    ensures s.concluidas == CountStatus(Collection(d, Ordens), Concluida)
    ensures s.atrasadas == CountLate(Collection(d, Ordens), now)
    ensures s.atrasadas <= s.emAndamento <= s.total
  {
    var ordens := Collection(d, Ordens);
    LateAreRunning(ordens, now);
    Stats(|ordens|, CountStatus(ordens, EmAndamento), CountStatus(ordens, Concluida), CountLate(ordens, now))
  }
}
