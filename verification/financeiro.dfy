/**
 * The finance screen (`FinanceiroModule`): the status badge of a title, the
 * summary figures, the cash-flow table (titles due in a period, grouped by
 * due date and sorted), its totals, and the new-entry form with the entry it
 * records as a payable or a receivable title.
 *
 * Dates are instants on one time line (milliseconds since the epoch, say);
 * the clock and the calendar enter only as parameters.
 */
module Financeiro {
  import opened Js
  import opened Text

  /** A payable or receivable title; `dataPagamento` is set on payables, `dataRecebimento` on receivables. */
  datatype Titulo = Titulo(
    id: int, descricao: string, origem: string, valor: real, dataVencimento: int,
    status: string, dataPagamento: Option<int>, dataRecebimento: Option<int>, observacoes: string)

  const Pendente: string := "pendente"
  const Pago: string := "pago"
  const Recebido: string := "recebido"
  const Pagar: string := "pagar"

  const Pending: string := "status-pending"
  const Approved: string := "status-approved"
  const Rejected: string := "status-rejected"

  // ------------------------------------------------------------------ badge

  /** The status table of the finance screen's `getStatusBadge`. */
  const StatusClasses: map<string, string> := map[
    Pago := Approved,
    Recebido := Approved,
    Pendente := Pending,
    "vencido" := Rejected]

  /** `statusMap[status] || 'status-pending'`. */
  function StatusBadge(status: string): (badge: string)
    ensures badge in {Pending, Approved, Rejected}
    ensures badge == Approved <==> status == Pago || status == Recebido
    ensures badge == Rejected <==> status == "vencido"
    ensures badge == Pending <==> status !in {Pago, Recebido, "vencido"}
  {
    if status in StatusClasses then StatusClasses[status] else Pending
  }

  // ------------------------------------------------------------------ sums

  /** `reduce((acc, t) => acc + t.valor, 0)`. */
  function Total(ts: seq<Titulo>): real {
    if ts == [] then 0.0 else Total(ts[..|ts| - 1]) + ts[|ts| - 1].valor
  }

  lemma {:induction false} TotalAppend(ts: seq<Titulo>, us: seq<Titulo>)
    ensures Total(ts + us) == Total(ts) + Total(us)
    decreases |us|
  {
    if us == [] {
      assert ts + us == ts;
    } else {
      assert (ts + us)[..|ts + us| - 1] == ts + us[..|us| - 1];
      TotalAppend(ts, us[..|us| - 1]);
    }
  }

  /** `ts.filter(t => t.status === status)`. */
  function WithStatus(ts: seq<Titulo>, status: string): (r: seq<Titulo>)
    ensures forall t :: t in r <==> t in ts && t.status == status
  {
    if ts == [] then []
    else
      var init := WithStatus(ts[..|ts| - 1], status);
      var last := ts[|ts| - 1];
      assert ts == ts[..|ts| - 1] + [last];
      if last.status == status then init + [last] else init
  }

  /**
   * `filterByMonth`: the settlement date, payment or else receipt, falls in
   * the current month, the instants `[monthStart, monthEnd)`; a title with
   * neither date is in no month.
   */
  predicate InMonth(t: Titulo, monthStart: int, monthEnd: int) {
    var settled := if t.dataPagamento.Some? then t.dataPagamento else t.dataRecebimento;
    settled.Some? && monthStart <= settled.value < monthEnd
  }

  /** `ts.filter(t => t.status === status && filterByMonth(t))`. */
  function SettledInMonth(ts: seq<Titulo>, status: string, monthStart: int, monthEnd: int): (r: seq<Titulo>)
    ensures forall t :: t in r <==> t in ts && t.status == status && InMonth(t, monthStart, monthEnd)
  {
    if ts == [] then []
    else
      var init := SettledInMonth(ts[..|ts| - 1], status, monthStart, monthEnd);
      var last := ts[|ts| - 1];
      assert ts == ts[..|ts| - 1] + [last];
      if last.status == status && InMonth(last, monthStart, monthEnd) then init + [last] else init
  }

  datatype Stats = Stats(totalPagarPendente: real, totalReceberPendente: real, totalPagoMes: real, totalRecebidoMes: real)

  /** The summary figures: pending payables and receivables, and what was paid and received this month. */
  function FinanceiroStats(pagar: seq<Titulo>, receber: seq<Titulo>, monthStart: int, monthEnd: int): (s: Stats)
    ensures s.totalPagarPendente == Total(WithStatus(pagar, Pendente))
    ensures s.totalReceberPendente == Total(WithStatus(receber, Pendente))
    ensures s.totalPagoMes == Total(SettledInMonth(pagar, Pago, monthStart, monthEnd))
    ensures s.totalRecebidoMes == Total(SettledInMonth(receber, Recebido, monthStart, monthEnd))
  {
    Stats(Total(WithStatus(pagar, Pendente)), Total(WithStatus(receber, Pendente)),
      Total(SettledInMonth(pagar, Pago, monthStart, monthEnd)),
      Total(SettledInMonth(receber, Recebido, monthStart, monthEnd)))
  }

  /** A new pending title adds exactly its value to the pending total and nothing to the month's settled total. */
  lemma PendingTitleAdds(ts: seq<Titulo>, t: Titulo, monthStart: int, monthEnd: int)
    requires t.status == Pendente
    ensures Total(WithStatus(ts + [t], Pendente)) == Total(WithStatus(ts, Pendente)) + t.valor
    ensures SettledInMonth(ts + [t], Pago, monthStart, monthEnd) == SettledInMonth(ts, Pago, monthStart, monthEnd)
    ensures SettledInMonth(ts + [t], Recebido, monthStart, monthEnd) == SettledInMonth(ts, Recebido, monthStart, monthEnd)
  {
    assert (ts + [t])[..|ts + [t]| - 1] == ts;
    assert WithStatus(ts + [t], Pendente) == WithStatus(ts, Pendente) + [t];
    TotalAppend(WithStatus(ts, Pendente), [t]);
    assert Total([t]) == Total([]) + t.valor;
  }

  // ------------------------------------------------------------------ cash flow

  /** A title whose due instant lies in the period `[inicio, fim]`, both ends included. */
  predicate InPeriod(t: Titulo, inicio: int, fim: int) {
    inicio <= t.dataVencimento <= fim
  }

  /** `titulos.filter(...)`: the titles due in the period, in order. */
  function Window(ts: seq<Titulo>, inicio: int, fim: int): (w: seq<Titulo>)
    ensures forall t :: t in w <==> t in ts && InPeriod(t, inicio, fim)
    ensures |w| <= |ts|
  {
    if ts == [] then []
    else
      var init := Window(ts[..|ts| - 1], inicio, fim);
      var last := ts[|ts| - 1];
      assert ts == ts[..|ts| - 1] + [last];
      if InPeriod(last, inicio, fim) then init + [last] else init
  }

  /** A row of the cash-flow table: a due instant with what is paid and received then. */
  datatype FluxoRow = FluxoRow(data: int, pagamentos: real, recebimentos: real)

  /** The due instants of some titles. */
  function Dues(ts: seq<Titulo>): set<int> {
    set t | t in ts :: t.dataVencimento
  }

  /** The total value of the titles due at `d`. */
  function SumDue(ts: seq<Titulo>, d: int): real {
    if ts == [] then 0.0
    else SumDue(ts[..|ts| - 1], d) + (if ts[|ts| - 1].dataVencimento == d then ts[|ts| - 1].valor else 0.0)
  }

  /** Nothing is due at an instant no title names. */
  lemma {:induction false} SumDueAbsent(ts: seq<Titulo>, d: int)
    requires d !in Dues(ts)
    ensures SumDue(ts, d) == 0.0
  {
    if ts != [] {
      assert ts[|ts| - 1] in ts;
      assert Dues(ts[..|ts| - 1]) <= Dues(ts) by {
        forall t | t in ts[..|ts| - 1] ensures t in ts { }
      }
      SumDueAbsent(ts[..|ts| - 1], d);
    }
  }

  predicate Distinct(order: seq<int>) {
    forall i, j :: 0 <= i < j < |order| ==> order[i] != order[j]
  }

  /**
   * `fluxo` holds one row per instant the payables `pag` or the receivables
   * `rec` are due at, with their sums; `order` lists those instants once each.
   */
  ghost predicate Grouped(fluxo: map<int, FluxoRow>, order: seq<int>, pag: seq<Titulo>, rec: seq<Titulo>) {
    fluxo.Keys == Dues(pag) + Dues(rec)
    && (forall d :: d in fluxo ==> fluxo[d] == FluxoRow(d, SumDue(pag, d), SumDue(rec, d)))
    && Distinct(order) && (forall d :: d in order <==> d in fluxo)
  }

  /** One more title: the sum at its own due instant grows by its value, every other sum stays. */
  lemma SumDueAppend(ts: seq<Titulo>, t: Titulo)
    ensures forall d :: SumDue(ts + [t], d) == SumDue(ts, d) + (if t.dataVencimento == d then t.valor else 0.0)
    ensures Dues(ts + [t]) == Dues(ts) + {t.dataVencimento}
  {
    assert (ts + [t])[..|ts + [t]| - 1] == ts;
  }

  /** The row of an instant, created empty the first time it is met. */
  method RowFor(fluxo: map<int, FluxoRow>, order: seq<int>, data: int) returns (fluxo': map<int, FluxoRow>, order': seq<int>)
    ensures data in fluxo'
    ensures data in fluxo ==> fluxo' == fluxo && order' == order
    ensures data !in fluxo ==> fluxo' == fluxo[data := FluxoRow(data, 0.0, 0.0)] && order' == order + [data]
  {
    fluxo', order' := fluxo, order;
    if data !in fluxo {
      fluxo' := fluxo[data := FluxoRow(data, 0.0, 0.0)];
      order' := order + [data];
    }
  }

  /** The body of the payables' `forEach`. */
  method AddPagamento(fluxo: map<int, FluxoRow>, order: seq<int>, ghost pag: seq<Titulo>, ghost rec: seq<Titulo>, t: Titulo)
    returns (fluxo': map<int, FluxoRow>, order': seq<int>)
    requires Grouped(fluxo, order, pag, rec)
    ensures Grouped(fluxo', order', pag + [t], rec)
  {
    var data := t.dataVencimento;
    if data !in fluxo {
      SumDueAbsent(pag, data);
      SumDueAbsent(rec, data);
    }
    fluxo', order' := RowFor(fluxo, order, data);
    fluxo' := fluxo'[data := fluxo'[data].(pagamentos := fluxo'[data].pagamentos + t.valor)];
    SumDueAppend(pag, t);
  }

  /** The body of the receivables' `forEach`. */
  method AddRecebimento(fluxo: map<int, FluxoRow>, order: seq<int>, ghost pag: seq<Titulo>, ghost rec: seq<Titulo>, t: Titulo)
    returns (fluxo': map<int, FluxoRow>, order': seq<int>)
    requires Grouped(fluxo, order, pag, rec)
    ensures Grouped(fluxo', order', pag, rec + [t])
  {
    var data := t.dataVencimento;
    if data !in fluxo {
      SumDueAbsent(pag, data);
      SumDueAbsent(rec, data);
    }
    fluxo', order' := RowFor(fluxo, order, data);
    fluxo' := fluxo'[data := fluxo'[data].(recebimentos := fluxo'[data].recebimentos + t.valor)];
    SumDueAppend(rec, t);
  }

  /**
   * The grouping loops of `fluxoData`: one row per due instant, created the
   * first time the instant is met, holding the sum of the payables and of
   * the receivables due then. `order` is the order in which the rows were
   * created, the order `Object.values` lists them in.
   */
  method GroupByDate(pagamentos: seq<Titulo>, recebimentos: seq<Titulo>) returns (fluxo: map<int, FluxoRow>, order: seq<int>)
    ensures fluxo.Keys == Dues(pagamentos) + Dues(recebimentos)
    ensures forall d :: d in fluxo ==> fluxo[d] == FluxoRow(d, SumDue(pagamentos, d), SumDue(recebimentos, d))
    ensures Distinct(order) && forall d :: d in order <==> d in fluxo
  {
    fluxo := map[];
    order := [];
    assert Grouped(fluxo, order, pagamentos[..0], []);
    var i := 0;
    while i < |pagamentos|
      invariant 0 <= i <= |pagamentos|
      invariant Grouped(fluxo, order, pagamentos[..i], [])
    {
      assert pagamentos[..i + 1] == pagamentos[..i] + [pagamentos[i]];
      fluxo, order := AddPagamento(fluxo, order, pagamentos[..i], [], pagamentos[i]);
      i := i + 1;
    }
    assert pagamentos[..i] == pagamentos && recebimentos[..0] == [];
    var j := 0;
    while j < |recebimentos|
      invariant 0 <= j <= |recebimentos|
      invariant Grouped(fluxo, order, pagamentos, recebimentos[..j])
    {
      assert recebimentos[..j + 1] == recebimentos[..j] + [recebimentos[j]];
      fluxo, order := AddRecebimento(fluxo, order, pagamentos, recebimentos[..j], recebimentos[j]);
      j := j + 1;
    }
    assert recebimentos[..j] == recebimentos;
  }

  /** Rows in strictly increasing order of their instants. */
  predicate Increasing(rows: seq<FluxoRow>) {
    forall i, j :: 0 <= i < j < |rows| ==> rows[i].data < rows[j].data
  }

  predicate DistinctDates(rows: seq<FluxoRow>) {
    forall i, j :: 0 <= i < j < |rows| ==> rows[i].data != rows[j].data
  }

  /** Places a row among increasing rows with other instants. */
  function Insert(r: FluxoRow, rows: seq<FluxoRow>): (s: seq<FluxoRow>)
    requires Increasing(rows)
    requires forall x :: x in rows ==> x.data != r.data
    ensures Increasing(s)
    ensures |s| == |rows| + 1
    ensures forall x :: x in s <==> x == r || x in rows
  {
    if rows == [] then [r]
    else if r.data < rows[0].data then [r] + rows
    else
      var rest := Insert(r, rows[1..]);
      assert forall x :: x in rest ==> rows[0].data < x.data;
      assert forall j :: 0 < j < |rest| + 1 ==> ([rows[0]] + rest)[j] == rest[j - 1];
      [rows[0]] + rest
  }

  /**
   * `sort((a, b) => new Date(a.data) - new Date(b.data))` on rows whose
   * instants differ: the same rows, as many, in increasing order.
   */
  function SortByDate(rows: seq<FluxoRow>): (s: seq<FluxoRow>)
    requires DistinctDates(rows)
    ensures Increasing(s)
    ensures |s| == |rows|
    ensures forall x :: x in s <==> x in rows
  {
    if rows == [] then []
    else
      assert rows == [rows[0]] + rows[1..];
      Insert(rows[0], SortByDate(rows[1..]))
  }

  /** `Object.values(fluxoPorData)`: the rows in the order their instants were met. */
  function RowsInOrder(fluxo: map<int, FluxoRow>, order: seq<int>): (vs: seq<FluxoRow>)
    requires forall i :: 0 <= i < |order| ==> order[i] in fluxo
    ensures |vs| == |order|
    ensures forall i :: 0 <= i < |order| ==> vs[i] == fluxo[order[i]]
  {
    seq(|order|, i requires 0 <= i < |order| => fluxo[order[i]])
  }

  /** Rows holding exactly the grouped values have one row per due instant, with its sums. */
  lemma GroupedRows(fluxo: map<int, FluxoRow>, order: seq<int>, pag: seq<Titulo>, rec: seq<Titulo>, rows: seq<FluxoRow>)
    requires Grouped(fluxo, order, pag, rec)
    requires forall i :: 0 <= i < |order| ==> order[i] in fluxo
    requires forall x :: x in rows <==> x in RowsInOrder(fluxo, order)
    ensures forall r :: r in rows ==> r == FluxoRow(r.data, SumDue(pag, r.data), SumDue(rec, r.data))
    ensures forall d :: (exists r :: r in rows && r.data == d) <==> d in Dues(pag) + Dues(rec)
  {
    var values := RowsInOrder(fluxo, order);
    forall r | r in rows ensures r.data in fluxo && r == fluxo[r.data] {
      var k :| 0 <= k < |values| && values[k] == r;
      assert order[k] in order;
    }
    forall d | d in fluxo ensures exists r :: r in rows && r.data == d {
      var k :| 0 <= k < |order| && order[k] == d;
      assert values[k] in rows;
    }
  }

  /** Every due instant of the titles in the period lies in the period. */
  lemma DuesInPeriod(ts: seq<Titulo>, inicio: int, fim: int)
    ensures forall d :: d in Dues(Window(ts, inicio, fim)) ==> inicio <= d <= fim
  {
  }

  /**
   * `fluxoData`: the titles due in the period `[inicio, fim]` grouped by due
   * instant, one row per instant any of them is due at, holding the sums of
   * the payables and of the receivables due then, in increasing order of
   * the instants.
   */
  method FluxoData(titulosPagar: seq<Titulo>, titulosReceber: seq<Titulo>, inicio: int, fim: int)
    returns (rows: seq<FluxoRow>)
    ensures Increasing(rows)
    ensures forall r :: r in rows ==> inicio <= r.data <= fim
    ensures forall r :: r in rows ==>
      r == FluxoRow(r.data, SumDue(Window(titulosPagar, inicio, fim), r.data), SumDue(Window(titulosReceber, inicio, fim), r.data))
    ensures forall d :: (exists r :: r in rows && r.data == d) <==>
      d in Dues(Window(titulosPagar, inicio, fim)) + Dues(Window(titulosReceber, inicio, fim))
  {
    var pagamentos := Window(titulosPagar, inicio, fim);
    var recebimentos := Window(titulosReceber, inicio, fim);
    var fluxo, order := GroupByDate(pagamentos, recebimentos);
    assert forall i :: 0 <= i < |order| ==> order[i] in order;
    rows := SortByDate(RowsInOrder(fluxo, order));
    GroupedRows(fluxo, order, pagamentos, recebimentos, rows);
    DuesInPeriod(titulosPagar, inicio, fim);
    DuesInPeriod(titulosReceber, inicio, fim);
  }

  datatype Totais = Totais(totalPagamentos: real, totalRecebimentos: real, saldo: real)

  /** `totais`: the running sums of the rows' payments, receipts and daily balances. */
  function FluxoTotais(rows: seq<FluxoRow>): Totais {
    if rows == [] then Totais(0.0, 0.0, 0.0)
    else
      var acc := FluxoTotais(rows[..|rows| - 1]);
      var item := rows[|rows| - 1];
      Totais(acc.totalPagamentos + item.pagamentos, acc.totalRecebimentos + item.recebimentos,
        acc.saldo + (item.recebimentos - item.pagamentos))
  }

  /** The balance of the period is what is received less what is paid. */
  lemma {:induction false} SaldoIsDifference(rows: seq<FluxoRow>)
    ensures FluxoTotais(rows).saldo == FluxoTotais(rows).totalRecebimentos - FluxoTotais(rows).totalPagamentos
  {
    if rows != [] {
      SaldoIsDifference(rows[..|rows| - 1]);
    }
  }

  // ------------------------------------------------------------------ new entry

  /** The new-entry form's fields; an empty due-date input is `None`. */
  datatype LancamentoForm = LancamentoForm(
    tipo: string, descricao: string, origem: string, valor: string,
    dataVencimento: Option<int>, observacoes: string)

  /** What the form submits: the fields, with `parseFloat` of the value (`None` is `NaN`). */
  datatype Lancamento = Lancamento(
    tipo: string, descricao: string, origem: string, valor: Option<real>,
    dataVencimento: int, observacoes: string)

  /** `handleSubmit`: the entry is passed on only when description, value and due date are filled in. */
  function SubmitLancamento(form: LancamentoForm): (r: Option<Lancamento>)
    ensures r.Some? <==> form.descricao != "" && form.valor != "" && form.dataVencimento.Some?
    ensures r.Some? ==>
      r.value.tipo == form.tipo && r.value.descricao == form.descricao && r.value.origem == form.origem
      && r.value.valor == ParseFloat(form.valor) && r.value.dataVencimento == form.dataVencimento.value
      && r.value.observacoes == form.observacoes
  {
    if form.descricao != "" && form.valor != "" && form.dataVencimento.Some? then
      Some(Lancamento(form.tipo, form.descricao, form.origem, ParseFloat(form.valor),
        form.dataVencimento.value, form.observacoes))
    else None
  }

  /** A value typed as digits is submitted as that number. */
  lemma SubmittedValue(form: LancamentoForm, n: nat)
    requires form.descricao != "" && form.valor == Dec(n) && form.dataVencimento.Some?
    ensures SubmitLancamento(form).Some? && SubmitLancamento(form).value.valor == Some(n as real)
  {
    ParseFloatDec(n);
  }

  /** The title an entry creates: pending, unsettled, stamped `now`. */
  function NovoTitulo(dados: Lancamento, now: int): (t: Titulo)
    requires dados.valor.Some?
    ensures t.id == now && t.status == Pendente && t.valor == dados.valor.value
    ensures t.dataPagamento.None? && t.dataRecebimento.None?
    ensures t.descricao == dados.descricao && t.origem == dados.origem
    ensures t.dataVencimento == dados.dataVencimento && t.observacoes == dados.observacoes
  {
    Titulo(now, dados.descricao, dados.origem, dados.valor.value, dados.dataVencimento,
      Pendente, None, None, dados.observacoes)
  }

  /** The payable and receivable titles of the store. */
  class Titulos {
    var pagar: seq<Titulo>
    var receber: seq<Titulo>

    constructor(pagar: seq<Titulo>, receber: seq<Titulo>)
      ensures this.pagar == pagar && this.receber == receber
    {
      this.pagar := pagar;
      this.receber := receber;
    }

    /** The summary figures of the current titles. */
    function Figures(monthStart: int, monthEnd: int): Stats
      reads this
    {
      FinanceiroStats(pagar, receber, monthStart, monthEnd)
    }

    /**
     * `onSave`: the new title goes to the payables when the entry's type is
     * `'pagar'` and to the receivables for any other type.
     */
    method Lancar(dados: Lancamento, now: int)
      requires dados.valor.Some?
      modifies this
      ensures dados.tipo == Pagar ==> pagar == old(pagar) + [NovoTitulo(dados, now)] && receber == old(receber)
      ensures dados.tipo != Pagar ==> receber == old(receber) + [NovoTitulo(dados, now)] && pagar == old(pagar)
    {
      if dados.tipo == Pagar {
        pagar := pagar + [NovoTitulo(dados, now)];
      } else {
        receber := receber + [NovoTitulo(dados, now)];
      }
    }
  }

  /**
   * An entry raises the pending total of its side by its value and leaves
   * the other side's figures and this month's settled totals as they were.
   */
  lemma LancarFigures(pagar: seq<Titulo>, receber: seq<Titulo>, dados: Lancamento, now: int, monthStart: int, monthEnd: int)
    requires dados.valor.Some?
    ensures var t := NovoTitulo(dados, now);
      var before := FinanceiroStats(pagar, receber, monthStart, monthEnd);
      var after := if dados.tipo == Pagar then FinanceiroStats(pagar + [t], receber, monthStart, monthEnd)
                   else FinanceiroStats(pagar, receber + [t], monthStart, monthEnd);
      after.totalPagoMes == before.totalPagoMes && after.totalRecebidoMes == before.totalRecebidoMes
      && (dados.tipo == Pagar ==>
            after.totalPagarPendente == before.totalPagarPendente + t.valor
            && after.totalReceberPendente == before.totalReceberPendente)
      && (dados.tipo != Pagar ==>
            after.totalReceberPendente == before.totalReceberPendente + t.valor
            && after.totalPagarPendente == before.totalPagarPendente)
  {
    var t := NovoTitulo(dados, now);
    PendingTitleAdds(pagar, t, monthStart, monthEnd);
    PendingTitleAdds(receber, t, monthStart, monthEnd);
  }
}
