/**
 * The stock screen (`EstoqueModule`): the stock position of every product
 * with its level classification, the summary figures, the low-stock alerts,
 * the goods-entry form and the entry it records.
 */
module Estoque {
  import opened Js
  import opened Text

  /**
   * A product as the stock screen reads it; an absent `estoqueAtual` reads
   * as 0. A product may have no `estoqueMax` (`None`): the comparison with
   * `undefined` is then false.
   */
  datatype Produto = Produto(
    id: int, descricao: string, custo: real,
    estoqueMin: real, estoqueMax: Option<real>, estoqueAtual: real)

  /** An entry of `data.estoque`: how much of a product is held, and where. */
  datatype Posicao = Posicao(produtoId: int, quantidade: real, localizacao: string)

  /** The stock level of a product. */
  datatype Status = Baixo | Alto | Normal

  /** A row of the stock position: the product with its quantity, location and level. */
  datatype Linha = Linha(produto: Produto, quantidade: real, localizacao: string, status: Status)

  /** An entry of `data.movimentosEstoque`. */
  datatype Movimento = Movimento(
    id: int, produtoId: int, produto: string, tipo: string,
    quantidade: real, data: string, observacoes: string, usuario: string)

  /** What the entry form submits: `parseInt` of the product and `parseFloat` of the quantity (`None` is `NaN`). */
  datatype Entrada = Entrada(produtoId: Option<int>, quantidade: Option<real>, data: string, observacoes: string)

  /** The entry form's fields, as the inputs hold them. */
  datatype EntradaForm = EntradaForm(produtoId: string, quantidade: string, data: string, observacoes: string)

  const SemLocalizacao: string := "Não definida"
  const Usuario: string := "Sistema"

  // ------------------------------------------------------------------ position

  /**
   * The level of a quantity: low when at or below the minimum; otherwise
   * high when the product has a maximum and is at or above it; otherwise
   * normal.
   */
  function Classify(quantidade: real, p: Produto): (s: Status)
    ensures s == Baixo <==> quantidade <= p.estoqueMin
    ensures s == Alto <==> p.estoqueMin < quantidade && p.estoqueMax.Some? && p.estoqueMax.value <= quantidade
    ensures s == Normal <==> p.estoqueMin < quantidade && (p.estoqueMax.None? || quantidade < p.estoqueMax.value)
  {
    if quantidade <= p.estoqueMin then Baixo
    else if p.estoqueMax.Some? && quantidade >= p.estoqueMax.value then Alto
    else Normal
  }

  /** Less stock is never a better level: low stays low as the quantity falls, high stays high as it rises. */
  lemma ClassifyMonotone(q1: real, q2: real, p: Produto)
    requires q1 <= q2
    ensures Classify(q2, p) == Baixo ==> Classify(q1, p) == Baixo
    ensures Classify(q1, p) == Alto ==> Classify(q2, p) == Alto
  {
  }

  /** `estoque.find(e => e.produtoId === id)`. */
  function FindPosicao(estoque: seq<Posicao>, id: int): (r: Option<Posicao>)
    ensures r.Some? ==> r.value in estoque && r.value.produtoId == id
    ensures r.None? <==> forall i :: 0 <= i < |estoque| ==> estoque[i].produtoId != id
    ensures r.Some? ==> exists k ::
        0 <= k < |estoque| && r.value == estoque[k]
        && forall j :: 0 <= j < k ==> estoque[j].produtoId != id
  {
    if estoque == [] then None
    else if estoque[0].produtoId == id then Some(estoque[0])
    else FindPosicao(estoque[1..], id)
  }

  /** The row of one product: quantity `?.quantidade || 0`, location `?.localizacao || 'Não definida'`. */
  function RowOf(p: Produto, estoque: seq<Posicao>): (l: Linha)
    ensures l.produto == p
    ensures FindPosicao(estoque, p.id).None? ==> l.quantidade == 0.0 && l.localizacao == SemLocalizacao
    ensures FindPosicao(estoque, p.id).Some? ==>
      l.quantidade == FindPosicao(estoque, p.id).value.quantidade
      && l.localizacao == Or(Str(FindPosicao(estoque, p.id).value.localizacao), Str(SemLocalizacao)).s
    ensures l.status == Classify(l.quantidade, p)
  {
    var e := FindPosicao(estoque, p.id);
    var quantidade := if e.Some? then e.value.quantidade else 0.0;
    var localizacao := if e.Some? && e.value.localizacao != "" then e.value.localizacao else SemLocalizacao;
    Linha(p, quantidade, localizacao, Classify(quantidade, p))
  }

  /** `getEstoqueData`: one row per product, in order. */
  function Rows(produtos: seq<Produto>, estoque: seq<Posicao>): (rows: seq<Linha>)
    ensures |rows| == |produtos|
    ensures forall i :: 0 <= i < |rows| ==> rows[i] == RowOf(produtos[i], estoque)
  {
    seq(|produtos|, i requires 0 <= i < |produtos| => RowOf(produtos[i], estoque))
  }

  // ------------------------------------------------------------------ summary and alerts

  function CountStatus(rows: seq<Linha>, s: Status): (n: nat)
    ensures n <= |rows|
  {
    if rows == [] then 0 else CountStatus(rows[..|rows| - 1], s) + (if rows[|rows| - 1].status == s then 1 else 0)
  }

  /** Every row has exactly one level. */
  lemma {:induction false} CountStatusPartition(rows: seq<Linha>)
    ensures CountStatus(rows, Baixo) + CountStatus(rows, Alto) + CountStatus(rows, Normal) == |rows|
  {
    if rows != [] {
      CountStatusPartition(rows[..|rows| - 1]);
    }
  }

  /** The value of a row, quantity times unit cost. */
  function RowValue(l: Linha): real {
    l.quantidade * l.produto.custo
  }

  /** `reduce((acc, item) => acc + item.quantidade * item.custo, 0)`. */
  function SumValue(rows: seq<Linha>): real {
    if rows == [] then 0.0 else SumValue(rows[..|rows| - 1]) + RowValue(rows[|rows| - 1])
  }

  /** With no negative quantity or cost, the stock value is not negative. */
  lemma {:induction false} SumValueNonNegative(rows: seq<Linha>)
    requires forall i :: 0 <= i < |rows| ==> rows[i].quantidade >= 0.0 && rows[i].produto.custo >= 0.0
    ensures SumValue(rows) >= 0.0
  {
    if rows != [] {
      SumValueNonNegative(rows[..|rows| - 1]);
      var l := rows[|rows| - 1];
      assert RowValue(l) >= 0.0;
    }
  }

  /** Rows none of which is high count no high rows. */
  lemma {:induction false} NoAltoRows(rows: seq<Linha>)
    requires forall i :: 0 <= i < |rows| ==> rows[i].status != Alto
    ensures CountStatus(rows, Alto) == 0
  {
    if rows != [] {
      NoAltoRows(rows[..|rows| - 1]);
    }
  }

  /** When no product has a maximum, as with the products the store is seeded with, none is ever high. */
  lemma NoMaximumNeverAlto(produtos: seq<Produto>, estoque: seq<Posicao>)
    requires forall i :: 0 <= i < |produtos| ==> produtos[i].estoqueMax.None?
    ensures EstoqueStats(Rows(produtos, estoque)).alto == 0
  {
    NoAltoRows(Rows(produtos, estoque));
  }

  datatype Stats = Stats(total: nat, baixo: nat, alto: nat, valorTotal: real)

  /** `getEstoqueStats`: the number of products, of low and of high ones, and the stock value. */
  function EstoqueStats(rows: seq<Linha>): (s: Stats)
    ensures s.total == |rows| && s.baixo == CountStatus(rows, Baixo) && s.alto == CountStatus(rows, Alto)
    ensures s.baixo + s.alto <= s.total
    ensures s.valorTotal == SumValue(rows)
  {
    CountStatusPartition(rows);
    Stats(|rows|, CountStatus(rows, Baixo), CountStatus(rows, Alto), SumValue(rows))
  }

  /** The alert list: the low rows, in order. */
  function Alerts(rows: seq<Linha>): (a: seq<Linha>)
    ensures forall l :: l in a <==> l in rows && l.status == Baixo
    ensures |a| == CountStatus(rows, Baixo)
  {
    if rows == [] then []
    else
      var init := Alerts(rows[..|rows| - 1]);
      var last := rows[|rows| - 1];
      assert rows == rows[..|rows| - 1] + [last];
      if last.status == Baixo then init + [last] else init
  }

  // ------------------------------------------------------------------ goods entry

  /**
   * The entry form's `handleSubmit`: the entry is passed on, with the
   * product parsed as an integer and the quantity as a decimal, only when
   * product, quantity and date are all filled in.
   */
  function SubmitEntrada(form: EntradaForm): (r: Option<Entrada>)
    ensures r.Some? <==> form.produtoId != "" && form.quantidade != "" && form.data != ""
    ensures r.Some? ==>
      r.value.produtoId == ParseInt(form.produtoId) && r.value.quantidade == ParseFloat(form.quantidade)
      && r.value.data == form.data && r.value.observacoes == form.observacoes
  {
    if form.produtoId != "" && form.quantidade != "" && form.data != "" then
      Some(Entrada(ParseInt(form.produtoId), ParseFloat(form.quantidade), form.data, form.observacoes))
    else None
  }

  /** A product chosen from the list is submitted as its own id. */
  lemma SubmittedProductId(form: EntradaForm, id: nat)
    requires form.produtoId == Dec(id) && form.quantidade != "" && form.data != ""
    ensures SubmitEntrada(form).Some? && SubmitEntrada(form).value.produtoId == Some(id)
  {
    ParseIntDec(id, "");
    assert Dec(id) + "" == Dec(id);
  }

  /** `produtos.find(p => p.id === dados.produtoId)`, as an index. */
  function FindProduto(produtos: seq<Produto>, id: Option<int>): (k: Option<nat>)
    ensures k.Some? ==>
      k.value < |produtos| && Some(produtos[k.value].id) == id
      && forall j :: 0 <= j < k.value ==> Some(produtos[j].id) != id
    ensures k.None? <==> forall j :: 0 <= j < |produtos| ==> Some(produtos[j].id) != id
  {
    if produtos == [] then None
    else if Some(produtos[0].id) == id then Some(0)
    else match FindProduto(produtos[1..], id)
      case None => None
      case Some(k) => Some(k + 1)
  }

  /** The movement an entry records. */
  function EntradaMovimento(p: Produto, dados: Entrada, now: int): (m: Movimento)
    requires dados.quantidade.Some?
    ensures m.tipo == "entrada" && m.produtoId == p.id && m.produto == p.descricao
    ensures m.quantidade == dados.quantidade.value && m.id == now && m.usuario == Usuario
  {
    Movimento(now, p.id, p.descricao, "entrada", dados.quantidade.value, dados.data, dados.observacoes, Usuario)
  }

  /** The stock data the screen reads and the entry writes. */
  class EstoqueData {
    var produtos: seq<Produto>
    var estoque: seq<Posicao>
    var movimentos: seq<Movimento>

    constructor(produtos: seq<Produto>, estoque: seq<Posicao>, movimentos: seq<Movimento>)
      ensures this.produtos == produtos && this.estoque == estoque && this.movimentos == movimentos
    {
      this.produtos := produtos;
      this.estoque := estoque;
      this.movimentos := movimentos;
    }

    /** The stock position as the screen shows it. */
    function Position(): seq<Linha>
      reads this
    {
      Rows(produtos, estoque)
    }

    /**
     * `handleSalvarEntrada`: for a known product, its current stock grows by
     * the quantity and one entry movement stamped `now` is appended; an
     * unknown product changes nothing.
     */
    method SalvarEntrada(dados: Entrada, now: int)
      requires dados.quantidade.Some?
      modifies this
      ensures estoque == old(estoque)
      ensures var k := FindProduto(old(produtos), dados.produtoId);
        (k.None? ==> produtos == old(produtos) && movimentos == old(movimentos))
        && (k.Some? ==>
              var p := old(produtos)[k.value];
              produtos == old(produtos)[k.value := p.(estoqueAtual := p.estoqueAtual + dados.quantidade.value)]
              && movimentos == old(movimentos) + [EntradaMovimento(p, dados, now)])
    {
      var k := FindProduto(produtos, dados.produtoId);
      if k.Some? {
        var p := produtos[k.value];
        produtos := produtos[k.value := p.(estoqueAtual := p.estoqueAtual + dados.quantidade.value)];
        movimentos := movimentos + [EntradaMovimento(p, dados, now)];
      }
    }
  }

  /**
   * An entry changes only a product's current stock, which the position
   * does not read: every row keeps its quantity, location and level.
   */
  lemma EntradaLeavesPosition(produtos: seq<Produto>, estoque: seq<Posicao>, k: nat, q: real)
    requires k < |produtos|
    ensures var after := Rows(produtos[k := produtos[k].(estoqueAtual := produtos[k].estoqueAtual + q)], estoque);
      forall i :: 0 <= i < |produtos| ==>
        after[i].quantidade == Rows(produtos, estoque)[i].quantidade
        && after[i].localizacao == Rows(produtos, estoque)[i].localizacao
        && after[i].status == Rows(produtos, estoque)[i].status
  {
  }
}
