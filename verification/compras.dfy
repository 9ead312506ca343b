/**
 * The purchasing workflow (`ComprasModule`): requisition, quotation,
 * purchase order and receipt, each step a handler over the shared store.
 *
 * A requisition is created `pendente` and approved or rejected. An approved
 * requisition with no quotation may be quoted, which moves it to
 * `em-cotacao`. A quotation whose nested approval is `aprovada` and that has
 * no order may be ordered: the order is created `enviado`, its payable
 * titles are generated and the quotation moves to `pedido-gerado`.
 * Receiving an order marks it `recebido` and adds each line's quantity to
 * the stock of its product.
 */
module Compras {
  import opened Js
  import opened Text
  import opened Installments
  import opened DataContext

  /** The signed-in user the handlers write as approver. */
  const Approver: string := "Maria Santos"
  /** The signed-in user the receipt handler writes as receiver. */
  const Receiver: string := "João Silva"

  // ------------------------------------------------------------------ reading records

  /** `c.aprovacao.status` throws unless `aprovacao` is set. */
  predicate ApprovalReadable(r: Record) {
    !Get(r, "aprovacao").Undefined? && !Get(r, "aprovacao").Null?
  }

  predicate ApprovalsReadable(coll: seq<Record>) {
    forall i :: 0 <= i < |coll| ==> ApprovalReadable(coll[i])
  }

  /** `c.aprovacao.status`. */
  function ApprovalStatus(r: Record): Value {
    Prop(Get(r, "aprovacao"), "status")
  }

  /** `coll.some(x => x[key] === id)`. */
  predicate AnyRefers(coll: seq<Record>, key: string, id: Value) {
    coll != [] && (StrictEq(Get(coll[0], key), id) || AnyRefers(coll[1..], key, id))
  }

  lemma {:induction false} AnyRefersAppend(coll: seq<Record>, r: Record, key: string, id: Value)
    requires StrictEq(Get(r, key), id)
    ensures AnyRefers(coll + [r], key, id)
  {
    if coll != [] {
      assert (coll + [r])[1..] == coll[1..] + [r];
      AnyRefersAppend(coll[1..], r, key, id);
    } else {
      assert coll + [r] == [r];
    }
  }

  // ------------------------------------------------------------------ eligibility

  /** A requisition a new quotation may be made for: approved and not yet quoted. */
  predicate QuotableRequisicao(r: Record, cotacoes: seq<Record>) {
    Get(r, "status") == Str("aprovada") && !AnyRefers(cotacoes, "requisicaoId", Get(r, "id"))
  }

  /** `requisicoes.filter(r => r.status === "aprovada" && !cotacoes.some(c => c.requisicaoId === r.id))`. */
  function EligibleRequisicoes(requisicoes: seq<Record>, cotacoes: seq<Record>): (e: seq<Record>)
    ensures |e| <= |requisicoes|
    ensures forall r :: r in e ==> r in requisicoes && QuotableRequisicao(r, cotacoes)
    ensures forall r :: r in requisicoes && QuotableRequisicao(r, cotacoes) ==> r in e
  {
    if requisicoes == [] then []
    else
      var rest := EligibleRequisicoes(requisicoes[1..], cotacoes);
      assert forall r :: r in requisicoes <==> r == requisicoes[0] || r in requisicoes[1..];
      if QuotableRequisicao(requisicoes[0], cotacoes) then [requisicoes[0]] + rest else rest
  }

  /** A quotation a new order may be made for: nested approval `aprovada`, no order yet. */
  predicate OrderableCotacao(c: Record, pedidos: seq<Record>) {
    ApprovalStatus(c) == Str("aprovada") && !AnyRefers(pedidos, "cotacaoId", Get(c, "id"))
  }

  /** `cotacoes.filter(c => c.aprovacao.status === "aprovada" && !pedidos.some(p => p.cotacaoId === c.id))`. */
  function EligibleCotacoes(cotacoes: seq<Record>, pedidos: seq<Record>): (e: seq<Record>)
    requires ApprovalsReadable(cotacoes)
    ensures |e| <= |cotacoes|
    ensures forall c :: c in e ==> c in cotacoes && OrderableCotacao(c, pedidos)
    ensures forall c :: c in cotacoes && OrderableCotacao(c, pedidos) ==> c in e
  {
    if cotacoes == [] then []
    else
      var rest := EligibleCotacoes(cotacoes[1..], pedidos);
      assert forall c :: c in cotacoes <==> c == cotacoes[0] || c in cotacoes[1..];
      if OrderableCotacao(cotacoes[0], pedidos) then [cotacoes[0]] + rest else rest
  }

  // ------------------------------------------------------------------ statistics

  /** `coll.filter(c => c.aprovacao.status === status).length`. */
  function CountApprovalStatus(coll: seq<Record>, status: string): (n: nat)
    requires ApprovalsReadable(coll)
    ensures n <= |coll|
  {
    if coll == [] then 0
    else (if ApprovalStatus(coll[0]) == Str(status) then 1 else 0) + CountApprovalStatus(coll[1..], status)
  }

  predicate TotalsNumeric(pedidos: seq<Record>) {
    forall i :: 0 <= i < |pedidos| ==> Get(pedidos[i], "valorTotal").Num?
  }

  /** `pedidos.reduce((acc, p) => acc + p.valorTotal, 0)`. */
  function SumValorTotal(pedidos: seq<Record>): real
    requires TotalsNumeric(pedidos)
  {
    if pedidos == [] then 0.0
    else SumValorTotal(pedidos[..|pedidos| - 1]) + Get(pedidos[|pedidos| - 1], "valorTotal").n
  }

  datatype ComprasStats = ComprasStats(
    totalRequisicoes: nat,
    requisicoesAprovadas: nat,
    cotacoesPendentes: nat,
    valorTotalPedidos: real)

  /** The counters on top of the purchasing screen. */
  function Stats(view: Data): (st: ComprasStats)
    requires ApprovalsReadable(Collection(view, "cotacoes"))
    requires TotalsNumeric(Collection(view, "pedidos"))
    ensures st.totalRequisicoes == |Collection(view, "requisicoes")|
    ensures st.requisicoesAprovadas <= st.totalRequisicoes
    ensures st.cotacoesPendentes <= |Collection(view, "cotacoes")|
    ensures st.requisicoesAprovadas == CountStatus(Collection(view, "requisicoes"), "aprovada")
    ensures st.cotacoesPendentes == CountApprovalStatus(Collection(view, "cotacoes"), "pendente")
    ensures st.valorTotalPedidos == SumValorTotal(Collection(view, "pedidos"))
  {
    var requisicoes := Collection(view, "requisicoes");
    ComprasStats(
      |requisicoes|,
      CountStatus(requisicoes, "aprovada"),
      CountApprovalStatus(Collection(view, "cotacoes"), "pendente"),
      SumValorTotal(Collection(view, "pedidos")))
  }

  /** The order total sum grows by exactly the total of an order appended. */
  lemma SumValorTotalAppend(pedidos: seq<Record>, p: Record)
    requires TotalsNumeric(pedidos) && Get(p, "valorTotal").Num?
    ensures TotalsNumeric(pedidos + [p])
    ensures SumValorTotal(pedidos + [p]) == SumValorTotal(pedidos) + Get(p, "valorTotal").n
  {
    var all := pedidos + [p];
    assert forall i :: 0 <= i < |pedidos| ==> all[i] == pedidos[i];
    assert all[..|all| - 1] == pedidos;
  }

  // ------------------------------------------------------------------ new records

  /** The approval record of a new requisition: pending, nobody, no date, no remarks. */
  const PendingApproval: map<string, Value> :=
    map["status" := Str("pendente"), "aprovadoPor" := Null, "dataAprovacao" := Null, "observacoes" := Null]

  /** What `handleSaveRequisicao` adds to the form's fields for a new requisition. */
  function NewRequisicao(form: Record, numero: string, now: int): (r: Record)
    ensures Get(r, "numero") == Str(numero) && Get(r, "status") == Str("pendente")
    ensures ApprovalStatus(r) == Str("pendente")
    ensures Prop(Get(r, "aprovacao"), "aprovadoPor") == Null && Prop(Get(r, "aprovacao"), "dataAprovacao") == Null
    ensures forall k :: k in form && k !in {"numero", "dataRequisicao", "status", "aprovacao"} ==> k in r && r[k] == form[k]
  {
    form + map[
      "numero" := Str(numero),
      "dataRequisicao" := Day(now),
      "status" := Str("pendente"),
      "aprovacao" := Obj(PendingApproval)]
  }

  /** What `handleSaveCotacao` adds to the form's fields for a new quotation. */
  function NewCotacao(form: Record, numero: string, now: int): (c: Record)
    ensures Get(c, "numero") == Str(numero) && Get(c, "status") == Str("pendente")
    ensures ApprovalStatus(c) == Str("pendente") && Prop(Get(c, "aprovacao"), "dataEnvio") == Day(now)
    ensures forall k :: k in form && k !in {"numero", "dataEmissao", "status", "aprovacao"} ==> k in c && c[k] == form[k]
  {
    form + map[
      "numero" := Str(numero),
      "dataEmissao" := Day(now),
      "status" := Str("pendente"),
      "aprovacao" := Obj(PendingApproval["dataEnvio" := Day(now)])]
  }

  /** The receipt record of a new order: pending, nothing received yet. */
  const PendingReceipt: map<string, Value> :=
    map["status" := Str("pendente"), "dataRecebimento" := Null, "recebidoPor" := Null,
        "observacoes" := Null, "itensRecebidos" := Arr([])]

  /** What `handleSavePedido` adds to the form's fields for a new order. */
  function NewPedido(form: Record, numero: string, now: int): (p: Record)
    ensures Get(p, "numero") == Str(numero) && Get(p, "status") == Str("enviado")
    ensures Get(p, "dataEmissao") == Day(now)
    ensures Prop(Get(p, "recebimento"), "status") == Str("pendente")
    ensures Prop(Get(p, "recebimento"), "itensRecebidos") == Arr([])
    ensures forall k :: k in form && k !in {"numero", "dataEmissao", "status", "recebimento"} ==> k in p && p[k] == form[k]
  {
    form + map[
      "numero" := Str(numero),
      "dataEmissao" := Day(now),
      "status" := Str("enviado"),
      "recebimento" := Obj(PendingReceipt)]
  }

  // ------------------------------------------------------------------ status updates

  /** The update `handleAprovarRequisicao` merges: the flat status and four literal dotted keys. */
  function RequisicaoApproval(now: int): Record {
    map[
      "status" := Str("aprovada"),
      "aprovacao.status" := Str("aprovada"),
      "aprovacao.aprovadoPor" := Str(Approver),
      "aprovacao.dataAprovacao" := Day(now),
      "aprovacao.observacoes" := Str("Aprovado para cotação")]
  }

  /** The update `handleRejeitarRequisicao` merges. */
  function RequisicaoRejection(now: int): Record {
    map[
      "status" := Str("rejeitada"),
      "aprovacao.status" := Str("rejeitada"),
      "aprovacao.aprovadoPor" := Str(Approver),
      "aprovacao.dataAprovacao" := Day(now),
      "aprovacao.observacoes" := Str("Requisição rejeitada")]
  }

  /** The update `handleAprovarCotacao` merges. */
  function CotacaoApproval(now: int): Record {
    map[
      "aprovacao.status" := Str("aprovada"),
      "aprovacao.dataAprovacao" := Day(now),
      "aprovacao.aprovadoPor" := Str(Approver),
      "status" := Str("aprovada")]
  }

  /** The update `handleRejeitarCotacao` merges. */
  function CotacaoRejection(now: int): Record {
    map[
      "aprovacao.status" := Str("rejeitada"),
      "aprovacao.dataRejeicao" := Day(now),
      "aprovacao.aprovadoPor" := Str(Approver),
      "status" := Str("rejeitada")]
  }

  /** The update `handleReceberPedido` merges into the order. */
  function ReceiptUpdate(now: int): Record {
    map[
      "status" := Str("recebido"),
      "dataEntrega" := Day(now),
      "recebimento.status" := Str("completo"),
      "recebimento.dataRecebimento" := Day(now),
      "recebimento.recebidoPor" := Str(Receiver)]
  }

  /** The record with the given id is in the list the tab shows with a `pendente` status. */
  predicate ShownPending(coll: seq<Record>, id: Value) {
    exists i :: 0 <= i < |coll| && HasId(coll[i], id) && Get(coll[i], "status") == Str("pendente")
  }

  /** The quotation with the given id is shown with its nested approval `pendente`. */
  predicate ShownApprovalPending(coll: seq<Record>, id: Value) {
    exists i :: 0 <= i < |coll| && HasId(coll[i], id) && ApprovalStatus(coll[i]) == Str("pendente")
  }

  /** Only collection `c` of the store differs. */
  predicate OnlyChanged(before: Data, after: Data, cs: set<string>) {
    after - cs == before - cs
  }

  lemma UpdateOnlyChanged(d: Data, c: string, v: seq<Record>, cs: set<string>)
    requires c in cs
    ensures OnlyChanged(d, d[c := v], cs)
  {
  }

  lemma AppendedOnlyChanged(d: Data, c: string, items: seq<Record>, cs: set<string>)
    requires c in cs
    ensures OnlyChanged(d, Appended(d, c, items), cs)
  {
  }

  lemma OnlyChangedCollection(a: Data, b: Data, cs: set<string>, c: string)
    requires OnlyChanged(a, b, cs) && c !in cs
    ensures Collection(b, c) == Collection(a, c)
  {
    assert c in b <==> c in b - cs;
    assert c in a <==> c in a - cs;
    if c in b {
      assert b[c] == (b - cs)[c];
      assert a[c] == (a - cs)[c];
    }
  }

  lemma OnlyChangedWiden(a: Data, b: Data, cs: set<string>, ds: set<string>)
    requires OnlyChanged(a, b, cs) && cs <= ds
    ensures OnlyChanged(a, b, ds)
  {
    assert b - ds == (b - cs) - ds;
    assert a - ds == (a - cs) - ds;
  }

  lemma OnlyChangedTrans(a: Data, b: Data, c: Data, cs: set<string>)
    requires OnlyChanged(a, b, cs) && OnlyChanged(b, c, cs)
    ensures OnlyChanged(a, c, cs)
  {
  }

  // ------------------------------------------------------------------ requisition handlers

  /** `handleSaveRequisicao`: update the edited requisition, or add a new pending one. */
  method SaveRequisicao(s: Store, editing: Option<Record>, form: Record, now: int, year: nat)
    requires editing.None? ==> NumerosReadable(Collection(s.view, "requisicoes"))
    modifies s
    ensures editing.Some? ==>
      s.data == old(s.data)["requisicoes" := MergeById(Collection(old(s.data), "requisicoes"), Get(editing.value, "id"), form)]
    ensures editing.None? ==>
      var numero := GenerateNumber(old(s.view), "REQ", "requisicoes", year);
      s.data == Appended(old(s.data), "requisicoes", [NewRequisicao(form, numero, now)["id" := NextId(old(s.view), "requisicoes")]])
    ensures s.view == old(s.view)
  {
    if editing.Some? {
      s.UpdateItem("requisicoes", Get(editing.value, "id"), form);
    } else {
      var numero := GenerateNumber(s.view, "REQ", "requisicoes", year);
      var novaRequisicao := NewRequisicao(form, numero, now);
      var _ := s.AddItem("requisicoes", novaRequisicao);
    }
  }

  /** `handleAprovarRequisicao`, offered only for a requisition shown as `pendente`. */
  method AprovarRequisicao(s: Store, id: Value, now: int)
    requires ShownPending(Collection(s.view, "requisicoes"), id)
    modifies s
    ensures s.data == old(s.data)["requisicoes" := MergeById(Collection(old(s.data), "requisicoes"), id, RequisicaoApproval(now))]
    ensures s.view == old(s.view)
  {
    s.UpdateItem("requisicoes", id, RequisicaoApproval(now));
  }

  /** `handleRejeitarRequisicao`, offered only for a requisition shown as `pendente`. */
  method RejeitarRequisicao(s: Store, id: Value, now: int)
    requires ShownPending(Collection(s.view, "requisicoes"), id)
    modifies s
    ensures s.data == old(s.data)["requisicoes" := MergeById(Collection(old(s.data), "requisicoes"), id, RequisicaoRejection(now))]
    ensures s.view == old(s.view)
  {
    s.UpdateItem("requisicoes", id, RequisicaoRejection(now));
  }

  /**
   * Approving a requisition makes every record with that id `aprovada` and
   * touches no other; an approved requisition nobody has quoted is then
   * offered for a quotation. Its nested `aprovacao` is left as it was.
   */
  lemma ApprovedRequisicaoQuotable(requisicoes: seq<Record>, cotacoes: seq<Record>, id: Value, now: int)
    ensures var after := MergeById(requisicoes, id, RequisicaoApproval(now));
      forall i :: 0 <= i < |requisicoes| ==>
        (HasId(requisicoes[i], id) ==>
           Get(after[i], "status") == Str("aprovada")
           && Get(after[i], "aprovacao") == Get(requisicoes[i], "aprovacao")
           && (!AnyRefers(cotacoes, "requisicaoId", id) ==> after[i] in EligibleRequisicoes(after, cotacoes)))
        && (!HasId(requisicoes[i], id) ==> after[i] == requisicoes[i])
  {
    var after := MergeById(requisicoes, id, RequisicaoApproval(now));
    forall i | 0 <= i < |requisicoes| && HasId(requisicoes[i], id)
      ensures Get(after[i], "status") == Str("aprovada")
      ensures Get(after[i], "aprovacao") == Get(requisicoes[i], "aprovacao")
      ensures !AnyRefers(cotacoes, "requisicaoId", id) ==> after[i] in EligibleRequisicoes(after, cotacoes)
    {
      ApprovedRequisicaoAt(requisicoes, cotacoes, id, now, i);
    }
  }

  lemma ApprovedRequisicaoAt(requisicoes: seq<Record>, cotacoes: seq<Record>, id: Value, now: int, i: nat)
    requires i < |requisicoes| && HasId(requisicoes[i], id)
    ensures var after := MergeById(requisicoes, id, RequisicaoApproval(now));
      Get(after[i], "status") == Str("aprovada")
      && Get(after[i], "aprovacao") == Get(requisicoes[i], "aprovacao")
      && (!AnyRefers(cotacoes, "requisicaoId", id) ==> after[i] in EligibleRequisicoes(after, cotacoes))
  {
    var after := MergeById(requisicoes, id, RequisicaoApproval(now));
    assert "aprovacao" !in RequisicaoApproval(now) && "id" !in RequisicaoApproval(now);
    assert Get(after[i], "id") == Get(requisicoes[i], "id");
    if !AnyRefers(cotacoes, "requisicaoId", id) {
      AnyRefersSameId(cotacoes, "requisicaoId", id, Get(after[i], "id"));
      assert QuotableRequisicao(after[i], cotacoes);
      assert after[i] in after;
    }
  }

  /** `some(x => x[key] === a)` and `... === b` agree when `a` and `b` are strictly equal. */
  lemma {:induction false} AnyRefersSameId(coll: seq<Record>, key: string, a: Value, b: Value)
    requires StrictEq(b, a)
    ensures AnyRefers(coll, key, b) <==> AnyRefers(coll, key, a)
  {
    if coll != [] {
      StrictEqSymmetricTransitive(Get(coll[0], key), a, b);
      AnyRefersSameId(coll[1..], key, a, b);
    }
  }

  lemma StrictEqSymmetricTransitive(x: Value, a: Value, b: Value)
    requires StrictEq(b, a)
    ensures StrictEq(x, b) <==> StrictEq(x, a)
  {
  }

  // ------------------------------------------------------------------ quotation handlers

  /**
   * `handleNovaCotacao`: the quotation form opens only when some requisition
   * is eligible; otherwise only a warning is shown. The store is not touched.
   */
  method NovaCotacao(s: Store) returns (shown: bool)
    ensures shown <==> exists r :: r in Collection(s.view, "requisicoes") && QuotableRequisicao(r, Collection(s.view, "cotacoes"))
  {
    var elegiveis := EligibleRequisicoes(Collection(s.view, "requisicoes"), Collection(s.view, "cotacoes"));
    shown := |elegiveis| != 0;
    if shown {
      assert elegiveis[0] in elegiveis;
    }
  }

  /**
   * What adding the quotation `nova` (its id already stamped) leaves in the
   * store: the quotation appended, the requisition `requisicaoId` marked
   * `em-cotacao`, nothing else changed.
   */
  predicate QuotationAdded(d0: Data, d: Data, nova: Record, requisicaoId: Value) {
    Collection(d, "cotacoes") == Collection(d0, "cotacoes") + [nova]
    && Collection(d, "requisicoes") == MergeById(Collection(d0, "requisicoes"), requisicaoId, map["status" := Str("em-cotacao")])
    && "cotacoes" in d && "requisicoes" in d
    && OnlyChanged(d0, d, {"cotacoes", "requisicoes"})
  }

  /** `handleSaveCotacao`: update the edited quotation, or add a new pending one and mark its requisition `em-cotacao`. */
  method SaveCotacao(s: Store, editing: Option<Record>, form: Record, now: int, year: nat)
    requires editing.None? ==> NumerosReadable(Collection(s.view, "cotacoes"))
    modifies s
    ensures editing.Some? ==>
      s.data == old(s.data)["cotacoes" := MergeById(Collection(old(s.data), "cotacoes"), Get(editing.value, "id"), form)]
    ensures editing.None? ==>
      var numero := GenerateNumber(old(s.view), "COT", "cotacoes", year);
      QuotationAdded(old(s.data), s.data, NewCotacao(form, numero, now)["id" := NextId(old(s.view), "cotacoes")], Get(form, "requisicaoId"))
    ensures s.view == old(s.view)
  {
    if editing.Some? {
      s.UpdateItem("cotacoes", Get(editing.value, "id"), form);
    } else {
      var numero := GenerateNumber(s.view, "COT", "cotacoes", year);
      var novaCotacao := NewCotacao(form, numero, now);
      AddCotacao(s, novaCotacao, Get(form, "requisicaoId"));
    }
  }

  /** The new-quotation branch of `handleSaveCotacao`, once the quotation is built. */
  method AddCotacao(s: Store, novaCotacao: Record, requisicaoId: Value)
    modifies s
    ensures QuotationAdded(old(s.data), s.data, novaCotacao["id" := NextId(old(s.view), "cotacoes")], requisicaoId)
    ensures s.view == old(s.view)
  {
    ghost var d0 := s.data;
    var criada := s.AddItem("cotacoes", novaCotacao);
    AppendedOnlyChanged(d0, "cotacoes", [criada], {"cotacoes", "requisicoes"});
    CollectionAppended(d0, "cotacoes", [criada], "requisicoes");
    ghost var d1 := s.data;
    s.UpdateItem("requisicoes", requisicaoId, map["status" := Str("em-cotacao")]);
    assert Collection(s.data, "cotacoes") == Collection(d1, "cotacoes");
    UpdateOnlyChanged(d1, "requisicoes", s.data["requisicoes"], {"cotacoes", "requisicoes"});
    OnlyChangedTrans(d0, d1, s.data, {"cotacoes", "requisicoes"});
  }

  /**
   * Once a quotation for requisition `rid` is saved, no requisition with that
   * id is offered for a quotation any more.
   */
  lemma SavedCotacaoClosesRequisicao(requisicoes: seq<Record>, cotacoes: seq<Record>, nova: Record, rid: Value)
    requires StrictEq(Get(nova, "requisicaoId"), rid)
    ensures var after := MergeById(requisicoes, rid, map["status" := Str("em-cotacao")]);
      forall r :: r in EligibleRequisicoes(after, cotacoes + [nova]) ==> !HasId(r, rid)
  {
    var after := MergeById(requisicoes, rid, map["status" := Str("em-cotacao")]);
    AnyRefersAppend(cotacoes, nova, "requisicaoId", rid);
    forall r | r in EligibleRequisicoes(after, cotacoes + [nova]) ensures !HasId(r, rid) {
      if HasId(r, rid) {
        AnyRefersSameId(cotacoes + [nova], "requisicaoId", rid, Get(r, "id"));
        assert false;
      }
    }
  }

  /** `handleAprovarCotacao`, offered only for a quotation whose nested approval is `pendente`. */
  method AprovarCotacao(s: Store, id: Value, now: int)
    requires ShownApprovalPending(Collection(s.view, "cotacoes"), id)
    modifies s
    ensures s.data == old(s.data)["cotacoes" := MergeById(Collection(old(s.data), "cotacoes"), id, CotacaoApproval(now))]
    ensures s.view == old(s.view)
  {
    s.UpdateItem("cotacoes", id, CotacaoApproval(now));
  }

  /** `handleRejeitarCotacao`, offered only for a quotation whose nested approval is `pendente`. */
  method RejeitarCotacao(s: Store, id: Value, now: int)
    requires ShownApprovalPending(Collection(s.view, "cotacoes"), id)
    modifies s
    ensures s.data == old(s.data)["cotacoes" := MergeById(Collection(old(s.data), "cotacoes"), id, CotacaoRejection(now))]
    ensures s.view == old(s.view)
  {
    s.UpdateItem("cotacoes", id, CotacaoRejection(now));
  }

  /** An update without an `aprovacao` key leaves every nested approval status as it was. */
  lemma {:induction false} MergeKeepsApprovals(coll: seq<Record>, id: Value, updates: Record, status: string)
    requires "aprovacao" !in updates && ApprovalsReadable(coll)
    ensures var after := MergeById(coll, id, updates);
      ApprovalsReadable(after)
      && (forall i :: 0 <= i < |coll| ==> ApprovalStatus(after[i]) == ApprovalStatus(coll[i]))
      && CountApprovalStatus(after, status) == CountApprovalStatus(coll, status)
  {
    var after := MergeById(coll, id, updates);
    forall i | 0 <= i < |coll| ensures Get(after[i], "aprovacao") == Get(coll[i], "aprovacao") {
    }
    if coll != [] {
      MergeKeepsApprovals(coll[1..], id, updates, status);
      assert MergeById(coll[1..], id, updates) == after[1..];
    }
  }

  /**
   * As written, approving a quotation only adds the literal key
   * `"aprovacao.status"`: its nested approval stays `pendente`, so it is
   * never offered for an order and stays in the pending-approval count.
   */
  lemma ApprovedCotacaoNeverOrderable(cotacoes: seq<Record>, pedidos: seq<Record>, id: Value, now: int)
    requires ApprovalsReadable(cotacoes) && ShownApprovalPending(cotacoes, id)
    ensures var after := MergeById(cotacoes, id, CotacaoApproval(now));
      ApprovalsReadable(after)
      && (forall i :: 0 <= i < |cotacoes| && HasId(cotacoes[i], id) && ApprovalStatus(cotacoes[i]) == Str("pendente") ==>
            Get(after[i], "status") == Str("aprovada")
            && ApprovalStatus(after[i]) == Str("pendente")
            && after[i] !in EligibleCotacoes(after, pedidos))
      && CountApprovalStatus(after, "pendente") == CountApprovalStatus(cotacoes, "pendente")
  {
    MergeKeepsApprovals(cotacoes, id, CotacaoApproval(now), "pendente");
  }

  /**
   * The approval the quotation flow needs: `status` and the nested
   * `aprovacao` object (status, date, approver) are written together.
   */
  function CotacaoApprovalNested(cotacao: Record, now: int): Record
    requires Get(cotacao, "aprovacao").Obj?
  {
    map[
      "status" := Str("aprovada"),
      "aprovacao" := Obj(Get(cotacao, "aprovacao").fields + map[
        "status" := Str("aprovada"),
        "dataAprovacao" := Day(now),
        "aprovadoPor" := Str(Approver)])]
  }

  /**
   * With the nested update, the approved quotation is offered for an order
   * as soon as no order refers to it, and it leaves the pending count.
   */
  lemma NestedApprovalMakesOrderable(cotacoes: seq<Record>, pedidos: seq<Record>, k: nat, now: int)
    requires k < |cotacoes| && ApprovalsReadable(cotacoes) && Get(cotacoes[k], "aprovacao").Obj?
    requires forall j :: 0 <= j < |cotacoes| && j != k ==> !HasId(cotacoes[j], Get(cotacoes[k], "id"))
    requires !AnyRefers(pedidos, "cotacaoId", Get(cotacoes[k], "id"))
    ensures var id := Get(cotacoes[k], "id");
      var after := MergeById(cotacoes, id, CotacaoApprovalNested(cotacoes[k], now));
      HasId(cotacoes[k], id) ==>
        ApprovalsReadable(after)
        && ApprovalStatus(after[k]) == Str("aprovada")
        && after[k] in EligibleCotacoes(after, pedidos)
  {
    var id := Get(cotacoes[k], "id");
    var after := MergeById(cotacoes, id, CotacaoApprovalNested(cotacoes[k], now));
    if HasId(cotacoes[k], id) {
      forall j | 0 <= j < |after| ensures ApprovalReadable(after[j]) {
        if j != k {
          assert after[j] == cotacoes[j];
        }
      }
      assert Get(after[k], "id") == id;
      AnyRefersSameId(pedidos, "cotacaoId", id, id);
      assert after[k] in after;
    }
  }

  /** The approval with the nested update, as `handleAprovarCotacao` would issue it. */
  method AprovarCotacaoNested(s: Store, id: Value, now: int)
    requires ShownApprovalPending(Collection(s.view, "cotacoes"), id)
    modifies s
    ensures var cotacao := FindById(Collection(old(s.view), "cotacoes"), id);
      cotacao.Some? && Get(cotacao.value, "aprovacao").Obj? ==>
        s.data == old(s.data)["cotacoes" := MergeById(Collection(old(s.data), "cotacoes"), id, CotacaoApprovalNested(cotacao.value, now))]
    ensures s.view == old(s.view)
  {
    var cotacao := FindById(Collection(s.view, "cotacoes"), id);
    if cotacao.Some? && Get(cotacao.value, "aprovacao").Obj? {
      s.UpdateItem("cotacoes", id, CotacaoApprovalNested(cotacao.value, now));
    }
  }

  // ------------------------------------------------------------------ order handlers

  /**
   * `handleNovoPedido`: the order form opens only when some quotation is
   * eligible; otherwise only a warning is shown. The store is not touched.
   */
  method NovoPedido(s: Store) returns (shown: bool)
    requires ApprovalsReadable(Collection(s.view, "cotacoes"))
    ensures shown <==> exists c :: c in Collection(s.view, "cotacoes") && OrderableCotacao(c, Collection(s.view, "pedidos"))
  {
    var elegiveis := EligibleCotacoes(Collection(s.view, "cotacoes"), Collection(s.view, "pedidos"));
    shown := |elegiveis| != 0;
    if shown {
      assert elegiveis[0] in elegiveis;
    }
  }

  datatype SaveOutcome =
    | Updated        // an existing order was edited
    | Created        // order, titles and quotation status all written
    | NoSupplier     // `fornecedor.termosPagamento` on `undefined` throws after the order is added
    | InvalidTerms   // a piece of the terms gives an invalid due date and throws

  predicate SuppliersReadable(fornecedores: seq<Record>) {
    forall i :: 0 <= i < |fornecedores| ==> TermsReadable(Get(fornecedores[i], "termosPagamento"))
  }

  /**
   * What placing the new order `pedido` (its id already stamped) leaves in
   * the store, from the state `d0` and the screen `v0` it started from: the
   * order is added; with its supplier found, the titles of the supplier's
   * terms follow; with all terms valid, the quotation becomes
   * `pedido-gerado`. Nothing else changes.
   */
  ghost predicate OrderPlaced(d0: Data, v0: Data, d: Data, pedido: Record, fornecedor: Option<Record>, cotacaoId: Value, outcome: SaveOutcome)
    requires OrderHead(pedido)
    requires fornecedor.Some? ==> TermsReadable(Get(fornecedor.value, "termosPagamento"))
  {
    Collection(d, "pedidos") == Collection(d0, "pedidos") + [pedido]
    && (fornecedor.None? ==> outcome == NoSupplier && d == Appended(d0, "pedidos", [pedido]))
    && (fornecedor.Some? ==>
          var terms := TermsOf(Get(fornecedor.value, "termosPagamento"));
          var titulos := StampedTitles(pedido, fornecedor.value, OrderPlan(pedido, fornecedor.value), NextId(v0, "titulosPagar"));
          Collection(d, "titulosPagar") == Collection(d0, "titulosPagar") + titulos
          && (outcome == Created <==> Complete(terms))
          && (outcome == Created ==>
                Collection(d, "cotacoes")
                == MergeById(Collection(d0, "cotacoes"), cotacaoId, map["status" := Str("pedido-gerado")]))
          && (outcome != Created ==> outcome == InvalidTerms && Collection(d, "cotacoes") == Collection(d0, "cotacoes")))
    && OnlyChanged(d0, d, {"pedidos", "titulosPagar", "cotacoes"})
  }

  /** The new order `handleSavePedido` builds from the form, with the id `addItem` gives it. */
  function StampedPedido(v0: Data, form: Record, now: int, year: nat): (p: Record)
    requires NumerosReadable(Collection(v0, "pedidos")) && Get(form, "valorTotal").Num?
    ensures OrderHead(p)
  {
    NewPedido(form, GenerateNumber(v0, "PC", "pedidos", year), now)["id" := NextId(v0, "pedidos")]
  }

  /**
   * `handleSavePedido`: update the edited order; or add a new `enviado`
   * order, generate its payable titles from the supplier's terms and mark
   * its quotation `pedido-gerado`. Updates queued before an exception stay.
   */
  method SavePedido(s: Store, editing: Option<Record>, form: Record, now: int, year: nat)
    returns (outcome: SaveOutcome)
    requires editing.None? ==>
      NumerosReadable(Collection(s.view, "pedidos"))
      && Get(form, "valorTotal").Num?
      && SuppliersReadable(Collection(s.view, "fornecedores"))
    modifies s
    ensures editing.Some? ==>
      outcome == Updated
      && s.data == old(s.data)["pedidos" := MergeById(Collection(old(s.data), "pedidos"), Get(editing.value, "id"), form)]
    ensures editing.None? ==>
      OrderPlaced(old(s.data), old(s.view), s.data, StampedPedido(old(s.view), form, now, year),
                  FindById(Collection(old(s.view), "fornecedores"), Get(form, "fornecedorId")), Get(form, "cotacaoId"), outcome)
    ensures s.view == old(s.view)
  {
    if editing.Some? {
      s.UpdateItem("pedidos", Get(editing.value, "id"), form);
      outcome := Updated;
    } else {
      outcome := SaveNewPedido(s, form, now, year);
    }
  }

  /** The new-order branch of `handleSavePedido`. */
  method SaveNewPedido(s: Store, form: Record, now: int, year: nat) returns (outcome: SaveOutcome)
    requires NumerosReadable(Collection(s.view, "pedidos"))
    requires Get(form, "valorTotal").Num?
    requires SuppliersReadable(Collection(s.view, "fornecedores"))
    modifies s
    ensures OrderPlaced(old(s.data), old(s.view), s.data, StampedPedido(old(s.view), form, now, year),
                        FindById(Collection(old(s.view), "fornecedores"), Get(form, "fornecedorId")), Get(form, "cotacaoId"), outcome)
    ensures s.view == old(s.view)
  {
    var fornecedor := FindById(Collection(s.view, "fornecedores"), Get(form, "fornecedorId"));
    if fornecedor.Some? {
      ghost var k := FirstMatch(Collection(s.view, "fornecedores"), Get(form, "fornecedorId"));
      assert TermsReadable(Get(fornecedor.value, "termosPagamento"));
    }
    var numero := GenerateNumber(s.view, "PC", "pedidos", year);
    var novoPedido := NewPedido(form, numero, now);
    ghost var stamped := StampedPedido(s.view, form, now, year);
    outcome := PlaceOrder(s, novoPedido, fornecedor, Get(form, "cotacaoId"));
  }

  /** Adds the new order, then bills it when its supplier was found. */
  method PlaceOrder(s: Store, novoPedido: Record, fornecedor: Option<Record>, cotacaoId: Value) returns (outcome: SaveOutcome)
    requires OrderHead(novoPedido)
    requires fornecedor.Some? ==> TermsReadable(Get(fornecedor.value, "termosPagamento"))
    modifies s
    ensures OrderHead(novoPedido["id" := NextId(old(s.view), "pedidos")])
    ensures OrderPlaced(old(s.data), old(s.view), s.data, novoPedido["id" := NextId(old(s.view), "pedidos")], fornecedor, cotacaoId, outcome)
    ensures s.view == old(s.view)
  {
    ghost var d0 := s.data;
    var pedidoCriado := s.AddItem("pedidos", novoPedido);
    assert OrderHead(pedidoCriado);
    AppendedOnlyChanged(d0, "pedidos", [pedidoCriado], {"pedidos", "titulosPagar", "cotacoes"});
    if fornecedor.None? {
      outcome := NoSupplier;
      return;
    }
    ghost var d1 := s.data;
    assert Collection(d1, "pedidos") == Collection(d0, "pedidos") + [pedidoCriado];
    assert Collection(d1, "titulosPagar") == Collection(d0, "titulosPagar");
    assert Collection(d1, "cotacoes") == Collection(d0, "cotacoes");
    outcome := BillOrder(s, pedidoCriado, fornecedor.value, cotacaoId);
    OnlyChangedCollection(d1, s.data, {"titulosPagar", "cotacoes"}, "pedidos");
    OnlyChangedWiden(d1, s.data, {"titulosPagar", "cotacoes"}, {"pedidos", "titulosPagar", "cotacoes"});
    OnlyChangedTrans(d0, d1, s.data, {"pedidos", "titulosPagar", "cotacoes"});
  }

  /**
   * The part of `handleSavePedido` after the new order is added: its payable
   * titles, then the quotation's `pedido-gerado` status.
   */
  method BillOrder(s: Store, pedido: Record, fornecedor: Record, cotacaoId: Value) returns (outcome: SaveOutcome)
    requires OrderHead(pedido) && TermsReadable(Get(fornecedor, "termosPagamento"))
    modifies s
    ensures var titulos := StampedTitles(pedido, fornecedor, OrderPlan(pedido, fornecedor), NextId(old(s.view), "titulosPagar"));
      Collection(s.data, "titulosPagar") == Collection(old(s.data), "titulosPagar") + titulos
    ensures outcome == Created <==> Complete(TermsOf(Get(fornecedor, "termosPagamento")))
    ensures outcome == Created ==>
      Collection(s.data, "cotacoes") == MergeById(Collection(old(s.data), "cotacoes"), cotacaoId, map["status" := Str("pedido-gerado")])
    ensures outcome != Created ==> outcome == InvalidTerms && Collection(s.data, "cotacoes") == Collection(old(s.data), "cotacoes")
    ensures OnlyChanged(old(s.data), s.data, {"titulosPagar", "cotacoes"})
    ensures s.view == old(s.view)
  {
    ghost var d0 := s.data;
    var titulos, completed := s.CreateTitulosPagar(pedido, fornecedor);
    AppendedOnlyChanged(d0, "titulosPagar", titulos, {"titulosPagar", "cotacoes"});
    CollectionAppended(d0, "titulosPagar", titulos, "cotacoes");
    if !completed {
      outcome := InvalidTerms;
      return;
    }
    ghost var d1 := s.data;
    s.UpdateItem("cotacoes", cotacaoId, map["status" := Str("pedido-gerado")]);
    assert Collection(s.data, "titulosPagar") == Collection(d1, "titulosPagar");
    UpdateOnlyChanged(d1, "cotacoes", s.data["cotacoes"], {"titulosPagar", "cotacoes"});
    OnlyChangedTrans(d0, d1, s.data, {"titulosPagar", "cotacoes"});
    outcome := Created;
  }

  /** Once an order for quotation `cid` is saved, no quotation with that id is offered for an order. */
  lemma SavedPedidoClosesCotacao(cotacoes: seq<Record>, pedidos: seq<Record>, novo: Record, cid: Value)
    requires ApprovalsReadable(cotacoes) && StrictEq(Get(novo, "cotacaoId"), cid)
    ensures forall c :: c in EligibleCotacoes(cotacoes, pedidos + [novo]) ==> !HasId(c, cid)
  {
    AnyRefersAppend(pedidos, novo, "cotacaoId", cid);
    forall c | c in EligibleCotacoes(cotacoes, pedidos + [novo]) ensures !HasId(c, cid) {
      if HasId(c, cid) {
        AnyRefersSameId(pedidos + [novo], "cotacaoId", cid, Get(c, "id"));
        assert false;
      }
    }
  }

  // ------------------------------------------------------------------ receipt

  /**
   * A line of a received order can be read: it is an object, and when its
   * product is in the list, that product's stock and the line's quantity
   * are numbers (the handler adds them).
   */
  predicate LineReadable(produtos: seq<Record>, item: Value) {
    !item.Undefined? && !item.Null?
    && (FindById(produtos, Prop(item, "produtoId")).Some? ==>
          Get(FindById(produtos, Prop(item, "produtoId")).value, "estoqueAtual").Num?
          && Prop(item, "quantidade").Num?)
  }

  predicate LinesReadable(produtos: seq<Record>, itens: seq<Value>) {
    forall i :: 0 <= i < |itens| ==> LineReadable(produtos, itens[i])
  }

  /** The update written for one line: the product's stock as `produtos` shows it, plus the quantity. */
  function StockUpdate(produto: Record, item: Value): Record
    requires Get(produto, "estoqueAtual").Num? && Prop(item, "quantidade").Num?
  {
    map["estoqueAtual" := Num(Get(produto, "estoqueAtual").n + Prop(item, "quantidade").n)]
  }

  /**
   * The product list after the receipt loop as written: every line's new
   * stock is computed from the `snapshot` the screen rendered, and merged
   * into the `current` list in line order.
   */
  function ApplyReceipt(current: seq<Record>, snapshot: seq<Record>, itens: seq<Value>): (r: seq<Record>)
    requires LinesReadable(snapshot, itens)
    ensures |r| == |current|
    ensures forall j :: 0 <= j < |current| ==> Get(r[j], "id") == Get(current[j], "id")
  {
    if itens == [] then current
    else
      var prev := ApplyReceipt(current, snapshot, itens[..|itens| - 1]);
      var item := itens[|itens| - 1];
      match FindById(snapshot, Prop(item, "produtoId"))
      case None => prev
      case Some(produto) => MergeById(prev, Prop(item, "produtoId"), StockUpdate(produto, item))
  }

  /** The index of the last line naming product `pid`, or -1 when no line does. */
  function LastLine(itens: seq<Value>, pid: Value): (i: int)
    ensures -1 <= i < |itens|
    ensures 0 <= i ==> StrictEq(Prop(itens[i], "produtoId"), pid)
    ensures forall j :: i < j < |itens| ==> !StrictEq(Prop(itens[j], "produtoId"), pid)
  {
    if itens == [] then -1
    else if StrictEq(Prop(itens[|itens| - 1], "produtoId"), pid) then |itens| - 1
    else LastLine(itens[..|itens| - 1], pid)
  }

  /**
   * As written, the product at `k` (a numeric id) ends at the stock the
   * screen showed plus the quantity of the last line naming it, when that
   * product is on screen; otherwise its record is left as it was.
   */
  lemma {:induction false} ReceiptLastLine(current: seq<Record>, snapshot: seq<Record>, itens: seq<Value>, k: nat)
    requires LinesReadable(snapshot, itens)
    requires k < |current| && Get(current[k], "id").Num?
    ensures var pid := Get(current[k], "id");
      var i := LastLine(itens, pid);
      var after := ApplyReceipt(current, snapshot, itens)[k];
      (0 <= i && FindById(snapshot, pid).Some? ==>
         Get(after, "estoqueAtual")
         == Num(Get(FindById(snapshot, pid).value, "estoqueAtual").n + Prop(itens[i], "quantidade").n))
      && (i < 0 || FindById(snapshot, pid).None? ==> after == current[k])
  {
    var pid := Get(current[k], "id");
    if itens != [] {
      var init := itens[..|itens| - 1];
      var item := itens[|itens| - 1];
      var line := Prop(item, "produtoId");
      assert LinesReadable(snapshot, init) by {
        forall j | 0 <= j < |init| ensures LineReadable(snapshot, init[j]) {
          assert init[j] == itens[j];
        }
      }
      ReceiptLastLine(current, snapshot, init, k);
      var prev := ApplyReceipt(current, snapshot, init);
      assert Get(prev[k], "id") == pid;
      if StrictEq(line, pid) {
        assert line == pid;
        assert LastLine(itens, pid) == |itens| - 1;
      } else {
        assert LastLine(itens, pid) == LastLine(init, pid);
        assert !HasId(prev[k], line);
        assert ApplyReceipt(current, snapshot, itens)[k] == prev[k];
      }
    }
  }

  /** As written, lines whose product is not on screen leave the product list as it was. */
  lemma {:induction false} ReceiptSkipsUnknown(current: seq<Record>, snapshot: seq<Record>, itens: seq<Value>)
    requires LinesReadable(snapshot, itens)
    requires forall i :: 0 <= i < |itens| ==> FindById(snapshot, Prop(itens[i], "produtoId")).None?
    ensures ApplyReceipt(current, snapshot, itens) == current
  {
    if itens != [] {
      var init := itens[..|itens| - 1];
      assert forall j :: 0 <= j < |init| ==> init[j] == itens[j];
      ReceiptSkipsUnknown(current, snapshot, init);
    }
  }

  /**
   * When the screen is up to date and no two lines name the same product,
   * the loop as written is right: every product named by a line ends at its
   * old stock plus that line's quantity.
   */
  lemma ReceiptDistinctLines(current: seq<Record>, itens: seq<Value>, j: nat, k: nat)
    requires LinesReadable(current, itens)
    requires forall a, b :: 0 <= a < b < |itens| ==>
      !StrictEq(Prop(itens[a], "produtoId"), Prop(itens[b], "produtoId"))
    requires k < |current| && Get(current[k], "id").Num?
    requires forall m :: 0 <= m < |current| && m != k ==> !HasId(current[m], Get(current[k], "id"))
    requires j < |itens| && StrictEq(Prop(itens[j], "produtoId"), Get(current[k], "id"))
    ensures Get(current[k], "estoqueAtual").Num? && Prop(itens[j], "quantidade").Num?
    ensures Get(ApplyReceipt(current, current, itens)[k], "estoqueAtual")
            == Num(Get(current[k], "estoqueAtual").n + Prop(itens[j], "quantidade").n)
  {
    var pid := Get(current[k], "id");
    FoundUnique(current, k);
    var i := LastLine(itens, pid);
    assert i == j;
    assert Prop(itens[j], "produtoId") == pid;
    assert LineReadable(current, itens[j]);
    ReceiptLastLine(current, current, itens, k);
  }

  /** A record whose numeric id no other record carries is the one found by that id. */
  lemma FoundUnique(coll: seq<Record>, k: nat)
    requires k < |coll| && Get(coll[k], "id").Num?
    requires forall m :: 0 <= m < |coll| && m != k ==> !HasId(coll[m], Get(coll[k], "id"))
    ensures FindById(coll, Get(coll[k], "id")) == Some(coll[k])
  {
    var f := FirstMatch(coll, Get(coll[k], "id"));
    assert HasId(coll[k], Get(coll[k], "id"));
    assert f == k;
  }

  /** The order with the given id as the screen shows it can be received. */
  predicate ReceivableOrder(pedidos: seq<Record>, produtos: seq<Record>, id: Value) {
    FindById(pedidos, id).Some? ==>
      Get(FindById(pedidos, id).value, "itens").Arr?
      && LinesReadable(produtos, Get(FindById(pedidos, id).value, "itens").elems)
  }

  /**
   * `handleReceberPedido`: an unknown id changes nothing; otherwise the
   * order is marked received and every line adds its quantity to the stock
   * its product had on screen.
   */
  method ReceberPedido(s: Store, id: Value, now: int)
    requires ReceivableOrder(Collection(s.view, "pedidos"), Collection(s.view, "produtos"), id)
    modifies s
    ensures FindById(Collection(old(s.view), "pedidos"), id).None? ==> s.data == old(s.data)
    ensures FindById(Collection(old(s.view), "pedidos"), id).Some? ==>
      var pedido := FindById(Collection(old(s.view), "pedidos"), id).value;
      Collection(s.data, "pedidos") == MergeById(Collection(old(s.data), "pedidos"), id, ReceiptUpdate(now))
      && Collection(s.data, "produtos")
         == ApplyReceipt(Collection(old(s.data), "produtos"), Collection(old(s.view), "produtos"), Get(pedido, "itens").elems)
      && OnlyChanged(old(s.data), s.data, {"pedidos", "produtos"})
    ensures s.view == old(s.view)
  {
    var pedido := FindById(Collection(s.view, "pedidos"), id);
    if pedido.None? {
      return;
    }
    ghost var d0 := s.data;
    s.UpdateItem("pedidos", id, ReceiptUpdate(now));
    UpdateOnlyChanged(d0, "pedidos", s.data["pedidos"], {"pedidos", "produtos"});
    ghost var d1 := s.data;
    assert Collection(d1, "produtos") == Collection(d0, "produtos");
    ReceiveLines(s, Get(pedido.value, "itens").elems);
    OnlyChangedCollection(d1, s.data, {"produtos"}, "pedidos");
    OnlyChangedWiden(d1, s.data, {"produtos"}, {"pedidos", "produtos"});
    OnlyChangedTrans(d0, d1, s.data, {"pedidos", "produtos"});
  }

  /** The `pedido.itens.forEach` loop of `handleReceberPedido`. */
  method ReceiveLines(s: Store, itens: seq<Value>)
    requires LinesReadable(Collection(s.view, "produtos"), itens)
    modifies s
    ensures Collection(s.data, "produtos") == ApplyReceipt(Collection(old(s.data), "produtos"), Collection(old(s.view), "produtos"), itens)
    ensures OnlyChanged(old(s.data), s.data, {"produtos"})
    ensures s.view == old(s.view)
  {
    var produtos := Collection(s.view, "produtos");
    var i := 0;
    while i < |itens|
      invariant 0 <= i <= |itens|
      invariant Collection(s.data, "produtos") == ApplyReceipt(Collection(old(s.data), "produtos"), produtos, itens[..i])
      invariant OnlyChanged(old(s.data), s.data, {"produtos"})
      invariant s.view == old(s.view)
    {
      var item := itens[i];
      var produto := FindById(produtos, Prop(item, "produtoId"));
      assert itens[..i + 1][..i] == itens[..i] && itens[..i + 1][i] == item;
      assert LineReadable(produtos, item);
      if produto.Some? {
        ghost var before := s.data;
        s.UpdateItem("produtos", Prop(item, "produtoId"), StockUpdate(produto.value, item));
        UpdateOnlyChanged(before, "produtos", s.data["produtos"], {"produtos"});
        OnlyChangedTrans(old(s.data), before, s.data, {"produtos"});
      }
      i := i + 1;
    }
    assert itens[..i] == itens;
  }

  /**
   * As written, two lines for the same product both read the stock on
   * screen, so the second write wins: the product ends at the old stock
   * plus the second quantity, and the first quantity is lost.
   */
  lemma ReceiptKeepsOnlyLastLine(current: seq<Record>, snapshot: seq<Record>, a: Value, b: Value)
    requires LineReadable(snapshot, a) && LineReadable(snapshot, b)
    requires Prop(a, "produtoId") == Prop(b, "produtoId")
    requires FindById(snapshot, Prop(b, "produtoId")).Some?
    ensures var stock := Get(FindById(snapshot, Prop(b, "produtoId")).value, "estoqueAtual").n;
      var after := ApplyReceipt(current, snapshot, [a, b]);
      forall k :: 0 <= k < |current| && HasId(current[k], Prop(b, "produtoId")) ==>
        Get(after[k], "estoqueAtual") == Num(stock + Prop(b, "quantidade").n)
        && (Prop(a, "quantidade").n != 0.0 ==>
              Get(after[k], "estoqueAtual") != Num(stock + Prop(a, "quantidade").n + Prop(b, "quantidade").n))
  {
    var pid := Prop(b, "produtoId");
    var produto := FindById(snapshot, pid).value;
    assert [a, b][..1] == [a] && [a][..0] == [];
    assert ApplyReceipt(current, snapshot, []) == current;
    var first := ApplyReceipt(current, snapshot, [a]);
    assert first == MergeById(current, pid, StockUpdate(produto, a));
    assert ApplyReceipt(current, snapshot, [a, b]) == MergeById(first, pid, StockUpdate(produto, b));
    SecondMergeWins(current, pid, StockUpdate(produto, a), StockUpdate(produto, b), "estoqueAtual");
  }

  /** Merging twice into the records with an id: the second merge's value of a field wins. */
  lemma SecondMergeWins(coll: seq<Record>, id: Value, first: Record, second: Record, key: string)
    requires "id" !in first && key in second
    ensures forall k :: 0 <= k < |coll| && HasId(coll[k], id) ==>
      Get(MergeById(MergeById(coll, id, first), id, second)[k], key) == second[key]
  {
    var once := MergeById(coll, id, first);
    forall k | 0 <= k < |coll| && HasId(coll[k], id)
      ensures Get(MergeById(once, id, second)[k], key) == second[key]
    {
      assert Get(once[k], "id") == Get(coll[k], "id");
    }
  }

  /** The stock of every product is a number. */
  predicate StocksNumeric(produtos: seq<Record>) {
    forall i :: 0 <= i < |produtos| ==> Get(produtos[i], "estoqueAtual").Num?
  }

  predicate QuantitiesNumeric(itens: seq<Value>) {
    forall i :: 0 <= i < |itens| ==> Prop(itens[i], "quantidade").Num?
  }

  /**
   * The receipt loop reading each product's stock from the latest list
   * rather than from the screen, as the updater form of the store allows:
   * lines for the same product then add up.
   */
  function ApplyReceiptLatest(current: seq<Record>, itens: seq<Value>): (r: seq<Record>)
    requires StocksNumeric(current) && QuantitiesNumeric(itens)
    ensures |r| == |current| && StocksNumeric(r)
    ensures forall k :: 0 <= k < |current| ==> Get(r[k], "id") == Get(current[k], "id")
  {
    if itens == [] then current
    else
      var prev := ApplyReceiptLatest(current, itens[..|itens| - 1]);
      var item := itens[|itens| - 1];
      match FindById(prev, Prop(item, "produtoId"))
      case None => prev
      case Some(produto) => MergeById(prev, Prop(item, "produtoId"), StockUpdate(produto, item))
  }

  /** The quantity all lines naming product `pid` receive. */
  function QuantityFor(itens: seq<Value>, pid: Value): real
    requires QuantitiesNumeric(itens)
  {
    if itens == [] then 0.0
    else
      var item := itens[|itens| - 1];
      QuantityFor(itens[..|itens| - 1], pid) + (if StrictEq(Prop(item, "produtoId"), pid) then Prop(item, "quantidade").n else 0.0)
  }

  /**
   * With the latest stock read at each line, a product whose id is a number
   * and unique in the list ends at its old stock plus the quantities of all
   * the lines that name it.
   */
  lemma {:induction false} LatestReceiptAddsEveryLine(current: seq<Record>, itens: seq<Value>, k: nat)
    requires StocksNumeric(current) && QuantitiesNumeric(itens)
    requires k < |current| && Get(current[k], "id").Num?
    requires forall j :: 0 <= j < |current| && j != k ==> !HasId(current[j], Get(current[k], "id"))
    ensures Get(ApplyReceiptLatest(current, itens)[k], "estoqueAtual")
            == Num(Get(current[k], "estoqueAtual").n + QuantityFor(itens, Get(current[k], "id")))
  {
    var pid := Get(current[k], "id");
    if itens != [] {
      var init := itens[..|itens| - 1];
      assert QuantitiesNumeric(init);
      LatestReceiptAddsEveryLine(current, init, k);
      LatestReceiptStep(current, ApplyReceiptLatest(current, init), itens[|itens| - 1], k);
    }
  }

  /** One line of the latest-stock receipt, seen from product `k`. */
  lemma LatestReceiptStep(current: seq<Record>, prev: seq<Record>, item: Value, k: nat)
    requires |prev| == |current| && StocksNumeric(prev) && Prop(item, "quantidade").Num?
    requires forall j :: 0 <= j < |current| ==> Get(prev[j], "id") == Get(current[j], "id")
    requires k < |current| && Get(current[k], "id").Num?
    requires forall j :: 0 <= j < |current| && j != k ==> !HasId(current[j], Get(current[k], "id"))
    ensures var line := Prop(item, "produtoId");
      var after := match FindById(prev, line)
        case None => prev
        case Some(produto) => MergeById(prev, line, StockUpdate(produto, item));
      Get(after[k], "estoqueAtual")
      == Num(Get(prev[k], "estoqueAtual").n + (if StrictEq(line, Get(current[k], "id")) then Prop(item, "quantidade").n else 0.0))
  {
    var pid := Get(current[k], "id");
    var line := Prop(item, "produtoId");
    if StrictEq(line, pid) {
      assert HasId(prev[k], line);
      forall j | 0 <= j < |prev| && j != k ensures !HasId(prev[j], line) {
        assert !HasId(current[j], pid);
      }
      assert FirstMatch(prev, line) == k;
    } else {
      assert !HasId(prev[k], line);
    }
  }

  // ------------------------------------------------------------------ deletions

  /** `handleDeleteRequisicao`: deletes only when the user confirms. */
  method DeleteRequisicao(s: Store, id: Value, confirmed: bool)
    modifies s
    ensures s.data == if confirmed then old(s.data)["requisicoes" := RemoveById(Collection(old(s.data), "requisicoes"), id)] else old(s.data)
    ensures s.view == old(s.view)
  {
    if confirmed {
      s.DeleteItem("requisicoes", id);
    }
  }

  /** `handleDeleteCotacao`: deletes only when the user confirms. */
  method DeleteCotacao(s: Store, id: Value, confirmed: bool)
    modifies s
    ensures s.data == if confirmed then old(s.data)["cotacoes" := RemoveById(Collection(old(s.data), "cotacoes"), id)] else old(s.data)
    ensures s.view == old(s.view)
  {
    if confirmed {
      s.DeleteItem("cotacoes", id);
    }
  }

  /** `handleDeletePedido`: deletes only when the user confirms. */
  method DeletePedido(s: Store, id: Value, confirmed: bool)
    modifies s
    ensures s.data == if confirmed then old(s.data)["pedidos" := RemoveById(Collection(old(s.data), "pedidos"), id)] else old(s.data)
    ensures s.view == old(s.view)
  {
    if confirmed {
      s.DeleteItem("pedidos", id);
    }
  }
}
