/**
 * The purchase-order form (`PedidoModal`): the form fields, their
 * validation errors, the prefill from a chosen quotation and the
 * conversion applied on submit.
 *
 * Dates are day numbers; `today` is the day the form is used, and
 * "today at 00:00" compares as that day.
 */
module PedidoModal {
  import opened Js
  import opened Text
  import opened DataContext

  const CotacaoRequired: string := "Cotação é obrigatória"
  const PrevisaoRequired: string := "Data de previsão é obrigatória"
  const PrevisaoFuture: string := "Data de previsão deve ser futura"
  const CondicoesRequired: string := "Condições de pagamento são obrigatórias"

  /** Lead time, terms, freight and items when the quotation has no matching offer. */
  const DefaultLeadTime: int := 15
  const DefaultCondicoes: string := "30 dias"

  /** The empty form. */
  const InitialForm: Record := map[
    "cotacaoId" := Str(""),
    "fornecedorId" := Str(""),
    "dataPrevisao" := Str(""),
    "observacoes" := Str(""),
    "condicoesPagamento" := Str(""),
    "valorTotal" := Num(0.0),
    "frete" := Num(0.0),
    "itens" := Arr([])]

  /** Conversion of a real to an integer toward zero, as `setDate` and `parseInt` do. */
  function Trunc(r: real): (i: int)
    ensures r >= 0.0 ==> i as real <= r < i as real + 1.0
    ensures r < 0.0 ==> i as real - 1.0 < r <= i as real
    ensures r == r.Floor as real ==> i as real == r
  {
    if r >= 0.0 || r == r.Floor as real then r.Floor else r.Floor + 1
  }

  /** An integer or `NaN`: what `Number.parseInt` can return. */
  predicate IntegerOrNaN(v: Value) {
    v.NaN? || (v.Num? && v.n == v.n.Floor as real)
  }

  /**
   * `Number.parseInt(v)`: text is parsed; a number is written out and read
   * back, which drops its fraction; anything else gives `NaN`.
   */
  function ParseIntValue(v: Value): (r: Value)
    ensures IntegerOrNaN(r)
    ensures v.Num? && v.n == v.n.Floor as real ==> r == v
    ensures v.Str? ==> (ParseInt(v.s).Some? <==> r.Num?)
  {
    match v
    case Str(s) => var p := ParseInt(s); Parsed(p)
    case Num(n) => Num(Trunc(n) as real)
    case _ => NaN
  }

  /** The parsed integer as a number, or `NaN` when nothing was parsed. */
  function Parsed(o: Option<int>): (r: Value)
    ensures IntegerOrNaN(r) && (o.Some? <==> r.Num?)
  {
    if o.Some? then Num(o.value as real) else NaN
  }

  // ------------------------------------------------------------------ the supplier offer

  /** The offers of a quotation can be searched: a list of objects. */
  predicate OffersReadable(cotacao: Record) {
    Get(cotacao, "fornecedores").Arr?
    && forall i :: 0 <= i < |Get(cotacao, "fornecedores").elems| ==> Get(cotacao, "fornecedores").elems[i].Obj?
  }

  /** `offers.find(f => f.fornecedorId === selected)`. */
  function FindOffer(offers: seq<Value>, selected: Value): (o: Option<Value>)
    ensures o.Some? ==> o.value in offers && StrictEq(Prop(o.value, "fornecedorId"), selected)
    ensures o.None? <==> forall i :: 0 <= i < |offers| ==> !StrictEq(Prop(offers[i], "fornecedorId"), selected)
    ensures o.Some? ==> exists k ::
        0 <= k < |offers| && o.value == offers[k]
        && forall j :: 0 <= j < k ==> !StrictEq(Prop(offers[j], "fornecedorId"), selected)
  {
    if offers == [] then None
    else if StrictEq(Prop(offers[0], "fornecedorId"), selected) then Some(offers[0])
    else FindOffer(offers[1..], selected)
  }

  /** The offer of the supplier the quotation selected. */
  function SelectedOffer(cotacao: Record): Option<Value>
    requires OffersReadable(cotacao)
  {
    FindOffer(Get(cotacao, "fornecedores").elems, Get(cotacao, "fornecedorSelecionado"))
  }

  /** `offer?.key`. */
  function OfferProp(offer: Option<Value>, key: string): Value {
    if offer.Some? then Prop(offer.value, key) else Undefined
  }

  /** The lead time can be added to a date: a number once the default applies. */
  predicate LeadTimeReadable(cotacao: Record) {
    OffersReadable(cotacao) && (Truthy(OfferProp(SelectedOffer(cotacao), "prazoEntrega")) ==> OfferProp(SelectedOffer(cotacao), "prazoEntrega").Num?)
  }

  /**
   * The fields a chosen quotation fills in: its supplier and total, and the
   * selected offer's lead time, terms, freight and items, each with its
   * default.
   */
  function OfferFields(cotacao: Record, today: int): (f: Record)
    requires LeadTimeReadable(cotacao)
    ensures f.Keys == {"fornecedorId", "dataPrevisao", "condicoesPagamento", "valorTotal", "frete", "itens"}
    ensures f["fornecedorId"] == Get(cotacao, "fornecedorSelecionado") && f["valorTotal"] == Get(cotacao, "valorTotal")
    ensures var offer := SelectedOffer(cotacao);
      (offer.None? ==>
         f["dataPrevisao"] == Day(today + DefaultLeadTime) && f["condicoesPagamento"] == Str(DefaultCondicoes)
         && f["frete"] == Num(0.0) && f["itens"] == Arr([]))
      && (offer.Some? ==>
         (Truthy(Prop(offer.value, "condicoesPagamento")) ==> f["condicoesPagamento"] == Prop(offer.value, "condicoesPagamento"))
         && (Truthy(Prop(offer.value, "frete")) ==> f["frete"] == Prop(offer.value, "frete"))
         && (Truthy(Prop(offer.value, "itens")) ==> f["itens"] == Prop(offer.value, "itens"))
         && (Truthy(Prop(offer.value, "prazoEntrega")) ==> f["dataPrevisao"] == Day(today + Trunc(Prop(offer.value, "prazoEntrega").n))))
  {
    var offer := SelectedOffer(cotacao);
    var prazo := Or(OfferProp(offer, "prazoEntrega"), Num(DefaultLeadTime as real));
    map[
      "fornecedorId" := Get(cotacao, "fornecedorSelecionado"),
      "dataPrevisao" := Day(today + Trunc(prazo.n)),
      "condicoesPagamento" := Or(OfferProp(offer, "condicoesPagamento"), Str(DefaultCondicoes)),
      "valorTotal" := Get(cotacao, "valorTotal"),
      "frete" := Or(OfferProp(offer, "frete"), Num(0.0)),
      "itens" := Or(OfferProp(offer, "itens"), Arr([]))]
  }

  /** The form opened on an existing order: its fields, each with its empty default. */
  function EditForm(pedido: Record): (f: Record)
    ensures f.Keys == InitialForm.Keys
    ensures forall k :: k in f && Truthy(Get(pedido, k)) ==> f[k] == Get(pedido, k)
    ensures forall k :: k in f && !Truthy(Get(pedido, k)) ==> f[k] == InitialForm[k]
  {
    map k | k in InitialForm.Keys :: Or(Get(pedido, k), InitialForm[k])
  }

  // ------------------------------------------------------------------ validation

  /** The error for the quotation: required. */
  function CotacaoError(form: Record): (e: Option<string>)
    ensures e.Some? <==> !Truthy(Get(form, "cotacaoId"))
  {
    if !Truthy(Get(form, "cotacaoId")) then Some(CotacaoRequired) else None
  }

  /** The error for the forecast date: required, and not before today. */
  function PrevisaoError(form: Record, today: int): (e: Option<string>)
    ensures e.Some? <==>
      !Truthy(Get(form, "dataPrevisao")) || (Get(form, "dataPrevisao").Day? && Get(form, "dataPrevisao").day < today)
  {
    var previsao := Get(form, "dataPrevisao");
    if !Truthy(previsao) then Some(PrevisaoRequired)
    else if previsao.Day? && previsao.day < today then Some(PrevisaoFuture)
    else None
  }

  /** The error for the payment terms: blank after trimming. */
  function CondicoesError(form: Record): (e: Option<string>)
    requires Get(form, "condicoesPagamento").Str?
    ensures e.Some? <==> IsBlank(Get(form, "condicoesPagamento").s)
  {
    if TrimmedEmpty(Get(form, "condicoesPagamento").s) then Some(CondicoesRequired) else None
  }

  /**
   * The errors `validateForm` reports: a missing quotation, a missing or
   * past forecast date, and blank payment terms, each with its message.
   */
  function PedidoErrors(form: Record, today: int): (errs: map<string, Value>)
    requires Get(form, "condicoesPagamento").Str?
    ensures errs.Keys <= {"cotacaoId", "dataPrevisao", "condicoesPagamento"}
    ensures "cotacaoId" in errs <==> CotacaoError(form).Some?
    ensures "dataPrevisao" in errs <==> PrevisaoError(form, today).Some?
    ensures "condicoesPagamento" in errs <==> CondicoesError(form).Some?
  {
    var e1 := WithError(map[], "cotacaoId", CotacaoError(form));
    var e2 := WithError(e1, "dataPrevisao", PrevisaoError(form, today));
    WithError(e2, "condicoesPagamento", CondicoesError(form))
  }

  /** What `handleSubmit` passes on: both ids through `parseInt`, every other field as it is. */
  function SubmittedPedido(form: Record): (r: Record)
    ensures r.Keys == form.Keys + {"cotacaoId", "fornecedorId", "dataPrevisao"}
    ensures IntegerOrNaN(r["cotacaoId"]) && IntegerOrNaN(r["fornecedorId"])
    ensures r["dataPrevisao"] == Get(form, "dataPrevisao")
    ensures forall k :: k in form && k !in {"cotacaoId", "fornecedorId", "dataPrevisao"} ==> r[k] == form[k]
  {
    form + map[
      "cotacaoId" := ParseIntValue(Get(form, "cotacaoId")),
      "fornecedorId" := ParseIntValue(Get(form, "fornecedorId")),
      "dataPrevisao" := Get(form, "dataPrevisao")]
  }

  /** A form whose forecast date, once set, is a date: `new Date(...)` would otherwise throw. */
  predicate DateReadable(form: Record) {
    Truthy(Get(form, "dataPrevisao")) ==> Get(form, "dataPrevisao").Day?
  }

  class PedidoForm {
    var form: Record
    var errors: map<string, Value>

    /** The form as first rendered: empty, no errors. */
    constructor()
      ensures form == InitialForm && errors == map[]
    {
      form := InitialForm;
      errors := map[];
    }

    /**
     * The `useEffect` prefill: an edited order's fields, else the chosen
     * quotation's fields, else the empty form; errors are cleared.
     */
    method Prefill(editing: Option<Record>, selected: Option<Record>, today: int)
      requires editing.None? && selected.Some? ==> LeadTimeReadable(selected.value)
      modifies this
      ensures editing.Some? ==> form == EditForm(editing.value)
      ensures editing.None? && selected.Some? ==>
        form == OfferFields(selected.value, today)["cotacaoId" := Get(selected.value, "id")]["observacoes" := Str("")]
      ensures editing.None? && selected.None? ==> form == InitialForm
      ensures errors == map[]
    {
      if editing.Some? {
        form := EditForm(editing.value);
      } else if selected.Some? {
        form := OfferFields(selected.value, today)["cotacaoId" := Get(selected.value, "id")]["observacoes" := Str("")];
      } else {
        form := InitialForm;
      }
      errors := map[];
    }

    /** `handleInputChange`: sets one field and clears that field's error, if it had one. */
    method InputChange(field: string, value: Value)
      modifies this
      ensures form == old(form)[field := value]
      ensures !Truthy(Get(errors, field))
      ensures forall k :: k != field ==> Get(errors, k) == Get(old(errors), k)
      ensures errors == if Truthy(Get(old(errors), field)) then old(errors)[field := Null] else old(errors)
    {
      form := form[field := value];
      if Truthy(Get(errors, field)) {
        errors := errors[field := Null];
      }
    }

    /**
     * `handleCotacaoChange`: a known quotation fills in its fields and its
     * id as a number; an unknown one leaves the form as it was.
     */
    method CotacaoChange(cotacoes: seq<Record>, cotacaoId: string, today: int)
      requires FindById(cotacoes, ParseIntValue(Str(cotacaoId))).Some? ==>
        LeadTimeReadable(FindById(cotacoes, ParseIntValue(Str(cotacaoId))).value)
      modifies this
      ensures var cotacao := FindById(cotacoes, ParseIntValue(Str(cotacaoId)));
        (cotacao.None? ==> form == old(form))
        && (cotacao.Some? ==> form == old(form) + OfferFields(cotacao.value, today)["cotacaoId" := ParseIntValue(Str(cotacaoId))])
      ensures errors == old(errors)
    {
      var id := ParseIntValue(Str(cotacaoId));
      var cotacao := FindById(cotacoes, id);
      if cotacao.Some? {
        form := form + OfferFields(cotacao.value, today)["cotacaoId" := id];
      }
    }

    /** `validateForm`: the errors are replaced by those the form has; valid when there are none. */
    method Validate(today: int) returns (valid: bool)
      requires Get(form, "condicoesPagamento").Str?
      modifies this
      ensures form == old(form)
      ensures errors == PedidoErrors(form, today)
      ensures valid <==> errors == map[]
    {
      var newErrors: map<string, Value> := map[];
      var cotacao := CotacaoError(form);
      if cotacao.Some? {
        newErrors := newErrors["cotacaoId" := Str(cotacao.value)];
      }
      assert newErrors == WithError(map[], "cotacaoId", cotacao);
      var previsao := PrevisaoError(form, today);
      if previsao.Some? {
        newErrors := newErrors["dataPrevisao" := Str(previsao.value)];
      }
      assert newErrors == WithError(WithError(map[], "cotacaoId", cotacao), "dataPrevisao", previsao);
      var condicoes := CondicoesError(form);
      if condicoes.Some? {
        newErrors := newErrors["condicoesPagamento" := Str(condicoes.value)];
      }
      errors := newErrors;
      valid := |newErrors| == 0;
      assert valid <==> newErrors == map[] by {
        if |newErrors| == 0 {
          assert newErrors.Keys == {};
        }
      }
    }

    /** `handleSubmit`: the converted form is saved exactly when validation passes. */
    method Submit(today: int) returns (saved: Option<Record>)
      requires Get(form, "condicoesPagamento").Str? && DateReadable(form)
      modifies this
      ensures form == old(form) && errors == PedidoErrors(form, today)
      ensures saved.Some? <==> errors == map[]
      ensures saved.Some? ==> saved.value == SubmittedPedido(form)
    {
      var valid := Validate(today);
      if valid {
        saved := Some(SubmittedPedido(form));
      } else {
        saved := None;
      }
    }
  }

  /**
   * A form that passes validation has a quotation, a forecast date that is
   * not in the past, and non-blank terms; its submitted ids are integers or
   * `NaN`.
   */
  lemma ValidPedidoForm(form: Record, today: int)
    requires Get(form, "condicoesPagamento").Str? && DateReadable(form)
    requires PedidoErrors(form, today) == map[]
    ensures Truthy(Get(form, "cotacaoId"))
    ensures Get(form, "dataPrevisao").Day? && Get(form, "dataPrevisao").day >= today
    ensures exists i :: 0 <= i < |Get(form, "condicoesPagamento").s| && !IsSpace(Get(form, "condicoesPagamento").s[i])
  {
    assert "cotacaoId" !in PedidoErrors(form, today);
    assert "dataPrevisao" !in PedidoErrors(form, today);
    assert "condicoesPagamento" !in PedidoErrors(form, today);
  }
}
