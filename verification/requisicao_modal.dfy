/**
 * The purchase-requisition form (`RequisicaoModal`): the header fields, the
 * list of requested items, the error object `validateForm` builds (one key
 * per header field and one `item_<index>_<field>` key per item field) and
 * the conversion applied on submit.
 *
 * The item list is kept apart from the other fields; on submit it becomes
 * the `itens` property again. Dates are day numbers and `today` is the day
 * the form is used.
 */
module RequisicaoModal {
  import opened Js
  import opened Text

  const SolicitanteRequired: string := "Solicitante é obrigatório"
  const DepartamentoRequired: string := "Departamento é obrigatório"
  const NecessidadeRequired: string := "Data de necessidade é obrigatória"
  const NecessidadeFuture: string := "Data de necessidade deve ser futura"
  const ProdutoRequired: string := "Produto é obrigatório"
  const QuantidadePositive: string := "Quantidade deve ser maior que zero"
  const JustificativaRequired: string := "Justificativa é obrigatória"

  /** The logged-in user and their department, filled in on a new requisition. */
  const CurrentUser: string := "João Silva"
  const CurrentDepartment: string := "Produção"

  /** A new, empty item line: no product, no quantity, unit TON. */
  const BlankItem: Record := map[
    "produtoId" := Str(""),
    "quantidade" := Str(""),
    "unidade" := Str("TON"),
    "justificativa" := Str("")]

  /** The header fields as first rendered. */
  const InitialForm: Record := map[
    "solicitante" := Str(""),
    "departamento" := Str(""),
    "dataNecessidade" := Str(""),
    "prioridade" := Str("media"),
    "observacoes" := Str("")]

  /** The header fields of a new requisition. */
  const NewForm: Record := InitialForm["solicitante" := Str(CurrentUser)]["departamento" := Str(CurrentDepartment)]

  /** The fields of an item line that are validated. */
  const ItemFields: set<string> := {"produtoId", "quantidade", "justificativa"}

  // ------------------------------------------------------------------ error keys

  /** The error key `item_${index}_${field}`. */
  function ItemKey(index: nat, field: string): (k: string)
    ensures |k| > 0 && k[0] == 'i'
  {
    "item_" + Dec(index) + "_" + field
  }

  /** Different items, or different fields of one item, have different error keys. */
  lemma ItemKeyInjective(i: nat, j: nat, f: string, g: string)
    requires ItemKey(i, f) == ItemKey(j, g)
    ensures i == j && f == g
  {
    var k := ItemKey(i, f);
    assert k[5..] == Dec(i) + ("_" + f);
    assert k[5..] == Dec(j) + ("_" + g);
    DigitPrefixOf(Dec(i), "_" + f);
    DigitPrefixOf(Dec(j), "_" + g);
    DecInjective(i, j);
    assert k[5 + |Dec(i)| + 1..] == f;
  }

  // ------------------------------------------------------------------ parseFloat

  /**
   * `Number.parseFloat(v)`: text is parsed as a decimal; a number is read
   * back as itself; anything else here gives `NaN`.
   */
  function ParseFloatValue(v: Value): (r: Value)
    ensures IsNumber(r)
    ensures v.Num? ==> r == v
    ensures v.Str? ==> (ParseFloat(v.s).Some? <==> r.Num?)
  {
    match v
    case Str(s) => var p := ParseFloat(s); if p.Some? then Num(p.value) else NaN
    case Num(_) => v
    case NegInf => v
    case _ => NaN
  }

  /** `x <= 0` for a number: false for `NaN`. */
  predicate AtMostZero(x: Value) {
    (x.Num? && x.n <= 0.0) || x.NegInf?
  }

  // ------------------------------------------------------------------ validation

  /** The header text fields `trim` is applied to are text. */
  predicate HeaderReadable(form: Record) {
    Get(form, "solicitante").Str? && Get(form, "departamento").Str?
  }

  /** Every item's justification is text, so `trim` can be applied to it. */
  predicate ItemReadable(item: Record) {
    Get(item, "justificativa").Str?
  }

  predicate ItemsReadable(itens: seq<Record>) {
    forall i :: 0 <= i < |itens| ==> ItemReadable(itens[i])
  }

  function SolicitanteError(form: Record): (e: Option<string>)
    requires HeaderReadable(form)
    ensures e.Some? <==> IsBlank(Get(form, "solicitante").s)
  {
    if TrimmedEmpty(Get(form, "solicitante").s) then Some(SolicitanteRequired) else None
  }

  function DepartamentoError(form: Record): (e: Option<string>)
    requires HeaderReadable(form)
    ensures e.Some? <==> IsBlank(Get(form, "departamento").s)
  {
    if TrimmedEmpty(Get(form, "departamento").s) then Some(DepartamentoRequired) else None
  }

  /** The date is required and may not be before today; a value that is not a date compares as false. */
  function NecessidadeError(form: Record, today: int): (e: Option<string>)
    ensures e.Some? <==>
      !Truthy(Get(form, "dataNecessidade")) || (Get(form, "dataNecessidade").Day? && Get(form, "dataNecessidade").day < today)
  {
    var data := Get(form, "dataNecessidade");
    if !Truthy(data) then Some(NecessidadeRequired)
    else if data.Day? && data.day < today then Some(NecessidadeFuture)
    else None
  }

  /** The header part of the error object. */
  function HeaderErrors(form: Record, today: int): (errs: map<string, Value>)
    requires HeaderReadable(form)
    ensures errs.Keys <= {"solicitante", "departamento", "dataNecessidade"}
    ensures "solicitante" in errs <==> SolicitanteError(form).Some?
    ensures "departamento" in errs <==> DepartamentoError(form).Some?
    ensures "dataNecessidade" in errs <==> NecessidadeError(form, today).Some?
  {
    var e1 := WithError(map[], "solicitante", SolicitanteError(form));
    var e2 := WithError(e1, "departamento", DepartamentoError(form));
    WithError(e2, "dataNecessidade", NecessidadeError(form, today))
  }

  function ProdutoError(item: Record): (e: Option<string>)
    ensures e.Some? <==> !Truthy(Get(item, "produtoId"))
  {
    if !Truthy(Get(item, "produtoId")) then Some(ProdutoRequired) else None
  }

  /** A quantity is required and, read by `parseFloat`, must not be at most zero. */
  function QuantidadeError(item: Record): (e: Option<string>)
    ensures e.Some? <==> !Truthy(Get(item, "quantidade")) || AtMostZero(ParseFloatValue(Get(item, "quantidade")))
  {
    var q := Get(item, "quantidade");
    if !Truthy(q) || AtMostZero(ParseFloatValue(q)) then Some(QuantidadePositive) else None
  }

  function JustificativaError(item: Record): (e: Option<string>)
    requires ItemReadable(item)
    ensures e.Some? <==> IsBlank(Get(item, "justificativa").s)
  {
    if TrimmedEmpty(Get(item, "justificativa").s) then Some(JustificativaRequired) else None
  }

  /** The error of one validated field of an item. */
  function ItemFieldError(item: Record, field: string): Option<string>
    requires ItemReadable(item)
  {
    if field == "produtoId" then ProdutoError(item)
    else if field == "quantidade" then QuantidadeError(item)
    else if field == "justificativa" then JustificativaError(item)
    else None
  }

  /** One pass of the `forEach` body: the errors of item `index` added to `errs`. */
  function WithItemErrors(errs: map<string, Value>, item: Record, index: nat): map<string, Value>
    requires ItemReadable(item)
  {
    var e1 := WithError(errs, ItemKey(index, "produtoId"), ProdutoError(item));
    var e2 := WithError(e1, ItemKey(index, "quantidade"), QuantidadeError(item));
    WithError(e2, ItemKey(index, "justificativa"), JustificativaError(item))
  }

  /** The errors of the items, in order, added to `errs`. */
  function WithItemsErrors(errs: map<string, Value>, itens: seq<Record>): map<string, Value>
    requires ItemsReadable(itens)
  {
    if itens == [] then errs
    else WithItemErrors(WithItemsErrors(errs, itens[..|itens| - 1]), itens[|itens| - 1], |itens| - 1)
  }

  /** The error object `validateForm` builds. */
  function RequisicaoErrors(form: Record, itens: seq<Record>, today: int): map<string, Value>
    requires HeaderReadable(form) && ItemsReadable(itens)
  {
    WithItemsErrors(HeaderErrors(form, today), itens)
  }

  /** An item with none of the three errors. */
  predicate ItemValid(item: Record)
    requires ItemReadable(item)
  {
    ProdutoError(item).None? && QuantidadeError(item).None? && JustificativaError(item).None?
  }

  lemma WithItemErrorsEmpty(errs: map<string, Value>, item: Record, index: nat)
    requires ItemReadable(item)
    ensures WithItemErrors(errs, item, index) == map[] <==> errs == map[] && ItemValid(item)
  {
    var e := WithItemErrors(errs, item, index);
    if ProdutoError(item).Some? {
      assert ItemKey(index, "produtoId") in e;
    } else if QuantidadeError(item).Some? {
      assert ItemKey(index, "quantidade") in e;
    } else if JustificativaError(item).Some? {
      assert ItemKey(index, "justificativa") in e;
    }
  }

  /** Adding item errors leaves the object empty exactly when it was empty and every item is valid. */
  lemma {:induction false} WithItemsErrorsEmpty(errs: map<string, Value>, itens: seq<Record>)
    requires ItemsReadable(itens)
    ensures WithItemsErrors(errs, itens) == map[] <==> errs == map[] && forall i :: 0 <= i < |itens| ==> ItemValid(itens[i])
  {
    if itens != [] {
      var n := |itens| - 1;
      WithItemsErrorsEmpty(errs, itens[..n]);
      WithItemErrorsEmpty(WithItemsErrors(errs, itens[..n]), itens[n], n);
      assert itens == itens[..n] + [itens[n]];
      ItemsValidSplit(itens, itens[..n], itens[n]);
    }
  }

  /** Every item is valid exactly when every item but the last is, and the last is. */
  lemma ItemsValidSplit(itens: seq<Record>, prefix: seq<Record>, last: Record)
    requires itens == prefix + [last] && ItemsReadable(itens)
    ensures ItemsReadable(prefix) && ItemReadable(last)
    ensures (forall i :: 0 <= i < |itens| ==> ItemValid(itens[i])) <==>
      (forall i :: 0 <= i < |prefix| ==> ItemValid(prefix[i])) && ItemValid(last)
  {
    assert forall i :: 0 <= i < |prefix| ==> prefix[i] == itens[i];
    assert itens[|prefix|] == last;
  }

  /**
   * `validateForm` returns true exactly when the header text is not blank,
   * the date is set and not before today, and every item has a product, a
   * quantity above zero and a non-blank justification.
   */
  lemma RequisicaoValidIff(form: Record, itens: seq<Record>, today: int)
    requires HeaderReadable(form) && ItemsReadable(itens)
    ensures RequisicaoErrors(form, itens, today) == map[] <==>
      SolicitanteError(form).None? && DepartamentoError(form).None? && NecessidadeError(form, today).None?
      && forall i :: 0 <= i < |itens| ==> ItemValid(itens[i])
  {
    var h := HeaderErrors(form, today);
    WithItemsErrorsEmpty(h, itens);
    if SolicitanteError(form).Some? {
      assert "solicitante" in h;
    } else if DepartamentoError(form).Some? {
      assert "departamento" in h;
    } else if NecessidadeError(form, today).Some? {
      assert "dataNecessidade" in h;
    }
  }

  /** The key of field `field` of item `index`, for some item of a list of `n` items. */
  predicate IsItemKey(k: string, n: nat) {
    exists i: nat, f :: i < n && f in ItemFields && k == ItemKey(i, f)
  }

  /** The three keys of item `index`. */
  function ItemKeys(index: nat): set<string> {
    {ItemKey(index, "produtoId"), ItemKey(index, "quantidade"), ItemKey(index, "justificativa")}
  }

  /** Item errors keep every other key and add key `item_index_f` exactly when field `f` has an error. */
  lemma WithItemErrorsKeys(errs: map<string, Value>, item: Record, index: nat)
    requires ItemReadable(item)
    ensures var e := WithItemErrors(errs, item, index);
      (forall k :: k in errs ==> k in e)
      && (forall k :: k in e && k !in ItemKeys(index) ==> k in errs && e[k] == errs[k])
      && (forall f :: f in ItemFields ==> (ItemKey(index, f) in e <==> ItemKey(index, f) in errs || ItemFieldError(item, f).Some?))
  {
  }

  /** No key of the object starts like an item key. */
  predicate NoItemKeys(errs: map<string, Value>) {
    forall k :: k in errs ==> k == [] || k[0] != 'i'
  }

  /** Adding item errors keeps the keys already there, with their messages. */
  lemma {:induction false} WithItemsErrorsKeeps(errs: map<string, Value>, itens: seq<Record>)
    requires ItemsReadable(itens) && NoItemKeys(errs)
    ensures forall k :: k in errs ==> k in WithItemsErrors(errs, itens) && WithItemsErrors(errs, itens)[k] == errs[k]
  {
    if itens != [] {
      var n := |itens| - 1;
      WithItemsErrorsKeeps(errs, itens[..n]);
      WithItemErrorsKeys(WithItemsErrors(errs, itens[..n]), itens[n], n);
    }
  }

  /** Every key that item errors add is the key of a validated field of one of the items. */
  lemma {:induction false} WithItemsErrorsOnlyItemKeys(errs: map<string, Value>, itens: seq<Record>)
    requires ItemsReadable(itens)
    ensures forall k :: k in WithItemsErrors(errs, itens) && k !in errs ==> IsItemKey(k, |itens|)
  {
    if itens != [] {
      var n := |itens| - 1;
      var p := WithItemsErrors(errs, itens[..n]);
      WithItemsErrorsOnlyItemKeys(errs, itens[..n]);
      WithItemErrorsKeys(p, itens[n], n);
      forall k | k in WithItemsErrors(errs, itens) && k !in errs
        ensures IsItemKey(k, |itens|)
      {
        if k in p {
          var i: nat, f :| i < n && f in ItemFields && k == ItemKey(i, f);
          assert i < |itens|;
        } else {
          assert k in ItemKeys(n);
        }
      }
    }
  }

  /** Item `i` has error key `item_i_f` exactly when its field `f` has an error. */
  lemma {:induction false} WithItemsErrorsItemKey(errs: map<string, Value>, itens: seq<Record>, i: nat, f: string)
    requires ItemsReadable(itens) && NoItemKeys(errs)
    requires i < |itens| && f in ItemFields
    ensures ItemKey(i, f) in WithItemsErrors(errs, itens) <==> ItemFieldError(itens[i], f).Some?
  {
    var n := |itens| - 1;
    var prefix := itens[..n];
    var p := WithItemsErrors(errs, prefix);
    assert WithItemsErrors(errs, itens) == WithItemErrors(p, itens[n], n);
    if i < n {
      WithItemsErrorsItemKey(errs, prefix, i, f);
      assert prefix[i] == itens[i];
      EarlierKeyNotLater(i, n, f);
      WithItemErrorsOther(p, itens[n], n, ItemKey(i, f));
    } else {
      assert i == n;
      LastKeyNotEarlier(errs, prefix, f);
      WithItemErrorsOwn(p, itens[n], n, f);
      assert ItemKey(n, f) in WithItemErrors(p, itens[n], n) <==> ItemFieldError(itens[n], f).Some?;
    }
  }

  /** Item errors leave a key that is not one of item `index`'s as it was. */
  lemma WithItemErrorsOther(errs: map<string, Value>, item: Record, index: nat, k: string)
    requires ItemReadable(item) && k !in ItemKeys(index)
    ensures k in WithItemErrors(errs, item, index) <==> k in errs
  {
  }

  /** Item errors add key `item_index_f` when field `f` has an error. */
  lemma WithItemErrorsOwn(errs: map<string, Value>, item: Record, index: nat, f: string)
    requires ItemReadable(item) && f in ItemFields
    ensures ItemKey(index, f) in WithItemErrors(errs, item, index) <==> ItemKey(index, f) in errs || ItemFieldError(item, f).Some?
  {
  }

  /** A key of an earlier item is none of the keys of item `n`. */
  lemma EarlierKeyNotLater(i: nat, n: nat, f: string)
    requires i < n
    ensures ItemKey(i, f) !in ItemKeys(n)
  {
    if ItemKey(i, f) in ItemKeys(n) {
      var g :| g in ItemFields && ItemKey(i, f) == ItemKey(n, g);
      ItemKeyInjective(i, n, f, g);
    }
  }

  /** The errors of the first `n` items hold no key of item `n`. */
  lemma LastKeyNotEarlier(errs: map<string, Value>, prefix: seq<Record>, f: string)
    requires ItemsReadable(prefix) && NoItemKeys(errs)
    ensures ItemKey(|prefix|, f) !in WithItemsErrors(errs, prefix)
  {
    var n := |prefix|;
    if ItemKey(n, f) in WithItemsErrors(errs, prefix) {
      WithItemsErrorsOnlyItemKeys(errs, prefix);
      assert ItemKey(n, f) !in errs;
      var j: nat, g :| j < n && g in ItemFields && ItemKey(n, f) == ItemKey(j, g);
      ItemKeyInjective(n, j, f, g);
    }
  }

  /**
   * The error object of `validateForm`: header key `h` exactly when that
   * header field has an error, key `item_i_f` exactly when field `f` of item
   * `i` has an error, and no other key.
   */
  lemma RequisicaoErrorsKeys(form: Record, itens: seq<Record>, today: int)
    requires HeaderReadable(form) && ItemsReadable(itens)
    ensures var e := RequisicaoErrors(form, itens, today);
      ("solicitante" in e <==> SolicitanteError(form).Some?)
      && ("departamento" in e <==> DepartamentoError(form).Some?)
      && ("dataNecessidade" in e <==> NecessidadeError(form, today).Some?)
      && (forall i: nat, f :: i < |itens| && f in ItemFields ==> (ItemKey(i, f) in e <==> ItemFieldError(itens[i], f).Some?))
      && (forall k :: k in e ==> k in {"solicitante", "departamento", "dataNecessidade"} || IsItemKey(k, |itens|))
  {
    var h := HeaderErrors(form, today);
    WithItemsErrorsKeeps(h, itens);
    WithItemsErrorsOnlyItemKeys(h, itens);
    forall i: nat, f | i < |itens| && f in ItemFields
      ensures ItemKey(i, f) in RequisicaoErrors(form, itens, today) <==> ItemFieldError(itens[i], f).Some?
    {
      WithItemsErrorsItemKey(h, itens, i, f);
    }
  }

  // ------------------------------------------------------------------ item list edits

  /** `addItem`: one blank TON item appended. */
  function ItemAdded(itens: seq<Record>): (r: seq<Record>)
    ensures |r| == |itens| + 1 && r[..|itens|] == itens && r[|itens|] == BlankItem
    ensures ItemsReadable(itens) ==> ItemsReadable(r)
  {
    itens + [BlankItem]
  }

  /**
   * `removeItem`: the item at `index` filtered out, unless it is the only
   * one; so a list that has an item keeps at least one.
   */
  function ItemRemoved(itens: seq<Record>, index: nat): (r: seq<Record>)
    ensures |itens| >= 1 ==> |r| >= 1
    ensures |itens| > 1 && index < |itens| ==>
      |r| == |itens| - 1
      && (forall j :: 0 <= j < index ==> r[j] == itens[j])
      && (forall j :: index <= j < |r| ==> r[j] == itens[j + 1])
    ensures |itens| <= 1 || index >= |itens| ==> r == itens
    ensures ItemsReadable(itens) ==> ItemsReadable(r)
  {
    if |itens| > 1 && index < |itens| then itens[..index] + itens[index + 1..] else itens
  }

  /** `handleItemChange` on the list: field `field` of item `index` set, nothing else changed. */
  function ItemChanged(itens: seq<Record>, index: nat, field: string, value: Value): (r: seq<Record>)
    requires index < |itens|
    ensures |r| == |itens|
    ensures forall j :: 0 <= j < |r| && j != index ==> r[j] == itens[j]
    ensures r[index].Keys == itens[index].Keys + {field} && r[index][field] == value
    ensures forall k :: k in itens[index] && k != field ==> r[index][k] == itens[index][k]
    ensures ItemsReadable(itens) && (field == "justificativa" ==> value.Str?) ==> ItemsReadable(r)
  {
    itens[index := itens[index][field := value]]
  }

  // ------------------------------------------------------------------ prefill and submit

  /** The items of an edited requisition can be read: when set, a list of objects. */
  predicate EditReadable(requisicao: Record) {
    (Truthy(Get(requisicao, "dataNecessidade")) ==> Get(requisicao, "dataNecessidade").Day?)
    && (Truthy(Get(requisicao, "itens")) ==>
          Get(requisicao, "itens").Arr?
          && forall i :: 0 <= i < |Get(requisicao, "itens").elems| ==> Get(requisicao, "itens").elems[i].Obj?)
  }

  /** The header fields of an edited requisition, each with its default. */
  function EditForm(requisicao: Record): (f: Record)
    ensures f.Keys == InitialForm.Keys
    ensures forall k :: k in f && Truthy(Get(requisicao, k)) ==> f[k] == Get(requisicao, k)
    ensures forall k :: k in f && !Truthy(Get(requisicao, k)) ==> f[k] == InitialForm[k]
  {
    map k | k in InitialForm.Keys :: Or(Get(requisicao, k), InitialForm[k])
  }

  /** The item lines of an edited requisition, or one blank line when it has none. */
  function EditItems(requisicao: Record): (r: seq<Record>)
    requires EditReadable(requisicao)
    ensures !Truthy(Get(requisicao, "itens")) ==> r == [BlankItem]
    ensures Truthy(Get(requisicao, "itens")) ==>
      |r| == |Get(requisicao, "itens").elems|
      && forall i :: 0 <= i < |r| ==> Obj(r[i]) == Get(requisicao, "itens").elems[i]
  {
    var v := Get(requisicao, "itens");
    if Truthy(v) then seq(|v.elems|, i requires 0 <= i < |v.elems| => v.elems[i].fields) else [BlankItem]
  }

  /** The date is a date once set: `toISOString` throws on an invalid date. */
  predicate DateReadable(form: Record) {
    Truthy(Get(form, "dataNecessidade")) ==> Get(form, "dataNecessidade").Day?
  }

  /** One saved item: its quantity read by `parseFloat`, every other field as it is. */
  function SubmittedItem(item: Record): (r: Value)
    ensures r.Obj? && r.fields.Keys == item.Keys + {"quantidade"}
    ensures IsNumber(r.fields["quantidade"])
    ensures forall k :: k in item && k != "quantidade" ==> r.fields[k] == item[k]
  {
    Obj(item["quantidade" := ParseFloatValue(Get(item, "quantidade"))])
  }

  /** What `handleSubmit` passes to `onSave`: the header fields and the converted items. */
  function SubmittedRequisicao(form: Record, itens: seq<Record>): (r: Record)
    ensures r.Keys == form.Keys + {"dataNecessidade", "itens"}
    ensures r["dataNecessidade"] == Get(form, "dataNecessidade")
    ensures r["itens"].Arr? && |r["itens"].elems| == |itens|
    ensures forall i :: 0 <= i < |itens| ==> r["itens"].elems[i] == SubmittedItem(itens[i])
    ensures forall k :: k in form && k !in {"dataNecessidade", "itens"} ==> r[k] == form[k]
  {
    form["dataNecessidade" := Get(form, "dataNecessidade")]["itens" := Arr(seq(|itens|, i requires 0 <= i < |itens| => SubmittedItem(itens[i])))]
  }

  /**
   * A requisition that passes validation is saved with a requester, a
   * department, a date not before today, and items that each have a product,
   * a justification and a quantity that is a number above zero.
   */
  lemma ValidRequisicaoSaved(form: Record, itens: seq<Record>, today: int)
    requires HeaderReadable(form) && ItemsReadable(itens) && DateReadable(form)
    requires RequisicaoErrors(form, itens, today) == map[]
    ensures var r := SubmittedRequisicao(form, itens);
      !IsBlank(Get(r, "solicitante").s) && !IsBlank(Get(r, "departamento").s)
      && r["dataNecessidade"].Day? && r["dataNecessidade"].day >= today
      && forall i :: 0 <= i < |itens| ==>
           var item := r["itens"].elems[i].fields;
           Truthy(Get(item, "produtoId")) && (Get(item, "quantidade").Num? || Get(item, "quantidade").NaN?)
           && (Get(item, "quantidade").Num? ==> Get(item, "quantidade").n > 0.0)
           && Get(item, "justificativa").Str? && !IsBlank(Get(item, "justificativa").s)
  {
    RequisicaoValidIff(form, itens, today);
    var r := SubmittedRequisicao(form, itens);
    forall i | 0 <= i < |itens|
      ensures var item := r["itens"].elems[i].fields;
        Truthy(Get(item, "produtoId")) && (Get(item, "quantidade").Num? || Get(item, "quantidade").NaN?)
        && (Get(item, "quantidade").Num? ==> Get(item, "quantidade").n > 0.0)
        && Get(item, "justificativa").Str? && !IsBlank(Get(item, "justificativa").s)
    {
      assert ItemValid(itens[i]);
      assert r["itens"].elems[i] == SubmittedItem(itens[i]);
    }
  }

  class RequisicaoForm {
    var form: Record
    var itens: seq<Record>
    var errors: map<string, Value>

    /** The form as first rendered: empty header, one blank item, no errors. */
    constructor()
      ensures form == InitialForm && itens == [BlankItem] && errors == map[]
    {
      form := InitialForm;
      itens := [BlankItem];
      errors := map[];
    }

    /**
     * The `useEffect` prefill: an edited requisition's fields and items, else
     * a new requisition for the logged-in user with one blank item; errors
     * are cleared.
     */
    method Prefill(editing: Option<Record>)
      requires editing.Some? ==> EditReadable(editing.value)
      modifies this
      ensures editing.Some? ==> form == EditForm(editing.value) && itens == EditItems(editing.value)
      ensures editing.None? ==> form == NewForm && itens == [BlankItem]
      ensures errors == map[]
    {
      if editing.Some? {
        form := EditForm(editing.value);
        itens := EditItems(editing.value);
      } else {
        form := NewForm;
        itens := [BlankItem];
      }
      errors := map[];
    }

    /** `handleInputChange` on a header field: sets it and clears its error, if it had one. */
    method InputChange(field: string, value: Value)
      requires field != "itens"
      modifies this
      ensures form == old(form)[field := value] && itens == old(itens)
      ensures errors == if Truthy(Get(old(errors), field)) then old(errors)[field := Null] else old(errors)
    {
      form := form[field := value];
      if Truthy(Get(errors, field)) {
        errors := errors[field := Null];
      }
    }

    /** `handleItemChange`: sets one field of one item and clears that field's error, if it had one. */
    method ItemChange(index: nat, field: string, value: Value)
      requires index < |itens|
      modifies this
      ensures form == old(form) && itens == ItemChanged(old(itens), index, field, value)
      ensures var k := ItemKey(index, field);
        errors == if Truthy(Get(old(errors), k)) then old(errors)[k := Null] else old(errors)
    {
      itens := ItemChanged(itens, index, field, value);
      var k := ItemKey(index, field);
      if Truthy(Get(errors, k)) {
        errors := errors[k := Null];
      }
    }

    /** `addItem`. */
    method AddItem()
      modifies this
      ensures form == old(form) && errors == old(errors) && itens == ItemAdded(old(itens))
    {
      itens := ItemAdded(itens);
    }

    /** `removeItem`. */
    method RemoveItem(index: nat)
      modifies this
      ensures form == old(form) && errors == old(errors) && itens == ItemRemoved(old(itens), index)
    {
      itens := ItemRemoved(itens, index);
    }

    /**
     * `validateForm`: the header checks, then the three checks of every
     * item in order; the errors are replaced by the result, and the form is
     * valid when there are none.
     */
    method Validate(today: int) returns (valid: bool)
      requires HeaderReadable(form) && ItemsReadable(itens)
      modifies this
      ensures form == old(form) && itens == old(itens)
      ensures errors == RequisicaoErrors(form, itens, today)
      ensures valid <==> errors == map[]
    {
      var newErrors := CollectErrors(form, itens, today);
      errors := newErrors;
      valid := |newErrors| == 0;
      assert valid <==> newErrors == map[] by {
        if |newErrors| == 0 {
          assert newErrors.Keys == {};
        }
      }
    }

    /** `handleSubmit`: the converted requisition is saved exactly when validation passes. */
    method Submit(today: int) returns (saved: Option<Record>)
      requires HeaderReadable(form) && ItemsReadable(itens) && DateReadable(form)
      modifies this
      ensures form == old(form) && itens == old(itens) && errors == RequisicaoErrors(form, itens, today)
      ensures saved.Some? <==> errors == map[]
      ensures saved.Some? ==> saved.value == SubmittedRequisicao(form, itens)
    {
      var valid := Validate(today);
      if valid {
        saved := Some(SubmittedRequisicao(form, itens));
      } else {
        saved := None;
      }
    }
  }

  /** The header checks of `validateForm`: requester, department, then the date. */
  method HeaderChecks(form: Record, today: int) returns (errs: map<string, Value>)
    requires HeaderReadable(form)
    ensures errs == HeaderErrors(form, today)
  {
    errs := map[];
    var solicitante := SolicitanteError(form);
    if solicitante.Some? {
      errs := errs["solicitante" := Str(solicitante.value)];
    }
    var departamento := DepartamentoError(form);
    if departamento.Some? {
      errs := errs["departamento" := Str(departamento.value)];
    }
    assert errs == WithError(WithError(map[], "solicitante", solicitante), "departamento", departamento);
    var data := NecessidadeError(form, today);
    if data.Some? {
      errs := errs["dataNecessidade" := Str(data.value)];
    }
    assert errs == HeaderErrors(form, today);
  }

  /**
   * The checks of `validateForm`: the header fields, then the three checks
   * of every item in order.
   */
  method CollectErrors(form: Record, itens: seq<Record>, today: int) returns (errs: map<string, Value>)
    requires HeaderReadable(form) && ItemsReadable(itens)
    ensures errs == RequisicaoErrors(form, itens, today)
  {
    errs := HeaderChecks(form, today);
    var i := 0;
    while i < |itens|
      invariant 0 <= i <= |itens|
      invariant errs == WithItemsErrors(HeaderErrors(form, today), itens[..i])
    {
      errs := AddItemErrors(errs, itens[i], i);
      assert itens[..i + 1][..i] == itens[..i];
      i := i + 1;
    }
    assert itens[..i] == itens;
  }

  /** The body of the `forEach` over the items: the three checks of item `index`. */
  method AddItemErrors(errs: map<string, Value>, item: Record, index: nat) returns (newErrors: map<string, Value>)
    requires ItemReadable(item)
    ensures newErrors == WithItemErrors(errs, item, index)
  {
    newErrors := errs;
    var produto := ProdutoError(item);
    if produto.Some? {
      newErrors := newErrors[ItemKey(index, "produtoId") := Str(produto.value)];
    }
    var quantidade := QuantidadeError(item);
    if quantidade.Some? {
      newErrors := newErrors[ItemKey(index, "quantidade") := Str(quantidade.value)];
    }
    assert newErrors == WithError(WithError(errs, ItemKey(index, "produtoId"), produto), ItemKey(index, "quantidade"), quantidade);
    var justificativa := JustificativaError(item);
    if justificativa.Some? {
      newErrors := newErrors[ItemKey(index, "justificativa") := Str(justificativa.value)];
    }
  }
}
