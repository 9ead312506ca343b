/**
 * The fuelling screen (`AbastecimentoModule`): the equipment list, the refuel
 * records with their equipment's name and meter unit, the summary figures,
 * the two entry forms, and what saving an equipment or a refuel writes:
 * a refuel records the fuel consumption since the equipment's last reading
 * and moves the equipment's meter to the new reading.
 */
module Abastecimento {
  import opened Js
  import opened Text

  /** An entry of `data.equipamentos`. */
  datatype Equipamento = Equipamento(
    id: int, codigo: string, nome: string, tipo: string,
    medidorAtual: real, medidor: string, consumoMedio: real)

  /**
   * An entry of `data.abastecimentos`; `equipamentoId` is what `parseInt`
   * made of the form's choice, `None` standing for `NaN`.
   */
  datatype Registro = Registro(
    id: int, equipamentoId: Option<int>, data: string, litros: real,
    medidorAnterior: real, medidorAtual: real, consumo: real)

  const SemEquipamento: string := "Equipamento não encontrado"
  const MedidorPadrao: string := "km"

  // ------------------------------------------------------------------ lookups

  /** `equipamentos.find(eq => eq.id === id)`, as an index. */
  function FindEquipamento(equipamentos: seq<Equipamento>, id: Option<int>): (k: Option<nat>)
    ensures k.Some? ==>
      k.value < |equipamentos| && Some(equipamentos[k.value].id) == id
      && forall j :: 0 <= j < k.value ==> Some(equipamentos[j].id) != id
    ensures k.None? <==> forall j :: 0 <= j < |equipamentos| ==> Some(equipamentos[j].id) != id
  {
    if equipamentos == [] then None
    else if Some(equipamentos[0].id) == id then Some(0)
    else match FindEquipamento(equipamentos[1..], id)
      case None => None
      case Some(k) => Some(k + 1)
  }

  /** A refuel as the list shows it, with its equipment's name and meter unit. */
  datatype Linha = Linha(registro: Registro, equipamento: string, tipoMedidor: string)

  /**
   * `abastecimentosComEquipamentos` for one record: the equipment's name,
   * or `'Equipamento não encontrado'`, and its meter unit, or `'km'`, when
   * the equipment is unknown or the field is empty.
   */
  function LinhaOf(equipamentos: seq<Equipamento>, r: Registro): (l: Linha)
    ensures l.registro == r
    ensures FindEquipamento(equipamentos, r.equipamentoId).None? ==>
      l.equipamento == SemEquipamento && l.tipoMedidor == MedidorPadrao
    ensures FindEquipamento(equipamentos, r.equipamentoId).Some? ==>
      var e := equipamentos[FindEquipamento(equipamentos, r.equipamentoId).value];
      l.equipamento == Or(Str(e.nome), Str(SemEquipamento)).s
      && l.tipoMedidor == Or(Str(e.medidor), Str(MedidorPadrao)).s
    ensures l.equipamento != "" && l.tipoMedidor != ""
  {
    var k := FindEquipamento(equipamentos, r.equipamentoId);
    if k.Some? then
      var e := equipamentos[k.value];
      Linha(r, if e.nome != "" then e.nome else SemEquipamento, if e.medidor != "" then e.medidor else MedidorPadrao)
    else Linha(r, SemEquipamento, MedidorPadrao)
  }

  /** Every record, in order, with its equipment. */
  function Linhas(equipamentos: seq<Equipamento>, registros: seq<Registro>): (ls: seq<Linha>)
    ensures |ls| == |registros|
    ensures forall i :: 0 <= i < |ls| ==> ls[i] == LinhaOf(equipamentos, registros[i])
  {
    seq(|registros|, i requires 0 <= i < |registros| => LinhaOf(equipamentos, registros[i]))
  }

  // ------------------------------------------------------------------ statistics

  /** `reduce((acc, item) => acc + item.litros, 0)`. */
  function TotalLitros(rs: seq<Registro>): real {
    if rs == [] then 0.0 else TotalLitros(rs[..|rs| - 1]) + rs[|rs| - 1].litros
  }

  /** `reduce((acc, item) => acc + item.consumo, 0)`. */
  function TotalConsumo(rs: seq<Registro>): real {
    if rs == [] then 0.0 else TotalConsumo(rs[..|rs| - 1]) + rs[|rs| - 1].consumo
  }

  /** The consumption sum lies between the count times the least and the count times the greatest ratio. */
  lemma {:induction false} TotalConsumoBounds(rs: seq<Registro>, lo: real, hi: real)
    requires forall i :: 0 <= i < |rs| ==> lo <= rs[i].consumo <= hi
    ensures |rs| as real * lo <= TotalConsumo(rs) <= |rs| as real * hi
  {
    if rs != [] {
      var init := rs[..|rs| - 1];
      TotalConsumoBounds(init, lo, hi);
      assert |rs| as real * lo == |init| as real * lo + lo;
      assert |rs| as real * hi == |init| as real * hi + hi;
    }
  }

  datatype Stats = Stats(totalEquipamentos: nat, totalAbastecimentos: nat, totalLitros: real, consumoMedio: real)

  /** The summary figures; the mean consumption is 0 when nothing was recorded. */
  function AbastecimentoStats(equipamentos: seq<Equipamento>, rs: seq<Registro>): (s: Stats)
    ensures s.totalEquipamentos == |equipamentos| && s.totalAbastecimentos == |rs|
    ensures s.totalLitros == TotalLitros(rs)
    ensures rs == [] ==> s.consumoMedio == 0.0
    ensures rs != [] ==> s.consumoMedio * |rs| as real == TotalConsumo(rs)
  {
    var media := if |rs| > 0 then TotalConsumo(rs) / |rs| as real else 0.0;
    Stats(|equipamentos|, |rs|, TotalLitros(rs), media)
  }

  /** The mean consumption lies between the least and the greatest recorded ratio. */
  lemma ConsumoMedioBounds(equipamentos: seq<Equipamento>, rs: seq<Registro>, lo: real, hi: real)
    requires rs != []
    requires forall i :: 0 <= i < |rs| ==> lo <= rs[i].consumo <= hi
    ensures lo <= AbastecimentoStats(equipamentos, rs).consumoMedio <= hi
  {
    TotalConsumoBounds(rs, lo, hi);
    QuotientBounds(TotalConsumo(rs), |rs| as real, lo, hi);
  }

  /** A quotient by a positive number keeps the bounds the dividend has in multiples of it. */
  lemma QuotientBounds(t: real, n: real, lo: real, hi: real)
    requires n > 0.0 && n * lo <= t <= n * hi
    ensures lo <= t / n <= hi
  {
  }

  /** A new refuel adds its litres to the total. */
  lemma TotalLitrosAppend(rs: seq<Registro>, r: Registro)
    ensures TotalLitros(rs + [r]) == TotalLitros(rs) + r.litros
  {
    assert (rs + [r])[..|rs + [r]| - 1] == rs;
  }

  // ------------------------------------------------------------------ forms

  /** The equipment form's fields. */
  datatype EquipamentoForm = EquipamentoForm(nome: string, tipo: string, medidorAtual: string, medidor: string, consumoMedio: string)

  /** What the equipment form submits; `None` is `NaN`. */
  datatype EquipamentoDados = EquipamentoDados(nome: string, tipo: string, medidorAtual: Option<real>, medidor: string, consumoMedio: Option<real>)

  /**
   * `handleSubmit` for equipment: passed on only with a name and a meter
   * reading; an empty mean consumption is parsed as 0.
   */
  function SubmitEquipamento(form: EquipamentoForm): (r: Option<EquipamentoDados>)
    ensures r.Some? <==> form.nome != "" && form.medidorAtual != ""
    ensures r.Some? ==>
      r.value.nome == form.nome && r.value.tipo == form.tipo && r.value.medidor == form.medidor
      && r.value.medidorAtual == ParseFloat(form.medidorAtual)
      && r.value.consumoMedio == (if form.consumoMedio == "" then Some(0.0) else ParseFloat(form.consumoMedio))
  {
    if form.nome != "" && form.medidorAtual != "" then
      Some(EquipamentoDados(form.nome, form.tipo, ParseFloat(form.medidorAtual), form.medidor,
        if form.consumoMedio == "" then Some(0.0) else ParseFloat(form.consumoMedio)))
    else None
  }

  /** The refuel form's fields. */
  datatype AbastecimentoForm = AbastecimentoForm(equipamentoId: string, data: string, litros: string, medidorAtual: string)

  /** What the refuel form submits; `None` is `NaN`. */
  datatype AbastecimentoDados = AbastecimentoDados(equipamentoId: Option<int>, data: string, litros: Option<real>, medidorAtual: Option<real>)

  /** `handleSubmit` for a refuel: passed on only with an equipment, litres and a meter reading. */
  function SubmitAbastecimento(form: AbastecimentoForm): (r: Option<AbastecimentoDados>)
    ensures r.Some? <==> form.equipamentoId != "" && form.litros != "" && form.medidorAtual != ""
    ensures r.Some? ==>
      r.value.equipamentoId == ParseInt(form.equipamentoId) && r.value.data == form.data
      && r.value.litros == ParseFloat(form.litros) && r.value.medidorAtual == ParseFloat(form.medidorAtual)
  {
    if form.equipamentoId != "" && form.litros != "" && form.medidorAtual != "" then
      Some(AbastecimentoDados(ParseInt(form.equipamentoId), form.data, ParseFloat(form.litros), ParseFloat(form.medidorAtual)))
    else None
  }

  /** An equipment chosen from the list is submitted as its own id. */
  lemma SubmittedEquipamentoId(form: AbastecimentoForm, id: nat)
    requires form.equipamentoId == Dec(id) && form.litros != "" && form.medidorAtual != ""
    ensures SubmitAbastecimento(form).Some? && SubmitAbastecimento(form).value.equipamentoId == Some(id)
  {
    ParseIntDec(id, "");
    assert Dec(id) + "" == Dec(id);
  }

  // ------------------------------------------------------------------ saving

  /** `EQ` and the last three digits of the clock. */
  function Codigo(now: nat): (c: string)
    ensures 3 <= |c| <= 5 && c[..2] == "EQ"
    ensures forall i :: 2 <= i < |c| ==> IsDigit(c[i])
  {
    "EQ" + Last(Dec(now), 3)
  }

  /**
   * The equipment the equipment form creates; an unparsable mean consumption
   * is 0. The id and the code read the clock twice: `now` and `nowCodigo`.
   */
  function NovoEquipamento(dados: EquipamentoDados, now: nat, nowCodigo: nat): (e: Equipamento)
    requires dados.medidorAtual.Some?
    ensures e.id == now && e.codigo == Codigo(nowCodigo)
    ensures e.nome == dados.nome && e.tipo == dados.tipo && e.medidor == dados.medidor
    ensures e.medidorAtual == dados.medidorAtual.value
    ensures e.consumoMedio == (if dados.consumoMedio.Some? then dados.consumoMedio.value else 0.0)
  {
    Equipamento(now, Codigo(nowCodigo), dados.nome, dados.tipo, dados.medidorAtual.value, dados.medidor,
      if dados.consumoMedio.Some? then dados.consumoMedio.value else 0.0)
  }

  /** The meter reading a refuel starts from: the equipment's current meter, 0 when it is unknown. */
  function MedidorAnterior(equipamentos: seq<Equipamento>, id: Option<int>): (m: real)
    ensures FindEquipamento(equipamentos, id).None? ==> m == 0.0
    ensures FindEquipamento(equipamentos, id).Some? ==> m == equipamentos[FindEquipamento(equipamentos, id).value].medidorAtual
  {
    var k := FindEquipamento(equipamentos, id);
    if k.Some? then equipamentos[k.value].medidorAtual else 0.0
  }

  /** Litres per unit of meter run since the last reading, 0 when the meter did not advance. */
  function Consumo(litros: real, anterior: real, atual: real): (c: real)
    ensures atual - anterior <= 0.0 ==> c == 0.0
    ensures atual - anterior > 0.0 ==> c * (atual - anterior) == litros
    ensures litros >= 0.0 ==> c >= 0.0
  {
    var distancia := atual - anterior;
    if distancia > 0.0 then litros / distancia else 0.0
  }

  /** The record a refuel creates. */
  function NovoRegistro(equipamentos: seq<Equipamento>, dados: AbastecimentoDados, now: int): (r: Registro)
    requires dados.litros.Some? && dados.medidorAtual.Some?
    ensures r.id == now && r.equipamentoId == dados.equipamentoId && r.data == dados.data
    ensures r.litros == dados.litros.value && r.medidorAtual == dados.medidorAtual.value
    ensures r.medidorAnterior == MedidorAnterior(equipamentos, dados.equipamentoId)
    ensures r.consumo == Consumo(r.litros, r.medidorAnterior, r.medidorAtual)
  {
    var anterior := MedidorAnterior(equipamentos, dados.equipamentoId);
    Registro(now, dados.equipamentoId, dados.data, dados.litros.value, anterior, dados.medidorAtual.value,
      Consumo(dados.litros.value, anterior, dados.medidorAtual.value))
  }

  /** The equipment and refuels of the store. */
  class Frota {
    var equipamentos: seq<Equipamento>
    var registros: seq<Registro>

    constructor(equipamentos: seq<Equipamento>, registros: seq<Registro>)
      ensures this.equipamentos == equipamentos && this.registros == registros
    {
      this.equipamentos := equipamentos;
      this.registros := registros;
    }

    /** `handleSalvarNovo` on the equipment section: the new equipment is appended. */
    method SalvarEquipamento(dados: EquipamentoDados, now: nat, nowCodigo: nat)
      requires dados.medidorAtual.Some?
      modifies this
      ensures equipamentos == old(equipamentos) + [NovoEquipamento(dados, now, nowCodigo)]
      ensures registros == old(registros)
    {
      equipamentos := equipamentos + [NovoEquipamento(dados, now, nowCodigo)];
    }

    /**
     * `handleSalvarNovo` on any other section: the refuel is appended and a
     * known equipment's meter moves to the new reading; nothing else changes.
     */
    method SalvarAbastecimento(dados: AbastecimentoDados, now: int)
      requires dados.litros.Some? && dados.medidorAtual.Some?
      modifies this
      ensures registros == old(registros) + [NovoRegistro(old(equipamentos), dados, now)]
      ensures var k := FindEquipamento(old(equipamentos), dados.equipamentoId);
        (k.None? ==> equipamentos == old(equipamentos))
        && (k.Some? ==> equipamentos == old(equipamentos)[k.value := old(equipamentos)[k.value].(medidorAtual := dados.medidorAtual.value)])
    {
      var k := FindEquipamento(equipamentos, dados.equipamentoId);
      registros := registros + [NovoRegistro(equipamentos, dados, now)];
      if k.Some? {
        equipamentos := equipamentos[k.value := equipamentos[k.value].(medidorAtual := dados.medidorAtual.value)];
      }
    }
  }

  /**
   * Successive refuels chain: after a refuel of a known equipment, the next
   * refuel of the same equipment starts from the reading the first one
   * recorded, and the equipment keeps its place in the list.
   */
  lemma RefuelsChain(equipamentos: seq<Equipamento>, dados: AbastecimentoDados, now: int)
    requires dados.litros.Some? && dados.medidorAtual.Some?
    requires FindEquipamento(equipamentos, dados.equipamentoId).Some?
    ensures var k := FindEquipamento(equipamentos, dados.equipamentoId).value;
      var after := equipamentos[k := equipamentos[k].(medidorAtual := dados.medidorAtual.value)];
      FindEquipamento(after, dados.equipamentoId) == Some(k)
      && MedidorAnterior(after, dados.equipamentoId) == NovoRegistro(equipamentos, dados, now).medidorAtual
  {
    var k := FindEquipamento(equipamentos, dados.equipamentoId).value;
    var after := equipamentos[k := equipamentos[k].(medidorAtual := dados.medidorAtual.value)];
    var k' := FindEquipamento(after, dados.equipamentoId);
    assert Some(after[k].id) == dados.equipamentoId;
  }
}
