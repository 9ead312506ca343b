/**
 * The logistics screen (`LogisticaModule`): the shipment manifests with their
 * client's and carrier's names, the status badge, the summary figures, the
 * new-manifest form with its defaults, and the manifest it records.
 */
module Logistica {
  import opened Js
  import opened Text

  /** A client or a carrier, as the lookups read it. */
  datatype Parte = Parte(id: int, nome: string)

  /**
   * An entry of `data.romaneios`. The ids and volumes are what `parseInt`
   * made of the form's fields and the weight what `parseFloat` made of it,
   * `None` standing for `NaN`; `dataEntrega` is `null` until delivery.
   */
  datatype Romaneio = Romaneio(
    id: int, numero: string, clienteId: Option<int>, transportadoraId: Option<int>,
    dataEmissao: string, dataPrevisao: string, dataEntrega: Option<string>, status: string,
    tipoFrete: string, valorFrete: real, peso: Option<real>, volumes: Option<int>, observacoes: string)

  const Preparacao: string := "preparacao"
  const EmTransito: string := "em-transito"
  const Entregue: string := "entregue"
  const SemCliente: string := "Cliente não encontrado"
  const SemTransportadora: string := "Transportadora não encontrada"

  const Pending: string := "status-pending"
  const Approved: string := "status-approved"
  const Rejected: string := "status-rejected"
  const Completed: string := "status-completed"

  // ------------------------------------------------------------------ badge

  /** The status table of the logistics screen's `getStatusBadge`. */
  const StatusClasses: map<string, string> := map[
    Preparacao := Pending,
    EmTransito := Completed,
    Entregue := Approved,
    "cancelado" := Rejected]

  /** `statusMap[status] || 'status-pending'`: every status has a badge. */
  function StatusBadge(status: string): (badge: string)
    ensures badge in {Pending, Approved, Rejected, Completed}
    ensures badge == Completed <==> status == EmTransito
    ensures badge == Approved <==> status == Entregue
    ensures badge == Rejected <==> status == "cancelado"
    ensures badge == Pending <==> status !in {EmTransito, Entregue, "cancelado"}
  {
    if status in StatusClasses then StatusClasses[status] else Pending
  }

  // ------------------------------------------------------------------ lookups

  /** `partes.find(p => p.id === id)?.nome || fallback`. */
  function NomeOf(partes: seq<Parte>, id: Option<int>, fallback: string): (nome: string)
    requires fallback != ""
    ensures nome != ""
    ensures (forall j :: 0 <= j < |partes| ==> Some(partes[j].id) != id) ==> nome == fallback
    ensures forall k ::
      (0 <= k < |partes| && Some(partes[k].id) == id && forall j :: 0 <= j < k ==> Some(partes[j].id) != id) ==>
        nome == Or(Str(partes[k].nome), Str(fallback)).s
    decreases |partes|
  {
    if partes == [] then fallback
    else if Some(partes[0].id) == id then (if partes[0].nome != "" then partes[0].nome else fallback)
    else
      var nome := NomeOf(partes[1..], id, fallback);
      assert forall k :: 1 <= k < |partes| ==> partes[k] == partes[1..][k - 1];
      nome
  }

  /** A manifest as the list shows it. */
  datatype Linha = Linha(romaneio: Romaneio, cliente: string, transportadora: string)

  /** `romaneiosComDados`: every manifest, in order, with its client's and carrier's names or the fallbacks. */
  function RomaneiosComDados(clientes: seq<Parte>, transportadoras: seq<Parte>, romaneios: seq<Romaneio>): (ls: seq<Linha>)
    ensures |ls| == |romaneios|
    ensures forall i :: 0 <= i < |ls| ==>
      ls[i].romaneio == romaneios[i]
      && ls[i].cliente == NomeOf(clientes, romaneios[i].clienteId, SemCliente)
      && ls[i].transportadora == NomeOf(transportadoras, romaneios[i].transportadoraId, SemTransportadora)
  {
    seq(|romaneios|, i requires 0 <= i < |romaneios| =>
      Linha(romaneios[i], NomeOf(clientes, romaneios[i].clienteId, SemCliente),
        NomeOf(transportadoras, romaneios[i].transportadoraId, SemTransportadora)))
  }

  // ------------------------------------------------------------------ statistics

  function CountStatus(rs: seq<Romaneio>, status: string): (n: nat)
    ensures n <= |rs|
  {
    if rs == [] then 0 else CountStatus(rs[..|rs| - 1], status) + (if rs[|rs| - 1].status == status then 1 else 0)
  }

  /** Manifests of two different statuses are never more than all of them. */
  lemma {:induction false} CountTwoStatuses(rs: seq<Romaneio>, a: string, b: string)
    requires a != b
    ensures CountStatus(rs, a) + CountStatus(rs, b) <= |rs|
  {
    if rs != [] {
      CountTwoStatuses(rs[..|rs| - 1], a, b);
    }
  }

  /** `reduce((acc, r) => acc + r.valorFrete, 0)`. */
  function TotalFretes(rs: seq<Romaneio>): real {
    if rs == [] then 0.0 else TotalFretes(rs[..|rs| - 1]) + rs[|rs| - 1].valorFrete
  }

  datatype Stats = Stats(total: nat, emTransito: nat, entregues: nat, valorTotalFretes: real)

  /** The summary figures: the manifests in transit and the delivered ones are among all of them. */
  function LogisticaStats(rs: seq<Romaneio>): (s: Stats)
    ensures s.total == |rs|
    ensures s.emTransito == CountStatus(rs, EmTransito) && s.entregues == CountStatus(rs, Entregue)
    ensures s.emTransito + s.entregues <= s.total
    ensures s.valorTotalFretes == TotalFretes(rs)
  {
    CountTwoStatuses(rs, EmTransito, Entregue);
    Stats(|rs|, CountStatus(rs, EmTransito), CountStatus(rs, Entregue), TotalFretes(rs))
  }

  // ------------------------------------------------------------------ new manifest

  /** The new-manifest form's fields. */
  datatype RomaneioForm = RomaneioForm(
    clienteId: string, transportadoraId: string, dataEmissao: string, dataPrevisao: string,
    tipoFrete: string, valorFrete: string, peso: string, volumes: string, observacoes: string)

  /** The form as it opens: issued today, CIF freight, everything else empty. */
  function NovoForm(today: string): (f: RomaneioForm)
    ensures f.dataEmissao == today && f.tipoFrete == "CIF"
    ensures f.clienteId == "" && f.transportadoraId == "" && f.dataPrevisao == ""
    ensures f.valorFrete == "" && f.peso == "" && f.volumes == "" && f.observacoes == ""
  {
    RomaneioForm("", "", today, "", "CIF", "", "", "", "")
  }

  /** What the form submits; `None` is `NaN`. */
  datatype RomaneioDados = RomaneioDados(
    clienteId: Option<int>, transportadoraId: Option<int>, dataEmissao: string, dataPrevisao: string,
    tipoFrete: string, valorFrete: Option<real>, peso: Option<real>, volumes: Option<int>, observacoes: string)

  /** `parseFloat(field || 0)`. */
  function DecimalOrZero(field: string): (r: Option<real>)
    ensures field == "" ==> r == Some(0.0)
    ensures field != "" ==> r == ParseFloat(field)
  {
    if field == "" then Some(0.0) else ParseFloat(field)
  }

  /** `parseInt(field || 1)`. */
  function IntegerOrOne(field: string): (r: Option<int>)
    ensures field == "" ==> r == Some(1)
    ensures field != "" ==> r == ParseInt(field)
  {
    if field == "" then Some(1) else ParseInt(field)
  }

  /**
   * `handleSubmit`: passed on only with a client, a carrier and a forecast
   * date; an empty freight or weight is 0 and empty volumes are 1.
   */
  function SubmitRomaneio(form: RomaneioForm): (r: Option<RomaneioDados>)
    ensures r.Some? <==> form.clienteId != "" && form.transportadoraId != "" && form.dataPrevisao != ""
    ensures r.Some? ==>
      r.value.clienteId == ParseInt(form.clienteId) && r.value.transportadoraId == ParseInt(form.transportadoraId)
      && r.value.dataEmissao == form.dataEmissao && r.value.dataPrevisao == form.dataPrevisao
      && r.value.tipoFrete == form.tipoFrete && r.value.observacoes == form.observacoes
      && r.value.valorFrete == DecimalOrZero(form.valorFrete)
      && r.value.peso == DecimalOrZero(form.peso)
      && r.value.volumes == IntegerOrOne(form.volumes)
  {
    if form.clienteId != "" && form.transportadoraId != "" && form.dataPrevisao != "" then
      Some(RomaneioDados(ParseInt(form.clienteId), ParseInt(form.transportadoraId), form.dataEmissao,
        form.dataPrevisao, form.tipoFrete, DecimalOrZero(form.valorFrete), DecimalOrZero(form.peso),
        IntegerOrOne(form.volumes), form.observacoes))
    else None
  }

  /** A form filled in only with client, carrier and forecast submits no freight, no weight and one volume. */
  lemma DefaultsOfBlankForm(today: string, cliente: nat, transportadora: nat, previsao: string)
    requires previsao != ""
    ensures var f := NovoForm(today).(clienteId := Dec(cliente), transportadoraId := Dec(transportadora), dataPrevisao := previsao);
      var r := SubmitRomaneio(f);
      r.Some? && r.value.clienteId == Some(cliente) && r.value.transportadoraId == Some(transportadora)
      && r.value.valorFrete == Some(0.0) && r.value.peso == Some(0.0) && r.value.volumes == Some(1)
  {
    ParseIntDec(cliente, "");
    ParseIntDec(transportadora, "");
    assert Dec(cliente) + "" == Dec(cliente);
    assert Dec(transportadora) + "" == Dec(transportadora);
  }

  /** `ROM` and the last four digits of the clock. */
  function Numero(now: nat): (n: string)
    ensures 4 <= |n| <= 7 && n[..3] == "ROM"
    ensures forall i :: 3 <= i < |n| ==> IsDigit(n[i])
  {
    "ROM" + Last(Dec(now), 4)
  }

  /**
   * The manifest a submission creates: in preparation, undelivered, with id
   * `now`. The number reads the clock a second time, `nowNumero`.
   */
  function NovoRomaneio(dados: RomaneioDados, now: nat, nowNumero: nat): (r: Romaneio)
    requires dados.valorFrete.Some?
    ensures r.id == now && r.numero == Numero(nowNumero)
    ensures r.status == Preparacao && r.dataEntrega.None?
    ensures r.clienteId == dados.clienteId && r.transportadoraId == dados.transportadoraId
    ensures r.dataEmissao == dados.dataEmissao && r.dataPrevisao == dados.dataPrevisao
    ensures r.tipoFrete == dados.tipoFrete && r.valorFrete == dados.valorFrete.value
    ensures r.peso == dados.peso && r.volumes == dados.volumes && r.observacoes == dados.observacoes
  {
    Romaneio(now, Numero(nowNumero), dados.clienteId, dados.transportadoraId, dados.dataEmissao, dados.dataPrevisao,
      None, Preparacao, dados.tipoFrete, dados.valorFrete.value, dados.peso, dados.volumes, dados.observacoes)
  }

  /** The manifests of the store. */
  class Romaneios {
    var romaneios: seq<Romaneio>

    constructor(romaneios: seq<Romaneio>)
      ensures this.romaneios == romaneios
    {
      this.romaneios := romaneios;
    }

    /** `handleSalvarRomaneio`: the new manifest is appended. */
    method Salvar(dados: RomaneioDados, now: nat, nowNumero: nat)
      requires dados.valorFrete.Some?
      modifies this
      ensures romaneios == old(romaneios) + [NovoRomaneio(dados, now, nowNumero)]
    {
      romaneios := romaneios + [NovoRomaneio(dados, now, nowNumero)];
    }
  }

  /**
   * A new manifest counts in the total and in the freight sum, but neither
   * in transit nor delivered.
   */
  lemma NovoRomaneioStats(rs: seq<Romaneio>, dados: RomaneioDados, now: nat, nowNumero: nat)
    requires dados.valorFrete.Some?
    ensures var after := LogisticaStats(rs + [NovoRomaneio(dados, now, nowNumero)]);
      var before := LogisticaStats(rs);
      after.total == before.total + 1
      && after.emTransito == before.emTransito && after.entregues == before.entregues
      && after.valorTotalFretes == before.valorTotalFretes + dados.valorFrete.value
  {
    assert (rs + [NovoRomaneio(dados, now, nowNumero)])[..|rs|] == rs;
  }
}
