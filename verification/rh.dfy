/**
 * The human-resources screen (`RHModule`): employees and payroll payments,
 * the payments with their employee's name and role, the summary figures,
 * the two entry forms, and what saving an employee or a payment writes:
 * a payment's net salary is base plus overtime plus benefits less
 * deductions, each missing part counting as 0.
 */
module RH {
  import opened Js
  import opened Text

  /** An entry of `data.funcionarios`. */
  datatype Funcionario = Funcionario(
    id: int, codigo: string, nome: string, cpf: string, cargo: string, departamento: string,
    dataAdmissao: string, salario: real, status: string, email: string, telefone: string)

  /** An entry of `data.pagamentos`; `funcionarioId` is `parseInt` of the form's choice, `None` standing for `NaN`. */
  datatype Pagamento = Pagamento(
    id: int, funcionarioId: Option<int>, mesReferencia: string, salarioBase: real,
    horasExtras: real, beneficios: real, descontos: real, salarioLiquido: real,
    dataPagamento: string, status: string)

  const Ativo: string := "ativo"
  const Pendente: string := "pendente"
  const SemFuncionario: string := "Funcionário não encontrado"
  const SemCargo: string := "-"

  // ------------------------------------------------------------------ lookups

  /** `funcionarios.find(f => f.id === id)`, as an index. */
  function FindFuncionario(funcionarios: seq<Funcionario>, id: Option<int>): (k: Option<nat>)
    ensures k.Some? ==>
      k.value < |funcionarios| && Some(funcionarios[k.value].id) == id
      && forall j :: 0 <= j < k.value ==> Some(funcionarios[j].id) != id
    ensures k.None? <==> forall j :: 0 <= j < |funcionarios| ==> Some(funcionarios[j].id) != id
  {
    if funcionarios == [] then None
    else if Some(funcionarios[0].id) == id then Some(0)
    else match FindFuncionario(funcionarios[1..], id)
      case None => None
      case Some(k) => Some(k + 1)
  }

  /** A payment as the payroll list shows it. */
  datatype Linha = Linha(pagamento: Pagamento, funcionario: string, cargo: string)

  /**
   * `pagamentosComFuncionarios` for one payment: the employee's name, or
   * `'Funcionário não encontrado'`, and role, or `'-'`, when the employee is
   * unknown or the field is empty.
   */
  function LinhaOf(funcionarios: seq<Funcionario>, p: Pagamento): (l: Linha)
    ensures l.pagamento == p
    ensures FindFuncionario(funcionarios, p.funcionarioId).None? ==>
      l.funcionario == SemFuncionario && l.cargo == SemCargo
    ensures FindFuncionario(funcionarios, p.funcionarioId).Some? ==>
      var f := funcionarios[FindFuncionario(funcionarios, p.funcionarioId).value];
      l.funcionario == Or(Str(f.nome), Str(SemFuncionario)).s && l.cargo == Or(Str(f.cargo), Str(SemCargo)).s
    ensures l.funcionario != "" && l.cargo != ""
  {
    var k := FindFuncionario(funcionarios, p.funcionarioId);
    if k.Some? then
      var f := funcionarios[k.value];
      Linha(p, if f.nome != "" then f.nome else SemFuncionario, if f.cargo != "" then f.cargo else SemCargo)
    else Linha(p, SemFuncionario, SemCargo)
  }

  // ------------------------------------------------------------------ net salary

  /** `x || 0` on a parsed number: `NaN` (`None`) counts as 0. */
  function OrZero(x: Option<real>): (v: real)
    ensures x.None? ==> v == 0.0
    ensures x.Some? ==> v == x.value
  {
    if x.Some? then x.value else 0.0
  }

  /** Net salary: base plus overtime plus benefits less deductions. */
  function SalarioLiquido(base: real, horasExtras: real, beneficios: real, descontos: real): real {
    base + horasExtras + beneficios - descontos
  }

  /** A payment whose net salary agrees with its parts. */
  predicate Consistent(p: Pagamento) {
    p.salarioLiquido == SalarioLiquido(p.salarioBase, p.horasExtras, p.beneficios, p.descontos)
  }

  /** More overtime or benefits never lowers the net salary, more deductions never raise it. */
  lemma SalarioLiquidoMonotone(base: real, he1: real, he2: real, b1: real, b2: real, d1: real, d2: real)
    requires he1 <= he2 && b1 <= b2 && d2 <= d1
    ensures SalarioLiquido(base, he1, b1, d1) <= SalarioLiquido(base, he2, b2, d2)
  {
  }

  // ------------------------------------------------------------------ statistics

  function CountAtivos(fs: seq<Funcionario>): (n: nat)
    ensures n <= |fs|
  {
    if fs == [] then 0 else CountAtivos(fs[..|fs| - 1]) + (if fs[|fs| - 1].status == Ativo then 1 else 0)
  }

  /** `funcionarios.reduce((acc, f) => acc + f.salario, 0)`. */
  function TotalSalarios(fs: seq<Funcionario>): real {
    if fs == [] then 0.0 else TotalSalarios(fs[..|fs| - 1]) + fs[|fs| - 1].salario
  }

  /** `pagamentos.reduce((acc, p) => acc + p.salarioLiquido, 0)`. */
  function Folha(ps: seq<Pagamento>): real {
    if ps == [] then 0.0 else Folha(ps[..|ps| - 1]) + ps[|ps| - 1].salarioLiquido
  }

  /** The sum of one part of the payments. */
  function SumBase(ps: seq<Pagamento>): real {
    if ps == [] then 0.0 else SumBase(ps[..|ps| - 1]) + ps[|ps| - 1].salarioBase
  }

  function SumAdicionais(ps: seq<Pagamento>): real {
    if ps == [] then 0.0 else SumAdicionais(ps[..|ps| - 1]) + ps[|ps| - 1].horasExtras + ps[|ps| - 1].beneficios
  }

  function SumDescontos(ps: seq<Pagamento>): real {
    if ps == [] then 0.0 else SumDescontos(ps[..|ps| - 1]) + ps[|ps| - 1].descontos
  }

  /** The payroll of consistent payments is their bases plus their additions less their deductions. */
  lemma {:induction false} FolhaDecomposes(ps: seq<Pagamento>)
    requires forall i :: 0 <= i < |ps| ==> Consistent(ps[i])
    ensures Folha(ps) == SumBase(ps) + SumAdicionais(ps) - SumDescontos(ps)
  {
    if ps != [] {
      FolhaDecomposes(ps[..|ps| - 1]);
      assert Consistent(ps[|ps| - 1]);
    }
  }

  datatype Stats = Stats(totalFuncionarios: nat, funcionariosAtivos: nat, folhaPagamento: real, mediaSalarial: real)

  /** The summary figures; the mean salary is 0 with no employees. */
  function RHStats(fs: seq<Funcionario>, ps: seq<Pagamento>): (s: Stats)
    ensures s.totalFuncionarios == |fs| && s.funcionariosAtivos == CountAtivos(fs)
    ensures s.funcionariosAtivos <= s.totalFuncionarios
    ensures s.folhaPagamento == Folha(ps)
    ensures fs == [] ==> s.mediaSalarial == 0.0
    ensures fs != [] ==> s.mediaSalarial * |fs| as real == TotalSalarios(fs)
  {
    Stats(|fs|, CountAtivos(fs), Folha(ps), if |fs| > 0 then TotalSalarios(fs) / |fs| as real else 0.0)
  }

  // ------------------------------------------------------------------ forms

  /** The employee form's fields. */
  datatype FuncionarioForm = FuncionarioForm(
    nome: string, cpf: string, cargo: string, departamento: string, dataAdmissao: string,
    salario: string, email: string, telefone: string)

  /** What the employee form submits; `None` is `NaN`. */
  datatype FuncionarioDados = FuncionarioDados(
    nome: string, cpf: string, cargo: string, departamento: string, dataAdmissao: string,
    salario: Option<real>, email: string, telefone: string)

  /** `handleSubmit` for an employee: passed on only with a name, a role and a salary. */
  function SubmitFuncionario(form: FuncionarioForm): (r: Option<FuncionarioDados>)
    ensures r.Some? <==> form.nome != "" && form.cargo != "" && form.salario != ""
    ensures r.Some? ==>
      r.value == FuncionarioDados(form.nome, form.cpf, form.cargo, form.departamento, form.dataAdmissao,
        ParseFloat(form.salario), form.email, form.telefone)
  {
    if form.nome != "" && form.cargo != "" && form.salario != "" then
      Some(FuncionarioDados(form.nome, form.cpf, form.cargo, form.departamento, form.dataAdmissao,
        ParseFloat(form.salario), form.email, form.telefone))
    else None
  }

  /** The payment form's fields. */
  datatype PagamentoForm = PagamentoForm(
    funcionarioId: string, mesReferencia: string, salarioBase: string,
    horasExtras: string, beneficios: string, descontos: string, dataPagamento: string)

  /** What the payment form submits; `None` is `NaN`. */
  datatype PagamentoDados = PagamentoDados(
    funcionarioId: Option<int>, mesReferencia: string, salarioBase: Option<real>,
    horasExtras: Option<real>, beneficios: Option<real>, descontos: Option<real>, dataPagamento: string)

  /** `parseFloat(field || 0)`: an empty field is 0. */
  function ParseOptional(field: string): (r: Option<real>)
    ensures field == "" ==> r == Some(0.0)
    ensures field != "" ==> r == ParseFloat(field)
  {
    if field == "" then Some(0.0) else ParseFloat(field)
  }

  /**
   * `handleSubmit` for a payment: passed on only with an employee, a
   * reference month and a base salary; empty additions and deductions are 0.
   */
  function SubmitPagamento(form: PagamentoForm): (r: Option<PagamentoDados>)
    ensures r.Some? <==> form.funcionarioId != "" && form.mesReferencia != "" && form.salarioBase != ""
    ensures r.Some? ==>
      r.value.funcionarioId == ParseInt(form.funcionarioId) && r.value.mesReferencia == form.mesReferencia
      && r.value.salarioBase == ParseFloat(form.salarioBase)
      && r.value.horasExtras == ParseOptional(form.horasExtras)
      && r.value.beneficios == ParseOptional(form.beneficios)
      && r.value.descontos == ParseOptional(form.descontos)
      && r.value.dataPagamento == form.dataPagamento
  {
    if form.funcionarioId != "" && form.mesReferencia != "" && form.salarioBase != "" then
      Some(PagamentoDados(ParseInt(form.funcionarioId), form.mesReferencia, ParseFloat(form.salarioBase),
        ParseOptional(form.horasExtras), ParseOptional(form.beneficios), ParseOptional(form.descontos),
        form.dataPagamento))
    else None
  }

  // ------------------------------------------------------------------ saving

  /** `FUNC` and the last three digits of the clock. */
  function Codigo(now: nat): (c: string)
    ensures 5 <= |c| <= 7 && c[..4] == "FUNC"
    ensures forall i :: 4 <= i < |c| ==> IsDigit(c[i])
  {
    "FUNC" + Last(Dec(now), 3)
  }

  /**
   * The employee the employee form creates: active, with id `now`. The code
   * reads the clock a second time, `nowCodigo`.
   */
  function NovoFuncionario(dados: FuncionarioDados, now: nat, nowCodigo: nat): (f: Funcionario)
    requires dados.salario.Some?
    ensures f.id == now && f.codigo == Codigo(nowCodigo) && f.status == Ativo
    ensures f.nome == dados.nome && f.cpf == dados.cpf && f.cargo == dados.cargo
    ensures f.departamento == dados.departamento && f.dataAdmissao == dados.dataAdmissao
    ensures f.salario == dados.salario.value && f.email == dados.email && f.telefone == dados.telefone
  {
    Funcionario(now, Codigo(nowCodigo), dados.nome, dados.cpf, dados.cargo, dados.departamento,
      dados.dataAdmissao, dados.salario.value, Ativo, dados.email, dados.telefone)
  }

  /** The payment the payment form creates: pending, stamped `now`, each missing part 0. */
  function NovoPagamento(dados: PagamentoDados, now: int): (p: Pagamento)
    requires dados.salarioBase.Some?
    ensures p.id == now && p.status == Pendente
    ensures p.funcionarioId == dados.funcionarioId && p.mesReferencia == dados.mesReferencia
    ensures p.dataPagamento == dados.dataPagamento
    ensures p.salarioBase == dados.salarioBase.value
    ensures p.horasExtras == OrZero(dados.horasExtras)
    ensures p.beneficios == OrZero(dados.beneficios)
    ensures p.descontos == OrZero(dados.descontos)
    ensures Consistent(p)
  {
    var horasExtras := OrZero(dados.horasExtras);
    var beneficios := OrZero(dados.beneficios);
    var descontos := OrZero(dados.descontos);
    Pagamento(now, dados.funcionarioId, dados.mesReferencia, dados.salarioBase.value,
      horasExtras, beneficios, descontos,
      dados.salarioBase.value + horasExtras + beneficios - descontos,
      dados.dataPagamento, Pendente)
  }

  /** A payment submitted with only a base salary pays exactly the base. */
  lemma BaseOnlyPaysBase(form: PagamentoForm, now: int)
    requires form.funcionarioId != "" && form.mesReferencia != ""
    requires form.horasExtras == "" && form.beneficios == "" && form.descontos == ""
    requires ParseFloat(form.salarioBase).Some?
    ensures SubmitPagamento(form).Some?
    ensures NovoPagamento(SubmitPagamento(form).value, now).salarioLiquido == ParseFloat(form.salarioBase).value
  {
  }

  /** The employees and payments of the store. */
  class Pessoal {
    var funcionarios: seq<Funcionario>
    var pagamentos: seq<Pagamento>

    /** Every payment's net salary agrees with its parts. */
    predicate Valid()
      reads this
    {
      forall i :: 0 <= i < |pagamentos| ==> Consistent(pagamentos[i])
    }

    constructor(funcionarios: seq<Funcionario>, pagamentos: seq<Pagamento>)
      requires forall i :: 0 <= i < |pagamentos| ==> Consistent(pagamentos[i])
      ensures this.funcionarios == funcionarios && this.pagamentos == pagamentos
      ensures Valid()
    {
      this.funcionarios := funcionarios;
      this.pagamentos := pagamentos;
    }

    /** The payroll of the recorded payments, as bases plus additions less deductions. */
    function FolhaPagamento(): (total: real)
      requires Valid()
      reads this
      ensures total == SumBase(pagamentos) + SumAdicionais(pagamentos) - SumDescontos(pagamentos)
    {
      FolhaDecomposes(pagamentos);
      Folha(pagamentos)
    }

    /** `handleSalvarNovo` on the employee section: the new employee is appended. */
    method SalvarFuncionario(dados: FuncionarioDados, now: nat, nowCodigo: nat)
      requires dados.salario.Some?
      modifies this
      ensures funcionarios == old(funcionarios) + [NovoFuncionario(dados, now, nowCodigo)]
      ensures pagamentos == old(pagamentos)
      ensures old(Valid()) ==> Valid()
    {
      funcionarios := funcionarios + [NovoFuncionario(dados, now, nowCodigo)];
    }

    /** `handleSalvarNovo` on any other section: the new payment is appended. */
    method SalvarPagamento(dados: PagamentoDados, now: int)
      requires dados.salarioBase.Some?
      requires Valid()
      modifies this
      ensures pagamentos == old(pagamentos) + [NovoPagamento(dados, now)]
      ensures funcionarios == old(funcionarios)
      ensures Valid()
    {
      pagamentos := pagamentos + [NovoPagamento(dados, now)];
    }
  }

  /** A new payment raises the payroll by its own net salary. */
  lemma FolhaAppend(ps: seq<Pagamento>, p: Pagamento)
    ensures Folha(ps + [p]) == Folha(ps) + p.salarioLiquido
  {
    assert (ps + [p])[..|ps + [p]| - 1] == ps;
  }

  /** A new employee is active, so the active count grows with the total. */
  lemma NovoFuncionarioAtivo(fs: seq<Funcionario>, dados: FuncionarioDados, now: nat, nowCodigo: nat)
    requires dados.salario.Some?
    ensures CountAtivos(fs + [NovoFuncionario(dados, now, nowCodigo)]) == CountAtivos(fs) + 1
  {
    assert (fs + [NovoFuncionario(dados, now, nowCodigo)])[..|fs|] == fs;
  }
}
