/**
 * How `createTitulosPagar` turns a supplier's payment terms into payable
 * titles: terms with a "/" are one instalment per piece ("30/60/90 dias"),
 * anything else is a single title whose term is every digit of the text
 * read as one number ("À vista com 5% desconto" is due in 5 days).
 */
module Installments {
  import opened Js
  import opened Text

  /** The terms used when the supplier has none (`termosPagamento || "30 dias"`). */
  const DefaultTerms: string := "30 dias"

  /** `termosPagamento.includes("/")` needs a string whenever the field is set. */
  predicate TermsReadable(termosPagamento: Value) {
    Truthy(termosPagamento) ==> termosPagamento.Str?
  }

  function TermsOf(termosPagamento: Value): string
    requires TermsReadable(termosPagamento)
  {
    if Truthy(termosPagamento) then termosPagamento.s else DefaultTerms
  }

  predicate IsInstalments(terms: string) {
    '/' in terms
  }

  /** One piece of the terms: `parseInt(p.trim().replace(" dias", ""))`; `None` is `NaN`. */
  function PieceDays(piece: string): Option<int> {
    ParseInt(ReplaceFirst(Trim(piece), " dias", ""))
  }

  /** The parsed pieces of instalment terms, one per "/"-separated piece. */
  function Parcelas(terms: string): (ps: seq<Option<int>>)
    ensures |ps| == |Split(terms, '/')| && |ps| >= 1
  {
    var pieces := Split(terms, '/');
    seq(|pieces|, k requires 0 <= k < |pieces| => PieceDays(pieces[k]))
  }

  /** The day counts read before the first piece that does not parse. */
  function ParsedPrefix(ps: seq<Option<int>>): (ds: seq<int>)
    ensures |ds| <= |ps|
    ensures forall k :: 0 <= k < |ds| ==> ps[k] == Some(ds[k])
    ensures |ds| < |ps| ==> ps[|ds|].None?
  {
    if ps == [] || ps[0].None? then [] else [ps[0].value] + ParsedPrefix(ps[1..])
  }

  /** Single-title terms: `parseInt(terms.replace(/\D/g, "")) || 0`. */
  function CashDays(terms: string): nat {
    DigitsValue(KeepDigits(terms))
  }

  /** Every piece parsed: no due date is invalid. */
  predicate AllParsed(ps: seq<Option<int>>) {
    forall k :: 0 <= k < |ps| ==> ps[k].Some?
  }

  /** Every title of the terms can be created. */
  predicate Complete(terms: string) {
    !IsInstalments(terms) || AllParsed(Parcelas(terms))
  }

  /** One title to be created: value, due day, `parcela` label and `observacoes`. */
  datatype Planned = Planned(valor: real, due: int, parcela: string, observacoes: string)

  /**
   * The value of instalment `k` of `n`: `total / n`, except the last, which
   * takes what is left so that rounding never loses money.
   */
  function Share(total: real, n: nat, k: nat): real
    requires n >= 1
  {
    if k == n - 1 then total - Times(Each(total, n), n - 1) else Each(total, n)
  }

  /** `a * m`. */
  function Times(a: real, m: nat): real {
    a * m as real
  }

  /** `total / n`. */
  function Each(total: real, n: nat): real
    requires n >= 1
  {
    total / n as real
  }

  /**
   * The instalment titles for parsed pieces `ps`, up to (not including) the
   * first piece whose day count is `NaN`: there `toISOString` throws and the
   * remaining titles are never made.
   */
  function Instalments(total: real, issue: int, ps: seq<Option<int>>): (plan: seq<Planned>)
    requires |ps| >= 1
    ensures |plan| <= |ps|
    ensures AllParsed(ps) <==> |plan| == |ps|
    ensures forall k :: 0 <= k < |plan| ==>
      ps[k] == Some(plan[k].due - issue)
      && plan[k].valor == Share(total, |ps|, k)
      && plan[k].parcela == Dec(k + 1) + "/" + Dec(|ps|)
  {
    var ds := ParsedPrefix(ps);
    seq(|ds|, k requires 0 <= k < |ds| => InstalmentAt(total, issue, |ps|, k, ds[k]))
  }

  /** Instalment `k`, as the loop of `createTitulosPagar` builds it from the `k`-th piece. */
  function InstalmentAt(total: real, issue: int, n: nat, k: nat, dias: int): Planned
    requires n >= 1
  {
    Planned(Share(total, n, k), issue + dias, Dec(k + 1) + "/" + Dec(n),
            "Parcela " + Dec(k + 1) + " - " + IntStr(dias) + " dias")
  }

  /** The plan holds, in order, the instalments of the pieces before the first unparsable one. */
  lemma InstalmentsAt(total: real, issue: int, ps: seq<Option<int>>, k: nat)
    requires |ps| >= 1 && k < |ps|
    requires forall j :: 0 <= j <= k ==> ps[j].Some?
    ensures k < |Instalments(total, issue, ps)|
    ensures Instalments(total, issue, ps)[k] == InstalmentAt(total, issue, |ps|, k, ps[k].value)
  {
    var ds := ParsedPrefix(ps);
    if |ds| <= k {
      assert ps[|ds|].None?;
    }
  }

  /** The plan ends at the first piece that does not parse, or with the pieces. */
  lemma InstalmentsLength(total: real, issue: int, ps: seq<Option<int>>, k: nat)
    requires |ps| >= 1 && k <= |ps|
    requires forall j :: 0 <= j < k ==> ps[j].Some?
    requires k < |ps| ==> ps[k].None?
    ensures |Instalments(total, issue, ps)| == k
  {
    var ds := ParsedPrefix(ps);
    if |ds| < k {
      assert ps[|ds|].None?;
    }
  }

  /** The titles `createTitulosPagar` creates for an order of `total` issued on day `issue`. */
  function Plan(total: real, issue: int, terms: string): (plan: seq<Planned>)
    ensures !IsInstalments(terms) ==>
      |plan| == 1 && plan[0].valor == total && plan[0].due == issue + CashDays(terms)
      && plan[0].parcela == "1/1" && plan[0].observacoes == terms
  {
    if IsInstalments(terms) then Instalments(total, issue, Parcelas(terms))
    else [Planned(total, issue + CashDays(terms), "1/1", terms)]
  }

  /** The sum of the planned values. */
  function SumValor(plan: seq<Planned>): real {
    if plan == [] then 0.0 else SumValor(plan[..|plan| - 1]) + plan[|plan| - 1].valor
  }

  lemma {:induction false} SumOfEqualShares(plan: seq<Planned>, each: real, m: nat)
    requires m <= |plan|
    requires forall k :: 0 <= k < m ==> plan[k].valor == each
    ensures SumValor(plan[..m]) == Times(each, m)
  {
    if m > 0 {
      assert plan[..m][..m - 1] == plan[..m - 1];
      SumOfEqualShares(plan, each, m - 1);
    }
  }

  /** When every instalment is created, their values add up to the total exactly. */
  lemma InstalmentsSumToTotal(total: real, issue: int, ps: seq<Option<int>>)
    requires |ps| >= 1 && AllParsed(ps)
    ensures SumValor(Instalments(total, issue, ps)) == total
  {
    var plan := Instalments(total, issue, ps);
    var n := |ps|;
    assert |plan| == n;
    var each := Each(total, n);
    forall k | 0 <= k < n - 1 ensures plan[k].valor == each {
      assert plan[k].valor == Share(total, n, k);
    }
    SumOfEqualShares(plan, each, n - 1);
    assert plan[n - 1].valor == Share(total, n, n - 1);
    assert Share(total, n, n - 1) == total - Times(each, n - 1);
    assert SumValor(plan) == SumValor(plan[..n - 1]) + plan[n - 1].valor;
  }

  /** When every title is created, their values add up to the order total exactly. */
  lemma PlanSumsToTotal(total: real, issue: int, terms: string)
    requires Complete(terms)
    ensures SumValor(Plan(total, issue, terms)) == total
  {
    if IsInstalments(terms) {
      InstalmentsSumToTotal(total, issue, Parcelas(terms));
    } else {
      var plan := Plan(total, issue, terms);
      assert plan[..0] == [];
    }
  }

  // ------------------------------------------------------- generated terms

  /** The pieces of instalment terms for the given day counts: "30", "60", "90 dias". */
  function DayPieces(days: seq<nat>): (ps: seq<string>)
    ensures |ps| == |days|
  {
    seq(|days|, k requires 0 <= k < |days| => Dec(days[k]) + (if k == |days| - 1 then " dias" else ""))
  }

  /** Instalment terms written the way the suppliers' records write them: "30/60/90 dias". */
  function TermsText(days: seq<nat>): string
    requires |days| >= 1
  {
    Join(DayPieces(days), '/')
  }

  lemma PieceDaysDec(d: nat, suffix: string)
    requires suffix == "" || suffix == " dias"
    ensures PieceDays(Dec(d) + suffix) == Some(d)
  {
    PieceTrimmed(Dec(d), suffix);
    PieceWithoutDias(d, suffix);
    DecParses(d);
  }

  lemma DecParses(d: nat)
    ensures ParseInt(Dec(d)) == Some(d)
  {
    AppendNothing(Dec(d));
    ParseIntDec(d, "");
  }

  lemma PieceTrimmed(digits: string, suffix: string)
    requires |digits| >= 1 && AllDigits(digits)
    requires suffix == "" || suffix == " dias"
    ensures Trim(digits + suffix) == digits + suffix
  {
    var s := digits + suffix;
    assert s[0] == digits[0];
    if suffix == "" {
      assert s == digits;
    } else {
      assert s[|s| - 1] == 's';
    }
    TrimNoSpaceEnds(s);
  }

  lemma PieceWithoutDias(d: nat, suffix: string)
    requires suffix == "" || suffix == " dias"
    ensures ReplaceFirst(Dec(d) + suffix, " dias", "") == Dec(d)
  {
    DigitsNoSpace(Dec(d));
    ReplaceFirstAfter(Dec(d), " dias", "", suffix);
    assert ReplaceFirst(suffix, " dias", "") == "";
    assert Dec(d) + "" == Dec(d);
  }

  lemma AppendNothing(s: string)
    ensures s + "" == s
  {
  }

  lemma DigitsNoSpace(s: string)
    requires AllDigits(s)
    ensures ' ' !in s
  {
  }

  lemma JoinHasSeparator(ps: seq<string>, c: char)
    requires |ps| >= 2
    ensures c in Join(ps, c)
  {
    assert Join(ps, c)[|ps[0]|] == c;
  }

  lemma PiecesWithoutSeparator(days: seq<nat>)
    ensures forall k :: 0 <= k < |days| ==> '/' !in DayPieces(days)[k]
  {
    var pieces := DayPieces(days);
    forall k | 0 <= k < |pieces| ensures '/' !in pieces[k] {
      var suffix := if k == |days| - 1 then " dias" else "";
      var d := Dec(days[k]);
      assert pieces[k] == d + suffix;
      forall i | 0 <= i < |pieces[k]| ensures pieces[k][i] != '/' {
        if i < |d| {
          assert pieces[k][i] == d[i] && IsDigit(d[i]);
        } else {
          assert pieces[k][i] == suffix[i - |d|];
        }
      }
    }
  }

  /**
   * Terms written as day counts separated by "/" and ending in " dias" give
   * one title per count, each due that many days after the order, and the
   * values add up to the total.
   */
  lemma TermsTextPlan(days: seq<nat>, total: real, issue: int)
    requires |days| >= 2
    ensures IsInstalments(TermsText(days)) && Complete(TermsText(days))
    ensures var plan := Plan(total, issue, TermsText(days));
      |plan| == |days|
      && (forall k :: 0 <= k < |days| ==> plan[k].due == issue + days[k])
      && SumValor(plan) == total
  {
    var pieces := DayPieces(days);
    var terms := TermsText(days);
    JoinHasSeparator(pieces, '/');
    PiecesWithoutSeparator(days);
    SplitJoin(pieces, '/');
    var ps := Parcelas(terms);
    assert |ps| == |days|;
    forall k | 0 <= k < |ps| ensures ps[k] == Some(days[k]) {
      var suffix := if k == |days| - 1 then " dias" else "";
      assert ps[k] == PieceDays(pieces[k]);
      assert pieces[k] == Dec(days[k]) + suffix;
      PieceDaysDec(days[k], suffix);
    }
    assert AllParsed(ps);
    var plan := Plan(total, issue, terms);
    assert plan == Instalments(total, issue, ps);
    InstalmentsSumToTotal(total, issue, ps);
  }

  // ------------------------------------------------------- single-title terms

  predicate NoDigits(s: string) {
    forall i :: 0 <= i < |s| ==> !IsDigit(s[i])
  }

  lemma {:induction false} KeepDigitsNone(s: string)
    requires NoDigits(s)
    ensures KeepDigits(s) == ""
  {
    if s != [] {
      KeepDigitsNone(s[1..]);
    }
  }

  /** Single-title terms whose only digits spell `n` are due in `n` days, whatever the words say. */
  lemma CashTermsDays(a: string, n: nat, b: string)
    requires NoDigits(a) && NoDigits(b)
    ensures CashDays(a + Dec(n) + b) == n
  {
    KeepDigitsAppend(a + Dec(n), b);
    KeepDigitsAppend(a, Dec(n));
    KeepDigitsNone(a);
    KeepDigitsNone(b);
    KeepDigitsOfDigits(Dec(n));
    assert "" + Dec(n) + "" == Dec(n);
    DecValue(n);
  }

  /** The default terms are a single title due in 30 days. */
  lemma DefaultTermsDays()
    ensures !IsInstalments(DefaultTerms) && CashDays(DefaultTerms) == 30
  {
    assert DefaultTerms == "" + Dec(30) + " dias";
    CashTermsDays("", 30, " dias");
  }

  /** The digits of "À vista com 5% desconto" (cash, 5% discount) are read as a 5-day term. */
  lemma CashDiscountTermsDays()
    ensures CashDays("À vista com 5% desconto") == 5
  {
    var a := "À vista com ";
    var b := "% desconto";
    assert NoDigits(a);
    assert NoDigits(b);
    assert Dec(5) == "5";
    assert "À vista com 5% desconto" == a + Dec(5) + b;
    CashTermsDays(a, 5, b);
  }
}
