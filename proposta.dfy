/**
 * The personalised proposal page (`/proposta`): it reads the visitor's data
 * from the query string, estimates consumption and savings from the monthly
 * electricity bill, and tabulates the effective discount under each tariff
 * flag ("bandeira tarifária").
 *
 * Arithmetic is exact (`real`), not IEEE-754 doubles. JavaScript's
 * `Number(string)` and the number formatters (`toLocaleString`, `toFixed`)
 * are parameters: the model does not fix how they turn text into numbers or
 * numbers into text.
 */
module Proposta {
  import opened Wrappers
  import opened Text

  /** Reference tariff, in reais per kWh. */
  const Tarifa: real := 1.15
  /** Guaranteed discount, in percent. */
  const DescontoBase: real := 20.0
  /** The guaranteed discount as a fraction. */
  const FatorDesconto: real := DescontoBase / 100.0

  /** A tariff flag: its name and its surcharge in reais per kWh. */
  datatype Bandeira = Bandeira(nome: string, valor: real)

  /** The tariff flags, mildest first. */
  const Bandeiras: seq<Bandeira> := [
    Bandeira("Bandeira Verde", 0.0),
    Bandeira("Bandeira Amarela", 0.025),
    Bandeira("Bandeira Vermelha 1", 0.057),
    Bandeira("Bandeira Vermelha 2", 0.101)
  ]

  /** The surcharge the headline uses, written out separately in the page. */
  const ValorBandeiraV2: real := 0.101

  /** The first value of each query-string key (URL decoding is not modelled). */
  type Query = map<string, string>

  /** `q.get(key) || ""`. */
  function Param(q: Query, key: string): string {
    if key in q then q[key] else ""
  }

  /** JavaScript `Number(s)`, abstracted: `None` stands for `NaN`. */
  type NumberParser = string -> Option<real>

  /** `Number(text) || 0`: `NaN` and zero both give 0. */
  function OrZero(n: Option<real>): (v: real)
    ensures n.None? ==> v == 0.0
    ensures n.Some? ==> v == n.value
  {
    n.GetOr(0.0)
  }

  /** The bill as typed, with its first comma turned into a point. */
  function NormalizeDecimal(s: string): (t: string)
    ensures |t| == |s|
    ensures IndexOf(s, ',') == -1 ==> t == s
    ensures forall k :: 0 <= k < |s| && k != IndexOf(s, ',') ==> t[k] == s[k]
    ensures 0 <= IndexOf(s, ',') ==> t[IndexOf(s, ',')] == '.'
  {
    ReplaceFirst(s, ',', '.')
  }

  /** `valorConta`: the monthly bill read from `valor_conta`. */
  function ValorConta(q: Query, number: NumberParser): real {
    OrZero(number(NormalizeDecimal(Param(q, "valor_conta"))))
  }

  /** Everything the page derives from the bill amount. */
  datatype Calculo = Calculo(
    consumoKwh: real,
    monthlyCostOld: real,
    monthlySavings: real,
    monthlyCostNew: real,
    yearlySavings: real,
    trees: int)

  /**
   * The derived figures. Consumption is the bill divided by the tariff when
   * the bill is positive, the saving is the guaranteed fraction of the bill,
   * and one tree stands for every 200 reais saved in a year.
   */
  function Calcular(valorConta: real): (c: Calculo)
    ensures c.monthlyCostOld == valorConta
    ensures c.consumoKwh >= 0.0
    ensures valorConta > 0.0 ==> c.consumoKwh * Tarifa == valorConta
    ensures valorConta <= 0.0 ==> c.consumoKwh == 0.0
    ensures c.monthlySavings + c.monthlyCostNew == valorConta
    ensures c.monthlyCostNew == 0.8 * valorConta
    ensures c.yearlySavings == 12.0 * c.monthlySavings
    ensures c.trees as real <= c.yearlySavings / 200.0 < c.trees as real + 1.0
    ensures valorConta >= 0.0 ==>
      0.0 <= c.monthlySavings && 0.0 <= c.monthlyCostNew <= valorConta && c.trees >= 0
  {
    var consumoKwh := if valorConta > 0.0 then valorConta / Tarifa else 0.0;
    var monthlyCostOld := valorConta;
    var monthlySavings := monthlyCostOld * FatorDesconto;
    var monthlyCostNew := monthlyCostOld - monthlySavings;
    var yearlySavings := monthlySavings * 12.0;
    Calculo(consumoKwh, monthlyCostOld, monthlySavings, monthlyCostNew, yearlySavings,
            (yearlySavings / 200.0).Floor)
  }

  /** The figures for a bill of R$ 1000. */
  lemma Calcular1000()
    ensures var c := Calcular(1000.0);
      869.565 < c.consumoKwh < 869.566 &&
      c.monthlySavings == 200.0 && c.monthlyCostNew == 800.0 &&
      c.yearlySavings == 2400.0 && c.trees == 12
  {
    var c := Calcular(1000.0);
    assert c.consumoKwh == 1000.0 / 1.15;
    assert c.yearlySavings / 200.0 == 12.0;
  }

  /**
   * Effective discount, in percent, under a flag with surcharge `s`: the
   * guaranteed part of the tariff plus the whole surcharge, over the tariff
   * plus the surcharge.
   */
  function EconomiaRealPct(s: real): (pct: real)
    requires s >= 0.0
    ensures 20.0 <= pct < 100.0
    ensures s == 0.0 ==> pct == 20.0
  {
    var numerador := (Tarifa * FatorDesconto) + s;
    var denominador := Tarifa + s;
    assert numerador < denominador;
    assert 0.2 * denominador <= numerador;
    (numerador / denominador) * 100.0
  }

  /** A higher surcharge always gives a higher effective discount. */
  lemma EconomiaRealPctStrictlyIncreasing(s: real, t: real)
    requires 0.0 <= s < t
    ensures EconomiaRealPct(s) < EconomiaRealPct(t)
  {
    var a, b := Tarifa * FatorDesconto, Tarifa;
    assert (a + s) * (b + t) - (a + t) * (b + s) == (s - t) * (b - a);
    QuotientLess(a + s, b + s, a + t, b + t);
  }

  /** Comparing two quotients with positive denominators by cross-multiplying. */
  lemma QuotientLess(n1: real, d1: real, n2: real, d2: real)
    requires d1 > 0.0 && d2 > 0.0 && n1 * d2 < n2 * d1
    ensures n1 / d1 < n2 / d2
  {
    var x, y := n1 / d1, n2 / d2;
    assert n1 * d2 == x * (d1 * d2);
    assert n2 * d1 == y * (d1 * d2);
    MulLessCancel(x, y, d1 * d2);
  }

  lemma MulLessCancel(x: real, y: real, p: real)
    requires p > 0.0 && x * p < y * p
    ensures x < y
  {
  }

  /** The surcharges of a flag table are non-negative. */
  ghost predicate Admissible(bs: seq<Bandeira>) {
    forall i :: 0 <= i < |bs| ==> bs[i].valor >= 0.0
  }

  /** The surcharges of a flag table strictly increase. */
  ghost predicate StrictlyIncreasing(bs: seq<Bandeira>) {
    forall i, j :: 0 <= i < j < |bs| ==> bs[i].valor < bs[j].valor
  }

  /** A row of the "Economia adicional com bandeiras" table. */
  datatype Linha = Linha(nome: string, valor: real, economiaRealPct: real)

  /** `bandeiras.map(...)`: one row per flag, in table order. */
  function Tabela(bs: seq<Bandeira>): (rows: seq<Linha>)
    requires Admissible(bs)
    ensures |rows| == |bs|
    ensures forall i :: 0 <= i < |bs| ==>
      rows[i].nome == bs[i].nome && rows[i].valor == bs[i].valor && 20.0 <= rows[i].economiaRealPct < 100.0
  {
    seq(|bs|, i requires 0 <= i < |bs| => Linha(bs[i].nome, bs[i].valor, EconomiaRealPct(bs[i].valor)))
  }

  /** The page's flag table is admissible and in strictly increasing order. */
  lemma BandeirasOrdered()
    ensures Admissible(Bandeiras) && StrictlyIncreasing(Bandeiras)
  {
  }

  /** Rows of a strictly increasing table have strictly increasing percentages. */
  lemma TabelaStrictlyIncreasing(bs: seq<Bandeira>)
    requires Admissible(bs) && StrictlyIncreasing(bs)
    ensures var rows := Tabela(bs);
      forall i, j :: 0 <= i < j < |rows| ==> rows[i].economiaRealPct < rows[j].economiaRealPct
  {
    var rows := Tabela(bs);
    forall i, j | 0 <= i < j < |rows|
      ensures rows[i].economiaRealPct < rows[j].economiaRealPct
    {
      EconomiaRealPctStrictlyIncreasing(bs[i].valor, bs[j].valor);
    }
  }

  /** `maxEconomyPct`: the headline percentage, rounded down. */
  function MaxEconomyPct(): int {
    var numeradorMax := (Tarifa * FatorDesconto) + ValorBandeiraV2;
    var denominadorMax := Tarifa + ValorBandeiraV2;
    ((numeradorMax / denominadorMax) * 100.0).Floor
  }

  /**
   * The headline is the last flag's percentage rounded down, it bounds every
   * row of the table, and it is 26, the figure the rest of the site
   * advertises as "até 26%".
   */
  lemma MaxEconomyPctIsWorstFlag()
    ensures Admissible(Bandeiras)
    ensures MaxEconomyPct() == EconomiaRealPct(Bandeiras[|Bandeiras| - 1].valor).Floor
    ensures forall i :: 0 <= i < |Bandeiras| ==>
      Tabela(Bandeiras)[i].economiaRealPct < MaxEconomyPct() as real + 1.0
    ensures MaxEconomyPct() == 26
  {
    var pct := EconomiaRealPct(0.101);
    assert pct == 33100.0 / 1251.0;
    assert 26.0 <= pct < 27.0;
    BandeirasOrdered();
    TabelaStrictlyIncreasing(Bandeiras);
  }

  /** The visitor's data as the page shows it. */
  datatype Dados = Dados(
    nome: string,
    empresa: string,
    cidade: string,
    tipoEstabelecimento: string,
    valorConta: real)

  /**
   * The text fields are trimmed; the name, the city and the kind of business
   * fall back to a placeholder, so they are never empty; the company stays
   * empty when none was given.
   */
  function LerDados(q: Query, number: NumberParser): (d: Dados)
    ensures d.nome != [] && d.cidade != [] && d.tipoEstabelecimento != []
    ensures d.nome == (if AllWhitespace(Param(q, "nome")) then "Cliente" else Trim(Param(q, "nome")))
    ensures d.empresa == Trim(Param(q, "empresa"))
    ensures d.cidade == (if AllWhitespace(Param(q, "cidade")) then "—" else Trim(Param(q, "cidade")))
    ensures d.tipoEstabelecimento ==
      (if AllWhitespace(Param(q, "tipo_estabelecimento")) then "—" else Trim(Param(q, "tipo_estabelecimento")))
    ensures d.valorConta == ValorConta(q, number)
  {
    Dados(
      TrimOr(Param(q, "nome"), "Cliente"),
      Trim(Param(q, "empresa")),
      TrimOr(Param(q, "cidade"), "—"),
      TrimOr(Param(q, "tipo_estabelecimento"), "—"),
      ValorConta(q, number))
  }

  /** Number-to-text formatting (`toLocaleString("pt-BR")`, `toFixed(2)`), abstracted. */
  type Formatter = real -> string

  /**
   * The segments of the WhatsApp message, one per line of its template; the
   * "Empresa" segment appears only for a non-empty company name. A field
   * value may itself hold a line break, so segments are not always the lines
   * of the joined text.
   */
  function MensagemLinhas(d: Dados, money: Formatter, fixed2: Formatter): (lines: seq<string>)
  {
    ["Olá! Vim pela proposta no site.", "", "Nome: " + d.nome]
    + (if d.empresa != [] then ["Empresa: " + d.empresa] else [])
    + ["Cidade: " + d.cidade,
       "Tipo: " + d.tipoEstabelecimento,
       "Conta de luz: R$ " + money(d.valorConta),
       "Consumo estimado: " + fixed2(Calcular(d.valorConta).consumoKwh) + " kWh/mês",
       "",
       "Quero garantir os 20% de economia."]
  }

  function JoinLines(lines: seq<string>): string {
    if lines == [] then ""
    else if |lines| == 1 then lines[0]
    else lines[0] + "\n" + JoinLines(lines[1..])
  }

  /** The message text sent to WhatsApp (before URL encoding). */
  function Mensagem(d: Dados, money: Formatter, fixed2: Formatter): string {
    JoinLines(MensagemLinhas(d, money, fixed2))
  }

  /** The company's WhatsApp number. */
  const Telefone: string := "556236382770"

  /** `whatsappHref`: a wa.me link to the company's number, carrying the encoded message. */
  function WhatsappHref(d: Dados, money: Formatter, fixed2: Formatter, encode: string -> string): string {
    "https://wa.me/" + Telefone + "?text=" + encode(Mensagem(d, money, fixed2))
  }

  /**
   * With an encoding that never maps two texts to the same text, as
   * `encodeURIComponent` does not, two links are the same exactly when their
   * messages are: the link carries the whole message and nothing else.
   */
  lemma WhatsappHrefCarriesMessage(d1: Dados, d2: Dados, money: Formatter, fixed2: Formatter,
                                   encode: string -> string)
    requires forall a, b :: encode(a) == encode(b) ==> a == b
    ensures WhatsappHref(d1, money, fixed2, encode) == WhatsappHref(d2, money, fixed2, encode)
        <==> Mensagem(d1, money, fixed2) == Mensagem(d2, money, fixed2)
  {
    var prefix := "https://wa.me/" + Telefone + "?text=";
    var e1, e2 := encode(Mensagem(d1, money, fixed2)), encode(Mensagem(d2, money, fixed2));
    if prefix + e1 == prefix + e2 {
      assert e1 == (prefix + e1)[|prefix|..];
      assert e2 == (prefix + e2)[|prefix|..];
    }
  }

  /** No segment that starts with another letter can pass for the "Empresa" segment. */
  lemma NotEmpresaLine(line: string)
    requires line == [] || line[0] != 'E'
    ensures !IsPrefix("Empresa: ", line)
  {
  }

  /**
   * Some segment of the message template starts with "Empresa: " exactly when the
   * company name is non-empty, and then that segment carries the name.
   */
  lemma EmpresaLine(d: Dados, money: Formatter, fixed2: Formatter)
    ensures var lines := MensagemLinhas(d, money, fixed2);
      (exists i :: 0 <= i < |lines| && IsPrefix("Empresa: ", lines[i])) <==> d.empresa != []
    ensures d.empresa != [] ==> "Empresa: " + d.empresa in MensagemLinhas(d, money, fixed2)
  {
    var lines := MensagemLinhas(d, money, fixed2);
    if d.empresa != [] {
      assert lines[3] == "Empresa: " + d.empresa;
      assert IsPrefix("Empresa: ", lines[3]);
    } else {
      forall i | 0 <= i < |lines| ensures !IsPrefix("Empresa: ", lines[i]) {
        NotEmpresaLine(lines[i]);
      }
    }
  }

  /**
   * A bill written with a point as thousands separator, "9.000,50", becomes
   * "9.000.50", which `Number` rejects, so the bill reads as 0.
   */
  lemma ThousandsSeparatorReadsAsZero(q: Query, number: NumberParser)
    requires Param(q, "valor_conta") == "9.000,50"
    requires number("9.000.50") == None
    ensures ValorConta(q, number) == 0.0
  {
    assert "9.000" + [','] + "50" == "9.000,50";
    FirstCommaRead(q, number, "9.000", "50");
    assert "9.000" + ['.'] + "50" == "9.000.50";
  }

  /**
   * A bill with a single decimal comma reads exactly like the same bill
   * written with a decimal point ("9000,50" and "9000.50").
   */
  lemma DecimalCommaAsPoint(q1: Query, q2: Query, number: NumberParser, pre: string, post: string)
    requires ',' !in pre && ',' !in post
    requires Param(q1, "valor_conta") == pre + [','] + post
    requires Param(q2, "valor_conta") == pre + ['.'] + post
    ensures ValorConta(q1, number) == ValorConta(q2, number)
  {
    FirstCommaRead(q1, number, pre, post);
    ReplaceFirstAbsent(pre + ['.'] + post, ',', '.');
  }

  /** The bill is read with its first comma turned into a point. */
  lemma FirstCommaRead(q: Query, number: NumberParser, pre: string, post: string)
    requires ',' !in pre
    requires Param(q, "valor_conta") == pre + [','] + post
    ensures ValorConta(q, number) == OrZero(number(pre + ['.'] + post))
  {
    ReplaceFirstAt(pre, post, ',', '.');
  }

  /**
   * Without `valor_conta` the bill is read from the empty string; JavaScript's
   * `Number("")` is 0, so the bill reads as 0.
   */
  lemma AbsentBillReadsAsZero(q: Query, number: NumberParser)
    requires "valor_conta" !in q
    requires number("") == Some(0.0)
    ensures ValorConta(q, number) == 0.0
  {
    assert NormalizeDecimal("") == "";
  }

  /**
   * A negative bill is not clamped: it is kept as it is, consumption shows 0,
   * and the savings come out negative.
   */
  lemma NegativeBillNotClamped(q: Query, number: NumberParser, x: real)
    requires number(NormalizeDecimal(Param(q, "valor_conta"))) == Some(x) && x < 0.0
    ensures ValorConta(q, number) == x
    ensures Calcular(x).consumoKwh == 0.0
    ensures Calcular(x).monthlySavings < 0.0 && Calcular(x).yearlySavings < 0.0
  {
  }
}
