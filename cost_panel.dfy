/** The arithmetic of src/components/CustoPorTalhao/CustoPorTalhaoPanel.tsx: which fields are
    listed, what each cell of a row shows, the row total, the cost per hectare, and the date
    string passed to the cost query. The cost map itself comes from a service that is not
    part of this model; it is an input here. */
module CostPanel {
  import opened Common
  import opened JsText

  /** The columns of `Talhao` the panel reads; `area` is `None` when null or undefined. */
  datatype Talhao = Talhao(idTalhao: string, nome: string, area: Option<real>, talhaoDefault: bool)

  /** One entry of `custosMap`: the numeric fields present in the record, by name. */
  type CostEntry = map<string, real>

  /** `custosMap`, keyed by `id_talhao`. */
  type CostMap = map<string, CostEntry>

  /** The keys of the five macro-groups, in column order; `receita` is not one of them. */
  const MacroGrupos: seq<string> := ["insumos", "operacional", "servicosLogistica", "administrativos", "outros"]

  predicate NotDefault(t: Talhao) { !t.talhaoDefault }

  /** `(talhoesData || []).filter(t => !t.talhao_default)`. */
  function VisibleTalhoes(talhoesData: Option<seq<Talhao>>): (r: seq<Talhao>)
    ensures forall t :: t in r ==> !t.talhaoDefault
    ensures talhoesData.None? ==> r == []
  {
    Filter(talhoesData.GetOr([]), NotDefault)
  }

  /** The fields kept are exactly the non-default ones, in their order. */
  lemma VisibleExactly(talhoesData: seq<Talhao>)
    ensures forall t :: t in VisibleTalhoes(Some(talhoesData)) <==> t in talhoesData && !t.talhaoDefault
    ensures (forall i :: 0 <= i < |talhoesData| ==> !talhoesData[i].talhaoDefault) ==>
      VisibleTalhoes(Some(talhoesData)) == talhoesData
  {
    if forall i :: 0 <= i < |talhoesData| ==> !talhoesData[i].talhaoDefault {
      FilterAll(talhoesData, NotDefault);
    }
  }

  /** JavaScript's `x || 0` on a number that may be absent: absent and zero both give zero. */
  function OrZero(x: Option<real>): real
  {
    match x
    case Some(v) => v
    case None => 0.0
  }

  /** The field `key` of an entry, if present. */
  function Field(entry: CostEntry, key: string): Option<real>
  {
    if key in entry then Some(entry[key]) else None
  }

  /** `(custosMap[id] && custosMap[id][key]) || 0`: one macro-group cell of a row. */
  function Cell(custos: CostMap, id: string, key: string): (r: real)
    ensures id !in custos ==> r == 0.0
    ensures id in custos && key !in custos[id] ==> r == 0.0
    ensures id in custos && key in custos[id] ==> r == custos[id][key]
  {
    if id in custos then OrZero(Field(custos[id], key)) else 0.0
  }

  /** The Total column: the entry, or the all-zero record when there is none, and the sum of
      the five macro-group fields, each `|| 0`. */
  function RowTotal(custos: CostMap, id: string): (r: real)
    ensures id !in custos ==> r == 0.0
    ensures id in custos && (forall k :: k in custos[id] ==> custos[id][k] >= 0.0) ==> r >= 0.0
  {
    var c := if id in custos then custos[id] else map["insumos" := 0.0, "operacional" := 0.0,
      "servicosLogistica" := 0.0, "administrativos" := 0.0, "outros" := 0.0];
    OrZero(Field(c, "insumos")) + OrZero(Field(c, "operacional")) + OrZero(Field(c, "servicosLogistica"))
      + OrZero(Field(c, "administrativos")) + OrZero(Field(c, "outros"))
  }

  /** The sum of the cells shown for a row, over any list of column keys. */
  function CellsSum(custos: CostMap, id: string, keys: seq<string>): real
  {
    if keys == [] then 0.0 else CellsSum(custos, id, keys[..|keys| - 1]) + Cell(custos, id, keys[|keys| - 1])
  }

  /** The Total column is the sum of the five cells displayed before it. */
  lemma RowTotalIsSumOfCells(custos: CostMap, id: string)
    ensures RowTotal(custos, id) == CellsSum(custos, id, MacroGrupos)
  {
    var k := MacroGrupos;
    assert k[..5] == k;
    assert k[..0] == [];
    assert CellsSum(custos, id, k[..1]) == Cell(custos, id, k[0]) by { assert k[..1][..0] == []; }
    assert CellsSum(custos, id, k[..2]) == CellsSum(custos, id, k[..1]) + Cell(custos, id, k[1]) by { assert k[..2][..1] == k[..1]; }
    assert CellsSum(custos, id, k[..3]) == CellsSum(custos, id, k[..2]) + Cell(custos, id, k[2]) by { assert k[..3][..2] == k[..2]; }
    assert CellsSum(custos, id, k[..4]) == CellsSum(custos, id, k[..3]) + Cell(custos, id, k[3]) by { assert k[..4][..3] == k[..3]; }
    assert CellsSum(custos, id, k[..5]) == CellsSum(custos, id, k[..4]) + Cell(custos, id, k[4]) by { assert k[..5][..4] == k[..4]; }
  }

  /** The total of a field with no entry is zero. */
  lemma RowTotalWithoutEntry(custos: CostMap, id: string)
    requires id !in custos
    ensures RowTotal(custos, id) == 0.0
  {
  }

  /** The revenue of a field, or any other key outside the five macro-groups, never counts. */
  lemma RowTotalIgnoresOtherKeys(custos: CostMap, id: string, key: string, v: real)
    requires key !in MacroGrupos
    requires id in custos
    ensures RowTotal(custos[id := custos[id][key := v]], id) == RowTotal(custos, id)
  {
    var e := custos[id];
    var e' := e[key := v];
    assert forall g :: g in MacroGrupos ==> Field(e', g) == Field(e, g);
  }

  /** `t.area || 0`, then `area > 0 ? total / area : 0`: the R$/ha column. */
  function PerHa(total: real, area: Option<real>): (r: real)
    ensures OrZero(area) > 0.0 ==> r * OrZero(area) == total
    ensures OrZero(area) <= 0.0 ==> r == 0.0
  {
    var a := OrZero(area);
    if a > 0.0 then total / a else 0.0
  }

  /** The R$/ha column of a field's row. */
  function RowPerHa(custos: CostMap, t: Talhao): real
  {
    PerHa(RowTotal(custos, t.idTalhao), t.area)
  }

  /** Over a positive area, the cost per hectare times the area gives back the row total; it is
      never negative when the costs are not. */
  lemma RowPerHaSpec(custos: CostMap, t: Talhao)
    ensures OrZero(t.area) > 0.0 ==> RowPerHa(custos, t) * OrZero(t.area) == RowTotal(custos, t.idTalhao)
    ensures t.area.None? ==> RowPerHa(custos, t) == 0.0
    ensures RowTotal(custos, t.idTalhao) >= 0.0 ==> RowPerHa(custos, t) >= 0.0
  {
  }

  /** `String(n).padStart(2, '0')`. */
  function TwoDigits(n: nat): string
  {
    PadStart(NatToString(n), 2, '0')
  }

  /** Below 100, the padded rendering is two digits denoting the number. */
  lemma TwoDigitsSpec(n: nat)
    requires n < 100
    ensures var r := TwoDigits(n); |r| == 2 && AllDigits(r) && DigitsValue(r) == n
  {
    var s := NatToString(n);
    if n < 10 {
      assert s == [DigitChar(n)];
      var r := TwoDigits(n);
      assert r == ['0'] + PadStart(s, 1, '0');
      assert r == ['0', DigitChar(n)];
      assert r[..1] == ['0'] && r[..1][..0] == [];
      assert DigitsValue(r[..1]) == 0;
    } else {
      assert |NatToString(n / 10)| == 1;
      assert |s| == 2;
    }
  }

  /** ``${yyyy}-${mm}-${dd}`` from `getFullYear()`, `getMonth()` (counted from zero) and
      `getDate()`. */
  function HojeStr(year: int, monthIndex: nat, day: nat): (r: string)
    ensures |r| >= |IntToString(year)| + 2
    ensures r[..|IntToString(year)|] == IntToString(year) && r[|IntToString(year)|] == '-'
  {
    var y, m, d := IntToString(year), TwoDigits(monthIndex + 1), TwoDigits(day);
    DashedYear(y, m, d);
    Dashed(y, m, d)
  }

  /** Three parts joined by dashes. */
  function Dashed(y: string, m: string, d: string): string
  {
    y + "-" + m + "-" + d
  }

  /** The first part of a dashed date and the dash after it. */
  lemma DashedYear(y: string, m: string, d: string)
    ensures var r := Dashed(y, m, d);
      && |r| == |y| + |m| + |d| + 2
      && r[..|y|] == y && r[|y|] == '-'
  {
    assert Dashed(y, m, d) == y + (['-'] + m + ['-'] + d);
  }

  /** Where the parts of a dashed date with a two-character month sit. */
  lemma DashedParts(y: string, m: string, d: string)
    requires |m| == 2
    ensures var r := Dashed(y, m, d);
      && |r| == |y| + 4 + |d|
      && r[..|y|] == y && r[|y|] == '-' && r[|y| + 1..|y| + 3] == m
      && r[|y| + 3] == '-' && r[|y| + 4..] == d
  {
    var r := Dashed(y, m, d);
    var n := |y|;
    assert r == y + (['-'] + m + ['-'] + d);
    assert r[n..] == ['-'] + m + ['-'] + d;
    assert r[n + 1..] == m + ['-'] + d;
    assert r[n + 1..n + 3] == r[n + 1..][..2];
    assert r[n + 4..] == r[n + 1..][3..];
  }

  /** `r` is `year`, a dash, two digits denoting `month`, a dash and two digits denoting `day`. */
  predicate IsDateString(r: string, year: string, month: nat, day: nat)
  {
    var y := |year|;
    && |r| == y + 6
    && r[..y] == year
    && r[y] == '-' && r[y + 3] == '-'
    && AllDigits(r[y + 1..y + 3]) && DigitsValue(r[y + 1..y + 3]) == month
    && AllDigits(r[y + 4..]) && DigitsValue(r[y + 4..]) == day
  }

  /** The date string is the year, a dash, the two-digit month counted from one, a dash and the
      two-digit day. */
  lemma HojeStrShape(year: int, monthIndex: nat, day: nat)
    requires monthIndex < 12 && 1 <= day <= 31
    ensures IsDateString(HojeStr(year, monthIndex, day), IntToString(year), monthIndex + 1, day)
  {
    TwoDigitsSpec(monthIndex + 1);
    TwoDigitsSpec(day);
    DashedParts(IntToString(year), TwoDigits(monthIndex + 1), TwoDigits(day));
  }

  /** The year part reads back as the year. */
  lemma HojeStrYear(year: int, monthIndex: nat, day: nat)
    requires monthIndex < 12
    ensures ParseInt(HojeStr(year, monthIndex, day)[..|IntToString(year)|]) == Some(year)
  {
    TwoDigitsSpec(monthIndex + 1);
    DashedParts(IntToString(year), TwoDigits(monthIndex + 1), TwoDigits(day));
    ParseIntOfIntToString(year);
  }
}
