/** The per-group summary of `agruparProdutos` (src/services/agruparProdutosService.ts): oldest
    item first, the most frequent name, the weighted mean price in the reference unit, the
    stock total, the distinct attribute values and the per-supplier aggregation; and the
    function as a whole. */
module GroupSummary {
  import opened Common
  import opened StableSort
  import opened ProductGrouping

  /** The parts of `lib/unitConverter` the summary calls, whose code is not part of this
      model: `convertToStandardUnit(q, u).quantidade`, `convertFromStandardUnit(q, std, u)`,
      `isMassUnit`, `isVolumeUnit` and `getBestDisplayUnit(q, std)` as (quantity, unit). */
  datatype UnitConverter = UnitConverter(
    toStandard: (real, string) -> real,
    fromStandard: (real, string, string) -> real,
    isMass: string -> bool,
    isVolume: string -> bool,
    bestDisplay: (real, string) -> (real, string))

  /** One mass or volume unit is a non-zero amount of milligrams or millilitres, so the price
      factor between two such units is defined. */
  ghost predicate FactorsDefined(c: UnitConverter)
  {
    forall u :: c.isMass(u) || c.isVolume(u) ==> c.toStandard(1.0, u) != 0.0
  }

  type Converter = c: UnitConverter | FactorsDefined(c)
    witness UnitConverter((q, u) => q, (q, std, u) => q, u => false, u => false, (q, u) => (q, u))

  // ----- 1. oldest first -----

  /** `new Date(p.created_at || 0).getTime()`, with the timestamp already parsed. */
  function CreatedTime(p: Product): int
  {
    p.createdAt.GetOr(0)
  }

  /** The group sorted by creation time, oldest first, ties in their original order. */
  function OldestFirst(members: seq<Product>): seq<Product>
  {
    SortByKey(members, CreatedTime)
  }

  // ----- the most frequent name -----

  function NameOf(p: Product): Option<string> { p.nome }

  function Names(grupo: seq<Product>): (r: seq<Option<string>>)
    ensures |r| == |grupo|
  {
    seq(|grupo|, i requires 0 <= i < |grupo| => grupo[i].nome)
  }

  /** How often each name occurs among `nomes`, the comparator's key. */
  function Frequency(nomes: seq<Option<string>>): Option<string> -> int
  {
    (n: Option<string>) => multiset(nomes)[n]
  }

  /** `nomes.sort(by frequency).pop() || grupo[0].nome_produto`. */
  function MostCommonName(grupo: seq<Product>): (r: string)
    requires |grupo| > 0
    ensures r == "" || Some(r) in Names(grupo)
    ensures grupo[0].nome.Some? && grupo[0].nome.value != "" ==> r != ""
  {
    var nomes := Names(grupo);
    var sorted := SortByKey(nomes, Frequency(nomes));
    SortedLastIsMax(nomes, Frequency(nomes));
    assert nomes[0] == grupo[0].nome;
    var popped := sorted[|sorted| - 1];
    if popped.Some? && popped.value != "" then popped.value else grupo[0].nome.GetOr("")
  }

  /** The name chosen is one of the group's names, and no name occurs more often. */
  lemma MostCommonNameIsMostFrequent(grupo: seq<Product>)
    requires |grupo| > 0
    requires forall i :: 0 <= i < |grupo| ==> IsValid(grupo[i])
    ensures Some(MostCommonName(grupo)) in Names(grupo)
    ensures forall i :: 0 <= i < |grupo| ==>
      multiset(Names(grupo))[grupo[i].nome] <= multiset(Names(grupo))[Some(MostCommonName(grupo))]
  {
    var nomes := Names(grupo);
    SortedLastIsMax(nomes, Frequency(nomes));
    var popped := SortByKey(nomes, Frequency(nomes))[|nomes| - 1];
    var k :| 0 <= k < |nomes| && nomes[k] == popped;
    ValidNameNonEmpty(grupo[k]);
    assert MostCommonName(grupo) == popped.value;
    forall i | 0 <= i < |grupo|
      ensures multiset(nomes)[grupo[i].nome] <= multiset(nomes)[popped]
    {
      assert nomes[i] in nomes;
    }
  }

  // ----- the weighted mean price -----

  /** `p.unidade_valor_original || p.unidade`: an empty string counts as missing. */
  function PriceUnit(p: Product): string
  {
    if p.unidadeValorOriginal.Some? && p.unidadeValorOriginal.value != "" then p.unidadeValorOriginal.value
    else p.unidade
  }

  /** `produtosComValor`: a price is set and positive. */
  predicate HasPositivePrice(p: Product) { p.valor.Some? && p.valor.value > 0.0 }

  /** `produtosEmEstoque`: a positive quantity on hand and a price set. */
  predicate InStock(p: Product) { p.quantidade.GetOr(0.0) > 0.0 && p.valor.Some? }

  /** An item takes part in the mean when its price and initial quantity are both positive;
      the loop returns early for the others. */
  predicate Contributes(p: Product)
  {
    p.valor.GetOr(0.0) > 0.0 && p.quantidadeInicial.GetOr(0.0) > 0.0
  }

  /** The initial quantity, stored in mg or mL, expressed in the reference unit. */
  function ConvertedQuantity(q: real, reference: string, conv: Converter): real
  {
    if conv.isMass(reference) then conv.fromStandard(q, "mg", reference)
    else if conv.isVolume(reference) then conv.fromStandard(q, "mL", reference)
    else q
  }

  /** The price per `original` unit expressed per `reference` unit, when both are masses or
      both are volumes; any other price is kept as it is. */
  function ConvertedPrice(valor: real, original: string, reference: string, conv: Converter): real
  {
    if original == reference then valor
    else if conv.isMass(original) && conv.isMass(reference) then
      valor * (conv.toStandard(1.0, reference) / conv.toStandard(1.0, original))
    else if conv.isVolume(original) && conv.isVolume(reference) then
      valor * (conv.toStandard(1.0, reference) / conv.toStandard(1.0, original))
    else valor
  }

  function Quantity(p: Product, reference: string, conv: Converter): real
  {
    if Contributes(p) then ConvertedQuantity(p.quantidadeInicial.value, reference, conv) else 0.0
  }

  function Price(p: Product, reference: string, conv: Converter): real
    requires Contributes(p)
  {
    ConvertedPrice(p.valor.value, PriceUnit(p), reference, conv)
  }

  function Cost(p: Product, reference: string, conv: Converter): real
  {
    if Contributes(p) then Quantity(p, reference, conv) * Price(p, reference, conv) else 0.0
  }

  function QuantityOf(reference: string, conv: Converter): Product -> real
  {
    (p: Product) => Quantity(p, reference, conv)
  }

  function CostOf(reference: string, conv: Converter): Product -> real
  {
    (p: Product) => Cost(p, reference, conv)
  }

  /** `somaCustoTotal / somaQuantidadeTotal`, or 0 when no quantity was summed. */
  function WeightedMean(s: seq<Product>, reference: string, conv: Converter): real
  {
    var custo := SumOf(s, CostOf(reference, conv));
    var quantidade := SumOf(s, QuantityOf(reference, conv));
    if quantidade > 0.0 then custo / quantidade else 0.0
  }

  /** The `forEach` over `produtosComValor` accumulating cost and quantity, then the mean. */
  method WeightedMeanPrice(produtosComValor: seq<Product>, unidadeReferencia: string, conv: Converter)
    returns (media: real)
    ensures media == WeightedMean(produtosComValor, unidadeReferencia, conv)
  {
    var somaCustoTotal := 0.0;
    var somaQuantidadeTotal := 0.0;
    for i := 0 to |produtosComValor|
      invariant somaCustoTotal == SumOf(produtosComValor[..i], CostOf(unidadeReferencia, conv))
      invariant somaQuantidadeTotal == SumOf(produtosComValor[..i], QuantityOf(unidadeReferencia, conv))
    {
      assert produtosComValor[..i + 1][..i] == produtosComValor[..i];
      var contributes, quantidadeConvertida, custoTotalProduto :=
        ItemContribution(produtosComValor[i], unidadeReferencia, conv);
      if contributes {
        somaCustoTotal := somaCustoTotal + custoTotalProduto;
        somaQuantidadeTotal := somaQuantidadeTotal + quantidadeConvertida;
      }
    }
    assert produtosComValor[..|produtosComValor|] == produtosComValor;
    media := if somaQuantidadeTotal > 0.0 then somaCustoTotal / somaQuantidadeTotal else 0.0;
  }

  /** The callback of that `forEach` for one item: the two early returns, the quantity
      converted to the reference unit, the price converted per reference unit, their product. */
  method ItemContribution(p: Product, unidadeReferencia: string, conv: Converter)
    returns (contributes: bool, quantidadeConvertida: real, custoTotalProduto: real)
    ensures contributes == Contributes(p)
    ensures contributes ==> quantidadeConvertida == Quantity(p, unidadeReferencia, conv)
    ensures contributes ==> custoTotalProduto == Cost(p, unidadeReferencia, conv)
  {
    contributes, quantidadeConvertida, custoTotalProduto := false, 0.0, 0.0;
    var valorPorUnidadeOriginal := p.valor.GetOr(0.0);
    if valorPorUnidadeOriginal <= 0.0 { return; }
    var unidadeOriginalProduto := PriceUnit(p);
    var quantidadeInicial := p.quantidadeInicial.GetOr(0.0);
    if quantidadeInicial <= 0.0 { return; }

    quantidadeConvertida := quantidadeInicial;
    if conv.isMass(unidadeReferencia) {
      quantidadeConvertida := conv.fromStandard(quantidadeInicial, "mg", unidadeReferencia);
    } else if conv.isVolume(unidadeReferencia) {
      quantidadeConvertida := conv.fromStandard(quantidadeInicial, "mL", unidadeReferencia);
    }

    var valorConvertido := valorPorUnidadeOriginal;
    if unidadeOriginalProduto != unidadeReferencia {
      var ehMassaOrigem := conv.isMass(unidadeOriginalProduto);
      var ehMassaDestino := conv.isMass(unidadeReferencia);
      var ehVolumeOrigem := conv.isVolume(unidadeOriginalProduto);
      var ehVolumeDestino := conv.isVolume(unidadeReferencia);
      if ehMassaOrigem && ehMassaDestino {
        var umUnidadeOriginalEmMg := conv.toStandard(1.0, unidadeOriginalProduto);
        var umUnidadeReferenciaEmMg := conv.toStandard(1.0, unidadeReferencia);
        var fator := umUnidadeReferenciaEmMg / umUnidadeOriginalEmMg;
        valorConvertido := valorPorUnidadeOriginal * fator;
      } else if ehVolumeOrigem && ehVolumeDestino {
        var umUnidadeOriginalEmML := conv.toStandard(1.0, unidadeOriginalProduto);
        var umUnidadeReferenciaEmML := conv.toStandard(1.0, unidadeReferencia);
        var fator := umUnidadeReferenciaEmML / umUnidadeOriginalEmML;
        valorConvertido := valorPorUnidadeOriginal * fator;
      }
    }

    contributes := true;
    custoTotalProduto := quantidadeConvertida * valorConvertido;
  }

  /** Every converted price of a contributing item lies in `[lo, hi]` and its converted
      quantity is not negative. */
  ghost predicate PricesWithin(s: seq<Product>, reference: string, conv: Converter, lo: real, hi: real)
  {
    forall i :: 0 <= i < |s| ==> PricedWithin(s[i], reference, conv, lo, hi)
  }

  predicate PricedWithin(p: Product, reference: string, conv: Converter, lo: real, hi: real)
  {
    Contributes(p) ==> lo <= Price(p, reference, conv) <= hi && Quantity(p, reference, conv) >= 0.0
  }

  /** One item's cost lies between its quantity at the lowest and at the highest price. */
  lemma ItemWithin(p: Product, reference: string, conv: Converter, lo: real, hi: real)
    requires PricedWithin(p, reference, conv, lo, hi)
    ensures var q := QuantityOf(reference, conv)(p);
      lo * q <= CostOf(reference, conv)(p) <= hi * q
  {
    var q := Quantity(p, reference, conv);
    assert QuantityOf(reference, conv)(p) == q;
    assert CostOf(reference, conv)(p) == Cost(p, reference, conv);
    if Contributes(p) {
      var x := Price(p, reference, conv);
      assert Cost(p, reference, conv) == q * x;
      MulBetween(q, x, lo, hi);
    } else {
      assert q == 0.0 && Cost(p, reference, conv) == 0.0;
      ZeroBetween(lo, hi);
    }
  }

  lemma MulBetween(q: real, x: real, lo: real, hi: real)
    requires q >= 0.0 && lo <= x <= hi
    ensures lo * q <= q * x <= hi * q
  {
    assert q * (x - lo) >= 0.0;
    assert q * (hi - x) >= 0.0;
  }

  lemma ZeroBetween(lo: real, hi: real)
    ensures lo * 0.0 <= 0.0 <= hi * 0.0
  {
  }

  lemma SumsWithin(s: seq<Product>, reference: string, conv: Converter, lo: real, hi: real)
    requires PricesWithin(s, reference, conv, lo, hi)
    ensures SumsBetween(s, QuantityOf(reference, conv), CostOf(reference, conv), lo, hi)
  {
    ItemsWithin(s, reference, conv, lo, hi);
    SumBetween(s, QuantityOf(reference, conv), CostOf(reference, conv), lo, hi);
  }

  lemma ItemsWithin(s: seq<Product>, reference: string, conv: Converter, lo: real, hi: real)
    requires PricesWithin(s, reference, conv, lo, hi)
    ensures forall i :: 0 <= i < |s| ==>
      lo * QuantityOf(reference, conv)(s[i]) <= CostOf(reference, conv)(s[i]) <= hi * QuantityOf(reference, conv)(s[i])
  {
    forall i | 0 <= i < |s|
      ensures lo * QuantityOf(reference, conv)(s[i]) <= CostOf(reference, conv)(s[i]) <= hi * QuantityOf(reference, conv)(s[i])
    {
      ItemWithin(s[i], reference, conv, lo, hi);
    }
  }

  /** A weighted mean lies between the lowest and the highest price averaged. */
  lemma MeanWithinPrices(s: seq<Product>, reference: string, conv: Converter, lo: real, hi: real)
    requires PricesWithin(s, reference, conv, lo, hi)
    requires SumOf(s, QuantityOf(reference, conv)) > 0.0
    ensures lo <= WeightedMean(s, reference, conv) <= hi
  {
    var c, q := SumOf(s, CostOf(reference, conv)), SumOf(s, QuantityOf(reference, conv));
    SumsWithin(s, reference, conv, lo, hi);
    assert lo * q <= c <= hi * q;
    QuotientWithin(c, q, lo, hi);
    assert WeightedMean(s, reference, conv) == c / q;
  }

  lemma QuotientWithin(c: real, q: real, lo: real, hi: real)
    requires q > 0.0 && lo * q <= c <= hi * q
    ensures lo <= c / q <= hi
  {
    assert (c / q) * q == c;
  }

  lemma {:induction false} NoQuantityWithoutContribution(s: seq<Product>, reference: string, conv: Converter)
    requires forall i :: 0 <= i < |s| ==> !Contributes(s[i])
    ensures SumOf(s, QuantityOf(reference, conv)) == 0.0
  {
    if s != [] {
      NoQuantityWithoutContribution(s[..|s| - 1], reference, conv);
    }
  }

  /** With no item priced and stocked initially, the mean is 0. */
  lemma MeanWithoutContribution(s: seq<Product>, reference: string, conv: Converter)
    requires forall i :: 0 <= i < |s| ==> !Contributes(s[i])
    ensures WeightedMean(s, reference, conv) == 0.0
  {
    NoQuantityWithoutContribution(s, reference, conv);
  }

  /** Under exact arithmetic the mean does not depend on the order of the items. */
  lemma MeanOrderIndependent(s: seq<Product>, t: seq<Product>, reference: string, conv: Converter)
    requires multiset(s) == multiset(t)
    ensures WeightedMean(s, reference, conv) == WeightedMean(t, reference, conv)
  {
    SumOfPermutation(s, t, CostOf(reference, conv));
    SumOfPermutation(s, t, QuantityOf(reference, conv));
  }

  // ----- the stock total -----

  function StandardQuantityOf(conv: Converter): Product -> real
  {
    (p: Product) => conv.toStandard(p.quantidade.GetOr(0.0), p.unidade)
  }

  function RawQuantity(p: Product): real { p.quantidade.GetOr(0.0) }

  /** `unidadePadrao`: mg for a mass unit, mL for a volume unit, none otherwise. */
  function StandardUnit(unit: string, conv: Converter): Option<string>
  {
    if conv.isMass(unit) then Some("mg") else if conv.isVolume(unit) then Some("mL") else None
  }

  /** `totalEstoqueEmUnidadePadrao`: quantities converted to mg or mL and summed when the first
      item's unit is a mass or a volume, summed as they are otherwise. */
  function StockTotal(emEstoque: seq<Product>, primeiraUnidade: string, conv: Converter): real
  {
    if StandardUnit(primeiraUnidade, conv).Some? then SumOf(emEstoque, StandardQuantityOf(conv))
    else SumOf(emEstoque, RawQuantity)
  }

  /** `totalEstoqueDisplay` and `unidadeDisplay`. */
  function StockDisplay(total: real, primeiraUnidade: string, conv: Converter): (real, string)
  {
    match StandardUnit(primeiraUnidade, conv)
    case Some(u) => conv.bestDisplay(total, u)
    case None => (total, primeiraUnidade)
  }

  /** The two `forEach` loops and the `reduce` over `produtosEmEstoque`. */
  method TotalStock(produtosEmEstoque: seq<Product>, primeiraUnidade: string, conv: Converter)
    returns (total: real, unidadePadrao: Option<string>)
    ensures total == StockTotal(produtosEmEstoque, primeiraUnidade, conv)
    ensures unidadePadrao == StandardUnit(primeiraUnidade, conv)
  {
    total := 0.0;
    unidadePadrao := None;
    if conv.isMass(primeiraUnidade) || conv.isVolume(primeiraUnidade) {
      unidadePadrao := if conv.isMass(primeiraUnidade) then Some("mg") else Some("mL");
      for i := 0 to |produtosEmEstoque|
        invariant total == SumOf(produtosEmEstoque[..i], StandardQuantityOf(conv))
      {
        var p := produtosEmEstoque[i];
        assert produtosEmEstoque[..i + 1][..i] == produtosEmEstoque[..i];
        total := total + conv.toStandard(p.quantidade.GetOr(0.0), p.unidade);
      }
    } else {
      for i := 0 to |produtosEmEstoque|
        invariant total == SumOf(produtosEmEstoque[..i], RawQuantity)
      {
        assert produtosEmEstoque[..i + 1][..i] == produtosEmEstoque[..i];
        total := total + produtosEmEstoque[i].quantidade.GetOr(0.0);
      }
    }
    assert produtosEmEstoque[..|produtosEmEstoque|] == produtosEmEstoque;
  }

  /** Summed as they are, the quantities of items in stock are positive exactly when there is
      at least one such item. */
  lemma {:induction false} RawStockPositive(s: seq<Product>)
    requires forall i :: 0 <= i < |s| ==> InStock(s[i])
    ensures SumOf(s, RawQuantity) >= 0.0
    ensures SumOf(s, RawQuantity) > 0.0 <==> s != []
  {
    if s != [] {
      RawStockPositive(s[..|s| - 1]);
      assert InStock(s[|s| - 1]);
    }
  }

  // ----- distinct values -----

  /** `Array.from(new Set(xs))`: each value once, in order of first appearance. */
  function Distinct<T(==)>(s: seq<T>): seq<T>
  {
    if s == [] then []
    else
      var d := Distinct(s[..|s| - 1]);
      if s[|s| - 1] in d then d else d + [s[|s| - 1]]
  }

  /** The distinct values are exactly the values of the list, each once. */
  lemma {:induction false} DistinctValues<T>(s: seq<T>)
    ensures forall x :: x in Distinct(s) <==> x in s
    ensures forall i, j :: 0 <= i < j < |Distinct(s)| ==> Distinct(s)[i] != Distinct(s)[j]
  {
    if s != [] {
      var init := s[..|s| - 1];
      DistinctValues(init);
      assert s == init + [s[|s| - 1]];
    }
  }

  /** A list without repeats is its own set of values, so `Distinct` is idempotent. */
  lemma {:induction false} DistinctOfDistinct<T>(s: seq<T>)
    requires forall i, j :: 0 <= i < j < |s| ==> s[i] != s[j]
    ensures Distinct(s) == s
  {
    if s != [] {
      var init := s[..|s| - 1];
      DistinctOfDistinct(init);
      assert s[|s| - 1] !in init;
      assert s == init + [s[|s| - 1]];
    }
  }

  lemma DistinctIdempotent<T>(s: seq<T>)
    ensures Distinct(Distinct(s)) == Distinct(s)
  {
    DistinctValues(s);
    DistinctOfDistinct(Distinct(s));
  }

  function Project<B>(grupo: seq<Product>, f: Product -> B): (r: seq<B>)
    ensures |r| == |grupo|
  {
    seq(|grupo|, i requires 0 <= i < |grupo| => f(grupo[i]))
  }

  function Marca(p: Product): Option<string> { p.marca }
  function Categoria(p: Product): Option<string> { p.categoria }
  function Unidade(p: Product): string { p.unidade }
  function Lote(p: Product): Option<string> { p.lote }
  function Validade(p: Product): Option<string> { p.validade }

  // ----- suppliers -----

  /** One value of `fornecedoresMap`. */
  datatype SupplierEntry = SupplierEntry(
    fornecedor: string,
    quantidade: real,
    valor: Option<real>,
    registroMapa: Option<string>,
    ids: seq<int>)

  /** `(p.fornecedor ?? "Desconhecido") + "_" + (p.valor ?? "0")`. A number's decimal rendering
      holds no `_` and differs between different numbers, so the string is a pair in disguise. */
  datatype SupplierKey = SupplierKey(fornecedor: string, valor: real)

  function KeyOf(p: Product): SupplierKey
  {
    SupplierKey(p.fornecedor.GetOr("Desconhecido"), p.valor.GetOr(0.0))
  }

  /** `fornecedoresMap` as its entries in insertion order. */
  datatype SupplierSlot = SupplierSlot(key: SupplierKey, entry: SupplierEntry)

  /** `fornecedoresMap[key]`: the index of the slot holding `key`, if any. */
  function FindSlot(slots: seq<SupplierSlot>, key: SupplierKey): (r: Option<nat>)
    ensures r.Some? ==> r.value < |slots| && slots[r.value].key == key
    ensures r.None? ==> forall i :: 0 <= i < |slots| ==> slots[i].key != key
  {
    if slots == [] then None
    else if slots[|slots| - 1].key == key then Some(|slots| - 1)
    else FindSlot(slots[..|slots| - 1], key)
  }

  /** The entry opened for the first item with a given key. */
  function Opened(key: SupplierKey, p: Product): SupplierSlot
  {
    SupplierSlot(key, SupplierEntry(p.fornecedor.GetOr("Desconhecido"), 0.0, p.valor, p.registroMapa, []))
  }

  /** An item's quantity added to the entry of its key, and its id appended. */
  function Bump(slot: SupplierSlot, p: Product): SupplierSlot
  {
    slot.(entry := slot.entry.(quantidade := slot.entry.quantidade + RawQuantity(p), ids := slot.entry.ids + [p.id]))
  }

  /** The body of the `forEach`: open an entry for a new key, then add the item to the entry
      of its key. */
  function AddSupplier(slots: seq<SupplierSlot>, p: Product): seq<SupplierSlot>
  {
    match FindSlot(slots, KeyOf(p))
    case Some(i) => slots[i := Bump(slots[i], p)]
    case None => slots + [Bump(Opened(KeyOf(p), p), p)]
  }

  function Suppliers(s: seq<Product>): seq<SupplierSlot>
  {
    if s == [] then [] else AddSupplier(Suppliers(s[..|s| - 1]), s[|s| - 1])
  }

  function Entries(slots: seq<SupplierSlot>): (r: seq<SupplierEntry>)
    ensures |r| == |slots|
  {
    seq(|slots|, i requires 0 <= i < |slots| => slots[i].entry)
  }

  /** The loop that fills `fornecedoresMap`. */
  method AggregateSuppliers(produtosEmEstoque: seq<Product>) returns (fornecedores: seq<SupplierSlot>)
    ensures fornecedores == Suppliers(produtosEmEstoque)
  {
    fornecedores := [];
    for i := 0 to |produtosEmEstoque|
      invariant fornecedores == Suppliers(produtosEmEstoque[..i])
    {
      fornecedores := AddToSlots(fornecedores, produtosEmEstoque[i]);
      SuppliersStep(produtosEmEstoque, i);
    }
    assert produtosEmEstoque[..|produtosEmEstoque|] == produtosEmEstoque;
  }

  /** The body of the `forEach` on one item. */
  method AddToSlots(fornecedores: seq<SupplierSlot>, p: Product) returns (r: seq<SupplierSlot>)
    ensures r == AddSupplier(fornecedores, p)
  {
    var key := KeyOf(p);
    r := fornecedores;
    if FindSlot(r, key).None? {
      r := r + [Opened(key, p)];
      assert FindSlot(r, key) == Some(|fornecedores|);
    }
    var k := FindSlot(r, key).value;
    var e := r[k].entry;
    r := r[k := SupplierSlot(key, e.(quantidade := e.quantidade + p.quantidade.GetOr(0.0), ids := e.ids + [p.id]))];
  }

  /** The aggregation after one more item. */
  lemma SuppliersStep(s: seq<Product>, i: nat)
    requires i < |s|
    ensures Suppliers(s[..i + 1]) == AddSupplier(Suppliers(s[..i]), s[i])
  {
    assert s[..i + 1][..i] == s[..i];
  }

  /** The items of `s` with supplier key `key`, in order. */
  function WithKey(s: seq<Product>, key: SupplierKey): seq<Product>
  {
    if s == [] then []
    else WithKey(s[..|s| - 1], key) + (if KeyOf(s[|s| - 1]) == key then [s[|s| - 1]] else [])
  }

  function IdsOf(s: seq<Product>): (r: seq<int>)
    ensures |r| == |s|
  {
    seq(|s|, i requires 0 <= i < |s| => s[i].id)
  }

  /** A slot summarizes the items of its key: it carries the first one's supplier, price and
      registration, the sum of their quantities and their ids in order. */
  predicate SlotSummarizes(slot: SupplierSlot, s: seq<Product>)
  {
    var g := WithKey(s, slot.key);
    && g != []
    && slot.entry.fornecedor == g[0].fornecedor.GetOr("Desconhecido")
    && slot.entry.valor == g[0].valor
    && slot.entry.registroMapa == g[0].registroMapa
    && slot.entry.quantidade == SumOf(g, RawQuantity)
    && slot.entry.ids == IdsOf(g)
  }

  /** What the aggregation keeps true: one slot per key, a slot for every key that occurs, and
      each slot summarizing the items of its key. */
  ghost predicate SuppliersSummarize(slots: seq<SupplierSlot>, s: seq<Product>)
  {
    && (forall i, j :: 0 <= i < j < |slots| ==> slots[i].key != slots[j].key)
    && (forall i :: 0 <= i < |s| ==> FindSlot(slots, KeyOf(s[i])).Some?)
    && (forall i :: 0 <= i < |slots| ==> SlotSummarizes(slots[i], s))
  }

  lemma WithKeyPush(s: seq<Product>, p: Product, key: SupplierKey)
    ensures WithKey(s + [p], key) == WithKey(s, key) + (if KeyOf(p) == key then [p] else [])
  {
    assert (s + [p])[..|s|] == s;
  }

  lemma IdsOfPush(g: seq<Product>, p: Product)
    ensures IdsOf(g + [p]) == IdsOf(g) + [p.id]
  {
  }

  /** The slot of the item's key, bumped, summarizes the items with one more. */
  lemma BumpSummarizes(slot: SupplierSlot, s: seq<Product>, p: Product)
    requires SlotSummarizes(slot, s) && slot.key == KeyOf(p)
    ensures SlotSummarizes(Bump(slot, p), s + [p])
  {
    var g := WithKey(s, slot.key);
    WithKeyPush(s, p, slot.key);
    IdsOfPush(g, p);
    assert (g + [p])[..|g|] == g;
    assert (g + [p])[0] == g[0];
  }

  /** The slot opened for a new key, bumped, summarizes the single item with it. */
  lemma OpenedSummarizes(s: seq<Product>, p: Product)
    requires WithKey(s, KeyOf(p)) == []
    ensures SlotSummarizes(Bump(Opened(KeyOf(p), p), p), s + [p])
  {
    WithKeyPush(s, p, KeyOf(p));
    IdsOfPush([], p);
    assert SumOf([p], RawQuantity) == SumOf([], RawQuantity) + RawQuantity(p);
  }

  /** A slot of another key is not affected by the item. */
  lemma OtherSummarizes(slot: SupplierSlot, s: seq<Product>, p: Product)
    requires SlotSummarizes(slot, s) && slot.key != KeyOf(p)
    ensures SlotSummarizes(slot, s + [p])
  {
    WithKeyPush(s, p, slot.key);
    assert WithKey(s, slot.key) + [] == WithKey(s, slot.key);
  }

  lemma AddSupplierKeeps(slots: seq<SupplierSlot>, s: seq<Product>, p: Product)
    requires SuppliersSummarize(slots, s)
    ensures SuppliersSummarize(AddSupplier(slots, p), s + [p])
  {
    AddKeepsFound(slots, s, p);
    match FindSlot(slots, KeyOf(p))
    case Some(w) => BumpKeeps(slots, s, p, w);
    case None => OpenKeeps(slots, s, p);
  }

  /** An item whose key has a slot: that slot is bumped, the others still summarize. */
  lemma BumpKeeps(slots: seq<SupplierSlot>, s: seq<Product>, p: Product, w: nat)
    requires SuppliersSummarize(slots, s) && FindSlot(slots, KeyOf(p)) == Some(w)
    ensures var r := slots[w := Bump(slots[w], p)];
      && (forall i, j :: 0 <= i < j < |r| ==> r[i].key != r[j].key)
      && (forall c :: 0 <= c < |r| ==> SlotSummarizes(r[c], s + [p]))
  {
    var r := slots[w := Bump(slots[w], p)];
    assert forall c :: 0 <= c < |r| ==> r[c].key == slots[c].key;
    forall c | 0 <= c < |r| ensures SlotSummarizes(r[c], s + [p]) {
      if c == w { BumpSummarizes(slots[w], s, p); } else { OtherSummarizes(slots[c], s, p); }
    }
  }

  /** An item with a new key: a slot is opened for it, the others still summarize. */
  lemma OpenKeeps(slots: seq<SupplierSlot>, s: seq<Product>, p: Product)
    requires SuppliersSummarize(slots, s) && FindSlot(slots, KeyOf(p)).None?
    ensures var r := slots + [Bump(Opened(KeyOf(p), p), p)];
      && (forall i, j :: 0 <= i < j < |r| ==> r[i].key != r[j].key)
      && (forall c :: 0 <= c < |r| ==> SlotSummarizes(r[c], s + [p]))
  {
    var key := KeyOf(p);
    var r := slots + [Bump(Opened(key, p), p)];
    AbsentKey(slots, key);
    forall i | 0 <= i < |s| ensures KeyOf(s[i]) != key {
    }
    WithKeyEmpty(s, key);
    forall c | 0 <= c < |r| ensures SlotSummarizes(r[c], s + [p]) {
      if c == |slots| { OpenedSummarizes(s, p); } else { OtherSummarizes(slots[c], s, p); }
    }
  }

  /** After the item is added, every key of the longer list has a slot. */
  lemma AddKeepsFound(slots: seq<SupplierSlot>, s: seq<Product>, p: Product)
    requires forall i :: 0 <= i < |s| ==> FindSlot(slots, KeyOf(s[i])).Some?
    ensures forall i :: 0 <= i < |s| + 1 ==> FindSlot(AddSupplier(slots, p), KeyOf((s + [p])[i])).Some?
  {
    var r := AddSupplier(slots, p);
    assert forall w :: 0 <= w < |slots| ==> r[w].key == slots[w].key;
    var t := s + [p];
    forall a | 0 <= a < |t| ensures FindSlot(r, KeyOf(t[a])).Some? {
      if a < |s| {
        var w := FindSlot(slots, KeyOf(s[a])).value;
        NotFoundMeansAbsent(r, KeyOf(s[a]), w);
      } else {
        match FindSlot(slots, KeyOf(p))
        case Some(w) => NotFoundMeansAbsent(r, KeyOf(p), w);
        case None => NotFoundMeansAbsent(r, KeyOf(p), |slots|);
      }
    }
  }

  lemma NotFoundMeansAbsent(slots: seq<SupplierSlot>, key: SupplierKey, w: nat)
    requires w < |slots| && slots[w].key == key
    ensures FindSlot(slots, key).Some?
  {
  }

  /** No slot carries a key the search does not find. */
  lemma {:induction false} AbsentKey(slots: seq<SupplierSlot>, key: SupplierKey)
    requires FindSlot(slots, key).None?
    ensures forall c :: 0 <= c < |slots| ==> slots[c].key != key
  {
    if slots != [] {
      var init := slots[..|slots| - 1];
      AbsentKey(init, key);
      assert forall c :: 0 <= c < |init| ==> init[c] == slots[c];
    }
  }

  /** A key no item has gathers no items. */
  lemma {:induction false} WithKeyEmpty(s: seq<Product>, key: SupplierKey)
    requires forall i :: 0 <= i < |s| ==> KeyOf(s[i]) != key
    ensures WithKey(s, key) == []
  {
    if s != [] {
      WithKeyEmpty(s[..|s| - 1], key);
    }
  }

  lemma {:induction false} SuppliersCorrect(s: seq<Product>)
    ensures SuppliersSummarize(Suppliers(s), s)
  {
    if s != [] {
      var init := s[..|s| - 1];
      assert init + [s[|s| - 1]] == s;
      SuppliersCorrect(init);
      AddSupplierKeeps(Suppliers(init), init, s[|s| - 1]);
    }
  }

  // ----- one group -----

  /** `ProdutoAgrupado`. */
  datatype GroupedProduct = GroupedProduct(
    nome: string,
    produtos: seq<Product>,
    mediaPreco: real,
    mediaPrecoDisplay: real,
    totalEstoque: real,
    totalEstoqueDisplay: real,
    unidadeDisplay: string,
    marcas: seq<Option<string>>,
    categorias: seq<Option<string>>,
    unidades: seq<string>,
    lotes: seq<Option<string>>,
    validades: seq<Option<string>>,
    fornecedores: seq<SupplierEntry>,
    unidadeValorOriginal: string,
    mediaPrecoOriginal: real)

  /** The summary of a group already sorted oldest first. */
  function Summary(grupo: seq<Product>, conv: Converter): (r: GroupedProduct)
    requires |grupo| > 0
    ensures r.produtos == grupo
    ensures r.nome == "" || Some(r.nome) in Names(grupo)
    ensures r.mediaPreco == r.mediaPrecoDisplay == r.mediaPrecoOriginal
    ensures r.unidadeValorOriginal == PriceUnit(grupo[0])
  {
    var comValor := Filter(grupo, HasPositivePrice);
    var emEstoque := Filter(grupo, InStock);
    var unidadeReferencia := PriceUnit(grupo[0]);
    var media := WeightedMean(comValor, unidadeReferencia, conv);
    var total := StockTotal(emEstoque, grupo[0].unidade, conv);
    var display := StockDisplay(total, grupo[0].unidade, conv);
    GroupedProduct(
      MostCommonName(grupo), grupo, media, media, total, display.0, display.1,
      Distinct(Project(grupo, Marca)), Distinct(Project(grupo, Categoria)),
      Distinct(Project(grupo, Unidade)), Distinct(Project(grupo, Lote)),
      Distinct(Project(grupo, Validade)),
      Entries(Suppliers(emEstoque)), unidadeReferencia, media)
  }

  /** The callback of `Object.values(grupos).map(...)`: sort the group in place, then compute
      each part of its summary. */
  method SummarizeGroup(members: seq<Product>, conv: Converter) returns (r: GroupedProduct)
    requires |members| > 0
    ensures r == Summary(OldestFirst(members), conv)
  {
    var a := new Product[|members|](i requires 0 <= i < |members| => members[i]);
    assert a[..] == members;
    SortInPlace(a, CreatedTime);
    r := SummarizeSorted(a[..], conv);
  }

  /** The rest of the callback, on the group once sorted. */
  method SummarizeSorted(grupo: seq<Product>, conv: Converter) returns (r: GroupedProduct)
    requires |grupo| > 0
    ensures r == Summary(grupo, conv)
  {
    var nomeMaisComum := MostCommonName(grupo);
    var produtosComValor := Filter(grupo, HasPositivePrice);
    var produtosEmEstoque := Filter(grupo, InStock);
    var unidadeReferencia := PriceUnit(grupo[0]);
    var media := WeightedMeanPrice(produtosComValor, unidadeReferencia, conv);

    var primeiraUnidade := grupo[0].unidade;
    var totalEstoqueEmUnidadePadrao, unidadePadrao := TotalStock(produtosEmEstoque, primeiraUnidade, conv);
    var totalEstoqueDisplay := totalEstoqueEmUnidadePadrao;
    var unidadeDisplay := primeiraUnidade;
    if unidadePadrao.Some? {
      var displayResult := conv.bestDisplay(totalEstoqueEmUnidadePadrao, unidadePadrao.value);
      totalEstoqueDisplay := displayResult.0;
      unidadeDisplay := displayResult.1;
    }

    var fornecedoresMap := AggregateSuppliers(produtosEmEstoque);
    r := GroupedProduct(
      nomeMaisComum, grupo, media, media, totalEstoqueEmUnidadePadrao, totalEstoqueDisplay,
      unidadeDisplay,
      Distinct(Project(grupo, Marca)), Distinct(Project(grupo, Categoria)),
      Distinct(Project(grupo, Unidade)), Distinct(Project(grupo, Lote)),
      Distinct(Project(grupo, Validade)),
      Entries(fornecedoresMap), unidadeReferencia, media);
  }

  // ----- the whole function -----

  /** `agruparProdutos(produtos)`. */
  function Agrupar(produtos: seq<Product>, conv: Converter): (r: seq<GroupedProduct>)
    ensures produtos == [] ==> r == []
    ensures forall k :: 0 <= k < |r| ==> |r[k].produtos| > 0
  {
    var validos := Filter(produtos, IsValid);
    var grupos := GroupAll(validos, Fits);
    GroupsNonEmpty(validos);
    seq(|grupos|, k requires 0 <= k < |grupos| => Summary(OldestFirst(grupos[k].members), conv))
  }

  method AgruparProdutos(produtos: seq<Product>, conv: Converter) returns (r: seq<GroupedProduct>)
    ensures r == Agrupar(produtos, conv)
  {
    if |produtos| == 0 { return []; }
    var produtosValidos := Filter(produtos, IsValid);
    if |produtosValidos| == 0 { return []; }
    var grupos := GroupProducts(produtosValidos, Fits);
    GroupsNonEmpty(produtosValidos);
    r := SummarizeAll(grupos, conv);
  }

  /** `Object.values(grupos).map(...)`. */
  method SummarizeAll(grupos: seq<Group>, conv: Converter) returns (r: seq<GroupedProduct>)
    requires forall k :: 0 <= k < |grupos| ==> |grupos[k].members| > 0
    ensures r == seq(|grupos|, k requires 0 <= k < |grupos| => Summary(OldestFirst(grupos[k].members), conv))
  {
    ghost var spec := seq(|grupos|, k requires 0 <= k < |grupos| => Summary(OldestFirst(grupos[k].members), conv));
    r := [];
    for k := 0 to |grupos|
      invariant r == spec[..k]
    {
      var resumo := SummarizeGroup(grupos[k].members, conv);
      PrefixExtend(spec, k, r, resumo);
      r := r + [resumo];
    }
    PrefixWhole(spec, r);
  }

  /** The items of all the summaries, summary after summary. */
  function AllProducts(r: seq<GroupedProduct>): seq<Product>
  {
    if r == [] then [] else r[0].produtos + AllProducts(r[1..])
  }

  /** An empty list, or one whose names are all blank or missing, gives no groups. */
  lemma AgruparEmpty(produtos: seq<Product>, conv: Converter)
    requires forall i :: 0 <= i < |produtos| ==> !IsValid(produtos[i])
    ensures Agrupar(produtos, conv) == []
  {
    FilterNone(produtos, IsValid);
  }

  /** Summaries that list the items of their groups, each group in some order, list all the
      items of the groups. */
  lemma {:induction false} AllProductsOfGroups(groups: seq<Group>, r: seq<GroupedProduct>)
    requires |r| == |groups|
    requires forall k :: 0 <= k < |groups| ==> r[k].produtos == OldestFirst(groups[k].members)
    ensures multiset(AllProducts(r)) == multiset(Members(groups))
  {
    if groups != [] {
      assert forall k :: 0 <= k < |groups| - 1 ==> groups[1..][k] == groups[k + 1] && r[1..][k] == r[k + 1];
      AllProductsOfGroups(groups[1..], r[1..]);
      SortPermutes(groups[0].members, CreatedTime);
      assert AllProducts(r) == r[0].produtos + AllProducts(r[1..]);
      assert Members(groups) == groups[0].members + Members(groups[1..]);
    }
  }

  /** A summary lists the items of its group. */
  lemma SummaryProducts(grupo: seq<Product>, conv: Converter)
    requires |grupo| > 0
    ensures Summary(grupo, conv).produtos == grupo
  {
  }

  /** Every item with a non-blank name appears in exactly one summary, once; no other item
      appears. The sizes of the summaries add up to the number of such items. */
  lemma AgruparPartitions(produtos: seq<Product>, conv: Converter)
    ensures multiset(AllProducts(Agrupar(produtos, conv))) == multiset(Filter(produtos, IsValid))
    ensures |AllProducts(Agrupar(produtos, conv))| == |Filter(produtos, IsValid)|
  {
    var validos := Filter(produtos, IsValid);
    var grupos := GroupAll(validos, Fits);
    var r := Agrupar(produtos, conv);
    GroupsNonEmpty(validos);
    GroupingPartitions(validos);
    forall k | 0 <= k < |grupos| ensures r[k].produtos == OldestFirst(grupos[k].members) {
      SummaryProducts(OldestFirst(grupos[k].members), conv);
    }
    AllProductsOfGroups(grupos, r);
    assert |multiset(AllProducts(r))| == |multiset(validos)|;
  }
}
