/** `getTotalPorSituacao` of src/services/dividasFinanciamentosService.ts: the contracted
    amounts of a user's debts added up by status. The query behind `getAll` is an input
    here; `getAll` answers `[]` when it fails. */
module Debts {
  import opened Common

  /** The columns of `DividaFinanciamento` the totals read. */
  datatype Divida = Divida(id: string, situacao: string, valorContratado: real)

  /** The three statuses the type of `situacao` allows. */
  predicate KnownStatus(situacao: string)
  {
    situacao == "Ativa" || situacao == "Liquidada" || situacao == "Renegociada"
  }

  /** What a debt adds to the bucket of `situacao`. */
  function InBucket(situacao: string): Divida -> real
  {
    (d: Divida) => if d.situacao == situacao then d.valorContratado else 0.0
  }

  function Valor(d: Divida): real { d.valorContratado }

  /** The sum of the contracted amounts of the debts with one status. */
  function BucketTotal(dividas: seq<Divida>, situacao: string): real
  {
    SumOf(dividas, InBucket(situacao))
  }

  /** The `{ ativa, liquidada, renegociada }` object returned. */
  datatype Totals = Totals(ativa: real, liquidada: real, renegociada: real)

  /** `getAll(userId)`: the rows of the query, or `[]` when it reports an error. */
  function GetAll(query: Option<seq<Divida>>): seq<Divida>
  {
    match query
    case Some(rows) => rows
    case None => []
  }

  /** The `totais` object, whose fields the loop adds to. */
  class Totais {
    var ativa: real
    var liquidada: real
    var renegociada: real

    constructor()
      ensures ativa == 0.0 && liquidada == 0.0 && renegociada == 0.0
    {
      ativa := 0.0;
      liquidada := 0.0;
      renegociada := 0.0;
    }

    /** The callback of `dividas.forEach`: add the amount to the field of its status, if any. */
    method Add(divida: Divida)
      modifies this
      ensures ativa == old(ativa) + InBucket("Ativa")(divida)
      ensures liquidada == old(liquidada) + InBucket("Liquidada")(divida)
      ensures renegociada == old(renegociada) + InBucket("Renegociada")(divida)
    {
      if divida.situacao == "Ativa" {
        ativa := ativa + divida.valorContratado;
      } else if divida.situacao == "Liquidada" {
        liquidada := liquidada + divida.valorContratado;
      } else if divida.situacao == "Renegociada" {
        renegociada := renegociada + divida.valorContratado;
      }
    }
  }

  /** The totals of the debts, by status. */
  function TotalsOf(dividas: seq<Divida>): Totals
  {
    Totals(BucketTotal(dividas, "Ativa"), BucketTotal(dividas, "Liquidada"), BucketTotal(dividas, "Renegociada"))
  }

  /** `getTotalPorSituacao(userId)`: start all three totals at zero and add each debt in turn. */
  method GetTotalPorSituacao(query: Option<seq<Divida>>) returns (r: Totals)
    ensures r == TotalsOf(GetAll(query))
  {
    var dividas := GetAll(query);
    var totais := new Totais();
    for i := 0 to |dividas|
      invariant totais.ativa == BucketTotal(dividas[..i], "Ativa")
      invariant totais.liquidada == BucketTotal(dividas[..i], "Liquidada")
      invariant totais.renegociada == BucketTotal(dividas[..i], "Renegociada")
    {
      totais.Add(dividas[i]);
      SumOfPrefixStep(dividas, i, InBucket("Ativa"));
      SumOfPrefixStep(dividas, i, InBucket("Liquidada"));
      SumOfPrefixStep(dividas, i, InBucket("Renegociada"));
    }
    assert dividas[..|dividas|] == dividas;
    r := Totals(totais.ativa, totais.liquidada, totais.renegociada);
  }

  /** No debt, or a failed query, gives zero in every bucket. */
  lemma EmptyTotals(query: Option<seq<Divida>>)
    requires query.None? || query == Some([])
    ensures TotalsOf(GetAll(query)) == Totals(0.0, 0.0, 0.0)
  {
  }

  /** With every status one of the three, the buckets add up to the sum of all amounts. */
  lemma {:induction false} BucketsCoverAll(dividas: seq<Divida>)
    requires forall i :: 0 <= i < |dividas| ==> KnownStatus(dividas[i].situacao)
    ensures var t := TotalsOf(dividas);
      t.ativa + t.liquidada + t.renegociada == SumOf(dividas, Valor)
  {
    if dividas != [] {
      var init := dividas[..|dividas| - 1];
      assert forall i :: 0 <= i < |init| ==> init[i] == dividas[i];
      BucketsCoverAll(init);
    }
  }

  /** A debt of any other status is counted nowhere. */
  lemma UnknownNotCounted(dividas: seq<Divida>, d: Divida)
    requires !KnownStatus(d.situacao)
    ensures TotalsOf(dividas + [d]) == TotalsOf(dividas)
  {
    assert (dividas + [d])[..|dividas|] == dividas;
  }

  /** The totals do not depend on the order of the debts. */
  lemma OrderIndependent(s: seq<Divida>, t: seq<Divida>)
    requires multiset(s) == multiset(t)
    ensures TotalsOf(s) == TotalsOf(t)
  {
    SumOfPermutation(s, t, InBucket("Ativa"));
    SumOfPermutation(s, t, InBucket("Liquidada"));
    SumOfPermutation(s, t, InBucket("Renegociada"));
  }
}
