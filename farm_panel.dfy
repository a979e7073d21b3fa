/** The field list of src/components/MinhaFazenda/MinhaFazendaPanel.tsx: the coffee fields
    split into active and inactive ones, and the confirmation flow that toggles one field.
    The answers of the field service are inputs here. */
module FarmPanel {
  import opened Common

  /** The columns of `TalhaoDetalhado` the panel reads. */
  datatype Talhao = Talhao(idTalhao: string, nome: string, cultura: string, ativo: bool)

  /** What `toggleTalhaoStatus` answers when it does not throw. */
  datatype ToggleResult = ToggleResult(success: bool, newStatus: bool)

  predicate IsCafe(t: Talhao) { t.cultura == "Café" }
  predicate IsAtivo(t: Talhao) { t.ativo }

  /** `talhoes.filter(t => t.cultura === 'Café')`. */
  function TalhoesCafe(talhoes: seq<Talhao>): (r: seq<Talhao>)
    ensures forall t :: t in r <==> t in talhoes && t.cultura == "Café"
  {
    Filter(talhoes, IsCafe)
  }

  /** `talhoesCafe.filter(t => t.ativo)`. */
  function TalhoesAtivos(talhoes: seq<Talhao>): (r: seq<Talhao>)
    ensures forall t :: t in r <==> t in talhoes && t.cultura == "Café" && t.ativo
  {
    Filter(TalhoesCafe(talhoes), IsAtivo)
  }

  /** `talhoesCafe.filter(t => !t.ativo)`. */
  function TalhoesInativos(talhoes: seq<Talhao>): (r: seq<Talhao>)
    ensures forall t :: t in r <==> t in talhoes && t.cultura == "Café" && !t.ativo
  {
    FilterOut(TalhoesCafe(talhoes), IsAtivo)
  }

  /** The active and inactive lists split the coffee fields: no field is in both, each coffee
      field is in one, and the counts add up. */
  lemma AtivosInativosPartition(talhoes: seq<Talhao>)
    ensures var cafe := TalhoesCafe(talhoes);
      && multiset(TalhoesAtivos(talhoes)) + multiset(TalhoesInativos(talhoes)) == multiset(cafe)
      && |TalhoesAtivos(talhoes)| + |TalhoesInativos(talhoes)| == |cafe|
      && (forall t :: t in TalhoesAtivos(talhoes) ==> t !in TalhoesInativos(talhoes))
      && (forall t :: t in TalhoesAtivos(talhoes) <==> t in talhoes && t.cultura == "Café" && t.ativo)
      && (forall t :: t in TalhoesInativos(talhoes) <==> t in talhoes && t.cultura == "Café" && !t.ativo)
  {
    FilterPartition(TalhoesCafe(talhoes), IsAtivo);
  }

  /** `{ ...t, ativo: newStatus }` for the field with the id, `t` for the others. */
  function SetAtivo(t: Talhao, id: string, newStatus: bool): Talhao
  {
    if t.idTalhao == id then t.(ativo := newStatus) else t
  }

  /** `prev.map(...)` in `handleConfirmToggle`. */
  function Toggle(talhoes: seq<Talhao>, id: string, newStatus: bool): (r: seq<Talhao>)
    ensures |r| == |talhoes|
  {
    seq(|talhoes|, i requires 0 <= i < |talhoes| => SetAtivo(talhoes[i], id, newStatus))
  }

  /** Only the fields with the id change, and only in `ativo`. */
  lemma ToggleSpec(talhoes: seq<Talhao>, id: string, newStatus: bool)
    ensures var r := Toggle(talhoes, id, newStatus);
      forall i :: 0 <= i < |r| ==>
        && (talhoes[i].idTalhao == id ==> r[i] == talhoes[i].(ativo := newStatus))
        && (talhoes[i].idTalhao != id ==> r[i] == talhoes[i])
  {
  }

  /** Toggling never changes which fields grow coffee, so the coffee list keeps its length. */
  lemma {:induction false} ToggleKeepsCafeCount(talhoes: seq<Talhao>, id: string, newStatus: bool)
    ensures |TalhoesCafe(Toggle(talhoes, id, newStatus))| == |TalhoesCafe(talhoes)|
  {
    if talhoes != [] {
      var r := Toggle(talhoes, id, newStatus);
      assert r[1..] == Toggle(talhoes[1..], id, newStatus);
      ToggleKeepsCafeCount(talhoes[1..], id, newStatus);
    }
  }

  /** The panel's state. */
  class MinhaFazendaPanel {
    var talhoes: seq<Talhao>
    var areaCultivada: real
    var showModal: bool
    var selectedTalhao: Option<Talhao>

    constructor(talhoesDetalhados: seq<Talhao>, areaCafe: real)
      ensures talhoes == talhoesDetalhados && areaCultivada == areaCafe
      ensures !showModal && selectedTalhao.None?
    {
      talhoes := talhoesDetalhados;
      areaCultivada := areaCafe;
      showModal := false;
      selectedTalhao := None;
    }

    method HandleToggleClick(talhao: Talhao)
      modifies this
      ensures selectedTalhao == Some(talhao) && showModal
      ensures talhoes == old(talhoes) && areaCultivada == old(areaCultivada)
    {
      selectedTalhao := Some(talhao);
      showModal := true;
    }

    /** `handleConfirmToggle`; `result` is `None` when the call throws, and `novaArea` is the
        refreshed area, `None` when that call throws. Without a selection nothing happens;
        otherwise the modal closes and the selection is cleared whatever the outcome. */
    method HandleConfirmToggle(result: Option<ToggleResult>, novaArea: Option<real>)
      modifies this
      ensures old(selectedTalhao).None? ==>
        talhoes == old(talhoes) && showModal == old(showModal) && selectedTalhao.None? && areaCultivada == old(areaCultivada)
      ensures old(selectedTalhao).Some? ==> !showModal && selectedTalhao.None?
      ensures old(selectedTalhao).Some? && result.Some? && result.value.success ==>
        talhoes == Toggle(old(talhoes), old(selectedTalhao).value.idTalhao, result.value.newStatus)
        && areaCultivada == novaArea.GetOr(old(areaCultivada))
      ensures !(result.Some? && result.value.success) ==>
        talhoes == old(talhoes) && areaCultivada == old(areaCultivada)
    {
      if selectedTalhao.None? {
        return;
      }
      if result.Some? && result.value.success {
        talhoes := Toggle(talhoes, selectedTalhao.value.idTalhao, result.value.newStatus);
        if novaArea.Some? {
          areaCultivada := novaArea.value;
        }
      }
      showModal := false;
      selectedTalhao := None;
    }

    method HandleCancelToggle()
      modifies this
      ensures !showModal && selectedTalhao.None?
      ensures talhoes == old(talhoes) && areaCultivada == old(areaCultivada)
    {
      showModal := false;
      selectedTalhao := None;
    }
  }
}
