/** The list of pest and disease occurrences kept by
    src/components/PragasDoencas/PragasDoencasPanel.tsx: marking one resolved, deleting,
    editing and creating with a fresh id, and the open/closed state of the detail panel and
    the form. The initial list is a mock that is an input here. */
module PestPanel {
  import opened Common
  import opened OccurrenceForm

  /** `{ ...o, status: 'Resolvida' }` for the entry with the id, `o` for the others. */
  function Resolve(o: Ocorrencia, id: int): Ocorrencia
  {
    if o.id == id then o.(attrs := o.attrs[Status := Str("Resolvida")]) else o
  }

  /** `ocorrencias.map(...)` in `handleMarkResolved`. */
  function MarkResolved(ocorrencias: seq<Ocorrencia>, id: int): (r: seq<Ocorrencia>)
    ensures |r| == |ocorrencias|
  {
    seq(|ocorrencias|, i requires 0 <= i < |ocorrencias| => Resolve(ocorrencias[i], id))
  }

  /** Exactly the entries with the id get status "Resolvida"; their other fields and every
      other entry stay as they were. */
  lemma MarkResolvedSpec(ocorrencias: seq<Ocorrencia>, id: int)
    ensures var r := MarkResolved(ocorrencias, id);
      forall i :: 0 <= i < |r| ==>
        && r[i].id == ocorrencias[i].id
        && (ocorrencias[i].id == id ==>
              Status in r[i].attrs && r[i].attrs[Status] == Str("Resolvida"))
        && (ocorrencias[i].id == id ==>
              forall k :: k != Status ==> (k in r[i].attrs <==> k in ocorrencias[i].attrs))
        && (ocorrencias[i].id == id ==> forall k :: k != Status && k in ocorrencias[i].attrs ==> r[i].attrs[k] == ocorrencias[i].attrs[k])
        && (ocorrencias[i].id != id ==> r[i] == ocorrencias[i])
  {
  }

  /** `list.find(o => o.id === id) || null`: the first entry with the id. */
  function FindById(ocorrencias: seq<Ocorrencia>, id: int): (r: Option<Ocorrencia>)
    ensures r.None? <==> forall i :: 0 <= i < |ocorrencias| ==> ocorrencias[i].id != id
    ensures r.Some? ==> r.value in ocorrencias && r.value.id == id
  {
    if ocorrencias == [] then None
    else if ocorrencias[0].id == id then Some(ocorrencias[0])
    else
      var rest := FindById(ocorrencias[1..], id);
      assert forall i :: 1 <= i < |ocorrencias| ==> ocorrencias[i] == ocorrencias[1..][i - 1];
      rest
  }

  /** The entry `FindById` returns comes before every other entry with the id. */
  lemma {:induction false} FindByIdIsFirst(ocorrencias: seq<Ocorrencia>, id: int)
    requires FindById(ocorrencias, id).Some?
    ensures exists i :: (0 <= i < |ocorrencias| && ocorrencias[i] == FindById(ocorrencias, id).value
      && forall j :: 0 <= j < i ==> ocorrencias[j].id != id)
  {
    if ocorrencias[0].id != id {
      var tail := ocorrencias[1..];
      FindByIdIsFirst(tail, id);
      var i :| 0 <= i < |tail| && tail[i] == FindById(tail, id).value
        && forall j :: 0 <= j < i ==> tail[j].id != id;
      assert ocorrencias[i + 1] == tail[i];
      assert forall j :: 1 <= j < i + 1 ==> ocorrencias[j] == tail[j - 1];
    }
  }

  /** After marking, the selected occurrence is the first one with the id, now resolved; with
      no entry of that id the selection is cleared. */
  lemma SelectedAfterResolve(ocorrencias: seq<Ocorrencia>, id: int)
    ensures var s := FindById(MarkResolved(ocorrencias, id), id);
      && (s.Some? ==> Status in s.value.attrs && s.value.attrs[Status] == Str("Resolvida") && s.value.id == id)
      && (s.None? <==> forall i :: 0 <= i < |ocorrencias| ==> ocorrencias[i].id != id)
  {
    var r := MarkResolved(ocorrencias, id);
    var s := FindById(r, id);
    assert forall i :: 0 <= i < |r| ==> r[i].id == ocorrencias[i].id;
    if s.Some? {
      var i :| 0 <= i < |r| && r[i] == s.value;
      assert r[i] == Resolve(ocorrencias[i], id);
    }
  }

  predicate HasOtherId(id: int, o: Ocorrencia) { o.id != id }

  /** `ocorrencias.filter(o => o.id !== id)`. */
  function DeleteById(ocorrencias: seq<Ocorrencia>, id: int): (r: seq<Ocorrencia>)
    ensures forall o :: o in r <==> o in ocorrencias && o.id != id
  {
    Filter(ocorrencias, (o: Ocorrencia) => HasOtherId(id, o))
  }

  /** Deleting keeps the order of what is left: deleting from a concatenation is concatenating
      the two deletions; an id that is absent leaves the list unchanged. */
  lemma DeleteKeepsOrder(a: seq<Ocorrencia>, b: seq<Ocorrencia>, id: int)
    ensures DeleteById(a + b, id) == DeleteById(a, id) + DeleteById(b, id)
    ensures (forall i :: 0 <= i < |a| ==> a[i].id != id) ==> DeleteById(a, id) == a
  {
    FilterConcat(a, b, (o: Ocorrencia) => HasOtherId(id, o));
    if forall i :: 0 <= i < |a| ==> a[i].id != id {
      FilterAll(a, (o: Ocorrencia) => HasOtherId(id, o));
    }
  }

  /** `Math.max(...ocorrencias.map(o => o.id), 0)`. */
  function MaxId(ocorrencias: seq<Ocorrencia>): (m: int)
    ensures m >= 0
    ensures forall i :: 0 <= i < |ocorrencias| ==> ocorrencias[i].id <= m
    ensures m == 0 || exists i :: 0 <= i < |ocorrencias| && ocorrencias[i].id == m
  {
    if ocorrencias == [] then 0
    else
      var init := ocorrencias[..|ocorrencias| - 1];
      var last := ocorrencias[|ocorrencias| - 1];
      var m := MaxId(init);
      assert forall i :: 0 <= i < |init| ==> init[i] == ocorrencias[i];
      if last.id > m then last.id else m
  }

  /** The id of a new occurrence. */
  function NewId(ocorrencias: seq<Ocorrencia>): int
  {
    MaxId(ocorrencias) + 1
  }

  /** The new id is at least one and greater than every id in the list, so it is unused; it is
      one more than the largest id when that is positive, and 1 otherwise. */
  lemma NewIdFresh(ocorrencias: seq<Ocorrencia>)
    ensures NewId(ocorrencias) >= 1
    ensures forall o :: o in ocorrencias ==> o.id < NewId(ocorrencias)
    ensures NewId(ocorrencias) == 1 || exists o :: o in ocorrencias && NewId(ocorrencias) == o.id + 1
  {
  }

  /** `{ ...o, ...formData }`: the fields of the form data override those of the entry. */
  function Merge(o: Ocorrencia, formData: Partial): Ocorrencia
  {
    Ocorrencia(formData.id.GetOr(o.id), o.attrs + formData.attrs)
  }

  /** `ocorrencias.map(...)` in the edit branch of `handleFormSubmit`. */
  function EditById(ocorrencias: seq<Ocorrencia>, id: int, formData: Partial): (r: seq<Ocorrencia>)
    ensures |r| == |ocorrencias|
  {
    seq(|ocorrencias|, i requires 0 <= i < |ocorrencias| => if ocorrencias[i].id == id then Merge(ocorrencias[i], formData) else ocorrencias[i])
  }

  /** The entries with the edited id take every field of the form data and keep the fields
      the form does not set; the other entries are unchanged. */
  lemma EditSpec(ocorrencias: seq<Ocorrencia>, id: int, formData: Partial)
    ensures var r := EditById(ocorrencias, id, formData);
      forall i :: 0 <= i < |r| ==>
        && (ocorrencias[i].id != id ==> r[i] == ocorrencias[i])
        && (ocorrencias[i].id == id ==>
              && (formData.id.Some? ==> r[i].id == formData.id.value)
              && (formData.id.None? ==> r[i].id == id)
              && (forall k :: k in formData.attrs ==> k in r[i].attrs && r[i].attrs[k] == formData.attrs[k])
              && (forall k :: k in ocorrencias[i].attrs && k !in formData.attrs ==> k in r[i].attrs && r[i].attrs[k] == ocorrencias[i].attrs[k]))
  {
  }

  /** The fields a new occurrence gets before the form data is spread over them. */
  const CreationDefaults: map<Field, Value> := map[Origem := Str("Painel"), Anexos := List([]), FotoPrincipal := Str("🌾")]

  /** `{ id: newId, origem: 'Painel', anexos: [], fotoPrincipal: '🌾', ...formData }`. */
  function NewOcorrencia(newId: int, formData: Partial): (r: Ocorrencia)
    ensures formData.id.None? ==> r.id == newId
    ensures r.attrs.Keys == CreationDefaults.Keys + formData.attrs.Keys
    ensures forall k :: k in formData.attrs ==> r.attrs[k] == formData.attrs[k]
  {
    Ocorrencia(formData.id.GetOr(newId), CreationDefaults + formData.attrs)
  }

  /** `[newOcorrencia, ...ocorrencias]`. */
  function Create(ocorrencias: seq<Ocorrencia>, formData: Partial): (r: seq<Ocorrencia>)
    ensures |r| == |ocorrencias| + 1 && r[1..] == ocorrencias
  {
    [NewOcorrencia(NewId(ocorrencias), formData)] + ocorrencias
  }

  /** Creating puts the new record first, followed by the old list unchanged; it has the fresh
      id and the creation defaults, each overridden by a field of the form data of the same name. */
  lemma CreateSpec(ocorrencias: seq<Ocorrencia>, formData: Partial)
    ensures var r := Create(ocorrencias, formData);
      && |r| == |ocorrencias| + 1 && r[1..] == ocorrencias
      && (formData.id.None? ==> r[0].id == NewId(ocorrencias) && forall o :: o in ocorrencias ==> o.id != r[0].id)
      && (forall k :: k in formData.attrs ==> k in r[0].attrs && r[0].attrs[k] == formData.attrs[k])
      && (forall k :: k in CreationDefaults && k !in formData.attrs ==> k in r[0].attrs && r[0].attrs[k] == CreationDefaults[k])
      && r[0].attrs.Keys == CreationDefaults.Keys + formData.attrs.Keys
  {
    NewIdFresh(ocorrencias);
  }

  /** The panel's state. */
  class PragasDoencasPanel {
    var ocorrencias: seq<Ocorrencia>
    var selectedOcorrencia: Option<Ocorrencia>
    var isDetailOpen: bool
    var isFormOpen: bool
    var editingOcorrencia: Option<Ocorrencia>

    constructor(initial: seq<Ocorrencia>)
      ensures ocorrencias == initial && selectedOcorrencia.None? && editingOcorrencia.None?
      ensures !isDetailOpen && !isFormOpen
    {
      ocorrencias := initial;
      selectedOcorrencia := None;
      isDetailOpen := false;
      isFormOpen := false;
      editingOcorrencia := None;
    }

    method HandleViewDetails(ocorrencia: Ocorrencia)
      modifies this
      ensures selectedOcorrencia == Some(ocorrencia) && isDetailOpen
      ensures ocorrencias == old(ocorrencias) && isFormOpen == old(isFormOpen) && editingOcorrencia == old(editingOcorrencia)
    {
      selectedOcorrencia := Some(ocorrencia);
      isDetailOpen := true;
    }

    method HandleEdit(ocorrencia: Ocorrencia)
      modifies this
      ensures editingOcorrencia == Some(ocorrencia) && isFormOpen && !isDetailOpen
      ensures ocorrencias == old(ocorrencias) && selectedOcorrencia == old(selectedOcorrencia)
    {
      editingOcorrencia := Some(ocorrencia);
      isFormOpen := true;
      isDetailOpen := false;
    }

    method HandleMarkResolved(ocorrencia: Ocorrencia)
      modifies this
      ensures ocorrencias == MarkResolved(old(ocorrencias), ocorrencia.id)
      ensures selectedOcorrencia == FindById(ocorrencias, ocorrencia.id)
      ensures isDetailOpen == old(isDetailOpen) && isFormOpen == old(isFormOpen) && editingOcorrencia == old(editingOcorrencia)
    {
      var updated := MarkResolved(ocorrencias, ocorrencia.id);
      ocorrencias := updated;
      selectedOcorrencia := FindById(updated, ocorrencia.id);
    }

    method HandleDelete(ocorrenciaId: int)
      modifies this
      ensures ocorrencias == DeleteById(old(ocorrencias), ocorrenciaId)
      ensures !isDetailOpen && selectedOcorrencia.None?
      ensures isFormOpen == old(isFormOpen) && editingOcorrencia == old(editingOcorrencia)
    {
      ocorrencias := DeleteById(ocorrencias, ocorrenciaId);
      isDetailOpen := false;
      selectedOcorrencia := None;
    }

    /** Editing when an occurrence is being edited, creating otherwise; the form closes. */
    method HandleFormSubmit(formData: Partial)
      modifies this
      ensures old(editingOcorrencia).Some? ==>
        ocorrencias == EditById(old(ocorrencias), old(editingOcorrencia).value.id, formData)
      ensures old(editingOcorrencia).None? ==> ocorrencias == Create(old(ocorrencias), formData)
      ensures editingOcorrencia.None? && !isFormOpen
      ensures selectedOcorrencia == old(selectedOcorrencia) && isDetailOpen == old(isDetailOpen)
    {
      if editingOcorrencia.Some? {
        ocorrencias := EditById(ocorrencias, editingOcorrencia.value.id, formData);
        editingOcorrencia := None;
      } else {
        var newId := NewId(ocorrencias);
        ocorrencias := [NewOcorrencia(newId, formData)] + ocorrencias;
      }
      isFormOpen := false;
    }

    method HandleNewOcorrencia()
      modifies this
      ensures editingOcorrencia.None? && isFormOpen
      ensures ocorrencias == old(ocorrencias) && selectedOcorrencia == old(selectedOcorrencia) && isDetailOpen == old(isDetailOpen)
    {
      editingOcorrencia := None;
      isFormOpen := true;
    }

    /** The form's `onClose`. */
    method CloseForm()
      modifies this
      ensures editingOcorrencia.None? && !isFormOpen
      ensures ocorrencias == old(ocorrencias) && selectedOcorrencia == old(selectedOcorrencia) && isDetailOpen == old(isDetailOpen)
    {
      isFormOpen := false;
      editingOcorrencia := None;
    }
  }

  /** The panel mounts the form modal once, while nothing is being edited, and passes the entry
      being edited only as a later prop; the form's state is read from `initialData` at that
      first mount. Opening an entry for editing and submitting at once therefore spreads the
      defaults of a new occurrence over the entry. */
  method EditAfterSingleMount(initial: seq<Ocorrencia>, o: Ocorrencia) returns (result: seq<Ocorrencia>)
    ensures result == EditById(initial, o.id, InitialFormData(None))
  {
    var panel := new PragasDoencasPanel(initial);
    var form := new OcorrenciaForm(panel.editingOcorrencia);
    panel.HandleEdit(o);
    var submitted := form.HandleSubmit();
    panel.HandleFormSubmit(submitted);
    result := panel.ocorrencias;
  }

  /** A resolved entry edited that way comes back with status "Nova". */
  lemma SingleMountResetsStatus()
    ensures var o := Ocorrencia(1, map[Status := Str("Resolvida"), NomePraga := Str("Broca")]);
      var r := EditById([o], 1, InitialFormData(None));
      && Status in r[0].attrs && r[0].attrs[Status] == Str("Nova")
      && r != [o]
  {
    var o := Ocorrencia(1, map[Status := Str("Resolvida"), NomePraga := Str("Broca")]);
    var r := EditById([o], 1, InitialFormData(None));
    assert Status in Defaults.attrs && Defaults.attrs[Status] == Str("Nova");
    assert r[0] == Merge(o, Defaults);
    assert r[0].attrs[Status] != o.attrs[Status];
  }

  /** The intended behaviour: the form starts again from the entry each time it opens, so
      opening an entry and submitting it unchanged submits that entry. */
  method EditWithReopen(initial: seq<Ocorrencia>, o: Ocorrencia) returns (result: seq<Ocorrencia>)
    ensures result == EditById(initial, o.id, AsPartial(o))
  {
    var panel := new PragasDoencasPanel(initial);
    var form := new OcorrenciaForm(panel.editingOcorrencia);
    panel.HandleEdit(o);
    form.Reopen(panel.editingOcorrencia);
    var submitted := form.HandleSubmit();
    panel.HandleFormSubmit(submitted);
    result := panel.ocorrencias;
  }

  /** Submitting an entry of the list unchanged, when ids are unique, leaves the list as it was. */
  lemma UnchangedEditKeepsList(ocorrencias: seq<Ocorrencia>, o: Ocorrencia)
    requires o in ocorrencias
    requires forall i, j :: 0 <= i < j < |ocorrencias| ==> ocorrencias[i].id != ocorrencias[j].id
    ensures EditById(ocorrencias, o.id, AsPartial(o)) == ocorrencias
  {
    var r := EditById(ocorrencias, o.id, AsPartial(o));
    forall i | 0 <= i < |ocorrencias|
      ensures r[i] == ocorrencias[i]
    {
      if ocorrencias[i].id == o.id {
        var j :| 0 <= j < |ocorrencias| && ocorrencias[j] == o;
        assert ocorrencias[i] == o by {
          if i < j { } else if j < i { }
        }
        assert o.attrs + o.attrs == o.attrs;
      }
    }
  }
}
