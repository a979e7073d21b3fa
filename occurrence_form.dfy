/** The form state of src/components/PragasDoencas/OcorrenciaFormModal.tsx: the record being
    edited, its defaults, and the list of applied products. The `Ocorrencia` type comes from
    a file that is not part of this model; its fields other than `id` are kept by name. */
module OccurrenceForm {
  import opened Common
  import opened JsText

  /** The values an occurrence field holds: text, a number, or a list. */
  datatype Value = Str(s: string) | Num(n: real) | List(items: seq<Value>)

  /** The fields of `Ocorrencia` besides `id`, one constructor per field name the dashboard
      writes (`talhao`, `dataOcorrencia`, ...), and `Other` for any field it only carries. */
  datatype Field =
    | Talhao | DataOcorrencia | FaseLavoura | TipoOcorrencia | Severidade | AreaAfetada
    | Sintomas | AcaoTomada | NomePraga | Diagnostico | DescricaoDetalhada | ClimaRecente
    | ProdutosAplicados | DataAplicacao | Recomendacoes | Status | Origem | Anexos | FotoPrincipal
    | Other(name: string)

  /** A stored occurrence: its numeric `id` and its other fields. */
  datatype Ocorrencia = Ocorrencia(id: int, attrs: map<Field, Value>)

  /** `Partial<Ocorrencia>`: the same, with the `id` possibly absent. */
  datatype Partial = Partial(id: Option<int>, attrs: map<Field, Value>)

  /** The fields named by the form's inputs, selects and text areas. */
  const InputNames: set<Field> := {Talhao, DataOcorrencia, FaseLavoura, TipoOcorrencia,
    Severidade, AreaAfetada, Sintomas, AcaoTomada, NomePraga, Diagnostico,
    DescricaoDetalhada, ClimaRecente, DataAplicacao, Recomendacoes, Status}

  /** The value a field of a new occurrence starts with. */
  function DefaultValue(f: Field): Value
  {
    match f
    case FaseLavoura => Str("Vegetativo")
    case TipoOcorrencia => Str("Praga")
    case Severidade => Str("Média")
    case Diagnostico => Str("Sugerido pela IA (não confirmado)")
    case ProdutosAplicados => List([])
    case Status => Str("Nova")
    case _ => Str("")
  }

  /** The record a new occurrence starts from: every input and the list of products. */
  const Defaults: Partial := Partial(None, map f | f in InputNames + {ProdutosAplicados} :: DefaultValue(f))

  /** An occurrence seen as a partial record. */
  function AsPartial(o: Ocorrencia): Partial { Partial(Some(o.id), o.attrs) }

  /** `initialData || { ...defaults }`. */
  function InitialFormData(initialData: Option<Ocorrencia>): (r: Partial)
    ensures initialData.None? ==> r.id.None? && r.attrs.Keys == InputNames + {ProdutosAplicados}
    ensures initialData.Some? ==> r.id == Some(initialData.value.id) && r.attrs == initialData.value.attrs
  {
    match initialData
    case Some(o) => AsPartial(o)
    case None => Defaults
  }

  /** The defaults: four selects start on a preset option, the status is "Nova" and the list of
      products is empty. */
  lemma DefaultPresets()
    ensures var d := InitialFormData(None).attrs;
      && d[FaseLavoura] == Str("Vegetativo") && d[TipoOcorrencia] == Str("Praga")
      && d[Severidade] == Str("Média") && d[Diagnostico] == Str("Sugerido pela IA (não confirmado)")
      && d[Status] == Str("Nova") && d[ProdutosAplicados] == List([])
  {
  }

  predicate IsPreset(f: Field)
  {
    f.FaseLavoura? || f.TipoOcorrencia? || f.Severidade? || f.Diagnostico? || f.Status? || f.ProdutosAplicados?
  }

  /** Every other input starts as the empty string. */
  lemma DefaultBlanks()
    ensures forall k :: k in InitialFormData(None).attrs && !IsPreset(k) ==> InitialFormData(None).attrs[k] == Str("")
  {
  }

  /** `setFormData(prev => ({ ...prev, [name]: value }))`. */
  function Change(formData: Partial, name: Field, value: string): (r: Partial)
    requires name in InputNames
    ensures r.id == formData.id && name in r.attrs && r.attrs[name] == Str(value)
    ensures forall k :: k != name ==> (k in r.attrs <==> k in formData.attrs)
    ensures forall k :: k != name && k in formData.attrs ==> r.attrs[k] == formData.attrs[k]
  {
    formData.(attrs := formData.attrs[name := Str(value)])
  }

  /** `prev.produtosAplicados || []`. */
  function ProdutosOf(formData: Partial): seq<Value>
  {
    if ProdutosAplicados in formData.attrs && formData.attrs[ProdutosAplicados].List? then formData.attrs[ProdutosAplicados].items else []
  }

  /** The form data with another list of products. */
  function WithProdutos(formData: Partial, produtos: seq<Value>): Partial
  {
    formData.(attrs := formData.attrs[ProdutosAplicados := List(produtos)])
  }

  /** The whole state of the form: the record and the text of the product input. */
  datatype FormState = FormState(formData: Partial, produtoInput: string)

  /** `handleAddProduto`: a non-blank input, trimmed, is appended and the input cleared. */
  function AddProduto(st: FormState): (r: FormState)
    ensures r.formData.id == st.formData.id
    ensures r == st || (r.produtoInput == "" && |ProdutosOf(r.formData)| == |ProdutosOf(st.formData)| + 1)
  {
    var t := Trim(st.produtoInput);
    if t != [] then FormState(WithProdutos(st.formData, ProdutosOf(st.formData) + [Str(t)]), "")
    else st
  }

  /** A non-blank input is appended, trimmed, after the products already listed; the input is
      cleared and no other field changes. */
  lemma AddNonBlank(st: FormState)
    requires !AllWhitespace(st.produtoInput)
    ensures var r := AddProduto(st);
      && ProdutosOf(r.formData) == ProdutosOf(st.formData) + [Str(Trim(st.produtoInput))]
      && Trim(st.produtoInput) != []
      && r.produtoInput == ""
      && r.formData.id == st.formData.id
      && forall k :: k != ProdutosAplicados && k in st.formData.attrs ==> k in r.formData.attrs && r.formData.attrs[k] == st.formData.attrs[k]
  {
    TrimBlank(st.produtoInput);
  }

  /** A blank or whitespace-only input changes nothing. */
  lemma AddBlank(st: FormState)
    requires AllWhitespace(st.produtoInput)
    ensures AddProduto(st) == st
  {
    TrimBlank(st.produtoInput);
  }

  /** `list.filter((_, i) => i !== idx)`: every element whose position is not `idx`. */
  function RemoveIndex<T>(s: seq<T>, idx: int): (r: seq<T>)
    ensures |r| <= |s|
  {
    if s == [] then []
    else RemoveIndex(s[..|s| - 1], idx) + (if |s| - 1 != idx then [s[|s| - 1]] else [])
  }

  /** Removing a position in range drops exactly that element and keeps the others in order; a
      position out of range keeps the whole list. */
  lemma {:induction false} RemoveIndexSpec<T>(s: seq<T>, idx: int)
    ensures 0 <= idx < |s| ==> RemoveIndex(s, idx) == s[..idx] + s[idx + 1..]
    ensures !(0 <= idx < |s|) ==> RemoveIndex(s, idx) == s
  {
    if s != [] {
      var n := |s| - 1;
      var init := s[..n];
      assert init + [s[n]] == s;
      RemoveIndexSpec(init, idx);
      if idx == n {
        assert s[idx + 1..] == [];
      } else if 0 <= idx < n {
        assert init[..idx] == s[..idx];
        assert init[idx + 1..] + [s[n]] == s[idx + 1..];
      }
    }
  }

  /** `handleRemoveProduto(idx)`: the list without the element at `idx`. */
  function RemoveProduto(formData: Partial, idx: int): (r: Partial)
    ensures r.id == formData.id && ProdutosAplicados in r.attrs
    ensures |ProdutosOf(r)| <= |ProdutosOf(formData)|
  {
    WithProdutos(formData, RemoveIndex(ProdutosOf(formData), idx))
  }

  /** Removing drops exactly the product at `idx` and keeps the rest in order; an index out of
      range leaves the list as it was; no other field changes. */
  lemma RemoveProdutoSpec(formData: Partial, idx: int)
    ensures var p := ProdutosOf(formData); var r := RemoveProduto(formData, idx);
      && (0 <= idx < |p| ==> ProdutosOf(r) == p[..idx] + p[idx + 1..])
      && (!(0 <= idx < |p|) ==> ProdutosOf(r) == p)
      && r.id == formData.id
      && forall k :: k != ProdutosAplicados && k in formData.attrs ==> k in r.attrs && r.attrs[k] == formData.attrs[k]
  {
    RemoveIndexSpec(ProdutosOf(formData), idx);
  }

  /** With no list of products yet, adding starts one and removing leaves an empty one. */
  lemma MissingProdutosIsEmpty(st: FormState, idx: int)
    requires ProdutosAplicados !in st.formData.attrs
    ensures Trim(st.produtoInput) != [] ==>
      AddProduto(st).formData.attrs[ProdutosAplicados] == List([Str(Trim(st.produtoInput))])
    ensures RemoveProduto(st.formData, idx).attrs[ProdutosAplicados] == List([])
  {
  }

  /** The form component's state. */
  class OcorrenciaForm {
    var formData: Partial
    var produtoInput: string

    constructor(initialData: Option<Ocorrencia>)
      ensures formData == InitialFormData(initialData) && produtoInput == ""
    {
      formData := InitialFormData(initialData);
      produtoInput := "";
    }

    /** The form started again from `initialData`, as a fresh mount of the modal would. */
    method Reopen(initialData: Option<Ocorrencia>)
      modifies this
      ensures formData == InitialFormData(initialData) && produtoInput == ""
    {
      formData := InitialFormData(initialData);
      produtoInput := "";
    }

    method HandleChange(name: Field, value: string)
      requires name in InputNames
      modifies this
      ensures formData == Change(old(formData), name, value) && produtoInput == old(produtoInput)
    {
      formData := Change(formData, name, value);
    }

    /** The `onChange` of the product input. */
    method SetProdutoInput(value: string)
      modifies this
      ensures produtoInput == value && formData == old(formData)
    {
      produtoInput := value;
    }

    method HandleAddProduto()
      modifies this
      ensures FormState(formData, produtoInput) == AddProduto(old(FormState(formData, produtoInput)))
    {
      var t := Trim(produtoInput);
      if t != [] {
        formData := WithProdutos(formData, ProdutosOf(formData) + [Str(t)]);
        produtoInput := "";
      }
    }

    method HandleRemoveProduto(idx: int)
      modifies this
      ensures formData == RemoveProduto(old(formData), idx) && produtoInput == old(produtoInput)
    {
      formData := RemoveProduto(formData, idx);
    }

    /** `handleSubmit`: the form data handed to `onSubmit`. */
    method HandleSubmit() returns (submitted: Partial)
      ensures submitted == formData
    {
      submitted := formData;
    }
  }
}
