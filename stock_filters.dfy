/** `getFilterLabel` of src/components/Estoque/EstoqueFiltros.tsx: the text on the filter button,
    from the first filter that is set. */
module StockFilters {

  const NoFilter := "Nenhum filtro aplicado"

  /** The label of a sort order, if it has one. */
  function OrdemLabel(ordem: string): (r: string)
  {
    if ordem == "alfabetica" then "Ordem Alfabética"
    else if ordem == "dataLancamento" then "Data de Lançamento"
    else if ordem == "validade" then "Validade"
    else NoFilter
  }

  /** A non-empty search wins, then a non-empty category, then a known sort order. */
  function GetFilterLabel(search: string, categoria: string, ordem: string): (r: string)
    ensures search != "" ==> |r| == |search| + 14 && r[..13] == "Nome contém \"" && r[13..|r| - 1] == search
    ensures search == "" && categoria != "" ==> |r| == |categoria| + 11 && r[..11] == "Categoria: " && r[11..] == categoria
    ensures search == "" && categoria == "" ==> r == OrdemLabel(ordem)
  {
    if search != "" then "Nome contém \"" + search + "\""
    else if categoria != "" then "Categoria: " + categoria
    else OrdemLabel(ordem)
  }

  /** The precedence: the search decides alone when it is set, and the category decides alone
      when the search is empty; the sort order counts only when both are empty. */
  lemma Precedence(search: string, categoria: string, ordem: string, categoria': string, ordem': string)
    ensures search != "" ==> GetFilterLabel(search, categoria, ordem) == GetFilterLabel(search, categoria', ordem')
    ensures categoria != "" ==> GetFilterLabel("", categoria, ordem) == GetFilterLabel("", categoria, ordem')
    ensures GetFilterLabel("", "", ordem) == OrdemLabel(ordem)
  {
  }

  /** The three known orders have their own labels. */
  lemma OrdemLabels()
    ensures OrdemLabel("alfabetica") == "Ordem Alfabética"
    ensures OrdemLabel("dataLancamento") == "Data de Lançamento"
    ensures OrdemLabel("validade") == "Validade"
  {
  }

  /** "Nenhum filtro aplicado" appears exactly when no search, no category and no known order is
      set. */
  lemma NoFilterIff(search: string, categoria: string, ordem: string)
    ensures GetFilterLabel(search, categoria, ordem) == NoFilter <==>
      search == "" && categoria == "" && ordem != "alfabetica" && ordem != "dataLancamento" && ordem != "validade"
  {
    var r := GetFilterLabel(search, categoria, ordem);
    if search != "" {
      assert r[1] == 'o' && NoFilter[1] == 'e';
    } else if categoria != "" {
      assert r[0] == 'C' && NoFilter[0] == 'N';
    } else if ordem == "alfabetica" || ordem == "dataLancamento" || ordem == "validade" {
      assert r[0] != 'N' && NoFilter[0] == 'N';
    }
  }

  /** A set search shows up verbatim inside the quotes of the label. */
  lemma SearchShown(search: string, categoria: string, ordem: string)
    requires search != ""
    ensures var r := GetFilterLabel(search, categoria, ordem);
      |r| == |search| + 14 && r[13..|r| - 1] == search && r[|r| - 1] == '"'
  {
  }
}
