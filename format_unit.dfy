/** src/lib/formatUnit.ts: the unit labels shown in the stock screens. `formatUnitFull` spells
    out the known units, `formatUnitAbbreviated` shortens the long ones; an unknown unit is
    shown as it is, a missing one as nothing. */
module FormatUnit {
  import opened Common

  /** `unitMap`. */
  const UnitMap: map<string, string> := map[
    "kg" := "kg",
    "g" := "g",
    "L" := "L",
    "mL" := "mL",
    "ton" := "ton (tonelada)",
    "ton (tonelada)" := "ton (tonelada)",
    "saca" := "saca (60kg)",
    "saca (60kg)" := "saca (60kg)",
    "saca_(60kg)" := "saca (60kg)",
    "galão" := "galão",
    "cx (caixa)" := "cx (caixa)",
    "un (unidade)" := "un (unidade)"]

  /** The `abbreviated` table of `formatUnitAbbreviated`. */
  const Abbreviated: map<string, string> := map[
    "ton (tonelada)" := "ton",
    "saca (60kg)" := "saca",
    "saca_(60kg)" := "saca",
    "cx (caixa)" := "cx",
    "un (unidade)" := "un"]

  /** `table[unit] || unit`: the entry when there is one and it is not empty, else the unit. */
  function Lookup(table: map<string, string>, unit: string): (r: string)
    ensures unit !in table ==> r == unit
    ensures unit in table && table[unit] != "" ==> r == table[unit]
  {
    if unit in table && table[unit] != "" then table[unit] else unit
  }

  /** `formatUnitFull(unit)`; `None` is null or undefined. */
  function FormatUnitFull(unit: Option<string>): (r: string)
    ensures unit.None? || unit == Some("") ==> r == ""
    ensures unit.Some? && unit.value !in UnitMap ==> r == unit.value
  {
    if unit.None? || unit.value == "" then "" else Lookup(UnitMap, unit.value)
  }

  /** `formatUnitAbbreviated(unit)`. */
  function FormatUnitAbbreviated(unit: Option<string>): (r: string)
    ensures unit.None? || unit == Some("") ==> r == ""
    ensures unit.Some? && unit.value !in Abbreviated ==> r == unit.value
  {
    if unit.None? || unit.value == "" then "" else Lookup(Abbreviated, unit.value)
  }

  /** Every full label is a key of the table that maps to itself. */
  lemma FullLabelsFixed()
    ensures forall k :: k in UnitMap ==> UnitMap[k] != "" && UnitMap[k] in UnitMap && UnitMap[UnitMap[k]] == UnitMap[k]
  {
  }

  /** Spelling out a label twice is spelling it out once. */
  lemma FullIdempotent(unit: Option<string>)
    ensures FormatUnitFull(Some(FormatUnitFull(unit))) == FormatUnitFull(unit)
  {
    FullLabelsFixed();
  }

  /** No abbreviation is itself abbreviated. */
  lemma AbbreviationsFixed()
    ensures forall k :: k in Abbreviated ==> Abbreviated[k] != "" && Abbreviated[k] !in Abbreviated
  {
  }

  /** Abbreviating twice is abbreviating once. */
  lemma AbbreviatedIdempotent(unit: Option<string>)
    ensures FormatUnitAbbreviated(Some(FormatUnitAbbreviated(unit))) == FormatUnitAbbreviated(unit)
  {
    AbbreviationsFixed();
  }

  /** The ton and the sack, spelled out then abbreviated, come back short, from either
      spelling of the sack. */
  lemma AbbreviateFull()
    ensures FormatUnitAbbreviated(Some(FormatUnitFull(Some("ton")))) == "ton"
    ensures FormatUnitAbbreviated(Some(FormatUnitFull(Some("saca")))) == "saca"
    ensures FormatUnitAbbreviated(Some(FormatUnitFull(Some("saca_(60kg)")))) == "saca"
  {
  }
}
