/** The similarity test and the first-fit grouping loop of `agruparProdutos`
    (src/services/agruparProdutosService.ts): stock items whose names are similar enough are
    gathered under the name of the item that founded the group. */
module ProductGrouping {
  import opened Common
  import opened JsText
  import opened NameNormalizer
  import opened EditDistance

  /** A stock item (`ProdutoEstoque`). Nullable columns are options; `createdAt` is the
      `created_at` timestamp already read as a number. */
  datatype Product = Product(
    id: int,
    nome: Option<string>,
    createdAt: Option<int>,
    valor: Option<real>,
    quantidade: Option<real>,
    quantidadeInicial: Option<real>,
    unidade: string,
    unidadeValorOriginal: Option<string>,
    marca: Option<string>,
    categoria: Option<string>,
    lote: Option<string>,
    validade: Option<string>,
    fornecedor: Option<string>,
    registroMapa: Option<string>)

  function Max(x: nat, y: nat): nat { if x >= y then x else y }

  /** The length-dependent threshold of `areSimilar`, for two different, non-empty normal
      forms of lengths `len1` and `len2` at edit distance `distance`: names averaging fewer
      than four characters must be equal, longer ones need a similarity (one minus the
      distance relative to the longer length) above 0.85, 0.75 or 0.7. */
  predicate ThresholdMet(len1: nat, len2: nat, distance: nat)
    requires len1 > 0 && len2 > 0
  {
    var avgLength := (len1 + len2) as real / 2.0;
    var similarity := 1.0 - (distance as real) / (Max(len1, len2) as real);
    if avgLength < 4.0 then false
    else if avgLength <= 6.0 then similarity > 0.85
    else if avgLength <= 10.0 then similarity > 0.75
    else similarity > 0.7
  }

  /** The comparison of two normal forms. */
  predicate NormalFormsSimilar(n1: string, n2: string)
  {
    if n1 == n2 then true
    else if n1 == "" || n2 == "" then false
    else ThresholdMet(|n1|, |n2|, Levenshtein(n1, n2))
  }

  /** `areSimilar(name1, name2)`: a missing or empty argument is never similar; otherwise the
      normal forms are compared. */
  function AreSimilar(name1: Option<string>, name2: Option<string>): (r: bool)
    ensures name1.None? || name2.None? || name1 == Some("") || name2 == Some("") ==> !r
  {
    if name1.None? || name2.None? || name1.value == "" || name2.value == "" then false
    else NormalFormsSimilar(NormalizeName(name1), NormalizeName(name2))
  }

  /** Two present, non-empty names with the same normal form are similar, even when that
      normal form is empty (names made only of symbols); exactly one empty normal form never is. */
  lemma SimilarByNormalForm(name1: string, name2: string)
    requires name1 != "" && name2 != ""
    ensures NormalizeName(Some(name1)) == NormalizeName(Some(name2)) ==> AreSimilar(Some(name1), Some(name2))
    ensures NormalizeName(Some(name1)) != NormalizeName(Some(name2))
      && (NormalizeName(Some(name1)) == "" || NormalizeName(Some(name2)) == "")
      ==> !AreSimilar(Some(name1), Some(name2))
  {
  }

  /** Any present, non-empty name is similar to itself. */
  lemma SimilarReflexive(name: string)
    requires name != ""
    ensures AreSimilar(Some(name), Some(name))
  {
  }

  /** Comparing two normal forms does not depend on their order. */
  lemma NormalFormsSymmetric(n1: string, n2: string)
    ensures NormalFormsSimilar(n1, n2) == NormalFormsSimilar(n2, n1)
  {
    LevenshteinSymmetric(n1, n2);
    assert Max(|n1|, |n2|) == Max(|n2|, |n1|);
  }

  /** The test does not depend on the order of its arguments. */
  lemma SimilarSymmetric(name1: Option<string>, name2: Option<string>)
    ensures AreSimilar(name1, name2) == AreSimilar(name2, name1)
  {
    if name1.Some? && name2.Some? && name1.value != "" && name2.value != "" {
      NormalFormsSymmetric(NormalizeName(name1), NormalizeName(name2));
    }
  }

  lemma RatioBelow(d: nat, m: nat, t: real)
    requires m > 0 && 1.0 - (d as real) / (m as real) > t
    ensures (d as real) < (1.0 - t) * (m as real)
  {
    var q := (d as real) / (m as real);
    var e := (1.0 - t) - q;
    assert q * (m as real) == d as real;
    assert e > 0.0;
    assert e * (m as real) > 0.0;
    assert (1.0 - t) * (m as real) == q * (m as real) + e * (m as real);
  }

  /** Similar names with different normal forms are long enough (average of at least four
      characters) and differ in at least one and fewer than 30% of the longer name's
      characters. */
  lemma SimilarBoundsDistance(name1: Option<string>, name2: Option<string>)
    requires AreSimilar(name1, name2)
    requires NormalizeName(name1) != NormalizeName(name2)
    ensures var n1, n2 := NormalizeName(name1), NormalizeName(name2);
      && |n1| + |n2| >= 8
      && 1 <= Levenshtein(n1, n2)
      && 10 * Levenshtein(n1, n2) < 3 * Max(|n1|, |n2|)
  {
    var n1, n2 := NormalizeName(name1), NormalizeName(name2);
    assert n1 != "" && n2 != "" && ThresholdMet(|n1|, |n2|, Levenshtein(n1, n2));
    ThresholdBounds(|n1|, |n2|, Levenshtein(n1, n2));
    LevenshteinZero(n1, n2);
  }

  /** What the threshold demands, in integers. */
  lemma ThresholdBounds(len1: nat, len2: nat, d: nat)
    requires len1 > 0 && len2 > 0 && ThresholdMet(len1, len2, d)
    ensures len1 + len2 >= 8 && 10 * d < 3 * Max(len1, len2)
  {
    var m := Max(len1, len2);
    var avg := (len1 + len2) as real / 2.0;
    var sim := 1.0 - (d as real) / (m as real);
    if avg <= 6.0 {
      RatioBelow(d, m, 0.85);
    } else if avg <= 10.0 {
      RatioBelow(d, m, 0.75);
    } else {
      RatioBelow(d, m, 0.7);
    }
  }

  /** An item takes part in grouping when its name is a string that is not blank. */
  predicate IsValid(p: Product)
  {
    p.nome.Some? && Trim(p.nome.value) != ""
  }

  lemma ValidNameNonEmpty(p: Product)
    requires IsValid(p)
    ensures p.nome.value != ""
  {
  }

  /** One entry of the `grupos` record: the founding name and the items gathered under it. */
  datatype Group = Group(key: string, members: seq<Product>)

  /** The test the loop applies to an item's name and a group's key,
      `areSimilar(produto.nome_produto, nomeGrupo)`. */
  predicate Fits(name: Option<string>, key: string)
  {
    AreSimilar(name, Some(key))
  }

  /** A relation under which every non-empty name fits a key equal to itself. */
  ghost predicate Reflexive(fits: (Option<string>, string) -> bool)
  {
    forall s: string {:trigger fits(Some(s), s)} :: s != "" ==> fits(Some(s), s)
  }

  lemma FitsReflexive()
    ensures Reflexive(Fits)
  {
    forall s: string | s != "" ensures Fits(Some(s), s) {
      SimilarReflexive(s);
    }
  }

  /** The index of the first group, from `k` on and in key-iteration order, whose key `name`
      fits. The grouping below is stated for any test `fits`; the loop uses `Fits`. */
  function FirstSimilar(groups: seq<Group>, name: Option<string>, k: nat,
                        fits: (Option<string>, string) -> bool): (r: Option<nat>)
    requires k <= |groups|
    ensures r.Some? ==> k <= r.value < |groups| && fits(name, groups[r.value].key)
    ensures r.Some? ==> forall j :: k <= j < r.value ==> !fits(name, groups[j].key)
    ensures r.None? ==> forall j :: k <= j < |groups| ==> !fits(name, groups[j].key)
    decreases |groups| - k
  {
    if k == |groups| then None
    else if fits(name, groups[k].key) then Some(k)
    else FirstSimilar(groups, name, k + 1, fits)
  }

  function Keys(groups: seq<Group>): (ks: seq<string>)
    ensures |ks| == |groups| && forall k :: 0 <= k < |groups| ==> ks[k] == groups[k].key
  {
    if groups == [] then [] else [groups[0].key] + Keys(groups[1..])
  }

  /** `grupos[key] = members`: overwrite the entry in place if the key exists, else add it last. */
  function Assign(groups: seq<Group>, key: string, members: seq<Product>): seq<Group>
  {
    if groups == [] then [Group(key, members)]
    else if groups[0].key == key then [Group(key, members)] + groups[1..]
    else [groups[0]] + Assign(groups[1..], key, members)
  }

  lemma {:induction false} AssignNewKey(groups: seq<Group>, key: string, members: seq<Product>)
    requires key !in Keys(groups)
    ensures Assign(groups, key, members) == groups + [Group(key, members)]
  {
    if groups != [] {
      assert Keys(groups) == [groups[0].key] + Keys(groups[1..]);
      AssignNewKey(groups[1..], key, members);
      assert groups == [groups[0]] + groups[1..];
    }
  }

  /** One step of the loop: push the item onto the first group its name fits, or found a
      group keyed by its own name. */
  function Insert(groups: seq<Group>, p: Product, fits: (Option<string>, string) -> bool): seq<Group>
    requires IsValid(p)
  {
    match FirstSimilar(groups, p.nome, 0, fits)
    case Some(k) => groups[k := Group(groups[k].key, groups[k].members + [p])]
    case None => Assign(groups, p.nome.value, [p])
  }

  /** The groups after the loop has seen the items of `ps`, in order. */
  function GroupAll(ps: seq<Product>, fits: (Option<string>, string) -> bool): seq<Group>
    requires forall i :: 0 <= i < |ps| ==> IsValid(ps[i])
  {
    if ps == [] then [] else Insert(GroupAll(ps[..|ps| - 1], fits), ps[|ps| - 1], fits)
  }

  /** The grouping loop of `agruparProdutos` over the already-filtered items: the first item
      founds the first group, then each later item is pushed onto the first group in
      key-iteration order whose key its name fits, or founds a new group. `agruparProdutos`
      runs it with `Fits`, the `areSimilar` test. */
  method GroupProducts(produtosValidos: seq<Product>, fits: (Option<string>, string) -> bool) returns (grupos: seq<Group>)
    requires |produtosValidos| > 0
    requires forall i :: 0 <= i < |produtosValidos| ==> IsValid(produtosValidos[i])
    ensures grupos == GroupAll(produtosValidos, fits)
  {
    var first := produtosValidos[0];
    grupos := [Group(first.nome.value, [first])];
    GroupAllStep(produtosValidos, 0, fits);
    assert produtosValidos[..0] == [];
    for i := 1 to |produtosValidos|
      invariant grupos == GroupAll(produtosValidos[..i], fits)
    {
      var produto := produtosValidos[i];
      ghost var before := grupos;
      var grupo := FindGroup(grupos, produto.nome, fits);
      if grupo.Some? {
        var k := grupo.value;
        grupos := grupos[k := Group(grupos[k].key, grupos[k].members + [produto])];
      } else {
        grupos := Assign(grupos, produto.nome.value, [produto]);
      }
      assert grupos == Insert(before, produto, fits);
      GroupAllStep(produtosValidos, i, fits);
    }
    assert produtosValidos[..|produtosValidos|] == produtosValidos;
  }

  /** The loop's state after one more item. */
  lemma GroupAllStep(ps: seq<Product>, i: nat, fits: (Option<string>, string) -> bool)
    requires i < |ps| && forall j :: 0 <= j < |ps| ==> IsValid(ps[j])
    ensures GroupAll(ps[..i + 1], fits) == Insert(GroupAll(ps[..i], fits), ps[i], fits)
  {
    assert ps[..i + 1][..i] == ps[..i];
  }

  /** The inner `for...of` over the entries of `grupos`, stopped by `break` at the first key
      the item's name fits. */
  method FindGroup(grupos: seq<Group>, nome: Option<string>, fits: (Option<string>, string) -> bool) returns (found: Option<nat>)
    ensures found == FirstSimilar(grupos, nome, 0, fits)
  {
    var k := 0;
    while k < |grupos|
      invariant 0 <= k <= |grupos|
      invariant FirstSimilar(grupos, nome, 0, fits) == FirstSimilar(grupos, nome, k, fits)
    {
      if fits(nome, grupos[k].key) {
        return Some(k);
      }
      k := k + 1;
    }
    return None;
  }

  /** All items of all groups, group after group. */
  function Members(groups: seq<Group>): seq<Product>
  {
    if groups == [] then [] else groups[0].members + Members(groups[1..])
  }

  lemma {:induction false} MembersAppend(groups: seq<Group>, g: Group)
    ensures Members(groups + [g]) == Members(groups) + g.members
  {
    if groups != [] {
      assert (groups + [g])[1..] == groups[1..] + [g];
      MembersAppend(groups[1..], g);
    } else {
      assert Members([g]) == g.members + Members([]);
    }
  }

  lemma {:induction false} MembersPush(groups: seq<Group>, k: nat, p: Product)
    requires k < |groups|
    ensures multiset(Members(groups[k := Group(groups[k].key, groups[k].members + [p])]))
      == multiset(Members(groups)) + multiset{p}
  {
    var updated := groups[k := Group(groups[k].key, groups[k].members + [p])];
    assert Members(groups) == groups[0].members + Members(groups[1..]);
    assert Members(updated) == updated[0].members + Members(updated[1..]);
    if k == 0 {
      assert updated[1..] == groups[1..];
    } else {
      assert updated[1..] == groups[1..][k - 1 := Group(groups[k].key, groups[k].members + [p])];
      MembersPush(groups[1..], k - 1, p);
    }
  }

  /** Keys are distinct: no group is ever overwritten. */
  ghost predicate DistinctKeys(groups: seq<Group>)
  {
    forall j, k :: 0 <= j < k < |groups| ==> groups[j].key != groups[k].key
  }

  /** Every group is founded by an item whose name is the key. */
  ghost predicate Founded(groups: seq<Group>)
  {
    forall k :: 0 <= k < |groups| ==>
      |groups[k].members| > 0 && groups[k].members[0].nome == Some(groups[k].key)
  }

  /** Every member fits its group's key. */
  ghost predicate MembersFit(groups: seq<Group>, fits: (Option<string>, string) -> bool)
  {
    forall k, m :: 0 <= k < |groups| && 0 <= m < |groups[k].members| ==>
      fits(groups[k].members[m].nome, groups[k].key)
  }

  /** First fit: no member fits the key of an earlier group. */
  ghost predicate FirstFit(groups: seq<Group>, fits: (Option<string>, string) -> bool)
  {
    forall j, k, m :: 0 <= j < k < |groups| && 0 <= m < |groups[k].members| ==>
      !fits(groups[k].members[m].nome, groups[j].key)
  }

  /** What the loop keeps true of the groups built from the items `ps`. */
  ghost predicate GroupsInvariant(groups: seq<Group>, ps: seq<Product>,
                                  fits: (Option<string>, string) -> bool)
  {
    && DistinctKeys(groups)
    && Founded(groups)
    && MembersFit(groups, fits)
    && FirstFit(groups, fits)
    && multiset(Members(groups)) == multiset(ps)
  }

  lemma InsertPushPreserves(groups: seq<Group>, ps: seq<Product>, p: Product,
                            fits: (Option<string>, string) -> bool, k: nat)
    requires IsValid(p) && GroupsInvariant(groups, ps, fits)
    requires FirstSimilar(groups, p.nome, 0, fits) == Some(k)
    ensures GroupsInvariant(Insert(groups, p, fits), ps + [p], fits)
  {
    MembersPush(groups, k, p);
    PushKeepsShape(groups, k, p);
    PushKeepsFit(groups, k, p, fits);
  }

  /** Pushing onto group `k` keeps the keys and the founders. */
  lemma PushKeepsShape(groups: seq<Group>, k: nat, p: Product)
    requires k < |groups| && DistinctKeys(groups) && Founded(groups)
    ensures var updated := groups[k := Group(groups[k].key, groups[k].members + [p])];
      DistinctKeys(updated) && Founded(updated)
  {
    var updated := groups[k := Group(groups[k].key, groups[k].members + [p])];
    assert forall j :: 0 <= j < |groups| ==> updated[j].key == groups[j].key;
    assert updated[k].members[0] == groups[k].members[0];
  }

  /** Pushing onto the first group whose key `p` fits keeps both fit conditions. */
  lemma PushKeepsFit(groups: seq<Group>, k: nat, p: Product, fits: (Option<string>, string) -> bool)
    requires k < |groups| && MembersFit(groups, fits) && FirstFit(groups, fits)
    requires fits(p.nome, groups[k].key)
    requires forall j :: 0 <= j < k ==> !fits(p.nome, groups[j].key)
    ensures var updated := groups[k := Group(groups[k].key, groups[k].members + [p])];
      MembersFit(updated, fits) && FirstFit(updated, fits)
  {
    var updated := groups[k := Group(groups[k].key, groups[k].members + [p])];
    forall c, m | 0 <= c < |updated| && 0 <= m < |updated[c].members|
      ensures updated[c].key == groups[c].key
      ensures updated[c].members[m] == if c == k && m == |groups[k].members| then p else groups[c].members[m]
    {
    }
  }

  /** Appending a group founded by `p`, whose name fits its own key and no earlier key. */
  lemma AppendGroupPreserves(groups: seq<Group>, ps: seq<Product>, p: Product,
                             fits: (Option<string>, string) -> bool)
    requires GroupsInvariant(groups, ps, fits) && p.nome.Some?
    requires p.nome.value !in Keys(groups) && fits(p.nome, p.nome.value)
    requires forall j :: 0 <= j < |groups| ==> !fits(p.nome, groups[j].key)
    ensures GroupsInvariant(groups + [Group(p.nome.value, [p])], ps + [p], fits)
  {
    MembersAppend(groups, Group(p.nome.value, [p]));
    AppendKeepsShape(groups, p);
    AppendKeepsFit(groups, p, fits);
  }

  /** Appending a group under a new key keeps the keys distinct and every group founded. */
  lemma AppendKeepsShape(groups: seq<Group>, p: Product)
    requires DistinctKeys(groups) && Founded(groups) && p.nome.Some? && p.nome.value !in Keys(groups)
    ensures var updated := groups + [Group(p.nome.value, [p])];
      DistinctKeys(updated) && Founded(updated)
  {
    assert forall j :: 0 <= j < |groups| ==> groups[j].key == Keys(groups)[j];
  }

  /** Appending a group founded by `p` keeps both fit conditions when `p` fits only its own key. */
  lemma AppendKeepsFit(groups: seq<Group>, p: Product, fits: (Option<string>, string) -> bool)
    requires MembersFit(groups, fits) && FirstFit(groups, fits) && p.nome.Some?
    requires fits(p.nome, p.nome.value)
    requires forall j :: 0 <= j < |groups| ==> !fits(p.nome, groups[j].key)
    ensures var updated := groups + [Group(p.nome.value, [p])];
      MembersFit(updated, fits) && FirstFit(updated, fits)
  {
    var updated := groups + [Group(p.nome.value, [p])];
    forall c | 0 <= c < |updated|
      ensures updated[c] == if c < |groups| then groups[c] else Group(p.nome.value, [p])
    {
    }
  }

  lemma InsertNewPreserves(groups: seq<Group>, ps: seq<Product>, p: Product,
                           fits: (Option<string>, string) -> bool)
    requires IsValid(p) && GroupsInvariant(groups, ps, fits) && Reflexive(fits)
    requires FirstSimilar(groups, p.nome, 0, fits).None?
    ensures GroupsInvariant(Insert(groups, p, fits), ps + [p], fits)
  {
    var name := p.nome.value;
    ValidNameNonEmpty(p);
    assert fits(Some(name), name);
    assert name !in Keys(groups);
    AssignNewKey(groups, name, [p]);
    AppendGroupPreserves(groups, ps, p, fits);
  }

  /** One step of the loop keeps the invariant. */
  lemma InsertPreserves(groups: seq<Group>, ps: seq<Product>, p: Product,
                        fits: (Option<string>, string) -> bool)
    requires IsValid(p) && GroupsInvariant(groups, ps, fits) && Reflexive(fits)
    ensures GroupsInvariant(Insert(groups, p, fits), ps + [p], fits)
  {
    match FirstSimilar(groups, p.nome, 0, fits)
    case Some(k) => InsertPushPreserves(groups, ps, p, fits, k);
    case None => InsertNewPreserves(groups, ps, p, fits);
  }

  /** Every reachable state of the loop satisfies the invariant. */
  lemma {:induction false} GroupAllInvariant(ps: seq<Product>, fits: (Option<string>, string) -> bool)
    requires forall i :: 0 <= i < |ps| ==> IsValid(ps[i])
    requires Reflexive(fits)
    ensures GroupsInvariant(GroupAll(ps, fits), ps, fits)
  {
    if ps != [] {
      var n := |ps| - 1;
      var init := ps[..n];
      assert ps[..n + 1] == ps && init + [ps[n]] == ps;
      assert forall i :: 0 <= i < |init| ==> IsValid(init[i]);
      GroupAllStep(ps, n, fits);
      GroupAllInvariant(init, fits);
      InsertPreserves(GroupAll(init, fits), init, ps[n], fits);
    }
  }

  /** Each valid item lands in exactly one group, no item is lost or duplicated, and the group
      sizes sum to the number of valid items. */
  lemma GroupingPartitions(ps: seq<Product>)
    requires forall i :: 0 <= i < |ps| ==> IsValid(ps[i])
    ensures multiset(Members(GroupAll(ps, Fits))) == multiset(ps)
    ensures |Members(GroupAll(ps, Fits))| == |ps|
  {
    FitsReflexive();
    GroupAllInvariant(ps, Fits);
    assert |multiset(Members(GroupAll(ps, Fits)))| == |multiset(ps)|;
  }

  /** Every group has at least one member. */
  lemma GroupsNonEmpty(ps: seq<Product>)
    requires forall i :: 0 <= i < |ps| ==> IsValid(ps[i])
    ensures forall k :: 0 <= k < |GroupAll(ps, Fits)| ==> |GroupAll(ps, Fits)[k].members| > 0
  {
    FitsReflexive();
    GroupAllInvariant(ps, Fits);
    assert Founded(GroupAll(ps, Fits));
  }

  /** No two groups share a key, every group is founded by an item carrying the key, every
      member is similar to its key and to no earlier key (first fit). */
  lemma GroupingFirstFit(ps: seq<Product>)
    requires forall i :: 0 <= i < |ps| ==> IsValid(ps[i])
    ensures var gs := GroupAll(ps, Fits);
      && (forall j, k :: 0 <= j < k < |gs| ==> gs[j].key != gs[k].key)
      && (forall k :: 0 <= k < |gs| ==> |gs[k].members| > 0 && gs[k].members[0].nome == Some(gs[k].key))
      && (forall k, m :: 0 <= k < |gs| && 0 <= m < |gs[k].members| ==>
            AreSimilar(gs[k].members[m].nome, Some(gs[k].key)))
      && (forall j, k, m :: 0 <= j < k < |gs| && 0 <= m < |gs[k].members| ==>
            !AreSimilar(gs[k].members[m].nome, Some(gs[j].key)))
  {
    FitsReflexive();
    GroupAllInvariant(ps, Fits);
    var gs := GroupAll(ps, Fits);
    assert MembersFit(gs, Fits) && FirstFit(gs, Fits);
  }
}
