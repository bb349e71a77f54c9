/**
 * `IshikawaAnalyzer`: suggests probable causes in the six categories of an
 * Ishikawa (fishbone) diagram for the parameters the classifier flagged.
 * Causes specific to each flagged parameter come first, in the order the
 * parameters were classified; each category is topped up to three entries
 * from a general list, deduplicated keeping first occurrences, and cut to
 * five.
 */
module Ishikawa {
  import opened Seqs
  import opened Table
  import opened Classifier

  /** The six categories ("6M"), in the order of the general cause table. */
  datatype Category = Metodo | Maquina | MaoDeObra | Material | MeioAmbiente | Medida

  const CategoryOrder: seq<Category> := [Metodo, Maquina, MaoDeObra, Material, MeioAmbiente, Medida]

  const AllCategories: set<Category> := {Metodo, Maquina, MaoDeObra, Material, MeioAmbiente, Medida}

  function CategoryName(c: Category): string {
    match c
    case Metodo => "Método"
    case Maquina => "Máquina"
    case MaoDeObra => "Mão de obra"
    case Material => "Material"
    case MeioAmbiente => "Meio ambiente"
    case Medida => "Medida"
  }

  /** A category list is topped up to this many entries from the general table. */
  const TopUpTarget: nat := 3

  /** No category reports more than this many causes. */
  const MaxPerCategory: nat := 5

  /** The two cause tables: general causes per category, and causes specific to a parameter. */
  datatype CauseTables = CauseTables(
    general: map<Category, seq<string>>,
    specific: map<string, map<Category, seq<string>>>)

  /** The general table has every category, as `suggest_causes` indexes it by all of them. */
  ghost predicate Complete(t: CauseTables) {
    forall c: Category :: c in t.general
  }

  /** The tables the analyzer is built with. */
  const DefaultTables: CauseTables := CauseTables(
    map[
      Metodo := [
        "Diferença no ponto de coleta (antes/depois de filtros)",
        "Protocolos de coleta distintos",
        "Tempo de repouso e homogeneização distintos"],
      Maquina := [
        "Calibração de equipamentos em períodos diferentes",
        "Modelos/marcas de equipamentos distintos",
        "Condições ambientais do laboratório"],
      MaoDeObra := [
        "Operador dedicado vs. equipe rotativa",
        "Nível de treinamento e experiência"],
      Material := [
        "Tipo de embalagem e vedação",
        "Condições e tempo de transporte",
        "Contaminação durante manuseio"],
      MeioAmbiente := [
        "Variações de temperatura/umidade",
        "Exposição à luz e vibrações"],
      Medida := [
        "Arredondamento e resolução dos equipamentos",
        "Critérios de outliers e incerteza"]],
    map[
      "viscosidade_40c" := map[
        Metodo := ["Temperatura de pré-aquecimento e estabilização"],
        Maquina := ["Calibração do viscosímetro", "Estabilidade do banho"],
        Material := ["Contaminação com água", "Oxidação"]],
      "teor_agua" := map[
        Metodo := ["Exposição ao ar e contaminação de coleta"],
        Maquina := ["Calibração Karl Fischer", "Purga do sistema"],
        Material := ["Vedação/embalagem", "Higroscopicidade"]],
      "particulas_4um" := map[
        Maquina := ["Calibração contador de partículas", "Limpeza do sistema"],
        Material := ["Contaminação externa", "Filtração"],
        MeioAmbiente := ["Partículas em suspensão no laboratório"]],
      "particulas_6um" := map[
        Maquina := ["Resolução e calibração"],
        Material := ["Degradação de aditivos", "Contaminação cruzada"],
        Medida := ["Critérios de contagem diferentes"]],
      "particulas_14um" := map[
        Maquina := ["Sensibilidade do detector", "Alinhamento óptico"],
        Material := ["Agregados/precipitação"],
        Metodo := ["Agitação inadequada"]]])

  lemma DefaultTablesComplete()
    ensures Complete(DefaultTables)
  {
    forall c: Category ensures c in DefaultTables.general {
      InAllCategories(c);
    }
  }

  /** The generic advice returned when no parameter was flagged. */
  const Fallback: map<Category, seq<string>> := map[
    Metodo := ["Padronizar protocolos de coleta"],
    Maquina := ["Sincronizar calibrações"],
    MaoDeObra := ["Treinamento conjunto"],
    Material := ["Padronizar embalagens"],
    MeioAmbiente := ["Monitorar temperatura/umidade"],
    Medida := ["Padronizar arredondamentos"]]

  /** A parameter is a problem when it was labelled "Divergente" or "Fora do Padrão". */
  predicate IsProblem(c: Classification) {
    c.verdict == Divergente || c.verdict == ForaDoPadrao
  }

  /** The flagged parameters, in classification order. */
  function Problems(cls: seq<(string, Classification)>): (ps: seq<string>)
    ensures |ps| <= |cls|
    decreases |cls|
  {
    if cls == [] then []
    else
      var init, last := cls[..|cls| - 1], cls[|cls| - 1];
      Problems(init) + (if IsProblem(last.1) then [last.0] else [])
  }

  /** The problems are exactly the parameters of the flagged entries. */
  lemma {:induction false} ProblemsMembers(cls: seq<(string, Classification)>)
    ensures forall p :: p in Problems(cls) <==> exists i :: 0 <= i < |cls| && cls[i].0 == p && IsProblem(cls[i].1)
    decreases |cls|
  {
    if cls != [] {
      var init, last := cls[..|cls| - 1], cls[|cls| - 1];
      ProblemsMembers(init);
      assert forall i :: 0 <= i < |init| ==> init[i] == cls[i];
      forall p ensures p in Problems(cls) <==> exists i :: 0 <= i < |cls| && cls[i].0 == p && IsProblem(cls[i].1) {
        if p in Problems(cls) && p !in Problems(init) {
          assert cls[|cls| - 1].0 == p && IsProblem(cls[|cls| - 1].1);
        }
      }
    }
  }

  /** The flagged parameters keep the order of the classification. */
  lemma {:induction false} ProblemsInOrder(cls: seq<(string, Classification)>) returns (idx: seq<int>)
    ensures Embedding(idx, Problems(cls), Keys(cls))
    decreases |cls|
  {
    if cls == [] {
      idx := [];
    } else {
      var n := |cls|;
      var init, last := cls[..n - 1], cls[n - 1];
      assert cls == init + [last];
      var idx0 := ProblemsInOrder(init);
      KeysAppend(init, last.0, last.1);
      assert Keys(cls) == Keys(init) + [last.0];
      assert Problems(cls) == Problems(init) + (if IsProblem(last.1) then [last.0] else []);
      EmbeddingInExtension(idx0, Problems(init), Keys(init), [last.0]);
      if IsProblem(last.1) {
        EmbeddingAppend(idx0, Problems(init), Keys(cls), n - 1);
        idx := idx0 + [n - 1];
      } else {
        idx := idx0;
      }
    }
  }

  /** The causes parameter `p` adds to category `c`; none when `p` has no specific table. */
  function Contribution(t: CauseTables, p: string, c: Category): seq<string> {
    if p in t.specific && c in t.specific[p] then t.specific[p][c] else []
  }

  /** The specific causes of the flagged parameters for category `c`, in problem order. */
  function SpecificCauses(t: CauseTables, probs: seq<string>, c: Category): seq<string>
    decreases |probs|
  {
    if probs == [] then []
    else SpecificCauses(t, probs[..|probs| - 1], c) + Contribution(t, probs[|probs| - 1], c)
  }

  /** The specific causes of two runs of problems are those of each run, in turn. */
  lemma {:induction false} SpecificCausesConcat(t: CauseTables, p1: seq<string>, p2: seq<string>, c: Category)
    ensures SpecificCauses(t, p1 + p2, c) == SpecificCauses(t, p1, c) + SpecificCauses(t, p2, c)
    decreases |p2|
  {
    if p2 == [] {
      assert p1 + p2 == p1;
    } else {
      var init := p2[..|p2| - 1];
      assert (p1 + p2)[..|p1 + p2| - 1] == p1 + init;
      SpecificCausesConcat(t, p1, init, c);
    }
  }

  /** Problems without a specific table contribute nothing. */
  lemma {:induction false} UnlistedProblemsContributeNothing(t: CauseTables, probs: seq<string>, c: Category)
    requires forall p :: p in probs ==> p !in t.specific
    ensures SpecificCauses(t, probs, c) == []
    decreases |probs|
  {
    if probs != [] {
      var init := probs[..|probs| - 1];
      assert forall p :: p in init ==> p in probs;
      UnlistedProblemsContributeNothing(t, init, c);
    }
  }

  /**
   * The top-up step: a list shorter than three gets the first `3 - k`
   * general causes (or all of them, when there are fewer); a longer list is
   * left alone.
   */
  function TopUp(s: seq<string>, g: seq<string>): seq<string> {
    if |s| < TopUpTarget then s + Take(g, TopUpTarget - |s|) else s
  }

  /** The topped-up list is `s` followed by the first `min(3 - k, |g|)` general causes (none once `k >= 3`). */
  lemma TopUpShape(s: seq<string>, g: seq<string>)
    ensures var r := TopUp(s, g);
      && |r| == |s| + (if |s| < TopUpTarget then Min(TopUpTarget - |s|, |g|) else 0)
      && r[..|s|] == s
      && r[|s|..] == g[..|r| - |s|]
  {
  }

  /** The final list of category `c` when there are problems. */
  function CategoryCauses(t: CauseTables, probs: seq<string>, c: Category): seq<string>
    requires Complete(t)
  {
    Take(Dedup(TopUp(SpecificCauses(t, probs, c), t.general[c])), MaxPerCategory)
  }

  /** What `suggest_causes` returns. */
  function Suggestions(t: CauseTables, cls: seq<(string, Classification)>): map<Category, seq<string>>
    requires Complete(t)
  {
    var probs := Problems(cls);
    if probs == [] then Fallback
    else map c | c in AllCategories :: CategoryCauses(t, probs, c)
  }

  /** The deduplication loop of `suggest_causes` for one category. */
  method DedupList(items: seq<string>) returns (dedup: seq<string>)
    ensures dedup == Dedup(items)
  {
    var seen: set<string> := {};
    dedup := [];
    var j := 0;
    while j < |items|
      invariant 0 <= j <= |items|
      invariant dedup == Dedup(items[..j])
      invariant forall x :: x in seen <==> x in items[..j]
    {
      var item := items[j];
      assert items[..j + 1][..j] == items[..j];
      if item !in seen {
        seen := seen + {item};
        dedup := dedup + [item];
      }
      j := j + 1;
    }
    assert items[..j] == items;
  }

  /** `suggest_causes`. */
  method SuggestCauses(t: CauseTables, cls: seq<(string, Classification)>) returns (suggested: map<Category, seq<string>>)
    requires Complete(t)
    ensures suggested == Suggestions(t, cls)
  {
    var probs := Problems(cls);
    if probs == [] {
      return Fallback;
    }
    CategoryOrderComplete();
    var specific := CollectSpecific(t, probs);
    var toppedUp := TopUpAll(t, CategoryOrder, specific);
    suggested := DedupAll(CategoryOrder, toppedUp);
    AssembledSuggestions(t, cls, suggested);
  }

  /** The three phases together give `Suggestions`. */
  lemma AssembledSuggestions(t: CauseTables, cls: seq<(string, Classification)>, suggested: map<Category, seq<string>>)
    requires Complete(t) && Problems(cls) != []
    requires suggested.Keys == AllCategories
    requires forall c :: c in AllCategories ==> suggested[c] == CategoryCauses(t, Problems(cls), c)
    ensures suggested == Suggestions(t, cls)
  {
    MapsEqual(suggested, Suggestions(t, cls));
  }

  /** The first loop of `suggest_causes`: every category extended with the specific causes of each problem in turn. */
  method CollectSpecific(t: CauseTables, probs: seq<string>) returns (suggested: map<Category, seq<string>>)
    ensures suggested.Keys == AllCategories
    ensures forall c :: c in AllCategories ==> suggested[c] == SpecificCauses(t, probs, c)
  {
    suggested := map c | c in AllCategories :: [];
    var i := 0;
    while i < |probs|
      invariant 0 <= i <= |probs|
      invariant suggested.Keys == AllCategories
      invariant forall c :: c in AllCategories ==> suggested[c] == SpecificCauses(t, probs[..i], c)
    {
      var p := probs[i];
      assert probs[..i + 1][..i] == probs[..i];
      suggested := AddContribution(t, p, suggested);
      i := i + 1;
    }
    assert probs[..i] == probs;
  }

  /** `suggested[cat].extend(lst)` for every category of parameter `p`'s specific table. */
  method AddContribution(t: CauseTables, p: string, before: map<Category, seq<string>>) returns (suggested: map<Category, seq<string>>)
    requires before.Keys == AllCategories
    ensures suggested.Keys == AllCategories
    ensures forall c :: c in AllCategories ==> suggested[c] == before[c] + Contribution(t, p, c)
  {
    suggested := before;
    if p in t.specific {
      var table := t.specific[p];
      var pending := table.Keys;
      ghost var done: set<Category> := {};
      while pending != {}
        invariant pending + done == table.Keys && pending !! done
        invariant suggested.Keys == AllCategories
        invariant forall c :: c in AllCategories ==> suggested[c] == before[c] + (if c in done then table[c] else [])
        decreases pending
      {
        var c :| c in pending;
        InAllCategories(c);
        suggested := suggested[c := suggested[c] + table[c]];
        pending := pending - {c};
        done := done + {c};
      }
    } else {
      assert forall c :: c in AllCategories ==> before[c] + Contribution(t, p, c) == before[c];
    }
  }

  /** The second loop of `suggest_causes`: each category of `order` topped up to three from the general table. */
  method TopUpAll(t: CauseTables, order: seq<Category>, before: map<Category, seq<string>>) returns (suggested: map<Category, seq<string>>)
    requires Complete(t) && NoDuplicates(order)
    requires forall c :: c in order <==> c in before
    ensures suggested.Keys == before.Keys
    ensures forall c :: c in before ==> suggested[c] == TopUp(before[c], t.general[c])
  {
    ghost var target := map c | c in before :: TopUp(before[c], t.general[c]);
    suggested := before;
    var k := 0;
    while k < |order|
      invariant 0 <= k <= |order|
      invariant PartlyUpdated(before, suggested, target, order[..k])
    {
      var cat := order[k];
      UpdateStep(before, suggested, target, order, k);
      var lst, items := t.general[cat], suggested[cat];
      var topped := items;
      if |items| < TopUpTarget {
        topped := items + Take(lst, TopUpTarget - |items|);
      }
      assert topped == target[cat];
      suggested := suggested[cat := topped];
      k := k + 1;
    }
    assert order[..k] == order;
  }

  /** The last loop of `suggest_causes`: each category of `order` deduplicated and cut to five. */
  method DedupAll(order: seq<Category>, before: map<Category, seq<string>>) returns (suggested: map<Category, seq<string>>)
    requires NoDuplicates(order)
    requires forall c :: c in order <==> c in before
    ensures suggested.Keys == before.Keys
    ensures forall c :: c in before ==> suggested[c] == Take(Dedup(before[c]), MaxPerCategory)
  {
    ghost var target := map c | c in before :: Take(Dedup(before[c]), MaxPerCategory);
    suggested := before;
    var k := 0;
    while k < |order|
      invariant 0 <= k <= |order|
      invariant PartlyUpdated(before, suggested, target, order[..k])
    {
      var cat := order[k];
      ghost var current := suggested;
      var dedup := DedupList(suggested[cat]);
      suggested := suggested[cat := Take(dedup, MaxPerCategory)];
      UpdateStep(before, current, target, order, k);
      k := k + 1;
    }
    assert order[..k] == order;
  }

  /** The categories in `done` hold their `target` entry, the others their `before` entry. */
  ghost predicate PartlyUpdated(before: map<Category, seq<string>>, current: map<Category, seq<string>>,
                                target: map<Category, seq<string>>, done: seq<Category>)
  {
    && current.Keys == before.Keys
    && target.Keys == before.Keys
    && forall c :: c in before ==> current[c] == if c in done then target[c] else before[c]
  }

  /** Replacing the entry of the next category of `order` with its target advances the loop by one. */
  lemma UpdateStep(before: map<Category, seq<string>>, current: map<Category, seq<string>>,
                   target: map<Category, seq<string>>, order: seq<Category>, k: int)
    requires NoDuplicates(order) && 0 <= k < |order| && order[k] in before
    requires PartlyUpdated(before, current, target, order[..k])
    ensures current[order[k]] == before[order[k]]
    ensures PartlyUpdated(before, current[order[k] := target[order[k]]], target, order[..k + 1])
  {
    assert order[..k + 1] == order[..k] + [order[k]];
    assert order[k] !in order[..k];
  }

  lemma MapsEqual<K, V>(m1: map<K, V>, m2: map<K, V>)
    requires m1.Keys == m2.Keys && forall k :: k in m1 ==> m1[k] == m2[k]
    ensures m1 == m2
  {
  }

  /** The category order lists every category exactly once. */
  lemma CategoryOrderComplete()
    ensures NoDuplicates(CategoryOrder)
    ensures forall c :: c in CategoryOrder <==> c in AllCategories
  {
  }

  lemma InAllCategories(c: Category)
    ensures c in AllCategories && c in CategoryOrder
  {
    match c
    case Metodo =>
    case Maquina =>
    case MaoDeObra =>
    case Material =>
    case MeioAmbiente =>
    case Medida =>
  }

  // Properties of the suggestions.

  /** With problems, each category's entry is its `CategoryCauses`. */
  lemma SuggestionsAt(t: CauseTables, cls: seq<(string, Classification)>, c: Category)
    requires Complete(t) && Problems(cls) != []
    ensures c in Suggestions(t, cls)
    ensures Suggestions(t, cls)[c] == CategoryCauses(t, Problems(cls), c)
  {
    InAllCategories(c);
  }

  /** Every one of the six categories is a key, also those left with no cause. */
  lemma SuggestionsCoverCategories(t: CauseTables, cls: seq<(string, Classification)>)
    requires Complete(t)
    ensures forall c: Category :: c in Suggestions(t, cls)
  {
    forall c: Category ensures c in Suggestions(t, cls) {
      InAllCategories(c);
    }
  }

  /** With no flagged parameter, each category holds exactly its one generic suggestion. */
  lemma NoProblemsGiveFallback(t: CauseTables, cls: seq<(string, Classification)>)
    requires Complete(t)
    requires forall i :: 0 <= i < |cls| ==> !IsProblem(cls[i].1)
    ensures Suggestions(t, cls) == Fallback
    ensures forall c: Category :: c in Fallback && |Fallback[c]| == 1
  {
    forall c: Category ensures c in Fallback && |Fallback[c]| == 1 {
      InAllCategories(c);
    }
    NothingFlagged(cls);
  }

  /** Without a flagged entry there are no problems. */
  lemma {:induction false} NothingFlagged(cls: seq<(string, Classification)>)
    requires forall i :: 0 <= i < |cls| ==> !IsProblem(cls[i].1)
    ensures Problems(cls) == []
    decreases |cls|
  {
    if cls != [] {
      var init := cls[..|cls| - 1];
      assert forall i :: 0 <= i < |init| ==> init[i] == cls[i];
      NothingFlagged(init);
    }
  }

  /** No category repeats a cause or lists more than five. */
  lemma CategoryCausesDistinctAndShort(t: CauseTables, probs: seq<string>, c: Category)
    requires Complete(t)
    ensures NoDuplicates(CategoryCauses(t, probs, c))
    ensures |CategoryCauses(t, probs, c)| <= MaxPerCategory
  {
    var x := TopUp(SpecificCauses(t, probs, c), t.general[c]);
    DedupDistinctMembers(x);
    var d := Dedup(x);
    var r := Take(d, MaxPerCategory);
    assert forall i :: 0 <= i < |r| ==> r[i] == d[i];
  }

  /** No category of the suggestions repeats a cause or lists more than five. */
  lemma SuggestionsDistinctAndShort(t: CauseTables, cls: seq<(string, Classification)>, c: Category)
    requires Complete(t)
    ensures c in Suggestions(t, cls)
    ensures NoDuplicates(Suggestions(t, cls)[c])
    ensures |Suggestions(t, cls)[c]| <= MaxPerCategory
  {
    InAllCategories(c);
    if Problems(cls) != [] {
      SuggestionsAt(t, cls, c);
      CategoryCausesDistinctAndShort(t, Problems(cls), c);
    }
  }

  /**
   * Each category lists (some of) its specific causes and then general
   * causes, in their original order: a subsequence of the specific causes
   * followed by the general list.
   */
  lemma CategoryCausesAreOrdered(t: CauseTables, probs: seq<string>, c: Category)
    requires Complete(t)
    ensures IsSubsequence(CategoryCauses(t, probs, c), SpecificCauses(t, probs, c) + t.general[c])
  {
    var s, g := SpecificCauses(t, probs, c), t.general[c];
    var x := TopUp(s, g);
    TopUpShape(s, g);
    var whole := s + g;
    assert x == whole[..|x|];
    var idx := DedupFirstOccurrences(x);
    var rest := whole[|x|..];
    EmbeddingInExtension(idx, Dedup(x), x, rest);
    assert x + rest == whole;
    EmbeddingOfPrefix(idx, Dedup(x), whole, MaxPerCategory);
  }

  lemma SuggestionsAreOrderedCauses(t: CauseTables, cls: seq<(string, Classification)>, c: Category)
    requires Complete(t) && Problems(cls) != []
    ensures c in Suggestions(t, cls)
    ensures IsSubsequence(Suggestions(t, cls)[c], SpecificCauses(t, Problems(cls), c) + t.general[c])
  {
    SuggestionsAt(t, cls, c);
    CategoryCausesAreOrdered(t, Problems(cls), c);
  }

  /**
   * The specific causes come first: a category's list starts with the
   * deduplicated specific causes (as many of them as fit in five).
   */
  lemma CategoryCausesStartWithSpecific(t: CauseTables, probs: seq<string>, c: Category)
    requires Complete(t)
    ensures var d, r := Dedup(SpecificCauses(t, probs, c)), CategoryCauses(t, probs, c);
      |r| >= Min(|d|, MaxPerCategory) && r[..Min(|d|, MaxPerCategory)] == Take(d, MaxPerCategory)
  {
    var s, g := SpecificCauses(t, probs, c), t.general[c];
    var x := TopUp(s, g);
    TopUpShape(s, g);
    var tail := x[|s|..];
    assert x == s + tail;
    DedupPrefix(s, tail);
    var d, full := Dedup(s), Dedup(x);
    assert full[..|d|] == d;
    var m := Min(|d|, MaxPerCategory);
    assert Take(full, MaxPerCategory)[..m] == full[..m];
    assert full[..m] == d[..m];
  }

  lemma SpecificCausesComeFirst(t: CauseTables, cls: seq<(string, Classification)>, c: Category)
    requires Complete(t) && Problems(cls) != []
    ensures c in Suggestions(t, cls)
    ensures var d := Dedup(SpecificCauses(t, Problems(cls), c));
      var r := Suggestions(t, cls)[c];
      |r| >= Min(|d|, MaxPerCategory) && r[..Min(|d|, MaxPerCategory)] == Take(d, MaxPerCategory)
  {
    SuggestionsAt(t, cls, c);
    CategoryCausesStartWithSpecific(t, Problems(cls), c);
  }

  /**
   * When no cause repeats and at most five are specific, a category lists
   * exactly its specific causes followed by the top-up.
   */
  lemma CategoryCausesWithoutRepeats(t: CauseTables, probs: seq<string>, c: Category)
    requires Complete(t)
    requires NoDuplicates(SpecificCauses(t, probs, c) + t.general[c])
    requires |SpecificCauses(t, probs, c)| <= MaxPerCategory
    ensures CategoryCauses(t, probs, c) == TopUp(SpecificCauses(t, probs, c), t.general[c])
  {
    var s, g := SpecificCauses(t, probs, c), t.general[c];
    var x := TopUp(s, g);
    TopUpShape(s, g);
    var whole := s + g;
    assert x == whole[..|x|];
    assert NoDuplicates(x) by {
      forall i, j | 0 <= i < j < |x| ensures x[i] != x[j] {
        assert x[i] == whole[i] && x[j] == whole[j];
      }
    }
    DedupOfDistinct(x);
  }
}
