/** The species catalogue page (app/species/page.tsx): a fixed list of
    species, four category buttons, and the list filtered by the active
    category. */
module SpeciesPage {
  import Seqs

  /** `SpeciesCategory`, a union of four labels. */
  datatype Category = AllSpecies | Birds | Mammals | Amphibians

  function Label(c: Category): string
  {
    match c
    case AllSpecies => "全部"
    case Birds => "鳥類"
    case Mammals => "哺乳類"
    case Amphibians => "兩棲類"
  }

  /** Each button shows a different label, so a label names one category. */
  lemma LabelsDistinct(c: Category, d: Category)
    requires Label(c) == Label(d)
    ensures c == d
  {
    assert Label(c)[0] == Label(d)[0];
  }

  /** The buttons, in the order they are drawn. */
  const Buttons: seq<Category> := [AllSpecies, Birds, Mammals, Amphibians]

  datatype Species = Species(
    id: int,
    name: string,
    subTitle: string,
    description: string,
    imageUrl: string,
    category: Category)

  /** `speciesData`: two birds, a mammal and an amphibian. */
  function SpeciesData(): (r: seq<Species>)
    ensures |r| == 4
    ensures forall i :: 0 <= i < 4 ==> r[i].id == i + 1
    ensures r[0].category == Birds && r[1].category == Birds && r[2].category == Mammals && r[3].category == Amphibians
  {
    [
    Species(1, "麻雀", "常見鳥類", "你知道麻雀的叫聲多變嗎？牠們會發出各種不同的叫聲來傳達信息。", "/species/sparrow.jpg", Birds),
    Species(2, "白頭翁", "台灣特有種", "你知道白頭翁的叫聲聽起來是「巧克力 巧克力」嗎～", "/species/bulbul.jpg", Birds),
    Species(3, "台灣獼猴", "保育類動物", "台灣獼猴是台灣唯一原生的非人靈長類，被列為珍貴稀有保育類野生動物。", "/species/monkey.jpg", Mammals),
    Species(4, "台北樹蛙", "夜行性兩棲類", "台北樹蛙是台灣特有種，主要分布在北部低海拔山區，繁殖季會發出響亮的叫聲。", "/species/frog.jpg", Amphibians)]
  }

  /** `filteredSpecies`: the whole list for the "all" category, otherwise the
      species of the active category, as often as they occur and in order. */
  function Filtered(active: Category, data: seq<Species>): (r: seq<Species>)
    ensures active == AllSpecies ==> r == data
    ensures active != AllSpecies ==>
      && Seqs.IsSubsequence(r, data)
      && (forall i :: 0 <= i < |r| ==> r[i].category == active)
  {
    if active == AllSpecies then data
    else Seqs.Filter(data, InCategory(active))
  }

  function InCategory(active: Category): Species -> bool
  {
    (s: Species) => s.category == active
  }

  lemma {:induction false} SubsequenceOfItself<T>(s: seq<T>)
    ensures Seqs.IsSubsequence(s, s)
  {
    if s != [] {
      SubsequenceOfItself(s[1..]);
    }
  }

  /** Outside "all", each species is shown as often as it occurs in the
      data when it has the active category, and not at all otherwise. */
  lemma FilteredCounts(active: Category, data: seq<Species>)
    requires active != AllSpecies
    ensures forall x :: multiset(Filtered(active, data))[x] == if x.category == active then multiset(data)[x] else 0
  {
    Seqs.FilterCounts(data, InCategory(active));
  }

  /** Whatever the category, the shown list is drawn from the data in order. */
  lemma FilteredIsSubsequence(active: Category, data: seq<Species>)
    ensures Seqs.IsSubsequence(Filtered(active, data), data)
  {
    if active == AllSpecies {
      SubsequenceOfItself(data);
    }
  }

  /** `filteredSpecies.length === 0`: the "no species" message. */
  predicate ShowsEmptyMessage(active: Category, data: seq<Species>)
  {
    |Filtered(active, data)| == 0
  }

  /** The message shows exactly when no species of the active category
      exists (for "all": when there is no species at all). */
  lemma EmptyMessageIffNoneInCategory(active: Category, data: seq<Species>)
    ensures ShowsEmptyMessage(active, data) <==>
      forall i :: 0 <= i < |data| ==> active != AllSpecies && data[i].category != active
  {
    var r := Filtered(active, data);
    if active != AllSpecies {
      FilteredCounts(active, data);
    }
    if active == AllSpecies {
      if data != [] {
        assert data[0].category == data[0].category;
      }
    } else if r == [] {
      forall i | 0 <= i < |data|
        ensures data[i].category != active
      {
        assert data[i] in multiset(data);
      }
    } else {
      var x := r[0];
      assert x in multiset(r);
      assert x in data;
      var i :| 0 <= i < |data| && data[i] == x;
      assert !(data[i].category != active);
    }
  }

  /** Four species with the categories of the page's data, in that order. */
  lemma LayoutOfFour(a: Species, b: Species, c: Species, e: Species)
    requires a.category == Birds && b.category == Birds && c.category == Mammals && e.category == Amphibians
    ensures Filtered(Birds, [a, b, c, e]) == [a, b]
    ensures Filtered(Mammals, [a, b, c, e]) == [c]
    ensures Filtered(Amphibians, [a, b, c, e]) == [e]
  {
    var s3 := [e] + [];
    var s2 := [c] + s3;
    var s1 := [b] + s2;
    var s0 := [a] + s1;
    assert s0 == [a, b, c, e];
    forall k | k == Birds || k == Mammals || k == Amphibians
      ensures var p := InCategory(k);
        Seqs.Filter(s0, p) == (if p(a) then [a] else []) + (if p(b) then [b] else []) + (if p(c) then [c] else []) + (if p(e) then [e] else [])
    {
      var p := InCategory(k);
      Seqs.FilterCons(e, [], p);
      Seqs.FilterCons(c, s3, p);
      Seqs.FilterCons(b, s2, p);
      Seqs.FilterCons(a, s1, p);
    }
  }

  /** On the page's own data every button shows at least one species, so
      the message never appears there; each category shows its entries in
      the data's order. */
  lemma SpeciesDataLayout()
    ensures Filtered(Birds, SpeciesData()) == SpeciesData()[..2]
    ensures Filtered(Mammals, SpeciesData()) == [SpeciesData()[2]]
    ensures Filtered(Amphibians, SpeciesData()) == [SpeciesData()[3]]
    ensures forall c :: c in Buttons ==> !ShowsEmptyMessage(c, SpeciesData())
  {
    var d := SpeciesData();
    assert d == [d[0], d[1], d[2], d[3]];
    LayoutOfFour(d[0], d[1], d[2], d[3]);
  }

  /** The page's state: the active category. */
  class Page {
    var activeCategory: Category

    constructor()
      ensures activeCategory == AllSpecies
    {
      activeCategory := AllSpecies;
    }

    /** A click on a category button: `setActiveCategory(category)`. */
    method Select(category: Category)
      modifies this
      ensures activeCategory == category
    {
      activeCategory := category;
    }

    /** `isActive={activeCategory === category}`. */
    predicate IsActive(category: Category)
      reads this
    {
      activeCategory == category
    }

    function Shown(): seq<Species>
      reads this
    {
      Filtered(activeCategory, SpeciesData())
    }
  }

  /** Opening the page shows every species with "all" highlighted; after a
      click on a button exactly that button is highlighted and its
      category is shown. */
  method OpenThenSelect(category: Category) returns (initial: seq<Species>, highlighted: seq<bool>, shown: seq<Species>)
    ensures initial == SpeciesData()
    ensures |highlighted| == |Buttons|
    ensures forall i :: 0 <= i < |Buttons| ==> (highlighted[i] <==> Buttons[i] == category)
    ensures shown == Filtered(category, SpeciesData())
  {
    var page := new Page();
    initial := page.Shown();
    page.Select(category);
    highlighted := seq(|Buttons|, i reads page requires 0 <= i < |Buttons| => page.IsActive(Buttons[i]));
    shown := page.Shown();
  }
}
