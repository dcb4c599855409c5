/**
 * The menu screen's list logic (src/screens/MenuScreen.jsx): the search and
 * category filters, the grouping of the remaining products into sections
 * titled by category and sorted by title, and the category bar.
 */
module MenuScreen {
  import opened Wrappers
  import opened Js
  import opened ProductsService

  // ---------------------------------------------------------------------------
  // Filters

  /** The search box: lower-case name contains the lower-case query, or a non-empty description does. */
  predicate MatchesSearch(p: Product, query: string)
  {
    || Includes(Lower(p.nombre), Lower(query))
    || (Truthy(p.descripcion) && Includes(Lower(p.descripcion.value), Lower(query)))
  }

  function SearchFilter(ps: seq<Product>, query: string): (r: seq<Product>)
    ensures |r| <= |ps|
    ensures forall p :: p in r <==> p in ps && MatchesSearch(p, query)
  {
    if ps == [] then []
    else if MatchesSearch(ps[0], query) then [ps[0]] + SearchFilter(ps[1..], query)
    else SearchFilter(ps[1..], query)
  }

  /** `p.categoria === selectedCategory`: the raw category, not its 'Varios' fallback. */
  function CategoryFilter(ps: seq<Product>, selected: string): (r: seq<Product>)
    ensures |r| <= |ps|
    ensures forall p :: p in r <==> p in ps && p.categoria == Some(selected)
  {
    if ps == [] then []
    else if ps[0].categoria == Some(selected) then [ps[0]] + CategoryFilter(ps[1..], selected)
    else CategoryFilter(ps[1..], selected)
  }

  /** Steps A and B: search, then the category chip unless it is 'Todos'. */
  function Filtered(ps: seq<Product>, query: string, selected: string): (r: seq<Product>)
    ensures selected == "Todos" ==> r == SearchFilter(ps, query)
    ensures selected != "Todos" ==> r == CategoryFilter(SearchFilter(ps, query), selected)
    ensures forall p :: p in r <==>
      p in ps && MatchesSearch(p, query) && (selected == "Todos" || p.categoria == Some(selected))
  {
    var found := SearchFilter(ps, query);
    if selected != "Todos" then CategoryFilter(found, selected) else found
  }

  /**
   * The search filter keeps the menu's order and every copy: a product added at
   * the end of the menu is kept at the end exactly when it matches.
   */
  lemma {:induction false} SearchFilterSnoc(ps: seq<Product>, x: Product, query: string)
    ensures SearchFilter(ps + [x], query) == SearchFilter(ps, query) + (if MatchesSearch(x, query) then [x] else [])
  {
    if ps == [] {
      assert [] + [x] == [x];
    } else {
      assert (ps + [x])[1..] == ps[1..] + [x];
      SearchFilterSnoc(ps[1..], x, query);
    }
  }

  /** The category filter keeps order and copies in the same way. */
  lemma {:induction false} CategoryFilterSnoc(ps: seq<Product>, x: Product, selected: string)
    ensures CategoryFilter(ps + [x], selected) ==
      CategoryFilter(ps, selected) + (if x.categoria == Some(selected) then [x] else [])
  {
    if ps == [] {
      assert [] + [x] == [x];
    } else {
      assert (ps + [x])[1..] == ps[1..] + [x];
      CategoryFilterSnoc(ps[1..], x, selected);
    }
  }

  /**
   * Steps A and B together: a product added at the end of the menu is listed at
   * the end exactly when it passes the search and the chip.
   */
  lemma FilteredSnoc(ps: seq<Product>, x: Product, query: string, selected: string)
    ensures Filtered(ps + [x], query, selected) == Filtered(ps, query, selected) +
      (if MatchesSearch(x, query) && (selected == "Todos" || x.categoria == Some(selected)) then [x] else [])
  {
    var found := SearchFilter(ps, query);
    SearchFilterSnoc(ps, x, query);
    if !MatchesSearch(x, query) {
      assert found + [] == found;
    } else if selected != "Todos" {
      CategoryFilterSnoc(found, x, selected);
    }
  }

  /** An empty search keeps every product, in order. */
  lemma {:induction false} EmptyQueryKeepsAll(ps: seq<Product>)
    ensures SearchFilter(ps, "") == ps
  {
    if ps != [] {
      assert Lower("") == "";
      assert Includes(Lower(ps[0].nombre), "");
      EmptyQueryKeepsAll(ps[1..]);
    }
  }

  // ---------------------------------------------------------------------------
  // Section titles and grouping

  /** `product.categoria || 'Varios'`. */
  function Title(p: Product): (t: string)
    ensures t != ""
    ensures Truthy(p.categoria) ==> t == p.categoria.value
    ensures !Truthy(p.categoria) ==> t == "Varios"
  {
    if Truthy(p.categoria) then p.categoria.value else "Varios"
  }

  function Titles(ps: seq<Product>): (ts: seq<string>)
    ensures |ts| == |ps|
    ensures forall i :: 0 <= i < |ps| ==> ts[i] == Title(ps[i])
  {
    seq(|ps|, i requires 0 <= i < |ps| => Title(ps[i]))
  }

  /** The products titled t, in their order. */
  function InSection(ps: seq<Product>, t: string): (r: seq<Product>)
    ensures forall p :: p in r <==> p in ps && Title(p) == t
  {
    if ps == [] then []
    else if Title(ps[0]) == t then [ps[0]] + InSection(ps[1..], t)
    else InSection(ps[1..], t)
  }

  lemma {:induction false} InSectionAppend(ps: seq<Product>, x: Product, t: string)
    ensures InSection(ps + [x], t) == InSection(ps, t) + (if Title(x) == t then [x] else [])
  {
    if ps == [] {
      assert [] + [x] == [x];
    } else {
      assert (ps + [x])[1..] == ps[1..] + [x];
      InSectionAppend(ps[1..], x, t);
    }
  }

  lemma {:induction false} InSectionAbsent(ps: seq<Product>, t: string)
    requires t !in Titles(ps)
    ensures InSection(ps, t) == []
  {
    if ps != [] {
      assert Titles(ps)[0] == Title(ps[0]);
      forall j | 0 <= j < |ps| - 1 ensures Titles(ps[1..])[j] != t {
        assert Titles(ps[1..])[j] == Titles(ps)[j + 1];
      }
      InSectionAbsent(ps[1..], t);
    }
  }

  /** Step C, the `reduce` that appends each product to the list of its title. */
  function Grouped(ps: seq<Product>): (g: map<string, seq<Product>>)
    ensures forall t :: t in g ==> g[t] != []
    ensures forall t, p :: t in g && p in g[t] ==> Title(p) == t
  {
    if ps == [] then map[]
    else
      var acc := Grouped(ps[..|ps| - 1]);
      var p := ps[|ps| - 1];
      var t := Title(p);
      acc[t := (if t in acc then acc[t] else []) + [p]]
  }

  /** The grouping has one key per title present and keeps each title's products in order. */
  lemma {:induction false} GroupedSpec(ps: seq<Product>)
    ensures forall t :: t in Grouped(ps) <==> t in Titles(ps)
    ensures forall t :: t in Grouped(ps) ==> Grouped(ps)[t] == InSection(ps, t)
  {
    if ps != [] {
      var init, p := ps[..|ps| - 1], ps[|ps| - 1];
      assert ps == init + [p];
      GroupedSpec(init);
      GroupStep(Grouped(init), init, p);
    }
  }

  /** One step of the `reduce`: appending a product to its title's list keeps the grouping exact. */
  lemma GroupStep(before: map<string, seq<Product>>, init: seq<Product>, p: Product)
    requires forall t :: t in before <==> t in Titles(init)
    requires forall t :: t in before ==> before[t] == InSection(init, t)
    ensures var t0 := Title(p);
      var after := before[t0 := (if t0 in before then before[t0] else []) + [p]];
      (forall t :: t in after <==> t in Titles(init + [p])) &&
      (forall t :: t in after ==> after[t] == InSection(init + [p], t))
  {
    TitlesSnoc(init, p);
    var t0 := Title(p);
    var after := before[t0 := (if t0 in before then before[t0] else []) + [p]];
    forall t | t in after ensures after[t] == InSection(init + [p], t) {
      InSectionAppend(init, p, t);
      if t !in before {
        InSectionAbsent(init, t);
      }
    }
  }

  lemma TitlesSnoc(init: seq<Product>, p: Product)
    ensures Titles(init + [p]) == Titles(init) + [Title(p)]
  {
  }

  // ---------------------------------------------------------------------------
  // `new Set(...)` and `Object.keys(...)`: distinct values in first-appearance order

  predicate Distinct(s: seq<string>)
  {
    forall i, j :: 0 <= i < j < |s| ==> s[i] != s[j]
  }

  /** The values of s without repeats, each at its first appearance. */
  function Dedup(s: seq<string>): (r: seq<string>)
    ensures Distinct(r)
    ensures forall x :: x in r <==> x in s
    ensures |r| <= |s|
  {
    if s == [] then []
    else
      var d := Dedup(s[..|s| - 1]);
      assert forall x :: x in s <==> x in s[..|s| - 1] || x == s[|s| - 1] by {
        assert s == s[..|s| - 1] + [s[|s| - 1]];
      }
      if s[|s| - 1] in d then d else d + [s[|s| - 1]]
  }

  /** Later values never reorder earlier ones: the first-appearance order is stable under extension. */
  lemma {:induction false} DedupPrefix(a: seq<string>, b: seq<string>)
    ensures Dedup(a) <= Dedup(a + b)
    decreases |b|
  {
    if b != [] {
      var init := b[..|b| - 1];
      assert (a + b)[..|a + b| - 1] == a + init;
      DedupPrefix(a, init);
    } else {
      assert a + b == a;
    }
  }

  // ---------------------------------------------------------------------------
  // `.sort()` on the distinct titles: lexicographic order on code points

  predicate StrLess(a: string, b: string)
  {
    if a == [] then b != []
    else if b == [] then false
    else if a[0] != b[0] then a[0] < b[0]
    else StrLess(a[1..], b[1..])
  }

  lemma {:induction false} StrLessIrreflexive(a: string)
    ensures !StrLess(a, a)
  {
    if a != [] { StrLessIrreflexive(a[1..]); }
  }

  lemma {:induction false} StrLessTransitive(a: string, b: string, c: string)
    requires StrLess(a, b) && StrLess(b, c)
    ensures StrLess(a, c)
  {
    if a != [] && a[0] == b[0] && b[0] == c[0] {
      StrLessTransitive(a[1..], b[1..], c[1..]);
    }
  }

  lemma {:induction false} StrLessTotal(a: string, b: string)
    requires a != b
    ensures StrLess(a, b) || StrLess(b, a)
  {
    if a != [] && b != [] && a[0] == b[0] {
      assert a == [a[0]] + a[1..] && b == [b[0]] + b[1..];
      StrLessTotal(a[1..], b[1..]);
    }
  }

  predicate StrictlySorted(s: seq<string>)
  {
    forall i, j :: 0 <= i < j < |s| ==> StrLess(s[i], s[j])
  }

  function Insert(x: string, s: seq<string>): (r: seq<string>)
    ensures multiset(r) == multiset(s) + multiset{x}
  {
    if s == [] then [x]
    else if StrLess(x, s[0]) then [x] + s
    else
      assert s == [s[0]] + s[1..];
      [s[0]] + Insert(x, s[1..])
  }

  function Sort(s: seq<string>): (r: seq<string>)
    ensures multiset(r) == multiset(s)
  {
    if s == [] then []
    else
      assert s == [s[0]] + s[1..];
      Insert(s[0], Sort(s[1..]))
  }

  lemma {:induction false} InsertSorted(x: string, s: seq<string>)
    requires StrictlySorted(s) && x !in s
    ensures StrictlySorted(Insert(x, s))
  {
    if s == [] {
    } else if StrLess(x, s[0]) {
      forall j | 0 < j < |s| ensures StrLess(x, s[j]) {
        StrLessTransitive(x, s[0], s[j]);
      }
    } else {
      StrLessTotal(x, s[0]);
      var rest := Insert(x, s[1..]);
      assert StrictlySorted(s[1..]) by {
        forall i, j | 0 <= i < j < |s[1..]| ensures StrLess(s[1..][i], s[1..][j]) {
          assert s[1..][i] == s[i + 1] && s[1..][j] == s[j + 1];
        }
      }
      InsertSorted(x, s[1..]);
      forall y | y in rest ensures StrLess(s[0], y) {
        assert y in multiset(rest);
        if y != x {
          assert y in multiset(s[1..]);
          var j :| 0 <= j < |s[1..]| && s[1..][j] == y;
          assert s[j + 1] == y;
        }
      }
      SortedCons(s[0], rest);
    }
  }

  /** A strictly sorted list stays strictly sorted under a head below all its elements. */
  lemma SortedCons(a: string, rest: seq<string>)
    requires StrictlySorted(rest) && forall y :: y in rest ==> StrLess(a, y)
    ensures StrictlySorted([a] + rest)
  {
    var r := [a] + rest;
    forall i, j | 0 <= i < j < |r| ensures StrLess(r[i], r[j]) {
      if i == 0 { assert r[j] in rest; } else { assert r[i] == rest[i - 1] && r[j] == rest[j - 1]; }
    }
  }

  /** Sorting distinct titles gives them in strictly ascending order, each exactly once. */
  lemma {:induction false} SortSorted(s: seq<string>)
    requires Distinct(s)
    ensures StrictlySorted(Sort(s))
  {
    if s != [] {
      assert Distinct(s[1..]) by {
        forall i, j | 0 <= i < j < |s[1..]| ensures s[1..][i] != s[1..][j] {
          assert s[1..][i] == s[i + 1] && s[1..][j] == s[j + 1];
        }
      }
      SortSorted(s[1..]);
      forall j | 0 <= j < |s[1..]| ensures s[1..][j] != s[0] {
        assert s[1..][j] == s[j + 1];
      }
      assert s[0] !in multiset(s[1..]);
      assert s[0] !in multiset(Sort(s[1..]));
      InsertSorted(s[0], Sort(s[1..]));
    }
  }

  /**
   * A strictly sorted sequence is determined by its elements, so any correct
   * sort of the distinct keys gives the same order as Sort.
   */
  lemma {:induction false} StrictlySortedUnique(a: seq<string>, b: seq<string>)
    requires StrictlySorted(a) && StrictlySorted(b)
    requires forall x :: x in a <==> x in b
    ensures a == b
  {
    assert a != [] ==> a[0] in b;
    assert b != [] ==> b[0] in a;
    if a != [] {
      assert a[0] == b[0] by {
        if a[0] != b[0] {
          assert b[0] in a && a[0] in b;
          var j :| 0 <= j < |a| && a[j] == b[0];
          var k :| 0 <= k < |b| && b[k] == a[0];
          assert StrLess(a[0], b[0]) && StrLess(b[0], a[0]);
          StrLessTransitive(a[0], b[0], a[0]);
          StrLessIrreflexive(a[0]);
        }
      }
      forall x ensures x in a[1..] <==> x in b[1..] {
        HeadNotInTail(a, x);
        HeadNotInTail(b, x);
      }
      StrictlySortedUnique(a[1..], b[1..]);
      assert a == [a[0]] + a[1..] && b == [b[0]] + b[1..];
    }
  }

  lemma HeadNotInTail(s: seq<string>, x: string)
    requires s != [] && StrictlySorted(s)
    ensures x in s[1..] <==> x in s && x != s[0]
  {
    if x in s[1..] {
      var j :| 0 <= j < |s[1..]| && s[1..][j] == x;
      assert StrLess(s[0], s[j + 1]);
      StrLessIrreflexive(x);
    }
    if x in s && x != s[0] {
      var j :| 0 <= j < |s| && s[j] == x;
      assert s[1..][j - 1] == x;
    }
  }

  // ---------------------------------------------------------------------------
  // Step D: the sections

  /** One section of the list: its title and its products. */
  datatype Section = Section(title: string, data: seq<Product>)

  function SectionTitles(sections: seq<Section>): (ts: seq<string>)
    ensures |ts| == |sections|
    ensures forall i :: 0 <= i < |sections| ==> ts[i] == sections[i].title
  {
    seq(|sections|, i requires 0 <= i < |sections| => sections[i].title)
  }

  /** The section keys: `Object.keys(grouped).sort()`. */
  function SectionKeys(filtered: seq<Product>): (keys: seq<string>)
    ensures StrictlySorted(keys)
    ensures forall t :: t in keys <==> t in Titles(filtered)
    ensures forall t :: t in keys ==> t in Grouped(filtered)
  {
    var ordered := Dedup(Titles(filtered));
    SortSorted(ordered);
    GroupedSpec(filtered);
    assert forall t :: t in Sort(ordered) <==> t in multiset(ordered);
    Sort(ordered)
  }

  /**
   * Steps C and D over the filtered products: one section per title present,
   * titles strictly ascending (so distinct), each holding exactly the
   * products with its title, in their order.
   */
  function Sections(filtered: seq<Product>): (r: seq<Section>)
    ensures forall i, j :: 0 <= i < j < |r| ==> StrLess(r[i].title, r[j].title)
    ensures forall i :: 0 <= i < |r| ==> r[i].data == InSection(filtered, r[i].title)
    ensures SectionTitles(r) == SectionKeys(filtered)
  {
    var grouped := Grouped(filtered);
    var keys := SectionKeys(filtered);
    GroupedSpec(filtered);
    var r := seq(|keys|, i requires 0 <= i < |keys| => Section(keys[i], grouped[keys[i]]));
    assert SectionTitles(r) == keys;
    r
  }

  /** `getSectionedProducts`: search, category chip, then the sections. */
  function SectionedProducts(ps: seq<Product>, query: string, selected: string): (r: seq<Section>)
    ensures forall s, p :: s in r && p in s.data ==>
      p in ps && MatchesSearch(p, query) && (selected == "Todos" || p.categoria == Some(selected)) && Title(p) == s.title
  {
    var r := Sections(Filtered(ps, query, selected));
    assert forall s :: s in r ==> exists i :: 0 <= i < |r| && r[i] == s;
    r
  }

  /** The categories bar: 'Todos', then each distinct `categoria || 'Varios'` at its first appearance. */
  function Categories(ps: seq<Product>): (r: seq<string>)
    ensures |r| >= 1 && r[0] == "Todos"
    ensures Distinct(r[1..])
    ensures forall t :: t in r[1..] <==> t in Titles(ps)
  {
    assert (["Todos"] + Dedup(Titles(ps)))[1..] == Dedup(Titles(ps));
    ["Todos"] + Dedup(Titles(ps))
  }

  /** Products added to the end of the menu never reorder the categories already shown. */
  lemma CategoriesKeepFirstAppearanceOrder(ps: seq<Product>, more: seq<Product>)
    ensures Categories(ps) <= Categories(ps + more)
  {
    assert Titles(ps + more) == Titles(ps) + Titles(more);
    DedupPrefix(Titles(ps), Titles(more));
  }

  // ---------------------------------------------------------------------------
  // The sections partition the filtered products

  function SectionsSize(sections: seq<Section>): int
  {
    if sections == [] then 0 else |sections[0].data| + SectionsSize(sections[1..])
  }

  function SizeSum(ps: seq<Product>, keys: seq<string>): int
  {
    if keys == [] then 0 else |InSection(ps, keys[0])| + SizeSum(ps, keys[1..])
  }

  function Count(keys: seq<string>, t: string): nat
  {
    if keys == [] then 0 else (if keys[0] == t then 1 else 0) + Count(keys[1..], t)
  }

  lemma {:induction false} CountDistinct(keys: seq<string>, t: string)
    requires Distinct(keys) && t in keys
    ensures Count(keys, t) == 1
  {
    if keys[0] == t {
      forall j | 0 <= j < |keys[1..]| ensures keys[1..][j] != t {
        assert keys[1..][j] == keys[j + 1];
      }
      CountAbsent(keys[1..], t);
    } else {
      assert Distinct(keys[1..]) by {
        forall i, j | 0 <= i < j < |keys[1..]| ensures keys[1..][i] != keys[1..][j] {
          assert keys[1..][i] == keys[i + 1] && keys[1..][j] == keys[j + 1];
        }
      }
      CountDistinct(keys[1..], t);
    }
  }

  lemma {:induction false} CountAbsent(keys: seq<string>, t: string)
    requires t !in keys
    ensures Count(keys, t) == 0
  {
    if keys != [] {
      forall j | 0 <= j < |keys[1..]| ensures keys[1..][j] != t {
        assert keys[1..][j] == keys[j + 1];
      }
      CountAbsent(keys[1..], t);
    }
  }

  lemma {:induction false} SizeSumCons(x: Product, ps: seq<Product>, keys: seq<string>)
    ensures SizeSum([x] + ps, keys) == SizeSum(ps, keys) + Count(keys, Title(x))
  {
    if keys != [] {
      assert ([x] + ps)[1..] == ps;
      SizeSumCons(x, ps, keys[1..]);
    }
  }

  /** Summed over distinct titles covering them all, the section sizes count every product once. */
  lemma {:induction false} SizeSumCoversAll(ps: seq<Product>, keys: seq<string>)
    requires Distinct(keys)
    requires forall p :: p in ps ==> Title(p) in keys
    ensures SizeSum(ps, keys) == |ps|
  {
    if ps == [] {
      SizeSumEmpty(keys);
    } else {
      assert ps == [ps[0]] + ps[1..];
      SizeSumCoversAll(ps[1..], keys);
      SizeSumCons(ps[0], ps[1..], keys);
      CountDistinct(keys, Title(ps[0]));
    }
  }

  lemma {:induction false} SizeSumEmpty(keys: seq<string>)
    ensures SizeSum([], keys) == 0
  {
    if keys != [] { SizeSumEmpty(keys[1..]); }
  }

  lemma {:induction false} SectionsSizeIsSizeSum(ps: seq<Product>, sections: seq<Section>, keys: seq<string>)
    requires |sections| == |keys|
    requires forall i :: 0 <= i < |keys| ==> sections[i].data == InSection(ps, keys[i])
    ensures SectionsSize(sections) == SizeSum(ps, keys)
  {
    if keys != [] {
      SectionsSizeIsSizeSum(ps, sections[1..], keys[1..]);
    }
  }

  /**
   * There is a section for exactly the titles present, no section is empty,
   * and every filtered product sits in the section of its title.
   */
  lemma SectionsCoverFiltered(filtered: seq<Product>)
    ensures var r := Sections(filtered);
      && (forall t :: t in Titles(filtered) <==> exists i :: 0 <= i < |r| && r[i].title == t)
      && (forall i :: 0 <= i < |r| ==> r[i].data != [])
      && (forall p :: p in filtered ==>
            exists i :: 0 <= i < |r| && r[i].title == Title(p) && p in r[i].data)
  {
    var r := Sections(filtered);
    var keys := SectionKeys(filtered);
    forall t ensures t in Titles(filtered) <==> exists i :: 0 <= i < |r| && r[i].title == t {
      if t in Titles(filtered) {
        assert t in keys;
        var i :| 0 <= i < |keys| && keys[i] == t;
        assert r[i].title == t;
      }
      if exists i :: 0 <= i < |r| && r[i].title == t {
        var i :| 0 <= i < |r| && r[i].title == t;
        assert keys[i] == t;
      }
    }
    forall i | 0 <= i < |r| ensures r[i].data != [] {
      assert keys[i] in Titles(filtered);
      var k :| 0 <= k < |filtered| && Titles(filtered)[k] == r[i].title;
      assert filtered[k] in r[i].data;
    }
    forall p | p in filtered ensures exists i :: 0 <= i < |r| && r[i].title == Title(p) && p in r[i].data {
      var k :| 0 <= k < |filtered| && filtered[k] == p;
      assert Titles(filtered)[k] == Title(p);
      assert Title(p) in keys;
      var i :| 0 <= i < |keys| && keys[i] == Title(p);
      assert r[i].title == Title(p);
      assert p in r[i].data;
    }
  }

  /** Section titles are distinct, so no product sits in two sections. */
  lemma SectionOfProductIsUnique(filtered: seq<Product>)
    ensures var r := Sections(filtered);
      forall i, j, p :: 0 <= i < |r| && 0 <= j < |r| && p in r[i].data && p in r[j].data ==> i == j
  {
    var r := Sections(filtered);
    forall i, j, p | 0 <= i < |r| && 0 <= j < |r| && p in r[i].data && p in r[j].data ensures i == j {
      assert r[i].title == Title(p) == r[j].title;
      StrLessIrreflexive(Title(p));
    }
  }

  /** The section sizes add up to the number of filtered products: no product is listed twice. */
  lemma SectionsPartition(filtered: seq<Product>)
    ensures SectionsSize(Sections(filtered)) == |filtered|
  {
    var r := Sections(filtered);
    var keys := SectionKeys(filtered);
    SortedDistinct(keys);
    forall p | p in filtered ensures Title(p) in keys {
      var k :| 0 <= k < |filtered| && filtered[k] == p;
      assert Titles(filtered)[k] == Title(p);
    }
    SizeSumCoversAll(filtered, keys);
    assert SectionTitles(r) == keys;
    forall i | 0 <= i < |keys| ensures r[i].data == InSection(filtered, keys[i]) {
      assert SectionTitles(r)[i] == r[i].title;
    }
    SectionsSizeIsSizeSum(filtered, r, keys);
  }

  lemma SortedDistinct(keys: seq<string>)
    requires StrictlySorted(keys)
    ensures Distinct(keys)
  {
    forall i, j | 0 <= i < j < |keys| ensures keys[i] != keys[j] {
      StrLessIrreflexive(keys[i]);
    }
  }

  /**
   * The 'Varios' chip shows only products whose raw category is 'Varios', even
   * though an uncategorised product is listed under the 'Varios' title and
   * makes that chip appear.
   */
  lemma VariosChipOmitsUncategorised(ps: seq<Product>, query: string, p: Product)
    requires p in ps && !Truthy(p.categoria)
    ensures Title(p) == "Varios" && "Varios" in Categories(ps)[1..]
    ensures forall s :: s in SectionedProducts(ps, query, "Varios") ==> p !in s.data
  {
    var k :| 0 <= k < |ps| && ps[k] == p;
    assert Titles(ps)[k] == "Varios";
  }
}
