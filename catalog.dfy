/** The static catalog of top-up packs and passes, and its derived category list (src/data/services.ts). */
module Catalog {
  import opened Wrappers
  import opened Types

  /** Features shared by every pack; the passes replace the first one with their own benefit. */
  const PassFeatures: seq<string> := ["For Indian IDs Only", "24/7 Support", "Secure Payment"]
  const DiamondFeatures: seq<string> := ["Instant Delivery"] + PassFeatures

  const SmallPacks: string := "Small Packs"
  const NormalPacks: string := "Normal Packs"
  const BigPacks: string := "Big Packs"
  const PassesCategory: string := "Passes"

  const SmallDescription: string := "Small diamond pack for Mobile Legends"
  const NormalDescription: string := "Normal diamond pack for Mobile Legends"
  const BigDescription: string := "Big diamond pack for Mobile Legends"

  /** The "Small Packs" group. */
  const SmallPackEntries: seq<Service> := [
    Service("diamonds-5", "5 Diamonds", SmallDescription, 15, None, SmallPacks, DiamondFeatures),
    Service("diamonds-11", "11 Diamonds", SmallDescription, 20, None, SmallPacks, DiamondFeatures),
    Service("diamonds-22", "22 Diamonds", SmallDescription, 40, None, SmallPacks, DiamondFeatures),
    Service("diamonds-55", "55 Diamonds", SmallDescription, 80, None, SmallPacks, DiamondFeatures),
    Service("diamonds-86", "86 Diamonds", SmallDescription, 110, None, SmallPacks, DiamondFeatures)
  ]

  /** The "Normal Packs" group. */
  const NormalPackEntries: seq<Service> := [
    Service("diamonds-110", "110 Diamonds", NormalDescription, 160, None, NormalPacks, DiamondFeatures + ["Popular Choice"]),
    Service("diamonds-172", "172 Diamonds", NormalDescription, 220, None, NormalPacks, DiamondFeatures),
    Service("diamonds-257", "257 Diamonds", NormalDescription, 320, None, NormalPacks, DiamondFeatures),
    Service("diamonds-284", "284 Diamonds", NormalDescription, 350, None, NormalPacks, DiamondFeatures),
    Service("diamonds-343", "343 Diamonds", NormalDescription, 430, None, NormalPacks, DiamondFeatures),
    Service("diamonds-429", "429 Diamonds", NormalDescription, 540, None, NormalPacks, DiamondFeatures),
    Service("diamonds-514", "514 Diamonds", NormalDescription, 640, None, NormalPacks, DiamondFeatures),
    Service("diamonds-565", "565 Diamonds", NormalDescription, 700, None, NormalPacks, DiamondFeatures),
    Service("diamonds-600", "600 Diamonds", NormalDescription, 750, None, NormalPacks, DiamondFeatures),
    Service("diamonds-706", "706 Diamonds", NormalDescription, 850, None, NormalPacks, DiamondFeatures),
    Service("diamonds-792", "792 Diamonds", NormalDescription, 960, None, NormalPacks, DiamondFeatures),
    Service("diamonds-878", "878 Diamonds", NormalDescription, 1070, None, NormalPacks, DiamondFeatures),
    Service("diamonds-963", "963 Diamonds", NormalDescription, 1180, None, NormalPacks, DiamondFeatures)
  ]

  /** The "Big Packs" group. */
  const BigPackEntries: seq<Service> := [
    Service("diamonds-1049", "1049 Diamonds", BigDescription, 1300, None, BigPacks, DiamondFeatures + ["Best Value"]),
    Service("diamonds-1135", "1135 Diamonds", BigDescription, 1400, None, BigPacks, DiamondFeatures),
    Service("diamonds-1220", "1220 Diamonds", BigDescription, 1500, None, BigPacks, DiamondFeatures),
    Service("diamonds-1412", "1412 Diamonds", BigDescription, 1700, None, BigPacks, DiamondFeatures),
    Service("diamonds-2195", "2195 Diamonds", BigDescription, 2500, None, BigPacks, DiamondFeatures),
    Service("diamonds-2901", "2901 Diamonds", BigDescription, 3300, None, BigPacks, DiamondFeatures),
    Service("diamonds-3688", "3688 Diamonds", BigDescription, 4200, None, BigPacks, DiamondFeatures),
    Service("diamonds-4394", "4394 Diamonds", BigDescription, 5000, None, BigPacks, DiamondFeatures),
    Service("diamonds-5100", "5100 Diamonds", BigDescription, 5800, None, BigPacks, DiamondFeatures),
    Service("diamonds-5532", "5532 Diamonds", BigDescription, 6200, None, BigPacks, DiamondFeatures)
  ]

  /** The "Passes" group. */
  const PassEntries: seq<Service> := [
    Service("weekly-pass", "Weekly Pass", "Weekly Pass for Mobile Legends", 140, None, PassesCategory, ["Weekly Benefits"] + PassFeatures),
    Service("twilight-pass", "Twilight Pass", "Twilight Pass for Mobile Legends", 700, None, PassesCategory, ["Premium Benefits"] + PassFeatures)
  ]

  /** The catalog, in listing order: its four groups one after another. */
  const Services: seq<Service> := SmallPackEntries + NormalPackEntries + BigPackEntries + PassEntries

  /** `services.map(service => service.category)`. */
  function CategoryColumn(services: seq<Service>): (r: seq<string>)
    ensures |r| == |services|
    ensures forall i :: 0 <= i < |services| ==> r[i] == services[i].category
  {
    if services == [] then [] else [services[0].category] + CategoryColumn(services[1..])
  }

  /** Adding `x` to an insertion-ordered set: appended unless already present. */
  function Insert(acc: seq<string>, x: string): seq<string> {
    if x in acc then acc else acc + [x]
  }

  /** `new Set(xs)` started from the contents `acc`: each element of `xs` is added in turn. */
  function InsertAll(acc: seq<string>, xs: seq<string>): seq<string>
    decreases |xs|
  {
    if xs == [] then acc else InsertAll(Insert(acc, xs[0]), xs[1..])
  }

  /** `Array.from(new Set(services.map(service => service.category)))`. */
  function CategoriesOf(services: seq<Service>): seq<string> {
    InsertAll([], CategoryColumn(services))
  }

  /** The category list the home page offers as filters. */
  function Categories(): seq<string> {
    CategoriesOf(Services)
  }

  ghost predicate NoDuplicates(xs: seq<string>) {
    forall i, j :: 0 <= i < j < |xs| ==> xs[i] != xs[j]
  }

  /**
   * Adding elements keeps the set duplicate-free, keeps what was there in front,
   * and holds exactly the old and the added elements.
   */
  lemma {:induction false} InsertAllSpec(acc: seq<string>, xs: seq<string>)
    requires NoDuplicates(acc)
    ensures NoDuplicates(InsertAll(acc, xs))
    ensures acc <= InsertAll(acc, xs)
    ensures forall x :: x in InsertAll(acc, xs) <==> x in acc || x in xs
    decreases |xs|
  {
    if xs != [] {
      InsertAllSpec(Insert(acc, xs[0]), xs[1..]);
      assert xs == [xs[0]] + xs[1..];
    }
  }

  /** The derived category list has no duplicates and holds exactly the categories some service carries. */
  lemma CategoriesSpec(services: seq<Service>)
    ensures NoDuplicates(CategoriesOf(services))
    ensures forall c :: c in CategoriesOf(services) <==> exists s :: s in services && s.category == c
  {
    InsertAllSpec([], CategoryColumn(services));
    var column := CategoryColumn(services);
    forall c ensures c in column <==> exists s :: s in services && s.category == c {
      if c in column {
        var i :| 0 <= i < |column| && column[i] == c;
        assert services[i] in services;
      }
    }
  }

  /** Adding elements already present changes nothing. */
  lemma {:induction false} InsertAllPresent(acc: seq<string>, xs: seq<string>)
    requires forall x :: x in xs ==> x in acc
    ensures InsertAll(acc, xs) == acc
    decreases |xs|
  {
    if xs != [] {
      InsertAllPresent(acc, xs[1..]);
    }
  }

  /** Adding `a + b` is adding `a`, then `b`. */
  lemma {:induction false} InsertAllAppend(acc: seq<string>, a: seq<string>, b: seq<string>)
    ensures InsertAll(acc, a + b) == InsertAll(InsertAll(acc, a), b)
    decreases |a|
  {
    if a != [] {
      assert (a + b)[0] == a[0] && (a + b)[1..] == a[1..] + b;
      InsertAllAppend(Insert(acc, a[0]), a[1..], b);
    } else {
      assert a + b == b;
    }
  }

  /** Every entry of `xs` is in category `c`. */
  ghost predicate InCategory(xs: seq<Service>, c: string) {
    forall i | 0 <= i < |xs| :: xs[i].category == c
  }

  /** Adding the categories of a non-empty group of one category adds that category once. */
  lemma InsertGroup(acc: seq<string>, xs: seq<Service>, c: string)
    requires xs != [] && InCategory(xs, c)
    ensures InsertAll(acc, CategoryColumn(xs)) == Insert(acc, c)
  {
    var column := CategoryColumn(xs);
    assert c in Insert(acc, c);
    forall x | x in column[1..] ensures x in Insert(acc, c) {
      assert x in column;
    }
    InsertAllPresent(Insert(acc, c), column[1..]);
  }

  lemma CategoryColumnAppend(xs: seq<Service>, ys: seq<Service>)
    ensures CategoryColumn(xs + ys) == CategoryColumn(xs) + CategoryColumn(ys)
  {
  }

  /** Four non-empty groups of four different categories give those four categories, in order. */
  lemma CategoriesOfGroups(a: seq<Service>, b: seq<Service>, c: seq<Service>, d: seq<Service>,
                           ca: string, cb: string, cc: string, cd: string)
    requires a != [] && b != [] && c != [] && d != []
    requires InCategory(a, ca) && InCategory(b, cb) && InCategory(c, cc) && InCategory(d, cd)
    requires ca != cb && ca != cc && ca != cd && cb != cc && cb != cd && cc != cd
    ensures CategoriesOf(a + b + c + d) == [ca, cb, cc, cd]
  {
    CategoryColumnAppend(a + b + c, d);
    CategoryColumnAppend(a + b, c);
    CategoryColumnAppend(a, b);
    var sa, sb, sc, sd := CategoryColumn(a), CategoryColumn(b), CategoryColumn(c), CategoryColumn(d);
    InsertAllAppend([], sa + sb + sc, sd);
    InsertAllAppend([], sa + sb, sc);
    InsertAllAppend([], sa, sb);
    InsertGroup([], a, ca);
    InsertGroup([ca], b, cb);
    InsertGroup([ca, cb], c, cc);
    InsertGroup([ca, cb, cc], d, cd);
    assert InsertAll([], sa) == [ca];
    assert InsertAll([], sa + sb) == [ca, cb];
    assert InsertAll([], sa + sb + sc) == [ca, cb, cc];
    assert CategoryColumn(a + b + c + d) == sa + sb + sc + sd;
  }

  lemma GroupCategories()
    ensures InCategory(SmallPackEntries, SmallPacks) && InCategory(NormalPackEntries, NormalPacks)
    ensures InCategory(BigPackEntries, BigPacks) && InCategory(PassEntries, PassesCategory)
  {
  }

  /** The catalog's categories, in order of first appearance. */
  lemma CatalogCategories()
    ensures Categories() == ["Small Packs", "Normal Packs", "Big Packs", "Passes"]
  {
    GroupCategories();
    CategoriesOfGroups(SmallPackEntries, NormalPackEntries, BigPackEntries, PassEntries,
                       SmallPacks, NormalPacks, BigPacks, PassesCategory);
  }

  // Distinct ids

  ghost predicate IdsDistinct(xs: seq<Service>) {
    forall i, j | 0 <= i < j < |xs| :: xs[i].id != xs[j].id
  }

  ghost predicate IdsApart(xs: seq<Service>, ys: seq<Service>) {
    forall i, j | 0 <= i < |xs| && 0 <= j < |ys| :: xs[i].id != ys[j].id
  }

  lemma IdsDistinctAppend(xs: seq<Service>, ys: seq<Service>)
    requires IdsDistinct(xs) && IdsDistinct(ys) && IdsApart(xs, ys)
    ensures IdsDistinct(xs + ys)
  {
    var zs := xs + ys;
    forall i, j | 0 <= i < j < |zs| ensures zs[i].id != zs[j].id {
      if i >= |xs| {
        assert zs[i] == ys[i - |xs|] && zs[j] == ys[j - |xs|];
      } else if j >= |xs| {
        assert zs[j] == ys[j - |xs|];
      }
    }
  }

  lemma IdsApartAppend(xs: seq<Service>, ys: seq<Service>, zs: seq<Service>)
    requires IdsApart(xs, zs) && IdsApart(ys, zs)
    ensures IdsApart(xs + ys, zs)
  {
    forall i, j | 0 <= i < |xs + ys| && 0 <= j < |zs| ensures (xs + ys)[i].id != zs[j].id {
      if i >= |xs| {
        assert (xs + ys)[i] == ys[i - |xs|];
      }
    }
  }

  lemma SmallPackIdsDistinct()
    ensures forall i, j | 0 <= i < j < |SmallPackEntries| :: SmallPackEntries[i].id != SmallPackEntries[j].id
  {
  }

  lemma NormalPackIdsDistinct()
    ensures forall i, j | 0 <= i < j < |NormalPackEntries| :: NormalPackEntries[i].id != NormalPackEntries[j].id
  {
  }

  lemma BigPackIdsDistinct()
    ensures forall i, j | 0 <= i < j < |BigPackEntries| :: BigPackEntries[i].id != BigPackEntries[j].id
  {
  }

  lemma PassIdsDistinct()
    ensures forall i, j | 0 <= i < j < |PassEntries| :: PassEntries[i].id != PassEntries[j].id
  {
  }

  lemma SmallPackIdsApart()
    ensures IdsApart(SmallPackEntries, NormalPackEntries) && IdsApart(SmallPackEntries, BigPackEntries)
    ensures IdsApart(SmallPackEntries, PassEntries)
  {
  }

  lemma NormalPackIdsApart()
    ensures IdsApart(NormalPackEntries, BigPackEntries) && IdsApart(NormalPackEntries, PassEntries)
  {
  }

  lemma BigPackIdsApart()
    ensures IdsApart(BigPackEntries, PassEntries)
  {
  }

  /** The catalog has 30 entries and no two share an id. */
  lemma CatalogIdsDistinct()
    ensures |Services| == 30
    ensures forall i, j | 0 <= i < j < |Services| :: Services[i].id != Services[j].id
  {
    var small, normal, big, passes := SmallPackEntries, NormalPackEntries, BigPackEntries, PassEntries;
    SmallPackIdsDistinct();
    NormalPackIdsDistinct();
    BigPackIdsDistinct();
    PassIdsDistinct();
    SmallPackIdsApart();
    NormalPackIdsApart();
    BigPackIdsApart();
    IdsDistinctAppend(small, normal);
    IdsApartAppend(small, normal, big);
    IdsDistinctAppend(small + normal, big);
    IdsApartAppend(small, normal, passes);
    IdsApartAppend(small + normal, big, passes);
    IdsDistinctAppend(small + normal + big, passes);
  }

  // Prices

  /** Every entry of `xs` has a positive price that is a multiple of 5 rupees, and no original price. */
  ghost predicate PlainPrices(xs: seq<Service>) {
    forall i | 0 <= i < |xs| :: xs[i].price > 0 && xs[i].price % 5 == 0 && xs[i].originalPrice.None?
  }

  lemma PlainPricesAppend(xs: seq<Service>, ys: seq<Service>)
    requires PlainPrices(xs) && PlainPrices(ys)
    ensures PlainPrices(xs + ys)
  {
    forall i | 0 <= i < |xs + ys| ensures (xs + ys)[i].price > 0 {
      if i >= |xs| { assert (xs + ys)[i] == ys[i - |xs|]; }
    }
  }

  lemma SmallPackPricesPlain()
    ensures forall i | 0 <= i < |SmallPackEntries| ::
      SmallPackEntries[i].price > 0 && SmallPackEntries[i].price % 5 == 0 && SmallPackEntries[i].originalPrice.None?
  {
  }

  lemma NormalPackPricesPlain()
    ensures forall i | 0 <= i < |NormalPackEntries| ::
      NormalPackEntries[i].price > 0 && NormalPackEntries[i].price % 5 == 0 && NormalPackEntries[i].originalPrice.None?
  {
  }

  lemma BigPackPricesPlain()
    ensures forall i | 0 <= i < |BigPackEntries| ::
      BigPackEntries[i].price > 0 && BigPackEntries[i].price % 5 == 0 && BigPackEntries[i].originalPrice.None?
  {
  }

  lemma PassPricesPlain()
    ensures forall i | 0 <= i < |PassEntries| ::
      PassEntries[i].price > 0 && PassEntries[i].price % 5 == 0 && PassEntries[i].originalPrice.None?
  {
  }

  /** Every price is a positive multiple of 5 rupees, and no entry carries an original price. */
  lemma CatalogPricesPositive()
    ensures forall s | s in Services :: s.price > 0 && s.price % 5 == 0 && s.originalPrice.None?
  {
    SmallPackPricesPlain();
    NormalPackPricesPlain();
    BigPackPricesPlain();
    PassPricesPlain();
    PlainPricesAppend(SmallPackEntries, NormalPackEntries);
    PlainPricesAppend(SmallPackEntries + NormalPackEntries, BigPackEntries);
    PlainPricesAppend(SmallPackEntries + NormalPackEntries + BigPackEntries, PassEntries);
  }

  /** Any two entries of `xs` in the same category are listed in increasing price order. */
  ghost predicate IncreasingWithinCategory(xs: seq<Service>) {
    forall i, j | 0 <= i < j < |xs| && xs[i].category == xs[j].category :: xs[i].price < xs[j].price
  }

  ghost predicate AdjacentIncreasing(xs: seq<Service>) {
    forall k | 0 <= k < |xs| - 1 :: xs[k].price < xs[k + 1].price
  }

  lemma {:induction false} AdjacentToPairwise(xs: seq<Service>, i: int, j: int)
    requires 0 <= i < j < |xs|
    requires AdjacentIncreasing(xs)
    ensures xs[i].price < xs[j].price
    decreases j - i
  {
    if i + 1 < j {
      AdjacentToPairwise(xs, i + 1, j);
    }
  }

  lemma GroupIncreasing(xs: seq<Service>)
    requires AdjacentIncreasing(xs)
    ensures IncreasingWithinCategory(xs)
  {
    forall i, j | 0 <= i < j < |xs| ensures xs[i].price < xs[j].price {
      AdjacentToPairwise(xs, i, j);
    }
  }

  /** No entry of `xs` shares a category with an entry of `ys`. */
  ghost predicate CategoriesApart(xs: seq<Service>, ys: seq<Service>) {
    forall i, j | 0 <= i < |xs| && 0 <= j < |ys| :: xs[i].category != ys[j].category
  }

  lemma IncreasingAppend(xs: seq<Service>, ys: seq<Service>)
    requires IncreasingWithinCategory(xs) && IncreasingWithinCategory(ys) && CategoriesApart(xs, ys)
    ensures IncreasingWithinCategory(xs + ys)
  {
    var zs := xs + ys;
    forall i, j | 0 <= i < j < |zs| && zs[i].category == zs[j].category ensures zs[i].price < zs[j].price {
      if i >= |xs| {
        assert zs[i] == ys[i - |xs|] && zs[j] == ys[j - |xs|];
      }
    }
  }

  lemma CategoriesApartAppend(xs: seq<Service>, ys: seq<Service>, zs: seq<Service>)
    requires CategoriesApart(xs, zs) && CategoriesApart(ys, zs)
    ensures CategoriesApart(xs + ys, zs)
  {
    forall i, j | 0 <= i < |xs + ys| && 0 <= j < |zs| ensures (xs + ys)[i].category != zs[j].category {
      if i >= |xs| {
        assert (xs + ys)[i] == ys[i - |xs|];
      }
    }
  }

  /** Four groups of four different categories, each increasing in price, are increasing within each category. */
  lemma IncreasingOfGroups(a: seq<Service>, b: seq<Service>, c: seq<Service>, d: seq<Service>,
                           ca: string, cb: string, cc: string, cd: string)
    requires AdjacentIncreasing(a) && AdjacentIncreasing(b) && AdjacentIncreasing(c) && AdjacentIncreasing(d)
    requires InCategory(a, ca) && InCategory(b, cb) && InCategory(c, cc) && InCategory(d, cd)
    requires ca != cb && ca != cc && ca != cd && cb != cc && cb != cd && cc != cd
    ensures IncreasingWithinCategory(a + b + c + d)
  {
    GroupIncreasing(a);
    GroupIncreasing(b);
    GroupIncreasing(c);
    GroupIncreasing(d);
    IncreasingAppend(a, b);
    CategoriesApartAppend(a, b, c);
    IncreasingAppend(a + b, c);
    CategoriesApartAppend(a, b, d);
    CategoriesApartAppend(a + b, c, d);
    IncreasingAppend(a + b + c, d);
  }

  lemma GroupsAdjacentIncreasing()
    ensures AdjacentIncreasing(SmallPackEntries) && AdjacentIncreasing(NormalPackEntries)
    ensures AdjacentIncreasing(BigPackEntries) && AdjacentIncreasing(PassEntries)
  {
  }

  /** Within one category, prices strictly increase in listing order. */
  lemma CatalogPricesIncreaseWithinCategory()
    ensures forall i, j | 0 <= i < j < |Services| && Services[i].category == Services[j].category ::
      Services[i].price < Services[j].price
  {
    GroupCategories();
    GroupsAdjacentIncreasing();
    IncreasingOfGroups(SmallPackEntries, NormalPackEntries, BigPackEntries, PassEntries,
                       SmallPacks, NormalPacks, BigPacks, PassesCategory);
  }

  // Ids and names

  /** A service whose id reads `diamonds-N` is named `N Diamonds`. */
  ghost predicate NamedAfterId(s: Service) {
    |s.id| >= 9 && s.id[..9] == "diamonds-" ==> s.name == s.id[9..] + " Diamonds"
  }

  ghost predicate AllNamedAfterId(xs: seq<Service>) {
    forall i | 0 <= i < |xs| :: NamedAfterId(xs[i])
  }

  lemma AllNamedAfterIdAppend(xs: seq<Service>, ys: seq<Service>)
    requires AllNamedAfterId(xs) && AllNamedAfterId(ys)
    ensures AllNamedAfterId(xs + ys)
  {
    forall i | 0 <= i < |xs + ys| ensures NamedAfterId((xs + ys)[i]) {
      if i >= |xs| { assert (xs + ys)[i] == ys[i - |xs|]; }
    }
  }

  // The entries are checked a few at a time: each batch is one proof obligation.

  lemma SmallPacksNamedAfterIds()
    ensures forall i | 0 <= i < 5 :: NamedAfterId(SmallPackEntries[i])
  {
  }

  lemma NormalPacksNamedAfterIdsA()
    ensures forall i | 0 <= i < 5 :: NamedAfterId(NormalPackEntries[i])
  {
  }

  lemma NormalPacksNamedAfterIdsB()
    ensures forall i | 5 <= i < 9 :: NamedAfterId(NormalPackEntries[i])
  {
  }

  lemma NormalPacksNamedAfterIdsC()
    ensures forall i | 9 <= i < 13 :: NamedAfterId(NormalPackEntries[i])
  {
  }

  lemma BigPacksNamedAfterIdsA()
    ensures forall i | 0 <= i < 4 :: NamedAfterId(BigPackEntries[i])
  {
  }

  lemma BigPacksNamedAfterIdsB()
    ensures forall i | 4 <= i < 7 :: NamedAfterId(BigPackEntries[i])
  {
  }

  lemma BigPacksNamedAfterIdsC()
    ensures forall i | 7 <= i < 10 :: NamedAfterId(BigPackEntries[i])
  {
  }

  lemma PassesNamedAfterIds()
    ensures forall i | 0 <= i < 2 :: NamedAfterId(PassEntries[i])
  {
    assert PassEntries[0].id[0] == 'w' && PassEntries[1].id[0] == 't';
  }

  /** Every `diamonds-N` entry is the `N Diamonds` pack; the two passes have other ids. */
  lemma CatalogIdsMatchNames()
    ensures forall s | s in Services :: NamedAfterId(s)
  {
    SmallPacksNamedAfterIds();
    NormalPacksNamedAfterIdsA();
    NormalPacksNamedAfterIdsB();
    NormalPacksNamedAfterIdsC();
    BigPacksNamedAfterIdsA();
    BigPacksNamedAfterIdsB();
    BigPacksNamedAfterIdsC();
    PassesNamedAfterIds();
    assert |SmallPackEntries| == 5 && |NormalPackEntries| == 13 && |BigPackEntries| == 10 && |PassEntries| == 2;
    AllNamedAfterIdAppend(SmallPackEntries, NormalPackEntries);
    AllNamedAfterIdAppend(SmallPackEntries + NormalPackEntries, BigPackEntries);
    AllNamedAfterIdAppend(SmallPackEntries + NormalPackEntries + BigPackEntries, PassEntries);
    forall s | s in Services ensures NamedAfterId(s) {
      var i :| 0 <= i < |Services| && Services[i] == s;
    }
  }
}
