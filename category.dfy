/** Business categories (tenant/category.go): eighteen names, looked up exactly. */
module Category {
  import opened Wrappers
  import opened Errs

  /** `NoCategory` is the empty string Go returns on a failed parse. */
  datatype BusinessCategory =
    | Fashion | Electronics | Beauty | Food | Home | Health | Books | Automotive | Toys
    | Art | Jewelry | Services | Pets | Education | Agriculture | RealEstate
    | Entertainment | Technology | NoCategory

  function CategoryText(c: BusinessCategory): string {
    match c
    case Fashion => "fashion" case Electronics => "electronics" case Beauty => "beauty"
    case Food => "food" case Home => "home" case Health => "health" case Books => "books"
    case Automotive => "automotive" case Toys => "toys" case Art => "art"
    case Jewelry => "jewelry" case Services => "services" case Pets => "pets"
    case Education => "education" case Agriculture => "agriculture"
    case RealEstate => "real_estate" case Entertainment => "entertainment"
    case Technology => "technology" case NoCategory => ""
  }

  /** The categories in registration order. */
  const Registered: seq<BusinessCategory> :=
    [Fashion, Electronics, Beauty, Food, Home, Health, Books, Automotive, Toys,
     Art, Jewelry, Services, Pets, Education, Agriculture, RealEstate,
     Entertainment, Technology]

  /** The registry's key set. */
  const RegisteredSet: set<BusinessCategory> := set c | c in Registered

  /** The first category in `cats` whose name is `key`. */
  function Lookup(cats: seq<BusinessCategory>, key: string): (r: Option<BusinessCategory>)
    ensures r.Some? ==> r.value in cats && CategoryText(r.value) == key
    ensures r.None? <==> forall c :: c in cats ==> CategoryText(c) != key
  {
    if cats == [] then None
    else if CategoryText(cats[0]) == key then Some(cats[0])
    else Lookup(cats[1..], key)
  }

  /** ParseBusinessCategory: an exact, case-sensitive lookup of the registered names;
      unknown input gives "" and an error. */
  function ParseBusinessCategory(category: string): (r: (BusinessCategory, Option<Error>))
    ensures r.1.None? ==> r.0 in Registered && CategoryText(r.0) == category
    ensures r.1.Some? <==> forall c :: c in Registered ==> CategoryText(c) != category
    ensures r.1.Some? ==> r.0 == NoCategory && Message(r.1.value) == "invalid businesscategory: " + category
  {
    match Lookup(Registered, category)
    case Some(c) => (c, None)
    case None => (NoCategory, Some(Plain("invalid businesscategory: " + category)))
  }

  /** Different categories have different names. */
  lemma CategoryTextInjective(a: BusinessCategory, b: BusinessCategory)
    requires CategoryText(a) == CategoryText(b)
    ensures a == b
  {
  }

  /** Every registered category parses back from its own name. */
  lemma ParseCategoryText(c: BusinessCategory)
    requires c in Registered
    ensures ParseBusinessCategory(CategoryText(c)) == (c, None)
  {
    var r := Lookup(Registered, CategoryText(c));
    assert r.Some?;
    CategoryTextInjective(r.value, c);
  }

  /** The lookup is case-sensitive. */
  lemma CaseSensitive()
    ensures ParseBusinessCategory("fashion") == (Fashion, None)
    ensures ParseBusinessCategory("Fashion").1.Some?
  {
    ParseCategoryText(Fashion);
    forall c: BusinessCategory ensures CategoryText(c) != "Fashion" {
      NamesStartLower(c);
    }
  }

  lemma NamesStartLower(c: BusinessCategory)
    ensures CategoryText(c) == [] || 'a' <= CategoryText(c)[0] <= 'z'
  {
  }

  /** Eighteen distinct categories are registered. */
  lemma EighteenCategories()
    ensures |Registered| == 18 && |RegisteredSet| == 18
    ensures NoCategory !in RegisteredSet
  {
    DistinctCard(Registered);
  }

  /** A sequence without repetitions has as many elements as its set. */
  lemma {:induction false} DistinctCard<T>(xs: seq<T>)
    requires forall i, j :: 0 <= i < j < |xs| ==> xs[i] != xs[j]
    ensures |set x | x in xs| == |xs|
  {
    if xs != [] {
      DistinctCard(xs[1..]);
      assert (set x | x in xs) == (set x | x in xs[1..]) + {xs[0]};
      assert xs[0] !in (set x | x in xs[1..]);
    }
  }

  /** AllBusinessCategories: the registry's values collected by a walk over the map,
      whose order Go leaves unspecified (here an arbitrary choice at each step). */
  method AllBusinessCategories() returns (out: seq<BusinessCategory>)
    ensures forall c :: c in out <==> c in RegisteredSet
    ensures forall i, j :: 0 <= i < j < |out| ==> out[i] != out[j]
    ensures |out| == |RegisteredSet|
  {
    var remaining := RegisteredSet;
    out := [];
    while remaining != {}
      invariant remaining <= RegisteredSet
      invariant forall c :: c in out <==> c in RegisteredSet && c !in remaining
      invariant forall i, j :: 0 <= i < j < |out| ==> out[i] != out[j]
      invariant |out| + |remaining| == |RegisteredSet|
      decreases |remaining|
    {
      var c :| c in remaining;
      out := out + [c];
      remaining := remaining - {c};
    }
  }
}
