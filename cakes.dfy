/** The cake catalogue slice: the catalogue and its category filter, the
    likes, the user's own creations and the loading flags. */
module Cakes {
  import opened Common

  datatype Category = Chocolate | Fruits | Magic | Special {
    function Key(): string {
      match this
      case Chocolate => "chocolate"
      case Fruits => "fruits"
      case Magic => "magic"
      case Special => "special"
    }
  }

  /** A catalogue cake; prices are in cents and the rating is kept whole. */
  datatype Cake = Cake(
    id: string,
    name: string,
    description: string,
    category: Category,
    basePrice: int,
    imageUrl: string,
    generatedByAI: Option<bool>,
    likes: int,
    stars: int,
    ingredients: Option<seq<string>>,
    allergens: Option<seq<string>>,
    available: bool)

  datatype CakeData = CakeData(
    base: string,
    size: string,
    flavor: string,
    decorations: seq<string>,
    colors: seq<string>,
    message: string,
    aiPrompt: Option<string>)

  datatype CreationStatus = Draft | Generating | Completed | Failed

  datatype CakeCreation = CakeCreation(
    id: string,
    cakeData: CakeData,
    imageUrl: Option<string>,
    status: CreationStatus,
    createdAt: string)

  /** A Partial<CakeCreation>: each key may be absent. Only the optional
      image url can be set back to undefined. */
  datatype CreationPatch = CreationPatch(
    id: Option<string>,
    cakeData: Option<CakeData>,
    imageUrl: Field<string>,
    status: Option<CreationStatus>,
    createdAt: Option<string>)

  const AllCategories := "all"

  // ---------------------------------------------------------------------
  // The category filter

  /** Array.prototype.filter keeping the cakes of one category key. */
  function OfCategory(catalog: seq<Cake>, key: string): (r: seq<Cake>)
    ensures |r| <= |catalog|
  {
    if |catalog| == 0 then []
    else
      var init := OfCategory(catalog[..|catalog| - 1], key);
      var last := catalog[|catalog| - 1];
      if last.category.Key() == key then init + [last] else init
  }

  /** The filter keeps exactly the cakes of the category. */
  lemma {:induction false} OfCategoryMembers(catalog: seq<Cake>, key: string)
    ensures forall c :: c in OfCategory(catalog, key) <==> c in catalog && c.category.Key() == key
    decreases |catalog|
  {
    if |catalog| > 0 {
      var n := |catalog| - 1;
      OfCategoryMembers(catalog[..n], key);
      assert catalog == catalog[..n] + [catalog[n]];
    }
  }

  /** The filtered view for a category key; "all" shows the whole catalogue. */
  function Filtered(catalog: seq<Cake>, key: string): (r: seq<Cake>)
    ensures key == AllCategories ==> r == catalog
    ensures key != AllCategories ==> forall c :: c in r <==> c in catalog && c.category.Key() == key
  {
    if key == AllCategories then catalog
    else
      OfCategoryMembers(catalog, key);
      OfCategory(catalog, key)
  }

  /** Filtering a catalogue split in two filters each half. */
  lemma {:induction false} OfCategoryAppend(a: seq<Cake>, b: seq<Cake>, key: string)
    ensures OfCategory(a + b, key) == OfCategory(a, key) + OfCategory(b, key)
    decreases |b|
  {
    if |b| > 0 {
      var n := |b| - 1;
      assert (a + b)[..|a + b| - 1] == a + b[..n];
      OfCategoryAppend(a, b[..n], key);
    } else {
      assert a + b == a;
    }
  }

  /** A list whose cakes all have the key passes the filter unchanged. */
  lemma {:induction false} OfCategoryKeepsMatching(cakes: seq<Cake>, key: string)
    requires forall i :: 0 <= i < |cakes| ==> cakes[i].category.Key() == key
    ensures OfCategory(cakes, key) == cakes
    decreases |cakes|
  {
    if |cakes| > 0 {
      var n := |cakes| - 1;
      var init := cakes[..n];
      forall i | 0 <= i < |init| ensures init[i].category.Key() == key {
        assert init[i] == cakes[i];
      }
      OfCategoryKeepsMatching(init, key);
      assert cakes[n].category.Key() == key;
      assert init + [cakes[n]] == cakes;
    }
  }

  /** Filtering twice by the same key is filtering once. */
  lemma OfCategoryIdempotent(catalog: seq<Cake>, key: string)
    ensures OfCategory(OfCategory(catalog, key), key) == OfCategory(catalog, key)
  {
    var r := OfCategory(catalog, key);
    OfCategoryMembers(catalog, key);
    forall i | 0 <= i < |r| ensures r[i].category.Key() == key {
      assert r[i] in r;
    }
    OfCategoryKeepsMatching(r, key);
  }

  /** No catalogue category has the key "all", so only the explicit branch
      makes it show every cake. */
  lemma AllIsNotACategory(catalog: seq<Cake>)
    ensures OfCategory(catalog, AllCategories) == []
    ensures Filtered(catalog, AllCategories) == catalog
  {
  }

  // ---------------------------------------------------------------------
  // Likes

  /** The first catalogue cake with the id gets `delta` more likes. */
  function LikesBumped(catalog: seq<Cake>, id: string, delta: int): (r: seq<Cake>)
    ensures |r| == |catalog|
    ensures forall k :: 0 <= k < |r| ==> r[k].id == catalog[k].id
  {
    var i := IndexOf(Ids(catalog), id);
    if i > -1 then catalog[i := catalog[i].(likes := catalog[i].likes + delta)] else catalog
  }

  function Ids(catalog: seq<Cake>): (ids: seq<string>)
    ensures |ids| == |catalog|
    ensures forall i :: 0 <= i < |catalog| ==> ids[i] == catalog[i].id
  {
    seq(|catalog|, i requires 0 <= i < |catalog| => catalog[i].id)
  }

  /** toggleLike on the catalogue: a cake just liked gains one, a cake just
      unliked loses one. */
  function LikedCatalog(catalog: seq<Cake>, liked: seq<string>, id: string): (r: seq<Cake>)
    ensures |r| == |catalog|
    ensures id in Ids(catalog) ==>
              var i := IndexOf(Ids(catalog), id);
              r[i] == catalog[i].(likes := catalog[i].likes + (if id in liked then -1 else 1))
              && forall k :: 0 <= k < |catalog| && k != i ==> r[k] == catalog[k]
    ensures id !in Ids(catalog) ==> r == catalog
  {
    LikesBumpedChangesOneCake(catalog, id, if id in liked then -1 else 1);
    LikesBumped(catalog, id, if id in liked then -1 else 1)
  }

  /** Only the first cake with the id changes, and only in its likes, which
      move by exactly `delta`. */
  lemma LikesBumpedChangesOneCake(catalog: seq<Cake>, id: string, delta: int)
    ensures |LikesBumped(catalog, id, delta)| == |catalog|
    ensures Ids(LikesBumped(catalog, id, delta)) == Ids(catalog)
    ensures id !in Ids(catalog) ==> LikesBumped(catalog, id, delta) == catalog
    ensures id in Ids(catalog) ==>
              var i := IndexOf(Ids(catalog), id);
              LikesBumped(catalog, id, delta)[i] == catalog[i].(likes := catalog[i].likes + delta)
              && forall k :: 0 <= k < |catalog| && k != i ==> LikesBumped(catalog, id, delta)[k] == catalog[k]
  {
  }

  /** Liking and then unliking, or the reverse, restores every like count; a
      cake that was not liked also leaves the liked list as it was. */
  lemma ToggleLikeTwice(catalog: seq<Cake>, liked: seq<string>, id: string)
    requires Distinct(liked)
    ensures var liked1 := Toggle(liked, id);
            LikedCatalog(LikedCatalog(catalog, liked, id), liked1, id) == catalog
            && (id in Toggle(liked1, id) <==> id in liked)
    ensures id !in liked ==> Toggle(Toggle(liked, id), id) == liked
  {
    var liked1 := Toggle(liked, id);
    ToggleFlipsMembership(liked, id);
    ToggleFlipsMembership(liked1, id);
    if id !in liked {
      ToggleTwiceAbsent(liked, id);
    }
    LikesBumpedInverse(catalog, id, if id in liked then -1 else 1);
  }

  lemma LikesBumpedInverse(catalog: seq<Cake>, id: string, delta: int)
    ensures LikesBumped(LikesBumped(catalog, id, delta), id, -delta) == catalog
  {
    var c1 := LikesBumped(catalog, id, delta);
    LikesBumpedChangesOneCake(catalog, id, delta);
    if id in Ids(catalog) {
      var i := IndexOf(Ids(catalog), id);
      assert catalog[i] == catalog[i].(likes := catalog[i].likes + delta).(likes := catalog[i].likes);
    }
  }

  // ---------------------------------------------------------------------
  // Creations

  /** `{ ...current, ...patch }` */
  function Merged(current: CakeCreation, patch: CreationPatch): (r: CakeCreation)
    ensures patch.cakeData.Some? ==> r.cakeData == patch.cakeData.value
    ensures patch.cakeData.None? ==> r.cakeData == current.cakeData
    ensures r.imageUrl == Spread(current.imageUrl, patch.imageUrl)
    ensures patch.status.Some? ==> r.status == patch.status.value
    ensures patch.status.None? ==> r.status == current.status
    ensures patch.createdAt.Some? ==> r.createdAt == patch.createdAt.value
    ensures patch.createdAt.None? ==> r.createdAt == current.createdAt
    ensures patch.id.Some? ==> r.id == patch.id.value
    ensures patch.id.None? ==> r.id == current.id
  {
    CakeCreation(
      if patch.id.Some? then patch.id.value else current.id,
      if patch.cakeData.Some? then patch.cakeData.value else current.cakeData,
      Spread(current.imageUrl, patch.imageUrl),
      if patch.status.Some? then patch.status.value else current.status,
      if patch.createdAt.Some? then patch.createdAt.value else current.createdAt)
  }

  function CreationIds(creations: seq<CakeCreation>): (ids: seq<string>)
    ensures |ids| == |creations|
    ensures forall i :: 0 <= i < |creations| ==> ids[i] == creations[i].id
  {
    seq(|creations|, i requires 0 <= i < |creations| => creations[i].id)
  }

  /** The first creation with the same id as `c` is replaced by it. */
  function Replaced(creations: seq<CakeCreation>, c: CakeCreation): (r: seq<CakeCreation>)
    ensures |r| == |creations| && CreationIds(r) == CreationIds(creations)
    ensures c.id !in CreationIds(creations) ==> r == creations
    ensures c.id in CreationIds(creations) ==>
              var i := IndexOf(CreationIds(creations), c.id);
              && creations[i].id == c.id && c.id !in CreationIds(creations)[..i]
              && r[i] == c
              && forall k :: 0 <= k < |creations| && k != i ==> r[k] == creations[k]
  {
    var i := IndexOf(CreationIds(creations), c.id);
    if i > -1 then creations[i := c] else creations
  }

  /** Merging a patch with the current id keeps the id, and merging the same
      patch again changes nothing. */
  lemma MergedKeepsId(current: CakeCreation, patch: CreationPatch)
    requires patch.id == Some(current.id)
    ensures Merged(current, patch).id == current.id
    ensures Merged(Merged(current, patch), patch) == Merged(current, patch)
  {
  }

  // ---------------------------------------------------------------------
  // The slice

  class CakesStore {
    var catalog: seq<Cake>
    var filteredCatalog: seq<Cake>
    var selectedCategory: string
    var userCreations: seq<CakeCreation>
    var currentCreation: Option<CakeCreation>
    var isLoading: bool
    var isGenerating: bool
    var error: Option<string>
    var likedCakes: seq<string>

    constructor ()
      ensures catalog == [] && filteredCatalog == [] && selectedCategory == AllCategories
      ensures userCreations == [] && currentCreation == None
      ensures !isLoading && !isGenerating && error == None && likedCakes == []
    {
      catalog, filteredCatalog, selectedCategory := [], [], AllCategories;
      userCreations, currentCreation := [], None;
      isLoading, isGenerating, error, likedCakes := false, false, None, [];
    }

    /** Loads a catalogue and shows all of it, whatever category was chosen. */
    method SetCatalog(cakes: seq<Cake>)
      modifies this`catalog, this`filteredCatalog
      ensures catalog == cakes && filteredCatalog == cakes
    {
      catalog := cakes;
      filteredCatalog := cakes;
    }

    method FilterByCategory(key: string)
      modifies this`selectedCategory, this`filteredCatalog
      ensures selectedCategory == key
      ensures filteredCatalog == Filtered(catalog, key)
      ensures forall c :: c in filteredCatalog <==> c in catalog && (key == AllCategories || c.category.Key() == key)
    {
      selectedCategory := key;
      if key == AllCategories {
        filteredCatalog := catalog;
      } else {
        OfCategoryMembers(catalog, key);
        filteredCatalog := OfCategory(catalog, key);
      }
    }

    /** Flips the like and moves the first matching catalogue cake's count;
        the filtered view keeps the counts it was built with. */
    method ToggleLike(id: string)
      modifies this`likedCakes, this`catalog
      ensures likedCakes == Toggle(old(likedCakes), id)
      ensures catalog == LikedCatalog(old(catalog), old(likedCakes), id)
      ensures Distinct(old(likedCakes)) ==> Distinct(likedCakes)
    {
      ghost var before := likedCakes;
      var index := IndexOf(likedCakes, id);
      if index > -1 {
        likedCakes := RemoveAt(likedCakes, index);
      } else {
        likedCakes := likedCakes + [id];
      }
      ToggleKeepsDistinct(before, id);
      var i := IndexOf(Ids(catalog), id);
      if i > -1 {
        catalog := catalog[i := catalog[i].(likes := if index > -1 then catalog[i].likes - 1 else catalog[i].likes + 1)];
      }
    }

    lemma ToggleKeepsDistinct(liked: seq<string>, id: string)
      ensures Distinct(liked) ==> Distinct(Toggle(liked, id))
    {
      if Distinct(liked) {
        ToggleFlipsMembership(liked, id);
      }
    }

    method StartCreation(c: CakeCreation)
      modifies this`currentCreation, this`userCreations
      ensures currentCreation == Some(c) && userCreations == old(userCreations) + [c]
    {
      currentCreation := Some(c);
      userCreations := userCreations + [c];
    }

    /** Applies a patch to the current creation, and to its first copy in the
        list, only when the patch names the current creation's id. */
    method UpdateCreation(patch: CreationPatch)
      modifies this`currentCreation, this`userCreations
      ensures old(currentCreation).Some? && patch.id == Some(old(currentCreation).value.id) ==>
                var m := Merged(old(currentCreation).value, patch);
                currentCreation == Some(m) && userCreations == Replaced(old(userCreations), m)
      ensures !(old(currentCreation).Some? && patch.id == Some(old(currentCreation).value.id)) ==>
                currentCreation == old(currentCreation) && userCreations == old(userCreations)
    {
      if currentCreation.Some? && patch.id == Some(currentCreation.value.id) {
        var m := Merged(currentCreation.value, patch);
        currentCreation := Some(m);
        var index := IndexOf(CreationIds(userCreations), patch.id.value);
        if index > -1 {
          userCreations := userCreations[index := m];
        }
      }
    }

    /** Marks the current creation completed, in place and in the list. */
    method SaveCreation()
      modifies this`currentCreation, this`userCreations
      ensures old(currentCreation).Some? ==>
                var m := old(currentCreation).value.(status := Completed);
                currentCreation == Some(m) && userCreations == Replaced(old(userCreations), m)
      ensures old(currentCreation).None? ==>
                currentCreation == None && userCreations == old(userCreations)
    {
      if currentCreation.Some? {
        var m := currentCreation.value.(status := Completed);
        currentCreation := Some(m);
        var index := IndexOf(CreationIds(userCreations), m.id);
        if index > -1 {
          userCreations := userCreations[index := m];
        }
      }
    }

    method SetLoading(b: bool)
      modifies this`isLoading
      ensures isLoading == b
    {
      isLoading := b;
    }

    method SetGenerating(b: bool)
      modifies this`isGenerating
      ensures isGenerating == b
    {
      isGenerating := b;
    }

    method SetError(e: Option<string>)
      modifies this`error
      ensures error == e
    {
      error := e;
    }
  }
}
