/**
 The data-preparation script that relabels the property type of every
 listing in the dataset: "Home/Apt" becomes "FarmHouses", anything else
 becomes "DJ". Reading and writing the JSON file is not modelled; the
 dataset is a sequence of listings.
 */
module Relabel {
  import opened Listings

  const HomeApt := "Home/Apt"
  const FarmHouses := "FarmHouses"
  const DJ := "DJ"

  /** The two labels the script produces. */
  predicate IsRelabelled(l: Listing) {
    l.propertyType == FarmHouses || l.propertyType == DJ
  }

  /** `modifytype`: relabels one listing and touches no other field. */
  function ModifyType(l: Listing): (r: Listing)
    ensures IsRelabelled(r)
    ensures r.propertyType == FarmHouses <==> l.propertyType == HomeApt
    ensures r.propertyType == DJ <==> l.propertyType != HomeApt
    ensures r.(propertyType := l.propertyType) == l
  {
    if l.propertyType == HomeApt then l.(propertyType := FarmHouses)
    else l.(propertyType := DJ)
  }

  /** The script's loop: `modifytype` on every listing, in order. */
  function RelabelAll(ls: seq<Listing>): (r: seq<Listing>)
    ensures |r| == |ls|
    ensures forall i :: 0 <= i < |ls| ==> r[i] == ModifyType(ls[i])
    ensures forall i :: 0 <= i < |r| ==> IsRelabelled(r[i])
    decreases |ls|
  {
    if |ls| == 0 then []
    else [ModifyType(ls[0])] + RelabelAll(ls[1..])
  }

  /** The script never moves a listing: the coordinate helper it defines is
      never called, so latitude and longitude come out as they went in. */
  lemma RelabelKeepsCoordinates(ls: seq<Listing>)
    ensures forall i :: 0 <= i < |ls| ==>
      RelabelAll(ls)[i].latitude == ls[i].latitude && RelabelAll(ls)[i].longitude == ls[i].longitude
  {
  }

  /** "FarmHouses" is not "Home/Apt", so a second pass turns it into "DJ". */
  lemma ModifyTypeTwiceIsDJ(l: Listing)
    ensures ModifyType(ModifyType(l)).propertyType == DJ
  {
  }

  /** Running the script twice labels every listing "DJ". */
  lemma RelabelTwiceIsAllDJ(ls: seq<Listing>)
    ensures forall i :: 0 <= i < |ls| ==> RelabelAll(RelabelAll(ls))[i].propertyType == DJ
  {
    forall i | 0 <= i < |ls|
      ensures RelabelAll(RelabelAll(ls))[i].propertyType == DJ
    {
      ModifyTypeTwiceIsDJ(ls[i]);
    }
  }

  /** The relabelling is not idempotent: any dataset holding a "Home/Apt"
      listing changes on a second pass. */
  lemma RelabelNotIdempotent(ls: seq<Listing>, i: int)
    requires 0 <= i < |ls| && ls[i].propertyType == HomeApt
    ensures RelabelAll(RelabelAll(ls)) != RelabelAll(ls)
  {
    assert RelabelAll(ls)[i].propertyType == FarmHouses;
    ModifyTypeTwiceIsDJ(ls[i]);
    assert RelabelAll(RelabelAll(ls))[i].propertyType == DJ;
  }
}
