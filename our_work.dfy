/**
  The "Our Work" gallery: four image slots that the editor fills one at a
  time. In edit mode every slot is shown; in the published page only the
  filled ones are, and the section disappears when none is.
*/
module OurWork {
  import opened Wrappers
  import opened Text

  /** A slot shown in the grid, with its position among the four. */
  datatype Displayed = Displayed(img: Option<string>, idx: nat)

  /** The slots from position `from` on, with their positions; only the filled ones unless editing. */
  function DisplayedFrom(images: seq<Option<string>>, from: nat, editMode: bool): (d: seq<Displayed>)
    requires from <= |images|
    ensures |d| <= |images| - from
    ensures forall k :: 0 <= k < |d| ==> from <= d[k].idx < |images| && d[k].img == images[d[k].idx]
    ensures forall k, l :: 0 <= k < l < |d| ==> d[k].idx < d[l].idx
    ensures !editMode ==> forall k :: 0 <= k < |d| ==> Truthy(d[k].img)
    ensures forall i :: from <= i < |images| && (editMode || Truthy(images[i])) ==> Displayed(images[i], i) in d
    ensures editMode ==> |d| == |images| - from
    decreases |images| - from
  {
    if from == |images| then []
    else if editMode || Truthy(images[from]) then [Displayed(images[from], from)] + DisplayedFrom(images, from + 1, editMode)
    else DisplayedFrom(images, from + 1, editMode)
  }

  /**
    `displayedImages`: all slots with their positions in edit mode, the
    filled (truthy) ones in the published page, in slot order.
  */
  function DisplayedImages(images: seq<Option<string>>, editMode: bool): (d: seq<Displayed>)
    ensures forall k :: 0 <= k < |d| ==> d[k].idx < |images| && d[k].img == images[d[k].idx]
    ensures forall k, l :: 0 <= k < l < |d| ==> d[k].idx < d[l].idx
    ensures !editMode ==> forall k :: 0 <= k < |d| ==> Truthy(d[k].img)
    ensures forall i :: 0 <= i < |images| && (editMode || Truthy(images[i])) ==> Displayed(images[i], i) in d
    ensures editMode ==> |d| == |images|
  {
    DisplayedFrom(images, 0, editMode)
  }

  /** The published page shows exactly the filled slots, each at its own position. */
  lemma DisplayedInPublishedPage(images: seq<Option<string>>, i: nat)
    requires i < |images|
    ensures Displayed(images[i], i) in DisplayedImages(images, false) <==> Truthy(images[i])
  {
    if Displayed(images[i], i) in DisplayedImages(images, false) {
      var d := DisplayedImages(images, false);
      var k :| 0 <= k < |d| && d[k] == Displayed(images[i], i);
    }
  }

  /** The published page shows some slot exactly when some slot is filled. */
  lemma PublishedNonEmptyIff(images: seq<Option<string>>)
    ensures |DisplayedImages(images, false)| > 0 <==> exists i :: 0 <= i < |images| && Truthy(images[i])
  {
    var d := DisplayedImages(images, false);
    if exists i :: 0 <= i < |images| && Truthy(images[i]) {
      var i :| 0 <= i < |images| && Truthy(images[i]);
      assert Displayed(images[i], i) in d;
    }
    if |d| > 0 {
      assert Truthy(images[d[0].idx]);
    }
  }

  /** The section renders unless it is the published page with no filled slot. */
  predicate RendersSection(images: seq<Option<string>>, editMode: bool): (b: bool)
    ensures b <==> editMode || exists i :: 0 <= i < |images| && Truthy(images[i])
  {
    PublishedNonEmptyIff(images);
    editMode || |DisplayedImages(images, false)| > 0
  }

  /** `getGridCols(count)`: one column for one image, two or three side by side, else two. */
  function GridCols(count: int): (r: string)
    ensures StartsWith(r, "grid-cols-1")
  {
    if count == 1 then "grid-cols-1 max-w-2xl mx-auto"
    else if count == 2 then "grid-cols-1 sm:grid-cols-2"
    else if count == 3 then "grid-cols-1 sm:grid-cols-3"
    else "grid-cols-1 sm:grid-cols-2"
  }

  /** One, two and three images get three different layouts; every other count gets the two-column one. */
  lemma GridColsLayouts()
    ensures GridCols(1) != GridCols(2) && GridCols(2) != GridCols(3) && GridCols(1) != GridCols(3)
    ensures forall n :: n != 1 && n != 3 ==> GridCols(n) == GridCols(2)
  {
  }

  /** Four slots in edit mode, or four filled ones in the published page, lay out two by two. */
  lemma GridForFourSlots(images: seq<Option<string>>)
    requires |images| == 4
    ensures GridCols(|DisplayedImages(images, true)|) == "grid-cols-1 sm:grid-cols-2"
    ensures (forall i :: 0 <= i < 4 ==> Truthy(images[i])) ==>
      GridCols(|DisplayedImages(images, false)|) == "grid-cols-1 sm:grid-cols-2"
  {
    if forall i :: 0 <= i < 4 ==> Truthy(images[i]) {
      AllFilledShowsAll(images, 0);
    }
  }

  /** With every slot filled, the published page shows what the editor shows. */
  lemma {:induction false} AllFilledShowsAll(images: seq<Option<string>>, from: nat)
    requires from <= |images|
    requires forall i :: 0 <= i < |images| ==> Truthy(images[i])
    ensures DisplayedFrom(images, from, false) == DisplayedFrom(images, from, true)
    decreases |images| - from
  {
    if from < |images| {
      assert Truthy(images[from]);
      AllFilledShowsAll(images, from + 1);
    }
  }

  /**
    `handleImageChange(index, base64)`: in edit mode, the new slots are a copy
    with only slot `index` replaced; outside edit mode nothing is emitted.
  */
  function HandleImageChange(images: seq<Option<string>>, index: nat, base64: string, editMode: bool)
    : (update: Option<seq<Option<string>>>)
    requires index < |images|
    ensures !editMode ==> update.None?
    ensures editMode ==>
      && update.Some? && |update.value| == |images|
      && update.value[index] == Some(base64)
      && forall i :: 0 <= i < |images| && i != index ==> update.value[i] == images[i]
  {
    if editMode then Some(images[index := Some(base64)]) else None
  }

  /** An image placed in a slot while editing appears at that slot in the published page. */
  lemma PlacedImageIsPublished(images: seq<Option<string>>, index: nat, base64: string)
    requires index < |images| && base64 != ""
    ensures Displayed(Some(base64), index) in DisplayedImages(HandleImageChange(images, index, base64, true).value, false)
  {
    var updated := HandleImageChange(images, index, base64, true).value;
    assert Truthy(updated[index]);
  }
}
