/** The wardrobe and profile handlers of the `App` component, each a pure
    transition on the editing state. Ids and blob URLs that the source draws
    from the clock, the random generator or the browser are parameters. */
module WardrobeEdits {
  import opened Wrappers
  import opened Types
  import opened Presets

  /** Items a slot may hold: one for headwear and footwear, two otherwise
      (accessories included, although its upload widget offers three). */
  function SlotCap(slot: Slot): nat {
    if slot == Headwear || slot == Footwear then 1 else 2
  }

  predicate WithinCaps(w: Wardrobe) {
    forall slot :: |w.Get(slot)| <= SlotCap(slot)
  }

  /** `b` keeps `a`'s elements in order, possibly with more in between. */
  predicate IsSubsequence<T(==)>(a: seq<T>, b: seq<T>)
    decreases |b|
  {
    |a| == 0 || (|b| > 0 && if a[0] == b[0] then IsSubsequence(a[1..], b[1..]) else IsSubsequence(a, b[1..]))
  }

  /** `items.filter(item => item.id !== id)` */
  function Without(items: seq<ClothingItem>, id: string): (r: seq<ClothingItem>)
    ensures |r| <= |items|
    ensures forall x :: x in r ==> x.id != id
    ensures forall x :: multiset(r)[x] == if x.id == id then 0 else multiset(items)[x]
    ensures IsSubsequence(r, items)
    ensures (forall x :: x in items ==> x.id != id) ==> r == items
  {
    if |items| == 0 then []
    else
      var rest := Without(items[1..], id);
      assert items == [items[0]] + items[1..];
      if items[0].id != id then [items[0]] + rest else rest
  }

  /** `addWardrobeItem`: a new uploaded item goes last in its slot, unless
      the slot is already full, in which case nothing changes. */
  function AddWardrobeItem(s: AppState, slot: Slot, file: Upload, id: string, blobUrl: string): (r: AppState)
    ensures r == s <==> |s.wardrobe.Get(slot)| >= SlotCap(slot)
    ensures |s.wardrobe.Get(slot)| < SlotCap(slot) ==>
      r.wardrobe.Get(slot) == s.wardrobe.Get(slot) + [ClothingItem(id, Some(file), blobUrl)]
    ensures forall other :: other != slot ==> r.wardrobe.Get(other) == s.wardrobe.Get(other)
    ensures r.profilePhoto == s.profilePhoto && r.profilePreviewUrl == s.profilePreviewUrl
    ensures WithinCaps(s.wardrobe) ==> WithinCaps(r.wardrobe)
  {
    var current := s.wardrobe.Get(slot);
    if |current| >= SlotCap(slot) then s
    else s.(wardrobe := s.wardrobe.Set(slot, current + [ClothingItem(id, Some(file), blobUrl)]))
  }

  /** `removeWardrobeItem`: drop every item of the slot carrying `id`. */
  function RemoveWardrobeItem(s: AppState, slot: Slot, id: string): (r: AppState)
    ensures r.wardrobe.Get(slot) == Without(s.wardrobe.Get(slot), id)
    ensures |r.wardrobe.Get(slot)| <= |s.wardrobe.Get(slot)|
    ensures forall other :: other != slot ==> r.wardrobe.Get(other) == s.wardrobe.Get(other)
    ensures r.profilePhoto == s.profilePhoto && r.profilePreviewUrl == s.profilePreviewUrl
    ensures WithinCaps(s.wardrobe) ==> WithinCaps(r.wardrobe)
  {
    s.(wardrobe := s.wardrobe.Set(slot, Without(s.wardrobe.Get(slot), id)))
  }

  /** `randomizeWardrobeItem`: replace the slot by one preset item, or do
      nothing when the draw yields no (or an empty) URL. */
  function RandomizeWardrobeItem(s: AppState, lib: AssetLibrary, slot: Slot, choice: nat, stamp: string): (r: AppState)
    ensures |lib.Presets(slot)| == 0 ==> r == s
    ensures !Truthy(GetRandom(lib.Presets(slot), choice)) ==> r == s
    ensures Truthy(GetRandom(lib.Presets(slot), choice)) ==>
              r.wardrobe.Get(slot) == [ClothingItem("preset_" + stamp, None, GetRandom(lib.Presets(slot), choice).value)]
    ensures r != s ==>
              && |r.wardrobe.Get(slot)| == 1
              && r.wardrobe.Get(slot)[0].previewUrl in lib.Presets(slot)
              && r.wardrobe.Get(slot)[0].previewUrl != ""
              && r.wardrobe.Get(slot)[0].file.None?
    ensures forall other :: other != slot ==> r.wardrobe.Get(other) == s.wardrobe.Get(other)
    ensures r.profilePhoto == s.profilePhoto && r.profilePreviewUrl == s.profilePreviewUrl
    ensures WithinCaps(s.wardrobe) ==> WithinCaps(r.wardrobe)
  {
    var url := GetRandom(lib.Presets(slot), choice);
    if !Truthy(url) then s
    else s.(wardrobe := s.wardrobe.Set(slot, [ClothingItem("preset_" + stamp, None, url.value)]))
  }

  /** `randomizeProfile`: a truthy preset URL becomes the profile preview
      and discards any uploaded profile file; otherwise nothing changes. */
  function RandomizeProfile(s: AppState, lib: AssetLibrary, choice: nat): (r: AppState)
    ensures |lib.profile| == 0 ==> r == s
    ensures !Truthy(GetRandom(lib.profile, choice)) ==> r == s
    ensures Truthy(GetRandom(lib.profile, choice)) ==>
              r.profilePreviewUrl == GetRandom(lib.profile, choice) && r.profilePhoto.None?
    ensures r != s ==> r.HasProfile() && r.profilePreviewUrl.value in lib.profile && r.profilePhoto.None?
    ensures r.wardrobe == s.wardrobe
  {
    var url := GetRandom(lib.profile, choice);
    if Truthy(url) then s.(profilePhoto := None, profilePreviewUrl := url) else s
  }

  /** With profile presets that are all non-empty URLs, a profile shuffle
      always leaves a profile that passes the generation pre-flight. */
  lemma ShuffledProfileIsUsable(s: AppState, lib: AssetLibrary, choice: nat)
    requires |lib.profile| > 0
    requires forall i :: 0 <= i < |lib.profile| ==> lib.profile[i] != ""
    ensures RandomizeProfile(s, lib, choice).HasProfile()
  {
  }

  /** Letter tagging the ids `randomizeAll` gives each slot's preset. */
  function SlotTag(slot: Slot): string {
    match slot
    case Headwear => "h"
    case UpperBody => "u"
    case LowerBody => "l"
    case Footwear => "f"
    case Accessories => "a"
  }

  /** One slot of `randomizeAll`: the slot's draw, if truthy, as a single
      preset item tagged with the slot's letter; otherwise an empty slot. */
  function ShuffledSlot(lib: AssetLibrary, slot: Slot, choice: nat, stamp: string): (items: seq<ClothingItem>)
    ensures |items| <= 1
    ensures |items| == 1 <==> Truthy(GetRandom(lib.Presets(slot), choice))
    ensures Truthy(GetRandom(lib.Presets(slot), choice)) ==>
              items == [ClothingItem("preset_" + SlotTag(slot) + "_" + stamp, None, GetRandom(lib.Presets(slot), choice).value)]
    ensures |items| == 1 ==> items[0].previewUrl in lib.Presets(slot) && items[0].file.None?
  {
    var url := GetRandom(lib.Presets(slot), choice);
    if Truthy(url) then [ClothingItem("preset_" + SlotTag(slot) + "_" + stamp, None, url.value)] else []
  }

  /** `randomizeAll`: a fresh random outfit. The profile preview is set to
      the draw as it is, even when the profile preset list is empty. Each slot
      reads the clock separately, so each gets its own id stamp. */
  function RandomizeAll(s: AppState, lib: AssetLibrary, profileChoice: nat, slotChoice: Slot -> nat, slotStamp: Slot -> string): (r: AppState)
    ensures r.profilePhoto.None?
    ensures r.profilePreviewUrl == GetRandom(lib.profile, profileChoice)
    ensures r.profilePreviewUrl.None? <==> |lib.profile| == 0
    ensures r.profilePreviewUrl.Some? ==> r.profilePreviewUrl.value in lib.profile
    ensures forall slot :: |r.wardrobe.Get(slot)| <= 1
    ensures forall slot :: |r.wardrobe.Get(slot)| == 1 <==> Truthy(GetRandom(lib.Presets(slot), slotChoice(slot)))
    ensures forall slot :: Truthy(GetRandom(lib.Presets(slot), slotChoice(slot))) ==>
              r.wardrobe.Get(slot) == [ClothingItem("preset_" + SlotTag(slot) + "_" + slotStamp(slot), None,
                                                    GetRandom(lib.Presets(slot), slotChoice(slot)).value)]
    ensures forall slot :: |r.wardrobe.Get(slot)| == 1 ==>
      r.wardrobe.Get(slot)[0].previewUrl in lib.Presets(slot) && r.wardrobe.Get(slot)[0].file.None?
    ensures forall slot :: |lib.Presets(slot)| == 0 ==> r.wardrobe.Get(slot) == []
    ensures WithinCaps(r.wardrobe)
  {
    var w := FromSlots(slot => ShuffledSlot(lib, slot, slotChoice(slot), slotStamp(slot)));
    AppState(None, GetRandom(lib.profile, profileChoice), w)
  }

  /** Filtering distributes over concatenation. */
  lemma {:induction false} WithoutAppend(a: seq<ClothingItem>, b: seq<ClothingItem>, id: string)
    ensures Without(a + b, id) == Without(a, id) + Without(b, id)
    decreases |a|
  {
    if |a| == 0 {
      assert a + b == b;
    } else {
      assert (a + b)[1..] == a[1..] + b;
      WithoutAppend(a[1..], b, id);
    }
  }

  /** Removing an item just added, by its (fresh) id, undoes the addition. */
  lemma AddThenRemove(s: AppState, slot: Slot, file: Upload, id: string, blobUrl: string)
    requires forall x :: x in s.wardrobe.Get(slot) ==> x.id != id
    ensures RemoveWardrobeItem(AddWardrobeItem(s, slot, file, id, blobUrl), slot, id) == s
  {
  }

  /** Removing the same id twice is the same as removing it once. */
  lemma RemoveIdempotent(s: AppState, slot: Slot, id: string)
    ensures RemoveWardrobeItem(RemoveWardrobeItem(s, slot, id), slot, id) == RemoveWardrobeItem(s, slot, id)
  {
  }
}
