/** The records of the application state: wardrobe slots, clothing items,
    the top-level editing state and the preset asset library. */
module Types {
  import opened Wrappers

  /** The five wardrobe categories (the keys of `Wardrobe`). */
  datatype Slot = Headwear | UpperBody | LowerBody | Footwear | Accessories

  /** A user-selected file; its contents never matter to the state logic. */
  datatype Upload = Upload(handle: nat)

  /** One garment: uploaded items carry their file, presets do not. */
  datatype ClothingItem = ClothingItem(id: string, file: Option<Upload>, previewUrl: string)

  /** An ordered list of items per slot; order is insertion order. */
  datatype Wardrobe = Wardrobe(
    headwear: seq<ClothingItem>,
    upperBody: seq<ClothingItem>,
    lowerBody: seq<ClothingItem>,
    footwear: seq<ClothingItem>,
    accessories: seq<ClothingItem>)
  {
    /** `wardrobe[slot]` */
    function Get(slot: Slot): seq<ClothingItem> {
      match slot
      case Headwear => headwear
      case UpperBody => upperBody
      case LowerBody => lowerBody
      case Footwear => footwear
      case Accessories => accessories
    }

    /** `{ ...wardrobe, [slot]: items }` */
    function Set(slot: Slot, items: seq<ClothingItem>): (w: Wardrobe)
      ensures w.Get(slot) == items
      ensures forall other :: other != slot ==> w.Get(other) == Get(other)
    {
      match slot
      case Headwear => this.(headwear := items)
      case UpperBody => this.(upperBody := items)
      case LowerBody => this.(lowerBody := items)
      case Footwear => this.(footwear := items)
      case Accessories => this.(accessories := items)
    }
  }

  const InitialWardrobe := Wardrobe([], [], [], [], [])

  /** The wardrobe whose every slot holds what `content` gives for it. */
  function FromSlots(content: Slot -> seq<ClothingItem>): (w: Wardrobe)
    ensures forall slot :: w.Get(slot) == content(slot)
  {
    Wardrobe(content(Headwear), content(UpperBody), content(LowerBody), content(Footwear), content(Accessories))
  }

  /** The editing state: an optional uploaded profile photo, the profile
      preview URL shown (and checked before generating), and the wardrobe. */
  datatype AppState = AppState(
    profilePhoto: Option<Upload>,
    profilePreviewUrl: Option<string>,
    wardrobe: Wardrobe)
  {
    /** The pre-flight profile test `!!state.profilePreviewUrl`. */
    predicate HasProfile() {
      Truthy(profilePreviewUrl)
    }
  }

  /** Preset image URLs per category; starts as the built-in presets and may
      be replaced by the library browser. */
  datatype AssetLibrary = AssetLibrary(
    profile: seq<string>,
    upperBody: seq<string>,
    lowerBody: seq<string>,
    footwear: seq<string>,
    headwear: seq<string>,
    accessories: seq<string>)
  {
    /** `assetLibrary[slot]` for a wardrobe category. */
    function Presets(slot: Slot): seq<string> {
      match slot
      case Headwear => headwear
      case UpperBody => upperBody
      case LowerBody => lowerBody
      case Footwear => footwear
      case Accessories => accessories
    }
  }
}
