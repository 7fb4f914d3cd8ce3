/**
 * The "Life Outside Work" card: a carousel over life areas with an icon bar,
 * and the lookup of an area's icon by name.
 */
module LifeOutsideWorkCard {
  import opened Wrappers
  import opened Carousel

  datatype Icon =
    | FaRunning | FaBrain | FaGuitar | FaPlane | FaBookOpen | FaCode
    | FaMapMarkedAlt | GiMountainClimbing | MdFoodBank | MdVolunteerActivism
    | BiSolidCameraMovie | FaChess

  /** The key of the icon in the lookup table. */
  function IconName(i: Icon): string {
    match i
    case FaRunning => "FaRunning"
    case FaBrain => "FaBrain"
    case FaGuitar => "FaGuitar"
    case FaPlane => "FaPlane"
    case FaBookOpen => "FaBookOpen"
    case FaCode => "FaCode"
    case FaMapMarkedAlt => "FaMapMarkedAlt"
    case GiMountainClimbing => "GiMountainClimbing"
    case MdFoodBank => "MdFoodBank"
    case MdVolunteerActivism => "MdVolunteerActivism"
    case BiSolidCameraMovie => "BiSolidCameraMovie"
    case FaChess => "FaChess"
  }

  /** The own entries of the `icons` table. */
  function IconTable(name: string): (r: Option<Icon>)
    ensures r.Some? ==> IconName(r.value) == name
  {
    match name
    case "FaRunning" => Some(FaRunning)
    case "FaBrain" => Some(FaBrain)
    case "FaGuitar" => Some(FaGuitar)
    case "FaPlane" => Some(FaPlane)
    case "FaBookOpen" => Some(FaBookOpen)
    case "FaCode" => Some(FaCode)
    case "FaMapMarkedAlt" => Some(FaMapMarkedAlt)
    case "GiMountainClimbing" => Some(GiMountainClimbing)
    case "MdFoodBank" => Some(MdFoodBank)
    case "MdVolunteerActivism" => Some(MdVolunteerActivism)
    case "BiSolidCameraMovie" => Some(BiSolidCameraMovie)
    case "FaChess" => Some(FaChess)
    case _ => None
  }

  /** Every icon of the table is found under its own name. */
  lemma IconTableComplete(i: Icon)
    ensures IconTable(IconName(i)) == Some(i)
  {
  }

  /** The property names every object literal inherits from `Object.prototype`. */
  const ObjectPrototypeMembers: set<string> := {
    "constructor", "hasOwnProperty", "isPrototypeOf", "propertyIsEnumerable",
    "toLocaleString", "toString", "valueOf", "__proto__",
    "__defineGetter__", "__defineSetter__", "__lookupGetter__", "__lookupSetter__"
  }

  /** What `icons[name] || <FaChess/>` evaluates to. */
  datatype Lookup = Element(icon: Icon) | InheritedMember(name: string)

  /**
   * The lookup as written: `icons` is a plain object, so a name it inherits
   * from `Object.prototype` reads a (truthy) function or object and the
   * default is not taken.
   */
  function GetIconComponentAsWritten(name: string): (r: Lookup)
    ensures r.InheritedMember? <==> IconTable(name).None? && name in ObjectPrototypeMembers
  {
    match IconTable(name)
    case Some(i) => Element(i)
    case None => if name in ObjectPrototypeMembers then InheritedMember(name) else Element(FaChess)
  }

  /** "toString" is not one of the twelve names, yet the lookup as written does not give the default. */
  lemma AsWrittenSkipsDefault()
    ensures IconTable("toString") == None
    ensures GetIconComponentAsWritten("toString") == InheritedMember("toString")
    ensures GetIconComponent("toString") == FaChess
  {
  }

  /** The lookup as intended: the icon of a listed name, `FaChess` for every other name. */
  function GetIconComponent(name: string): (r: Icon)
    ensures IconTable(name).Some? ==> IconName(r) == name
    ensures IconTable(name).None? ==> r == FaChess
  {
    IconTable(name).GetOr(FaChess)
  }

  /** Every named icon maps back to itself, and the corrected lookup agrees with the written one off the prototype names. */
  lemma GetIconComponentCorrect(i: Icon, name: string)
    ensures GetIconComponent(IconName(i)) == i
    ensures name !in ObjectPrototypeMembers ==> GetIconComponentAsWritten(name) == Element(GetIconComponent(name))
  {
    IconTableComplete(i);
  }

  datatype LifeArea = LifeArea(title: string, description: string, icon: string, imageUrl: string)

  datatype Body = Skeleton | NoInformation | Showing(area: LifeArea, controls: bool)

  /** The main content: skeleton, the empty message, or the active area with controls when there are several. */
  function CardBody(areas: seq<LifeArea>, activeIndex: int, loading: bool): (b: Body)
    requires |areas| > 0 ==> 0 <= activeIndex < |areas|
    ensures b.Skeleton? <==> loading
    ensures b.NoInformation? <==> !loading && areas == []
    ensures b.Showing? ==> b.area == areas[activeIndex] && (b.controls <==> |areas| > 1)
  {
    if loading then Skeleton
    else if |areas| == 0 then NoInformation
    else Showing(areas[activeIndex], |areas| > 1)
  }

  /** The icon bar is shown once loaded, for a non-empty list. */
  predicate IconBarShown(areas: seq<LifeArea>, loading: bool) {
    !loading && |areas| > 0
  }

  /** The card's `activeIndex` state over its life areas. */
  class LifeAreaCarousel {
    const lifeAreas: seq<LifeArea>
    var activeIndex: int

    ghost predicate Valid()
      reads this
    {
      |lifeAreas| > 0 ==> 0 <= activeIndex < |lifeAreas|
    }

    constructor (lifeAreas: seq<LifeArea>)
      ensures this.lifeAreas == lifeAreas && activeIndex == 0 && Valid()
    {
      this.lifeAreas := lifeAreas;
      activeIndex := 0;
    }

    function Shown(loading: bool): Body
      requires Valid()
      reads this
    {
      CardBody(lifeAreas, activeIndex, loading)
    }

    /** The icon-bar item and the dot of `index` are marked active. */
    predicate IsActive(index: int)
      reads this
    {
      index == activeIndex
    }

    /** `nextArea`. */
    method Next()
      requires Valid()
      modifies this
      ensures Valid()
      ensures activeIndex == NextWrap(old(activeIndex), |lifeAreas|)
    {
      if activeIndex == |lifeAreas| - 1 {
        activeIndex := 0;
      } else {
        activeIndex := activeIndex + 1;
      }
    }

    /** `prevArea`. */
    method Prev()
      requires Valid()
      modifies this
      ensures Valid()
      ensures activeIndex == PrevWrap(old(activeIndex), |lifeAreas|)
    {
      if activeIndex == 0 {
        activeIndex := |lifeAreas| - 1;
      } else {
        activeIndex := activeIndex - 1;
      }
    }

    /** A click on the icon-bar item or the dot of `index`: that item alone becomes active. */
    method Select(index: int)
      requires 0 <= index < |lifeAreas|
      modifies this
      ensures Valid() && activeIndex == index
      ensures forall j :: IsActive(j) <==> j == index
    {
      activeIndex := index;
    }
  }
}
