/** The configuration record of the banner editor, its two enumerations, and
    a key-indexed view of the record that the editing operations work on.

    `BannerConfig` has a fixed, closed set of fields.  `Key` names each field
    and `Value` is the tagged union of the field types, so that "change field
    k" and "overlay a partial record" can be stated once for every field. */
module Types {

  datatype Option<+T> = None | Some(value: T)

  /** The five named anchors of the layout. */
  datatype Position = TopLeft | TopRight | Center | BottomLeft | BottomRight

  /** The five decorative background patterns. */
  datatype ShapesStyle = Geometric | Circles | Lines | Dots | Waves

  /** The whole banner description.  Colours and the font family are opaque
      strings; the three dimensions are whole numbers of pixels. */
  datatype BannerConfig = BannerConfig(
    name: string,
    showDesignation: bool,
    designation: string,
    showCompany: bool,
    company: string,
    skills: string,
    showTagline: bool,
    tagline: string,
    showContactEmail: bool,
    contactEmail: string,
    showContactPhone: bool,
    contactPhone: string,
    primaryColor: string,
    secondaryColor: string,
    accentColor: string,
    backgroundColor: string,
    width: int,
    height: int,
    namePosition: Position,
    infoPosition: Position,
    contactPosition: Position,
    fontSize: int,
    selectedTemplate: string,
    showShapes: bool,
    shapesStyle: ShapesStyle,
    fontFamily: string
  )

  /** One constructor per field of `BannerConfig`, in declaration order. */
  datatype Key =
    | Name | ShowDesignation | Designation | ShowCompany | Company | Skills
    | ShowTagline | Tagline | ShowContactEmail | ContactEmail
    | ShowContactPhone | ContactPhone
    | PrimaryColor | SecondaryColor | AccentColor | BackgroundColor
    | Width | Height | NamePosition | InfoPosition | ContactPosition
    | FontSize | SelectedTemplate | ShowShapes | ShapesStyle | FontFamily

  /** A field value of any of the record's field types. */
  datatype Value =
    | Str(s: string)
    | Flag(b: bool)
    | Num(n: int)
    | Place(p: Position)
    | Style(st: ShapesStyle)

  /** A partial record: any subset of the fields, each with a value. */
  type Patch = map<Key, Value>

  /** A named partial configuration that the editor can overlay. */
  datatype BannerTemplate = BannerTemplate(id: string, name: string, config: Patch)

  /** The field types: which kind of value each key holds. */
  predicate Fits(k: Key, v: Value) {
    match k
    case ShowDesignation | ShowCompany | ShowTagline | ShowContactEmail
       | ShowContactPhone | ShowShapes => v.Flag?
    case Width | Height | FontSize => v.Num?
    case NamePosition | InfoPosition | ContactPosition => v.Place?
    case ShapesStyle => v.Style?
    case _ => v.Str?
  }

  /** The position of the first id equal to `id`: the index
      `Array.prototype.find` stops at when it matches on ids. */
  function IndexOf(ids: seq<string>, id: string): (r: Option<nat>)
    ensures r.None? <==> forall i | 0 <= i < |ids| :: ids[i] != id
    ensures r.Some? ==> r.value < |ids| && ids[r.value] == id
    ensures r.Some? ==> forall i | 0 <= i < r.value :: ids[i] != id
  {
    if |ids| == 0 then None
    else if ids[0] == id then Some(0)
    else
      match IndexOf(ids[1..], id)
      case None => None
      case Some(i) => Some(i + 1)
  }

  predicate WellTyped(p: Patch) {
    forall k | k in p :: Fits(k, p[k])
  }

  /** Reads the field named `k`. */
  function Get(c: BannerConfig, k: Key): (v: Value)
    ensures Fits(k, v)
  {
    match k
    case Name => Str(c.name)
    case ShowDesignation => Flag(c.showDesignation)
    case Designation => Str(c.designation)
    case ShowCompany => Flag(c.showCompany)
    case Company => Str(c.company)
    case Skills => Str(c.skills)
    case ShowTagline => Flag(c.showTagline)
    case Tagline => Str(c.tagline)
    case ShowContactEmail => Flag(c.showContactEmail)
    case ContactEmail => Str(c.contactEmail)
    case ShowContactPhone => Flag(c.showContactPhone)
    case ContactPhone => Str(c.contactPhone)
    case PrimaryColor => Str(c.primaryColor)
    case SecondaryColor => Str(c.secondaryColor)
    case AccentColor => Str(c.accentColor)
    case BackgroundColor => Str(c.backgroundColor)
    case Width => Num(c.width)
    case Height => Num(c.height)
    case NamePosition => Place(c.namePosition)
    case InfoPosition => Place(c.infoPosition)
    case ContactPosition => Place(c.contactPosition)
    case FontSize => Num(c.fontSize)
    case SelectedTemplate => Str(c.selectedTemplate)
    case ShowShapes => Flag(c.showShapes)
    case ShapesStyle => Style(c.shapesStyle)
    case FontFamily => Str(c.fontFamily)
  }

  /* Typed readers of a partial record: the value stored under `k` when
     there is one of the right kind, and `otherwise` when there is not. */
  function StrAt(p: Patch, k: Key, otherwise: string): string {
    if k in p && p[k].Str? then p[k].s else otherwise
  }

  function FlagAt(p: Patch, k: Key, otherwise: bool): bool {
    if k in p && p[k].Flag? then p[k].b else otherwise
  }

  function NumAt(p: Patch, k: Key, otherwise: int): int {
    if k in p && p[k].Num? then p[k].n else otherwise
  }

  function PlaceAt(p: Patch, k: Key, otherwise: Position): Position {
    if k in p && p[k].Place? then p[k].p else otherwise
  }

  function StyleAt(p: Patch, k: Key, otherwise: ShapesStyle): ShapesStyle {
    if k in p && p[k].Style? then p[k].st else otherwise
  }

  /** Overlays the partial record `p` on `c`, the object spread
      `{ ...c, ...p }`: every key present in `p` takes its value from `p`,
      every other key keeps its value from `c`. */
  function Merge(c: BannerConfig, p: Patch): (r: BannerConfig)
    requires WellTyped(p)
    ensures forall k :: Get(r, k) == (if k in p then p[k] else Get(c, k))
  {
    OverlayReadsBack(c, p);
    Overlay(c, p)
  }

  /** Merge's read-back at one field, for proofs that step through several
      merges one field at a time. */
  lemma ReadMerge(c: BannerConfig, p: Patch, k: Key)
    requires WellTyped(p)
    ensures Get(Merge(c, p), k) == if k in p then p[k] else Get(c, k)
  {
  }

  function Overlay(c: BannerConfig, p: Patch): BannerConfig {
    BannerConfig(
      StrAt(p, Name, c.name),
      FlagAt(p, ShowDesignation, c.showDesignation),
      StrAt(p, Designation, c.designation),
      FlagAt(p, ShowCompany, c.showCompany),
      StrAt(p, Company, c.company),
      StrAt(p, Skills, c.skills),
      FlagAt(p, ShowTagline, c.showTagline),
      StrAt(p, Tagline, c.tagline),
      FlagAt(p, ShowContactEmail, c.showContactEmail),
      StrAt(p, ContactEmail, c.contactEmail),
      FlagAt(p, ShowContactPhone, c.showContactPhone),
      StrAt(p, ContactPhone, c.contactPhone),
      StrAt(p, PrimaryColor, c.primaryColor),
      StrAt(p, SecondaryColor, c.secondaryColor),
      StrAt(p, AccentColor, c.accentColor),
      StrAt(p, BackgroundColor, c.backgroundColor),
      NumAt(p, Width, c.width),
      NumAt(p, Height, c.height),
      PlaceAt(p, NamePosition, c.namePosition),
      PlaceAt(p, InfoPosition, c.infoPosition),
      PlaceAt(p, ContactPosition, c.contactPosition),
      NumAt(p, FontSize, c.fontSize),
      StrAt(p, SelectedTemplate, c.selectedTemplate),
      FlagAt(p, ShowShapes, c.showShapes),
      StyleAt(p, ShapesStyle, c.shapesStyle),
      StrAt(p, FontFamily, c.fontFamily))
  }

  /** Reading a key back after an overlay gives the patch's value, or the
      record's own where the patch is silent. The proof goes one key group
      at a time (`OverlayReadsBack0` to `OverlayReadsBack3`, see
      `ProofGroup`): a case split over all twenty-six keys at once costs the
      solver far more than four splits of about seven. */
  lemma OverlayReadsBack(c: BannerConfig, p: Patch)
    requires WellTyped(p)
    ensures forall k :: Get(Overlay(c, p), k) == (if k in p then p[k] else Get(c, k))
  {
    OverlayReadsBack0(c, p);
    OverlayReadsBack1(c, p);
    OverlayReadsBack2(c, p);
    OverlayReadsBack3(c, p);
    forall k
      ensures Get(Overlay(c, p), k) == (if k in p then p[k] else Get(c, k))
    {
      assert ProofGroup(k) < 4;
    }
  }

  lemma OverlayReadsBack0(c: BannerConfig, p: Patch)
    requires WellTyped(p)
    ensures forall k | ProofGroup(k) == 0 :: Get(Overlay(c, p), k) == (if k in p then p[k] else Get(c, k))
  {
    forall k | ProofGroup(k) == 0
      ensures Get(Overlay(c, p), k) == (if k in p then p[k] else Get(c, k))
    {
      match k {
        case Name => {}
        case ShowDesignation => {}
        case Designation => {}
        case ShowCompany => {}
        case Company => {}
        case Skills => {}
        case ShowTagline => {}
        case _ => {}
      }
    }
  }

  lemma OverlayReadsBack1(c: BannerConfig, p: Patch)
    requires WellTyped(p)
    ensures forall k | ProofGroup(k) == 1 :: Get(Overlay(c, p), k) == (if k in p then p[k] else Get(c, k))
  {
    forall k | ProofGroup(k) == 1
      ensures Get(Overlay(c, p), k) == (if k in p then p[k] else Get(c, k))
    {
      match k {
        case Tagline => {}
        case ShowContactEmail => {}
        case ContactEmail => {}
        case ShowContactPhone => {}
        case ContactPhone => {}
        case PrimaryColor => {}
        case _ => {}
      }
    }
  }

  lemma OverlayReadsBack2(c: BannerConfig, p: Patch)
    requires WellTyped(p)
    ensures forall k | ProofGroup(k) == 2 :: Get(Overlay(c, p), k) == (if k in p then p[k] else Get(c, k))
  {
    forall k | ProofGroup(k) == 2
      ensures Get(Overlay(c, p), k) == (if k in p then p[k] else Get(c, k))
    {
      match k {
        case SecondaryColor => {}
        case AccentColor => {}
        case BackgroundColor => {}
        case Width => {}
        case Height => {}
        case NamePosition => {}
        case InfoPosition => {}
        case _ => {}
      }
    }
  }

  lemma OverlayReadsBack3(c: BannerConfig, p: Patch)
    requires WellTyped(p)
    ensures forall k | ProofGroup(k) == 3 :: Get(Overlay(c, p), k) == (if k in p then p[k] else Get(c, k))
  {
    forall k | ProofGroup(k) == 3
      ensures Get(Overlay(c, p), k) == (if k in p then p[k] else Get(c, k))
    {
      match k {
        case ContactPosition => {}
        case FontSize => {}
        case SelectedTemplate => {}
        case ShowShapes => {}
        case ShapesStyle => {}
        case FontFamily => {}
        case _ => {}
      }
    }
  }

  /* Splits the keys into four groups of about seven, so that a proof by
     cases over the keys can be done one group at a time. */
  function ProofGroup(k: Key): nat {
    match k
    case Name => 0
    case ShowDesignation => 0
    case Designation => 0
    case ShowCompany => 0
    case Company => 0
    case Skills => 0
    case ShowTagline => 0
    case Tagline => 1
    case ShowContactEmail => 1
    case ContactEmail => 1
    case ShowContactPhone => 1
    case ContactPhone => 1
    case PrimaryColor => 1
    case SecondaryColor => 2
    case AccentColor => 2
    case BackgroundColor => 2
    case Width => 2
    case Height => 2
    case NamePosition => 2
    case InfoPosition => 2
    case ContactPosition => 3
    case FontSize => 3
    case SelectedTemplate => 3
    case ShowShapes => 3
    case ShapesStyle => 3
    case FontFamily => 3
  }

  /** Two records are equal exactly when they agree on every key. As with
      `OverlayReadsBack`, the proof is split by `ProofGroup` into
      `FieldsAgree0` to `FieldsAgree3` to keep each solver query small. */
  lemma Extensionality(a: BannerConfig, b: BannerConfig)
    requires forall k :: Get(a, k) == Get(b, k)
    ensures a == b
  {
    FieldsAgree0(a, b);
    FieldsAgree1(a, b);
    FieldsAgree2(a, b);
    FieldsAgree3(a, b);
  }

  lemma FieldsAgree0(a: BannerConfig, b: BannerConfig)
    requires forall k :: Get(a, k) == Get(b, k)
    ensures a.name == b.name
    ensures a.showDesignation == b.showDesignation
    ensures a.designation == b.designation
    ensures a.showCompany == b.showCompany
    ensures a.company == b.company
    ensures a.skills == b.skills
    ensures a.showTagline == b.showTagline
  {
    assert Get(a, Name) == Get(b, Name);
    assert Get(a, ShowDesignation) == Get(b, ShowDesignation);
    assert Get(a, Designation) == Get(b, Designation);
    assert Get(a, ShowCompany) == Get(b, ShowCompany);
    assert Get(a, Company) == Get(b, Company);
    assert Get(a, Skills) == Get(b, Skills);
    assert Get(a, ShowTagline) == Get(b, ShowTagline);
  }

  lemma FieldsAgree1(a: BannerConfig, b: BannerConfig)
    requires forall k :: Get(a, k) == Get(b, k)
    ensures a.tagline == b.tagline
    ensures a.showContactEmail == b.showContactEmail
    ensures a.contactEmail == b.contactEmail
    ensures a.showContactPhone == b.showContactPhone
    ensures a.contactPhone == b.contactPhone
    ensures a.primaryColor == b.primaryColor
  {
    assert Get(a, Tagline) == Get(b, Tagline);
    assert Get(a, ShowContactEmail) == Get(b, ShowContactEmail);
    assert Get(a, ContactEmail) == Get(b, ContactEmail);
    assert Get(a, ShowContactPhone) == Get(b, ShowContactPhone);
    assert Get(a, ContactPhone) == Get(b, ContactPhone);
    assert Get(a, PrimaryColor) == Get(b, PrimaryColor);
  }

  lemma FieldsAgree2(a: BannerConfig, b: BannerConfig)
    requires forall k :: Get(a, k) == Get(b, k)
    ensures a.secondaryColor == b.secondaryColor
    ensures a.accentColor == b.accentColor
    ensures a.backgroundColor == b.backgroundColor
    ensures a.width == b.width
    ensures a.height == b.height
    ensures a.namePosition == b.namePosition
    ensures a.infoPosition == b.infoPosition
  {
    assert Get(a, SecondaryColor) == Get(b, SecondaryColor);
    assert Get(a, AccentColor) == Get(b, AccentColor);
    assert Get(a, BackgroundColor) == Get(b, BackgroundColor);
    assert Get(a, Width) == Get(b, Width);
    assert Get(a, Height) == Get(b, Height);
    assert Get(a, NamePosition) == Get(b, NamePosition);
    assert Get(a, InfoPosition) == Get(b, InfoPosition);
  }

  lemma FieldsAgree3(a: BannerConfig, b: BannerConfig)
    requires forall k :: Get(a, k) == Get(b, k)
    ensures a.contactPosition == b.contactPosition
    ensures a.fontSize == b.fontSize
    ensures a.selectedTemplate == b.selectedTemplate
    ensures a.showShapes == b.showShapes
    ensures a.shapesStyle == b.shapesStyle
    ensures a.fontFamily == b.fontFamily
  {
    assert Get(a, ContactPosition) == Get(b, ContactPosition);
    assert Get(a, FontSize) == Get(b, FontSize);
    assert Get(a, SelectedTemplate) == Get(b, SelectedTemplate);
    assert Get(a, ShowShapes) == Get(b, ShowShapes);
    assert Get(a, ShapesStyle) == Get(b, ShapesStyle);
    assert Get(a, FontFamily) == Get(b, FontFamily);
  }
}
