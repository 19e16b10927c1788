/** The colour panel: four colour inputs, each reporting one colour field
    through the editor's update handler, and a grid of predefined palettes
    whose selection reports all four colours in a fixed order.  The palette
    table lives in a file that is not part of this model, so it is a
    parameter here. */
module Palette {
  import opened Types
  import opened Editor

  /** A predefined palette: an id, a display name and four colours. */
  datatype ColorPalette = ColorPalette(
    id: string, name: string,
    primaryColor: string, secondaryColor: string, accentColor: string, backgroundColor: string)

  /** The four colour inputs of the panel. */
  datatype Slot = Primary | Secondary | Accent | Background

  /** The configuration field a colour input reports to. */
  function SlotKey(s: Slot): Key {
    match s
    case Primary => PrimaryColor
    case Secondary => SecondaryColor
    case Accent => AccentColor
    case Background => BackgroundColor
  }

  /** The colour a palette gives a slot. */
  function Color(p: ColorPalette, s: Slot): string {
    match s
    case Primary => p.primaryColor
    case Secondary => p.secondaryColor
    case Accent => p.accentColor
    case Background => p.backgroundColor
  }

  /** The four colour fields. */
  const ColorKeys: set<Key> := {PrimaryColor, SecondaryColor, AccentColor, BackgroundColor}

  /** The order in which a palette reports its colours. */
  const SlotOrder: seq<Slot> := [Primary, Secondary, Accent, Background]

  /** The colour fields are exactly the fields the four inputs report to. */
  lemma SlotsCoverColorKeys()
    ensures forall s :: SlotKey(s) in ColorKeys
    ensures forall k | k in ColorKeys :: exists s :: SlotKey(s) == k
  {
    forall k | k in ColorKeys
      ensures exists s :: SlotKey(s) == k
    {
      if k == PrimaryColor {
        assert SlotKey(Primary) == k;
      } else if k == SecondaryColor {
        assert SlotKey(Secondary) == k;
      } else if k == AccentColor {
        assert SlotKey(Accent) == k;
      } else {
        assert SlotKey(Background) == k;
      }
    }
  }

  /** One colour input reports its value: only its own field changes. */
  function ColorInput(c: BannerConfig, s: Slot, color: string): (r: BannerConfig)
    ensures Get(r, SlotKey(s)) == Str(color)
    ensures forall k | k != SlotKey(s) :: Get(r, k) == Get(c, k)
  {
    ChangeField(c, SlotKey(s), Str(color))
  }

  /** The position of the first palette with the given id. */
  function FindPalette(ps: seq<ColorPalette>, id: string): (r: Option<nat>)
    ensures r.None? <==> forall i | 0 <= i < |ps| :: ps[i].id != id
    ensures r.Some? ==> r.value < |ps| && ps[r.value].id == id
    ensures r.Some? ==> forall i | 0 <= i < r.value :: ps[i].id != id
  {
    IndexOf(PaletteIds(ps), id)
  }

  /** The ids of a palette table, in table order. */
  function PaletteIds(ps: seq<ColorPalette>): (ids: seq<string>)
    ensures |ids| == |ps| && forall i | 0 <= i < |ps| :: ids[i] == ps[i].id
  {
    seq(|ps|, i requires 0 <= i < |ps| => ps[i].id)
  }

  /** The four updates a palette issues: one per slot, in slot order, each
      with the palette's colour for that slot. */
  function PaletteChanges(p: ColorPalette): (cs: seq<Change>)
    ensures |cs| == |SlotOrder|
    ensures forall i | 0 <= i < |cs| :: cs[i] == Change(SlotKey(SlotOrder[i]), Str(Color(p, SlotOrder[i])))
    ensures Valid(cs)
  {
    [Change(PrimaryColor, Str(p.primaryColor)),
     Change(SecondaryColor, Str(p.secondaryColor)),
     Change(AccentColor, Str(p.accentColor)),
     Change(BackgroundColor, Str(p.backgroundColor))]
  }

  /** The updates a click on the palette `id` issues: none for an unknown id. */
  function Updates(ps: seq<ColorPalette>, id: string): (cs: seq<Change>)
    ensures FindPalette(ps, id).None? <==> cs == []
    ensures Valid(cs)
  {
    match FindPalette(ps, id)
    case None => []
    case Some(i) => PaletteChanges(ps[i])
  }

  /** The panel's own state, the highlighted palette, next to the
      configuration its updates reach. */
  datatype PaletteView = PaletteView(selected: string, config: BannerConfig)

  /** A click on the palette `id`: the id is recorded whether or not a
      palette carries it, and the palette's updates run in order. */
  function SelectPalette(ps: seq<ColorPalette>, v: PaletteView, id: string): (r: PaletteView)
    ensures r.selected == id
    ensures FindPalette(ps, id).None? ==> r.config == v.config
    ensures forall k | k !in ColorKeys :: Get(r.config, k) == Get(v.config, k)
  {
    UpdatesOnlyColours(ps, id);
    PaletteView(id, ApplyChanges(v.config, Updates(ps, id)))
  }

  /** The value a palette's updates leave in each field. */
  lemma {:induction false} PaletteWrites(p: ColorPalette, k: Key, d: Value)
    ensures LastWrite(PaletteChanges(p), k, d) ==
              if k == PrimaryColor then Str(p.primaryColor)
              else if k == SecondaryColor then Str(p.secondaryColor)
              else if k == AccentColor then Str(p.accentColor)
              else if k == BackgroundColor then Str(p.backgroundColor)
              else d
  {
    var cs := PaletteChanges(p);
    var c3 := cs[..3];
    var c2 := cs[..2];
    var c1 := cs[..1];
    assert c3[..2] == c2 && c2[..1] == c1 && c1[..0] == [];
    assert LastWrite(c1, k, d) == if k == PrimaryColor then Str(p.primaryColor) else d;
    assert LastWrite(c2, k, d) == if k == SecondaryColor then Str(p.secondaryColor) else LastWrite(c1, k, d);
    assert LastWrite(c3, k, d) == if k == AccentColor then Str(p.accentColor) else LastWrite(c2, k, d);
  }

  /** A click never writes a field outside the four colours. */
  lemma UpdatesOnlyColours(ps: seq<ColorPalette>, id: string)
    ensures forall k, d | k !in ColorKeys :: LastWrite(Updates(ps, id), k, d) == d
  {
    forall k, d | k !in ColorKeys
      ensures LastWrite(Updates(ps, id), k, d) == d
    {
      match FindPalette(ps, id)
      case None =>
      case Some(i) =>
        PaletteWrites(ps[i], k, d);
    }
  }

  /** Selecting a known palette sets each colour field to the colour the
      first palette with that id gives it. */
  lemma SelectKnownPalette(ps: seq<ColorPalette>, v: PaletteView, id: string, i: nat)
    requires FindPalette(ps, id) == Some(i)
    ensures forall s :: Get(SelectPalette(ps, v, id).config, SlotKey(s)) == Str(Color(ps[i], s))
  {
    var cs := Updates(ps, id);
    assert cs == PaletteChanges(ps[i]);
    forall s
      ensures Get(SelectPalette(ps, v, id).config, SlotKey(s)) == Str(Color(ps[i], s))
    {
      SlotWrite(ps[i], s, Get(v.config, SlotKey(s)));
    }
  }

  /** A palette's updates leave each slot's field holding the palette's
      colour for that slot. */
  lemma SlotWrite(p: ColorPalette, s: Slot, d: Value)
    ensures LastWrite(PaletteChanges(p), SlotKey(s), d) == Str(Color(p, s))
  {
    PaletteWrites(p, SlotKey(s), d);
  }

  /** The four colour inputs reporting a palette's colours, in slot order. */
  function FourInputs(c: BannerConfig, p: ColorPalette): BannerConfig {
    ColorInput(ColorInput(ColorInput(ColorInput(c,
      Primary, p.primaryColor), Secondary, p.secondaryColor),
      Accent, p.accentColor), Background, p.backgroundColor)
  }

  /** Each field after the four inputs holds what the palette's updates
      leave in it. */
  lemma FourInputsRead(c: BannerConfig, p: ColorPalette, x: Key)
    ensures Get(FourInputs(c, p), x) == LastWrite(PaletteChanges(p), x, Get(c, x))
  {
    var r1 := ColorInput(c, Primary, p.primaryColor);
    var r2 := ColorInput(r1, Secondary, p.secondaryColor);
    var r3 := ColorInput(r2, Accent, p.accentColor);
    PaletteWrites(p, x, Get(c, x));
    ReadChange(c, SlotKey(Primary), Str(p.primaryColor), x);
    ReadChange(r1, SlotKey(Secondary), Str(p.secondaryColor), x);
    ReadChange(r2, SlotKey(Accent), Str(p.accentColor), x);
    ReadChange(r3, SlotKey(Background), Str(p.backgroundColor), x);
  }

  /** A palette's four updates are the four colour inputs reporting the
      palette's colours, in slot order. */
  lemma PaletteIsFourInputs(p: ColorPalette, c: BannerConfig)
    ensures ApplyChanges(c, PaletteChanges(p)) == FourInputs(c, p)
  {
    var applied := ApplyChanges(c, PaletteChanges(p));
    forall x
      ensures Get(applied, x) == Get(FourInputs(c, p), x)
    {
      FourInputsRead(c, p, x);
    }
    Extensionality(applied, FourInputs(c, p));
  }

  /** Clicking the same palette twice is clicking it once. */
  lemma SelectPaletteTwice(ps: seq<ColorPalette>, v: PaletteView, id: string)
    ensures SelectPalette(ps, SelectPalette(ps, v, id), id) == SelectPalette(ps, v, id)
  {
    ApplyChangesTwice(v.config, Updates(ps, id));
  }
}
