/** The built-in template table: six named partial configurations, each
    setting the same nine presentation fields and nothing else. */
module Templates {
  import opened Types

  /** The fields every template sets: the four colours, the three anchors,
      the font size and the font family. */
  const TemplateKeys: set<Key> := {
    PrimaryColor, SecondaryColor, AccentColor, BackgroundColor,
    NamePosition, InfoPosition, ContactPosition, FontSize, FontFamily
  }

  /** The ids of the table, in table order. */
  const TemplateIds: seq<string> := ["professional", "modern", "creative", "minimal", "bold", "tech"]

  /** What every template of the table satisfies: it sets exactly the nine
      presentation fields, each with a value of the field's type, and its
      font size lies inside the editor's slider range. */
  predicate Sound(t: BannerTemplate) {
    && t.config.Keys == TemplateKeys
    && WellTyped(t.config)
    && t.config[FontSize].Num? && 16 <= t.config[FontSize].n <= 72
  }

  /** One line of the template table, the nine field values spelled out. */
  datatype Row = Row(
    id: string, name: string,
    primary: string, secondary: string, accent: string, background: string,
    namePos: Position, infoPos: Position, contactPos: Position,
    fontSize: int, fontFamily: string)

  /** The template table as written, in table order. */
  const Table: seq<Row> := [
    Row("professional", "Professional", "#0077B5", "#ffffff", "#00a0dc", "#f3f6f8",
        Center, BottomLeft, BottomRight, 32, "Arial"),
    Row("modern", "Modern", "#2d3748", "#ffffff", "#4299e1", "#edf2f7",
        TopLeft, Center, BottomRight, 36, "Helvetica"),
    Row("creative", "Creative", "#6b46c1", "#ffffff", "#f56565", "#faf5ff",
        TopRight, BottomLeft, BottomRight, 40, "Georgia"),
    Row("minimal", "Minimal", "#1a202c", "#4a5568", "#718096", "#ffffff",
        Center, Center, BottomRight, 28, "Verdana"),
    Row("bold", "Bold", "#e53e3e", "#ffffff", "#f6ad55", "#1a202c",
        TopLeft, BottomLeft, TopRight, 42, "Trebuchet MS"),
    Row("tech", "Tech", "#38b2ac", "#ffffff", "#4fd1c5", "#1a202c",
        TopLeft, BottomLeft, BottomRight, 36, "Courier New")
  ]

  /** The template of one row: its partial configuration sets exactly the
      nine presentation fields, to the row's values. */
  function Preset(r: Row): (t: BannerTemplate)
    ensures t.id == r.id && t.name == r.name
    ensures t.config.Keys == TemplateKeys
    ensures t.config[FontSize] == Num(r.fontSize)
    ensures t.config[NamePosition] == Place(r.namePos) && t.config[InfoPosition] == Place(r.infoPos)
    ensures t.config[ContactPosition] == Place(r.contactPos)
    ensures t.config[PrimaryColor] == Str(r.primary) && t.config[SecondaryColor] == Str(r.secondary)
    ensures t.config[AccentColor] == Str(r.accent) && t.config[BackgroundColor] == Str(r.background)
    ensures t.config[FontFamily] == Str(r.fontFamily)
  {
    BannerTemplate(r.id, r.name, map[
      PrimaryColor := Str(r.primary),
      SecondaryColor := Str(r.secondary),
      AccentColor := Str(r.accent),
      BackgroundColor := Str(r.background),
      NamePosition := Place(r.namePos),
      InfoPosition := Place(r.infoPos),
      ContactPosition := Place(r.contactPos),
      FontSize := Num(r.fontSize),
      FontFamily := Str(r.fontFamily)
    ])
  }

  /** A sound template leaves every field outside the nine alone. */
  lemma SoundSpares(t: BannerTemplate, k: Key)
    requires Sound(t) && k !in TemplateKeys
    ensures k !in t.config
  {
    assert k !in t.config.Keys;
  }

  /** A sound template sets the font size and leaves width and height
      alone. */
  lemma SoundKeepsDimensions(t: BannerTemplate)
    requires Sound(t)
    ensures Width !in t.config && Height !in t.config && FontSize in t.config
  {
    SoundSpares(t, Width);
    SoundSpares(t, Height);
    assert FontSize in t.config.Keys;
  }

  /** Every preset is well typed, and sound when its font size is in range. */
  lemma PresetSound(r: Row)
    ensures WellTyped(Preset(r).config)
    ensures 16 <= r.fontSize <= 72 ==> Sound(Preset(r))
  {
    var m := Preset(r).config;
    forall k | k in m
      ensures Fits(k, m[k])
    {
      assert k in TemplateKeys;
      if k == FontSize {
      } else if k == NamePosition || k == InfoPosition || k == ContactPosition {
      } else {
        assert m[k].Str?;
      }
    }
  }

  /** Every row's font size lies inside the slider range. */
  lemma TableInRange()
    ensures forall i | 0 <= i < |Table| :: 16 <= Table[i].fontSize <= 72
  {
  }

  /** The table: six templates with the ids above, in that order, each
      setting exactly the nine presentation fields, well typed, with a font
      size inside the editor's slider range. */
  function DefaultTemplates(): (ts: seq<BannerTemplate>)
    ensures |ts| == |TemplateIds| == 6
    ensures forall i | 0 <= i < |ts| :: ts[i].id == TemplateIds[i]
    ensures forall i | 0 <= i < |ts| :: Sound(ts[i])
  {
    TableInRange();
    TableIds();
    SoundPresets();
    seq(|Table|, i requires 0 <= i < |Table| => Preset(Table[i]))
  }

  lemma TableIds()
    ensures |Table| == |TemplateIds|
    ensures forall i | 0 <= i < |Table| :: Table[i].id == TemplateIds[i]
  {
  }

  lemma SoundPresets()
    ensures forall r: Row | 16 <= r.fontSize <= 72 :: Sound(Preset(r))
  {
    forall r: Row | 16 <= r.fontSize <= 72
      ensures Sound(Preset(r))
    {
      PresetSound(r);
    }
  }

  /** No two templates share an id. */
  lemma DistinctIds()
    ensures forall i, j | 0 <= i < j < |DefaultTemplates()| ::
              DefaultTemplates()[i].id != DefaultTemplates()[j].id
  {
    var ids := TemplateIds;
    assert forall i | 0 <= i < 6 :: |ids[i]| > 0;
    assert forall i, j | 0 <= i < j < 6 :: |ids[i]| != |ids[j]| || ids[i][0] != ids[j][0];
  }

  /** A template never sets a text, a show flag, a dimension, the shape
      settings or the template id. */
  lemma TemplatesSparePresentationOnly(k: Key)
    requires k !in TemplateKeys
    ensures forall i | 0 <= i < |DefaultTemplates()| :: k !in DefaultTemplates()[i].config
  {
  }

  /** The anchors of one template need not differ: "minimal" puts both the
      name and the info block at the centre. */
  lemma MinimalSharesCenter()
    ensures DefaultTemplates()[3].id == "minimal"
    ensures DefaultTemplates()[3].config[NamePosition] == Place(Center)
    ensures DefaultTemplates()[3].config[InfoPosition] == Place(Center)
  {
    assert DefaultTemplates()[3] == Preset(Table[3]);
  }
}
