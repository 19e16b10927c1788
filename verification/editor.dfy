/** The editing operations of the banner generator: the single-field update
    every control goes through, sequences of such updates, applying a
    template, the Reset button, the initial configuration and the ranges the
    dimension sliders allow. */
module Editor {
  import opened Types
  import opened Templates

  /** Sets field `k` to `v`, the functional update
      `prev => ({ ...prev, [k]: v })`.  The value must have the field's type. */
  function ChangeField(c: BannerConfig, k: Key, v: Value): (r: BannerConfig)
    requires Fits(k, v)
    ensures Get(r, k) == v
    ensures forall j | j != k :: Get(r, j) == Get(c, j)
  {
    Merge(c, map[k := v])
  }

  /** ChangeField's read-back at one field, for proofs that step through
      several changes one field at a time. */
  lemma ReadChange(c: BannerConfig, k: Key, v: Value, x: Key)
    requires Fits(k, v)
    ensures Get(ChangeField(c, k, v), x) == if x == k then v else Get(c, x)
  {
  }

  /** Writing a field twice keeps only the second value. */
  lemma LastChangeWins(c: BannerConfig, k: Key, v: Value, w: Value)
    requires Fits(k, v) && Fits(k, w)
    ensures ChangeField(ChangeField(c, k, v), k, w) == ChangeField(c, k, w)
  {
    var once := ChangeField(c, k, v);
    forall x
      ensures Get(ChangeField(once, k, w), x) == Get(ChangeField(c, k, w), x)
    {
      ReadChange(once, k, w, x);
      ReadChange(c, k, v, x);
      ReadChange(c, k, w, x);
    }
    Extensionality(ChangeField(once, k, w), ChangeField(c, k, w));
  }

  /** Writing a field's current value changes nothing. */
  lemma ChangeToSameIsIdentity(c: BannerConfig, k: Key)
    ensures ChangeField(c, k, Get(c, k)) == c
  {
    forall x
      ensures Get(ChangeField(c, k, Get(c, k)), x) == Get(c, x)
    {
      ReadChange(c, k, Get(c, k), x);
    }
    Extensionality(ChangeField(c, k, Get(c, k)), c);
  }

  /** Writes to different fields commute. */
  lemma DistinctChangesCommute(c: BannerConfig, k: Key, v: Value, j: Key, w: Value)
    requires k != j && Fits(k, v) && Fits(j, w)
    ensures ChangeField(ChangeField(c, k, v), j, w) == ChangeField(ChangeField(c, j, w), k, v)
  {
    var a := ChangeField(c, k, v);
    var b := ChangeField(c, j, w);
    forall x
      ensures Get(ChangeField(a, j, w), x) == Get(ChangeField(b, k, v), x)
    {
      ReadChange(a, j, w, x);
      ReadChange(b, k, v, x);
      ReadChange(c, k, v, x);
      ReadChange(c, j, w, x);
    }
    Extensionality(ChangeField(a, j, w), ChangeField(b, k, v));
  }

  /** One call of the update handler. */
  datatype Change = Change(key: Key, value: Value)

  predicate Valid(cs: seq<Change>) {
    forall i | 0 <= i < |cs| :: Fits(cs[i].key, cs[i].value)
  }

  /** The value the last change to `k` in `cs` writes, or `otherwise` when
      no change in `cs` touches `k`. */
  function LastWrite(cs: seq<Change>, k: Key, otherwise: Value): Value
    decreases |cs|
  {
    if |cs| == 0 then otherwise
    else if cs[|cs| - 1].key == k then cs[|cs| - 1].value
    else LastWrite(cs[..|cs| - 1], k, otherwise)
  }

  predicate Touches(cs: seq<Change>, k: Key) {
    exists i | 0 <= i < |cs| :: cs[i].key == k
  }

  /** Runs the updates in order, each on the result of the previous one, as
      the functional state updater composes them. */
  function ApplyChanges(c: BannerConfig, cs: seq<Change>): (r: BannerConfig)
    requires Valid(cs)
    ensures forall k :: Get(r, k) == LastWrite(cs, k, Get(c, k))
    decreases |cs|
  {
    if |cs| == 0 then c
    else
      assert Valid(cs[..|cs| - 1]);
      ChangeField(ApplyChanges(c, cs[..|cs| - 1]), cs[|cs| - 1].key, cs[|cs| - 1].value)
  }

  /** A field no change touches keeps its value; a touched field gets a
      value written by one of the changes. */
  lemma {:induction false} LastWriteSpec(cs: seq<Change>, k: Key, otherwise: Value)
    ensures !Touches(cs, k) ==> LastWrite(cs, k, otherwise) == otherwise
    ensures Touches(cs, k) ==>
              exists i | 0 <= i < |cs| :: cs[i].key == k && LastWrite(cs, k, otherwise) == cs[i].value
    ensures Touches(cs, k) ==> forall d :: LastWrite(cs, k, d) == LastWrite(cs, k, otherwise)
    decreases |cs|
  {
    if |cs| > 0 {
      var init := cs[..|cs| - 1];
      LastWriteSpec(init, k, otherwise);
      if cs[|cs| - 1].key != k {
        if Touches(cs, k) {
          var i :| 0 <= i < |cs| && cs[i].key == k;
          assert init[i].key == k;
        }
        if Touches(init, k) {
          var i :| 0 <= i < |init| && init[i].key == k;
          assert cs[i] == init[i];
        }
        forall d
          ensures LastWrite(cs, k, d) == LastWrite(init, k, d)
        {
        }
        forall d | Touches(init, k)
          ensures LastWrite(init, k, d) == LastWrite(init, k, otherwise)
        {
          LastWriteSpec(init, k, d);
        }
      }
    }
  }

  /** Running the same updates twice is running them once. */
  lemma ApplyChangesTwice(c: BannerConfig, cs: seq<Change>)
    requires Valid(cs)
    ensures ApplyChanges(ApplyChanges(c, cs), cs) == ApplyChanges(c, cs)
  {
    var once := ApplyChanges(c, cs);
    forall k
      ensures Get(ApplyChanges(once, cs), k) == Get(once, k)
    {
      LastWriteSpec(cs, k, Get(c, k));
      LastWriteSpec(cs, k, Get(once, k));
    }
    Extensionality(ApplyChanges(once, cs), once);
  }

  /** The position of the first template with the given id, as
      `Array.prototype.find` scans the table. */
  function FindTemplate(ts: seq<BannerTemplate>, id: string): (r: Option<nat>)
    ensures r.None? <==> forall i | 0 <= i < |ts| :: ts[i].id != id
    ensures r.Some? ==> r.value < |ts| && ts[r.value].id == id
    ensures r.Some? ==> forall i | 0 <= i < r.value :: ts[i].id != id
  {
    IndexOf(TemplateIdsOf(ts), id)
  }

  /** The ids of a template table, in table order. */
  function TemplateIdsOf(ts: seq<BannerTemplate>): (ids: seq<string>)
    ensures |ids| == |ts| && forall i | 0 <= i < |ts| :: ids[i] == ts[i].id
  {
    seq(|ts|, i requires 0 <= i < |ts| => ts[i].id)
  }

  /** A template table the editor can use: every partial configuration is
      well typed and no two templates share an id. */
  predicate Catalogue(ts: seq<BannerTemplate>) {
    && (forall i | 0 <= i < |ts| :: WellTyped(ts[i].config))
    && (forall i, j | 0 <= i < j < |ts| :: ts[i].id != ts[j].id)
  }

  /** Overlays the template of `ts` with id `id` and records the id, spread
      last so that it wins over anything the template sets; an unknown id
      leaves the configuration as it is. */
  function ApplyFrom(ts: seq<BannerTemplate>, c: BannerConfig, id: string): (r: BannerConfig)
    requires Catalogue(ts)
    ensures FindTemplate(ts, id).None? ==> r == c
  {
    match FindTemplate(ts, id)
    case None => c
    case Some(i) =>
      assert WellTyped(ts[i].config) && WellTyped(map[SelectedTemplate := Str(id)]);
      Merge(Merge(c, ts[i].config), map[SelectedTemplate := Str(id)])
  }

  /** In a table with distinct ids, the lookup finds the one template that
      carries the id. */
  lemma FindDistinct(ts: seq<BannerTemplate>, id: string, i: nat)
    requires Catalogue(ts) && i < |ts| && ts[i].id == id
    ensures FindTemplate(ts, id) == Some(i)
  {
    var r := FindTemplate(ts, id);
    assert r.Some?;
    var j := r.value;
    assert !(j < i) && !(i < j);
  }

  /** ApplyFrom at one field, for the template at position `i`. */
  lemma ApplyFromAt(ts: seq<BannerTemplate>, c: BannerConfig, id: string, i: nat, k: Key)
    requires Catalogue(ts) && i < |ts| && ts[i].id == id
    ensures Get(ApplyFrom(ts, c, id), k) ==
              if k == SelectedTemplate then Str(id)
              else if k in ts[i].config then ts[i].config[k]
              else Get(c, k)
  {
    FindDistinct(ts, id, i);
    assert ApplyFrom(ts, c, id) == Merge(Merge(c, ts[i].config), map[SelectedTemplate := Str(id)]);
    ReadMerge(c, ts[i].config, k);
    ReadMerge(Merge(c, ts[i].config), map[SelectedTemplate := Str(id)], k);
  }

  /** `r` is `c` with template `t` laid over it under the id `id`. */
  predicate Overlaid(r: BannerConfig, c: BannerConfig, t: BannerTemplate, id: string) {
    forall k :: Get(r, k) == if k == SelectedTemplate then Str(id)
                             else if k in t.config then t.config[k]
                             else Get(c, k)
  }

  /** Applying a known template overwrites exactly the fields its partial
      configuration sets, then the template id with the requested id, and
      keeps every other field. */
  lemma ApplyKnown(ts: seq<BannerTemplate>, c: BannerConfig, id: string, i: nat)
    requires Catalogue(ts) && i < |ts| && ts[i].id == id
    ensures Overlaid(ApplyFrom(ts, c, id), c, ts[i], id)
  {
    forall k
      ensures Get(ApplyFrom(ts, c, id), k) ==
                if k == SelectedTemplate then Str(id)
                else if k in ts[i].config then ts[i].config[k]
                else Get(c, k)
    {
      ApplyFromAt(ts, c, id, i, k);
    }
  }

  /** Applying a template a second time changes nothing. */
  lemma ApplyFromTwice(ts: seq<BannerTemplate>, c: BannerConfig, id: string)
    requires Catalogue(ts)
    ensures ApplyFrom(ts, ApplyFrom(ts, c, id), id) == ApplyFrom(ts, c, id)
  {
    var once := ApplyFrom(ts, c, id);
    match FindTemplate(ts, id)
    case None =>
    case Some(i) =>
      forall k
        ensures Get(ApplyFrom(ts, once, id), k) == Get(once, k)
      {
        ApplyFromAt(ts, once, id, i, k);
        ApplyFromAt(ts, c, id, i, k);
      }
      Extensionality(ApplyFrom(ts, once, id), once);
  }

  /** After a successful lookup the configuration records the requested id;
      otherwise it keeps the id it had. */
  lemma ApplyFromRecordsId(ts: seq<BannerTemplate>, c: BannerConfig, id: string)
    requires Catalogue(ts)
    ensures ApplyFrom(ts, c, id).selectedTemplate ==
              if FindTemplate(ts, id).Some? then id else c.selectedTemplate
  {
    var r := ApplyFrom(ts, c, id);
    match FindTemplate(ts, id)
    case None =>
    case Some(i) =>
      ApplyFromAt(ts, c, id, i, SelectedTemplate);
      assert Get(r, SelectedTemplate) == Str(r.selectedTemplate);
  }

  /** The built-in table is one the editor can use. */
  lemma DefaultCatalogue()
    ensures Catalogue(DefaultTemplates())
  {
    DistinctIds();
  }

  /** The editor's template action, on the built-in table. */
  function ApplyTemplate(c: BannerConfig, id: string): (r: BannerConfig)
    ensures FindTemplate(DefaultTemplates(), id).None? ==> r == c
  {
    DefaultCatalogue();
    ApplyFrom(DefaultTemplates(), c, id)
  }

  /** Reset re-applies the template the configuration records, so the
      recorded id never changes, and an unknown id changes nothing. */
  function Reset(c: BannerConfig): (r: BannerConfig)
    ensures r.selectedTemplate == c.selectedTemplate
    ensures FindTemplate(DefaultTemplates(), c.selectedTemplate).None? ==> r == c
  {
    DefaultCatalogue();
    ApplyFromRecordsId(DefaultTemplates(), c, c.selectedTemplate);
    ApplyTemplate(c, c.selectedTemplate)
  }

  /** Pressing Reset twice is pressing it once. */
  lemma ResetTwice(c: BannerConfig)
    ensures Reset(Reset(c)) == Reset(c)
  {
    DefaultCatalogue();
    ApplyFromTwice(DefaultTemplates(), c, c.selectedTemplate);
  }

  /** Applying a built-in template overwrites exactly the fields it sets,
      with its values, records the id, and keeps every other field. */
  lemma ApplyTemplateKnown(c: BannerConfig, id: string, i: nat)
    requires i < |DefaultTemplates()| && DefaultTemplates()[i].id == id
    ensures Overlaid(ApplyTemplate(c, id), c, DefaultTemplates()[i], id)
  {
    DefaultCatalogue();
    ApplyKnown(DefaultTemplates(), c, id, i);
  }

  /** Reset lays the recorded template's values over the configuration
      again, keeping every field that template does not set. */
  lemma ResetRestores(c: BannerConfig, i: nat)
    requires i < |DefaultTemplates()| && DefaultTemplates()[i].id == c.selectedTemplate
    ensures Overlaid(Reset(c), c, DefaultTemplates()[i], c.selectedTemplate)
  {
    ApplyTemplateKnown(c, c.selectedTemplate, i);
  }

  /** A built-in template never changes a field it does not set, other than
      the template id: texts, show flags, dimensions and shape settings
      survive. */
  lemma ApplyTemplateKeepsContent(c: BannerConfig, id: string, k: Key)
    requires k !in TemplateKeys && k != SelectedTemplate
    ensures Get(ApplyTemplate(c, id), k) == Get(c, k)
  {
    var ts := DefaultTemplates();
    DefaultCatalogue();
    match FindTemplate(ts, id)
    case None =>
    case Some(i) =>
      assert Sound(ts[i]);
      ApplyFromAt(ts, c, id, i, k);
  }

  /** The configuration the editor starts with. */
  const InitialConfig := BannerConfig(
    "John Doe",
    true, "Software Developer",
    true, "Tech Company",
    "React, TypeScript, Next.js",
    true, "Building digital experiences that matter",
    true, "john@example.com",
    true, "+1 234 567 8900",
    "#0077B5", "#ffffff", "#00a0dc", "#f3f6f8",
    1584, 396,
    Center, BottomLeft, BottomRight,
    32,
    "professional",
    true, Geometric,
    "Arial")

  /** A configuration that holds a row's nine values agrees with that row's
      template on every field the template sets. */
  lemma CarriesRow(r: Row, c: BannerConfig)
    requires Get(c, PrimaryColor) == Str(r.primary) && Get(c, SecondaryColor) == Str(r.secondary)
    requires Get(c, AccentColor) == Str(r.accent) && Get(c, BackgroundColor) == Str(r.background)
    requires Get(c, NamePosition) == Place(r.namePos) && Get(c, InfoPosition) == Place(r.infoPos)
    requires Get(c, ContactPosition) == Place(r.contactPos)
    requires Get(c, FontSize) == Num(r.fontSize) && Get(c, FontFamily) == Str(r.fontFamily)
    ensures forall k | k in Preset(r).config :: Preset(r).config[k] == Get(c, k)
  {
    var m := Preset(r).config;
    forall k | k in m
      ensures m[k] == Get(c, k)
    {
      assert k in TemplateKeys;
    }
  }

  /** Laying over a template whose values a configuration already holds,
      under the id it already records, gives that configuration back. */
  lemma OverlaidOnItself(r: BannerConfig, c: BannerConfig, t: BannerTemplate, id: string)
    requires Overlaid(r, c, t, id)
    requires Get(c, SelectedTemplate) == Str(id)
    requires forall k | k in t.config :: t.config[k] == Get(c, k)
    ensures r == c
  {
    forall k
      ensures Get(r, k) == Get(c, k)
    {
    }
    Extensionality(r, c);
  }

  /** The initial configuration already carries the "professional"
      template and lies inside the slider ranges, so applying
      "professional", or pressing Reset at start, changes nothing. */
  lemma ProfessionalIsInitial()
    ensures ApplyTemplate(InitialConfig, "professional") == InitialConfig
    ensures Reset(InitialConfig) == InitialConfig
    ensures InEditorDomain(InitialConfig)
  {
    InitialInDomain();
    var ts := DefaultTemplates();
    InitialCarriesProfessional();
    DefaultCatalogue();
    ApplyHeldTemplate(ts, InitialConfig, 0);
    assert ApplyTemplate(InitialConfig, "professional") == ApplyFrom(ts, InitialConfig, ts[0].id);
  }

  /** The initial configuration sits inside the slider ranges. */
  lemma InitialInDomain()
    ensures InEditorDomain(InitialConfig)
  {
  }

  /** Applying a template whose values and id a configuration already holds
      changes nothing. */
  lemma ApplyHeldTemplate(ts: seq<BannerTemplate>, c: BannerConfig, i: nat)
    requires Catalogue(ts) && i < |ts|
    requires Get(c, SelectedTemplate) == Str(ts[i].id)
    requires forall k | k in ts[i].config :: ts[i].config[k] == Get(c, k)
    ensures ApplyFrom(ts, c, ts[i].id) == c
  {
    ApplyKnown(ts, c, ts[i].id, i);
    OverlaidOnItself(ApplyFrom(ts, c, ts[i].id), c, ts[i], ts[i].id);
  }

  /** The first template is "professional", and the initial configuration
      holds every value it sets. */
  lemma InitialCarriesProfessional()
    ensures DefaultTemplates()[0].id == "professional"
    ensures forall k | k in DefaultTemplates()[0].config ::
              DefaultTemplates()[0].config[k] == Get(InitialConfig, k)
  {
    var row := Table[0];
    assert row == Row("professional", "Professional", "#0077B5", "#ffffff", "#00a0dc", "#f3f6f8",
                      Center, BottomLeft, BottomRight, 32, "Arial");
    assert DefaultTemplates()[0] == Preset(row);
    CarriesRow(row, InitialConfig);
  }

  /** A slider: the whole numbers from `min` to `max` in steps of `step`. */
  datatype Slider = Slider(key: Key, min: int, max: int, step: int)

  const FontSizeSlider := Slider(FontSize, 16, 72, 1)
  const WidthSlider := Slider(Width, 800, 2000, 1)
  const HeightSlider := Slider(Height, 200, 600, 1)

  /** The values a slider can report. */
  predicate Offers(s: Slider, n: int) {
    0 < s.step && s.min <= n <= s.max && (n - s.min) % s.step == 0
  }

  /** The ranges the three sliders keep the dimensions in. */
  predicate InEditorDomain(c: BannerConfig) {
    Offers(FontSizeSlider, c.fontSize) && Offers(WidthSlider, c.width) && Offers(HeightSlider, c.height)
  }

  /** Moving a slider reports its value through the update handler, which
      keeps the configuration inside the slider ranges. */
  function Slide(c: BannerConfig, s: Slider, n: int): (r: BannerConfig)
    requires s == FontSizeSlider || s == WidthSlider || s == HeightSlider
    requires Offers(s, n)
    ensures Get(r, s.key) == Num(n)
    ensures forall j | j != s.key :: Get(r, j) == Get(c, j)
    ensures InEditorDomain(c) ==> InEditorDomain(r)
  {
    ReadChange(c, s.key, Num(n), FontSize);
    ReadChange(c, s.key, Num(n), Width);
    ReadChange(c, s.key, Num(n), Height);
    ChangeField(c, s.key, Num(n))
  }

  /** A configuration stays inside the slider ranges when it keeps the
      width and height and gets a font size inside the slider's range. */
  lemma DomainByFields(c: BannerConfig, r: BannerConfig)
    requires InEditorDomain(c)
    requires Get(r, Width) == Get(c, Width) && Get(r, Height) == Get(c, Height)
    requires Get(r, FontSize) == Get(c, FontSize) ||
             (Get(r, FontSize).Num? && 16 <= Get(r, FontSize).n <= 72)
    ensures InEditorDomain(r)
  {
    assert Get(r, FontSize) == Num(r.fontSize) && Get(c, FontSize) == Num(c.fontSize);
    assert Get(r, Width) == Num(r.width) && Get(c, Width) == Num(c.width);
    assert Get(r, Height) == Num(r.height) && Get(c, Height) == Num(c.height);
  }

  /** A table whose templates are all sound keeps the configuration inside
      the slider ranges: no template touches width or height and every
      template's font size is in range. */
  lemma ApplyFromKeepsDomain(ts: seq<BannerTemplate>, c: BannerConfig, id: string)
    requires Catalogue(ts) && forall i | 0 <= i < |ts| :: Sound(ts[i])
    requires InEditorDomain(c)
    ensures InEditorDomain(ApplyFrom(ts, c, id))
  {
    match FindTemplate(ts, id)
    case None =>
    case Some(i) =>
      ApplyKnown(ts, c, id, i);
      SoundOverlayKeepsDomain(ApplyFrom(ts, c, id), c, ts[i], id);
  }

  /** Laying a sound template over a configuration inside the slider ranges
      stays inside them. */
  lemma SoundOverlayKeepsDomain(r: BannerConfig, c: BannerConfig, t: BannerTemplate, id: string)
    requires Sound(t) && Overlaid(r, c, t, id) && InEditorDomain(c)
    ensures InEditorDomain(r)
  {
    SoundKeepsDimensions(t);
    OverlaidElsewhere(r, c, t, id, Width);
    OverlaidElsewhere(r, c, t, id, Height);
    assert Get(r, FontSize) == t.config[FontSize];
    DomainByFields(c, r);
  }

  /** A field the template does not set, other than the id, keeps its
      value under the overlay. */
  lemma OverlaidElsewhere(r: BannerConfig, c: BannerConfig, t: BannerTemplate, id: string, k: Key)
    requires Overlaid(r, c, t, id) && k !in t.config && k != SelectedTemplate
    ensures Get(r, k) == Get(c, k)
  {
  }

  /** The built-in templates keep the configuration inside the slider
      ranges. */
  lemma TemplatesKeepDomain(c: BannerConfig, id: string)
    requires InEditorDomain(c)
    ensures InEditorDomain(ApplyTemplate(c, id))
  {
    DefaultCatalogue();
    ApplyFromKeepsDomain(DefaultTemplates(), c, id);
  }
}
