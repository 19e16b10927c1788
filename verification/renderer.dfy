/** The preview's render effect: one pass from a configuration to the
    command log of the canvas.  The stages run in a fixed order: background,
    optional decoration, name, info block, contact block, accent rule.  The
    effect starts by resizing the canvas, which resets the context, so the
    replay starts from the fresh pen. */
module Renderer {
  import opened Types
  import opened Canvas
  import opened Layout
  import opened TextStack
  import opened Patterns
  import Editor

  /** The shadow put under the name: 20% black, blur 4, offset (2, 2). */
  const NameShadow := DropShadow("rgba(0, 0, 0, 0.2)", 4.0, 2.0, 2.0)

  /** The candidate info lines, in drawing order.  Skills has no show flag. */
  function InfoEntries(c: BannerConfig): seq<Entry> {
    [ Gate(c.showDesignation, c.designation),
      Gate(c.showCompany, c.company),
      Entry(c.skills != "", c.skills),
      Gate(c.showTagline, c.tagline) ]
  }

  /** The candidate contact lines, in drawing order. */
  function ContactEntries(c: BannerConfig): seq<Entry> {
    [ Gate(c.showContactEmail, c.contactEmail),
      Gate(c.showContactPhone, c.contactPhone) ]
  }

  /** One `fillText` per stacked line, all at the anchor's x and alignment. */
  function TextOps(lines: seq<Line>, a: Anchor, font: Font, color: string): (ops: seq<Op>)
    ensures |ops| == |lines| && DrawsOnly(ops)
  {
    seq(|lines|, k requires 0 <= k < |lines| =>
      Draw(Text(lines[k].text, Point(a.x, lines[k].y), a.align, font), color))
  }

  function NameText(c: BannerConfig): Mark {
    var a := NameAnchor(c.namePosition, c.width, c.height, c.fontSize);
    Text(c.name, Point(a.x, a.y), a.align, Font(true, c.fontSize as real, c.fontFamily))
  }

  function InfoLines(c: BannerConfig): seq<Line> {
    var a := InfoAnchor(c.infoPosition, c.width, c.height, c.fontSize);
    Stack(InfoEntries(c), a.y, InfoStep(c))
  }

  function ContactLines(c: BannerConfig): seq<Line> {
    var a := ContactAnchor(c.contactPosition, c.width, c.height, c.fontSize);
    Stack(ContactEntries(c), a.y, ContactStep(c))
  }

  /** The info block is set at 0.7 of the font size, the contact block at
      0.6, both in the regular weight. */
  function InfoFont(c: BannerConfig): Font {
    Font(false, c.fontSize as real * 0.7, c.fontFamily)
  }

  function ContactFont(c: BannerConfig): Font {
    Font(false, c.fontSize as real * 0.6, c.fontFamily)
  }

  function InfoOps(c: BannerConfig): (ops: seq<Op>)
    ensures DrawsOnly(ops)
  {
    TextOps(InfoLines(c), InfoAnchor(c.infoPosition, c.width, c.height, c.fontSize),
            InfoFont(c), c.secondaryColor)
  }

  function ContactOps(c: BannerConfig): (ops: seq<Op>)
    ensures DrawsOnly(ops)
  {
    TextOps(ContactLines(c), ContactAnchor(c.contactPosition, c.width, c.height, c.fontSize),
            ContactFont(c), c.accentColor)
  }

  function Background(c: BannerConfig): Mark {
    Rect(0.0, 0.0, c.width as real, c.height as real)
  }

  /** The accent rule: a 4-pixel line across the full width at y = 10. */
  function AccentRule(c: BannerConfig): Mark {
    Path([Point(0.0, 10.0), Point(c.width as real, 10.0)], 4.0)
  }

  function ShapeOps(c: BannerConfig, env: Env): seq<Op> {
    if c.showShapes then DecorativeShapes(c.shapesStyle, c.width, c.height, TintsOf(c), env) else []
  }

  /** The canvas operations of one render, in the order the effect issues them. */
  function RenderOps(c: BannerConfig, env: Env): seq<Op> {
    [Draw(Background(c), c.backgroundColor)]
    + (ShapeOps(c, env)
    + ([SetShadow(NameShadow), Draw(NameText(c), c.primaryColor), SetShadow(NoShadow)]
    + (InfoOps(c)
    + (ContactOps(c)
    + [Draw(AccentRule(c), c.accentColor)]))))
  }

  /** The command log of one render: six stages in order, the background,
      the decoration at alpha 0.1, the name with its shadow, the info lines,
      the contact lines and the accent rule, every stage but the decoration
      at full alpha and every stage but the name without shadow. */
  function Render(c: BannerConfig, env: Env): (log: seq<Command>)
    ensures log ==
      [Command(Background(c), c.backgroundColor, 1.0, NoShadow)]
      + (DecorationLog(c, env)
      + ([Command(NameText(c), c.primaryColor, 1.0, NameShadow)]
      + (InfoLog(c)
      + (ContactLog(c)
      + [Command(AccentRule(c), c.accentColor, 1.0, NoShadow)]))))
  {
    RenderStages(c, env);
    Replay(RenderOps(c, env), Fresh)
  }

  /** The pattern of the decoration, or nothing when shapes are off. */
  function Decoration(c: BannerConfig, env: Env): (ops: seq<Op>)
    ensures DrawsOnly(ops) && NoText(ops)
  {
    if c.showShapes then PatternOps(c.shapesStyle, c.width, c.height, TintsOf(c), env) else []
  }

  /** Stamps draw-only operations with a fixed pen. */
  function Stamp(ops: seq<Op>, pen: Pen): (log: seq<Command>)
    requires DrawsOnly(ops)
    ensures |log| == |ops|
  {
    seq(|ops|, i requires 0 <= i < |ops| => Command(ops[i].mark, ops[i].color, pen.alpha, pen.shadow))
  }

  /** The commands of the decoration stage: its pattern at alpha 0.1. */
  function DecorationLog(c: BannerConfig, env: Env): (log: seq<Command>)
    ensures |log| == |Decoration(c, env)|
  {
    Stamp(Decoration(c, env), Pen(0.1, NoShadow))
  }

  /** The commands of the info stage. */
  function InfoLog(c: BannerConfig): (log: seq<Command>)
    ensures |log| == |InfoOps(c)|
  {
    Stamp(InfoOps(c), Fresh)
  }

  /** The commands of the contact stage. */
  function ContactLog(c: BannerConfig): (log: seq<Command>)
    ensures |log| == |ContactOps(c)|
  {
    Stamp(ContactOps(c), Fresh)
  }

  /** Replaying the render's operations from the fresh pen gives the six
      stage logs one after the other. */
  lemma {:induction false} RenderStages(c: BannerConfig, env: Env)
    ensures Replay(RenderOps(c, env), Fresh) ==
      [Command(Background(c), c.backgroundColor, 1.0, NoShadow)]
      + (DecorationLog(c, env)
      + ([Command(NameText(c), c.primaryColor, 1.0, NameShadow)]
      + (InfoLog(c)
      + (ContactLog(c)
      + [Command(AccentRule(c), c.accentColor, 1.0, NoShadow)]))))
  {
    var bg := [Draw(Background(c), c.backgroundColor)];
    var shapes := ShapeOps(c, env);
    var name := [SetShadow(NameShadow), Draw(NameText(c), c.primaryColor), SetShadow(NoShadow)];
    var info := InfoOps(c);
    var contact := ContactOps(c);
    var rule := [Draw(AccentRule(c), c.accentColor)];
    var bgCmd := [Command(Background(c), c.backgroundColor, 1.0, NoShadow)];
    var nameCmd := [Command(NameText(c), c.primaryColor, 1.0, NameShadow)];
    var ruleCmd := [Command(AccentRule(c), c.accentColor, 1.0, NoShadow)];
    var deco := Stamp(Decoration(c, env), Pen(0.1, NoShadow));
    var infoCmds := Stamp(info, Fresh);
    var contactCmds := Stamp(contact, Fresh);

    StampIsReplay(rule, Fresh);
    StampIsReplay(bg, Fresh);
    StampIsReplay(info, Fresh);
    StampIsReplay(contact, Fresh);
    ShapesReplay(c, env);
    ShadowBracket(NameText(c), c.primaryColor);
    Link(contact, rule, contactCmds, ruleCmd);
    Link(info, contact + rule, infoCmds, contactCmds + ruleCmd);
    Link(name, info + (contact + rule), nameCmd, infoCmds + (contactCmds + ruleCmd));
    Link(shapes, name + (info + (contact + rule)), deco, nameCmd + (infoCmds + (contactCmds + ruleCmd)));
    Link(bg, shapes + (name + (info + (contact + rule))), bgCmd,
         deco + (nameCmd + (infoCmds + (contactCmds + ruleCmd))));
  }

  /** Setting the shadow, drawing, and clearing the shadow gives one shadowed
      command and leaves the pen fresh. */
  lemma ShadowBracket(m: Mark, color: string)
    ensures var ops := [SetShadow(NameShadow), Draw(m, color), SetShadow(NoShadow)];
      && Replay(ops, Fresh) == [Command(m, color, 1.0, NameShadow)]
      && Settle(ops, Fresh) == Fresh
  {
    var ops := [SetShadow(NameShadow), Draw(m, color), SetShadow(NoShadow)];
    var shadowed := Pen(1.0, NameShadow);
    assert ops[1..] == [Draw(m, color), SetShadow(NoShadow)];
    assert ops[1..][1..] == [SetShadow(NoShadow)];
    assert Replay(ops[1..][1..], shadowed) == [];
    assert Settle(ops[1..][1..], shadowed) == Fresh;
  }

  lemma StampIsReplay(ops: seq<Op>, pen: Pen)
    requires DrawsOnly(ops)
    ensures Replay(ops, pen) == Stamp(ops, pen)
    ensures Settle(ops, pen) == pen
  {
  }

  /** The decoration brackets its pattern between alpha 0.1 and alpha 1.0,
      so its draws carry alpha 0.1 and the pen is fresh again afterwards. */
  lemma ShapesReplay(c: BannerConfig, env: Env)
    ensures Replay(ShapeOps(c, env), Fresh) == Stamp(Decoration(c, env), Pen(0.1, NoShadow))
    ensures Settle(ShapeOps(c, env), Fresh) == Fresh
  {
    if c.showShapes {
      var pattern := Decoration(c, env);
      var ops := ShapeOps(c, env);
      assert ops == [SetAlpha(0.1)] + (pattern + [SetAlpha(1.0)]);
      ReplayAppend([SetAlpha(0.1)], pattern + [SetAlpha(1.0)], Fresh);
      ReplayAppend(pattern, [SetAlpha(1.0)], Pen(0.1, NoShadow));
      StampIsReplay(pattern, Pen(0.1, NoShadow));
    }
  }

  /** Where the name command sits: right after the background and the
      decoration. */
  function NameIndex(c: BannerConfig, env: Env): nat {
    1 + |Decoration(c, env)|
  }

  /** Commands drawn at full alpha without shadow. */
  predicate Plain(log: seq<Command>) {
    forall i | 0 <= i < |log| :: log[i].alpha == 1.0 && log[i].shadow == NoShadow
  }

  /** Commands drawn at alpha 0.1 without shadow, none of them text. */
  predicate Faded(log: seq<Command>) {
    forall i | 0 <= i < |log| ::
      log[i].alpha == 0.1 && log[i].shadow == NoShadow && !log[i].mark.Text?
  }

  /** In a log made of a plain first command that is not text, a faded run, one shadowed
      command and a plain rest, the shadowed command is the only one with a
      shadow, the faded run the only commands below full alpha, and no text
      comes before the shadowed command. */
  lemma {:induction false} LogPens(first: Command, faded: seq<Command>, lead: Command, rest: seq<Command>)
    requires first.alpha == 1.0 && first.shadow == NoShadow && !first.mark.Text?
    requires Faded(faded) && Plain(rest)
    requires lead.alpha == 1.0 && lead.shadow != NoShadow
    ensures var log := [first] + (faded + ([lead] + rest));
      forall i | 0 <= i < |log| :: log[i].shadow != NoShadow <==> i == 1 + |faded|
    ensures var log := [first] + (faded + ([lead] + rest));
      forall i | 0 <= i < |log| :: log[i].alpha == if 1 <= i < 1 + |faded| then 0.1 else 1.0
    ensures var log := [first] + (faded + ([lead] + rest));
      forall i | 0 <= i < |log| && log[i].mark.Text? :: log[i].alpha == 1.0 && 1 + |faded| <= i
  {
    var tail := [lead] + rest;
    var log := [first] + (faded + tail);
    forall i | 0 <= i < |log|
      ensures log[i].shadow != NoShadow <==> i == 1 + |faded|
      ensures log[i].alpha == if 1 <= i < 1 + |faded| then 0.1 else 1.0
      ensures log[i].mark.Text? ==> 1 + |faded| <= i
    {
      if i > 0 {
        assert log[i] == (faded + tail)[i - 1];
        if i < 1 + |faded| {
          assert log[i] == faded[i - 1];
        } else if i == 1 + |faded| {
          assert log[i] == lead;
        } else {
          assert log[i] == rest[i - 2 - |faded|];
        }
      }
    }
  }

  lemma PlainStamp(ops: seq<Op>)
    requires DrawsOnly(ops)
    ensures Plain(Stamp(ops, Fresh))
  {
  }

  lemma {:induction false} PlainAppend(a: seq<Command>, b: seq<Command>)
    requires Plain(a) && Plain(b)
    ensures Plain(a + b)
  {
    forall i | 0 <= i < |a + b|
      ensures (a + b)[i].alpha == 1.0 && (a + b)[i].shadow == NoShadow
    {
      if i < |a| {
        assert (a + b)[i] == a[i];
      } else {
        assert (a + b)[i] == b[i - |a|];
      }
    }
  }

  /** The decoration's commands are faded and carry no text. */
  lemma FadedDecoration(c: BannerConfig, env: Env)
    ensures Faded(DecorationLog(c, env))
  {
    var deco := Decoration(c, env);
    var log := DecorationLog(c, env);
    forall i | 0 <= i < |log|
      ensures !log[i].mark.Text?
    {
      assert log[i].mark == deco[i].mark;
    }
  }

  /** The number of commands: the background, the decoration, the name, one
      per drawn info line, one per drawn contact line, and the accent rule. */
  lemma RenderLength(c: BannerConfig, env: Env)
    ensures |Render(c, env)|
            == 3 + |Decoration(c, env)| + |Shown(InfoEntries(c))| + |Shown(ContactEntries(c))|
  {
    InfoPlacement(c);
    ContactPlacement(c);
  }

  /** The background comes first, the accent rule last, and the name right
      after the decoration. */
  lemma RenderEnds(c: BannerConfig, env: Env)
    ensures Render(c, env)[0] == Command(Background(c), c.backgroundColor, 1.0, NoShadow)
    ensures var log := Render(c, env);
      log[|log| - 1] == Command(AccentRule(c), c.accentColor, 1.0, NoShadow)
    ensures NameIndex(c, env) < |Render(c, env)|
    ensures Render(c, env)[NameIndex(c, env)] == Command(NameText(c), c.primaryColor, 1.0, NameShadow)
  {
  }

  /** The name is the only shadowed command, the decoration the only
      commands below full alpha, and every text is drawn at full alpha after
      the decoration. */
  lemma RenderPens(c: BannerConfig, env: Env)
    ensures var log := Render(c, env);
      forall i | 0 <= i < |log| :: log[i].shadow != NoShadow <==> i == NameIndex(c, env)
    ensures var log := Render(c, env);
      forall i | 0 <= i < |log| :: log[i].alpha == if 1 <= i < NameIndex(c, env) then 0.1 else 1.0
    ensures var log := Render(c, env);
      forall i | 0 <= i < |log| && log[i].mark.Text? :: log[i].alpha == 1.0 && NameIndex(c, env) <= i
  {
    FadedDecoration(c, env);
    PlainStamp(InfoOps(c));
    PlainStamp(ContactOps(c));
    var rule := [Command(AccentRule(c), c.accentColor, 1.0, NoShadow)];
    PlainAppend(ContactLog(c), rule);
    PlainAppend(InfoLog(c), ContactLog(c) + rule);
    LogPens(Command(Background(c), c.backgroundColor, 1.0, NoShadow),
            DecorationLog(c, env),
            Command(NameText(c), c.primaryColor, 1.0, NameShadow),
            InfoLog(c) + (ContactLog(c) + rule));
  }

  /** The baseline of the k-th drawn line of a stack that starts at the
      anchor and moves by `step` per drawn line. */
  function Baseline(a: Anchor, k: int, step: real): real {
    a.y + k as real * step
  }

  /** The info block moves down 0.8 line heights per drawn line, the
      contact block up 0.7 line heights. */
  function InfoStep(c: BannerConfig): real {
    LineHeight(c.fontSize) * 0.8
  }

  function ContactStep(c: BannerConfig): real {
    -(LineHeight(c.fontSize) * 0.7)
  }

  /** Stamping the text operations of a stack: the k-th command is the k-th
      candidate that passes its gate, k steps from the anchor's baseline. */
  lemma StampedStack(es: seq<Entry>, a: Anchor, step: real, font: Font, color: string)
    ensures |Stamp(TextOps(Stack(es, a.y, step), a, font, color), Fresh)| == |Shown(es)|
    ensures forall k | 0 <= k < |Shown(es)| ::
      Stamp(TextOps(Stack(es, a.y, step), a, font, color), Fresh)[k]
      == Command(Text(Shown(es)[k], Point(a.x, Baseline(a, k, step)), a.align, font), color, 1.0, NoShadow)
  {
    StackPlacement(es, a.y, step);
  }

  /** The info stage draws one command per candidate that passes its gate,
      the k-th k steps of 0.8 line heights below the info anchor, in the
      secondary colour, at full alpha and without shadow. */
  lemma InfoPlacement(c: BannerConfig)
    ensures |InfoLog(c)| == |Shown(InfoEntries(c))|
    ensures var a := InfoAnchor(c.infoPosition, c.width, c.height, c.fontSize);
      forall k | 0 <= k < |Shown(InfoEntries(c))| ::
        InfoLog(c)[k]
        == Command(Text(Shown(InfoEntries(c))[k], Point(a.x, Baseline(a, k, InfoStep(c))), a.align, InfoFont(c)),
                   c.secondaryColor, 1.0, NoShadow)
  {
    var a := InfoAnchor(c.infoPosition, c.width, c.height, c.fontSize);
    StampedStack(InfoEntries(c), a, InfoStep(c), InfoFont(c), c.secondaryColor);
    assert InfoLog(c) == Stamp(TextOps(Stack(InfoEntries(c), a.y, InfoStep(c)), a, InfoFont(c), c.secondaryColor), Fresh);
  }

  /** The contact stage draws the email on the contact anchor and each
      further drawn line 0.7 line heights higher, in the accent colour. */
  lemma ContactPlacement(c: BannerConfig)
    ensures |ContactLog(c)| == |Shown(ContactEntries(c))|
    ensures var a := ContactAnchor(c.contactPosition, c.width, c.height, c.fontSize);
      forall k | 0 <= k < |Shown(ContactEntries(c))| ::
        ContactLog(c)[k]
        == Command(Text(Shown(ContactEntries(c))[k], Point(a.x, Baseline(a, k, ContactStep(c))), a.align, ContactFont(c)),
                   c.accentColor, 1.0, NoShadow)
  {
    var a := ContactAnchor(c.contactPosition, c.width, c.height, c.fontSize);
    StampedStack(ContactEntries(c), a, ContactStep(c), ContactFont(c), c.accentColor);
    assert ContactLog(c) == Stamp(TextOps(Stack(ContactEntries(c), a.y, ContactStep(c)), a, ContactFont(c), c.accentColor), Fresh);
  }

  /** The drawn info texts, field by field: designation, company and
      tagline only when switched on and non-empty, skills whenever non-empty. */
  lemma InfoTexts(c: BannerConfig)
    ensures Shown(InfoEntries(c))
            == Optional(c.showDesignation && c.designation != "", c.designation)
               + Optional(c.showCompany && c.company != "", c.company)
               + Optional(c.skills != "", c.skills)
               + Optional(c.showTagline && c.tagline != "", c.tagline)
  {
    ShownFour(Gate(c.showDesignation, c.designation), Gate(c.showCompany, c.company),
              Entry(c.skills != "", c.skills), Gate(c.showTagline, c.tagline));
  }

  /** The drawn contact texts: the email, then the phone, each only when
      switched on and non-empty. */
  lemma ContactTexts(c: BannerConfig)
    ensures Shown(ContactEntries(c))
            == Optional(c.showContactEmail && c.contactEmail != "", c.contactEmail)
               + Optional(c.showContactPhone && c.contactPhone != "", c.contactPhone)
  {
    ShownTwo(Gate(c.showContactEmail, c.contactEmail), Gate(c.showContactPhone, c.contactPhone));
  }

  /** The phone is the last contact command; it sits on the contact anchor
      when no email is drawn and 0.7 line heights above it when one is. */
  lemma PhoneBaseline(c: BannerConfig)
    requires c.showContactPhone && c.contactPhone != ""
    ensures var log := ContactLog(c);
      var a := ContactAnchor(c.contactPosition, c.width, c.height, c.fontSize);
      var emailDrawn := c.showContactEmail && c.contactEmail != "";
      |log| == (if emailDrawn then 2 else 1)
      && log[|log| - 1].mark
         == Text(c.contactPhone,
                 Point(a.x, if emailDrawn then a.y - LineHeight(c.fontSize) * 0.7 else a.y),
                 a.align, ContactFont(c))
  {
    ContactTexts(c);
    ContactPlacement(c);
  }

  /** The configuration fields a render reads.  Gated texts are compared
      through their gates, and the pattern style only when shapes are on. */
  predicate SameLook(c: BannerConfig, d: BannerConfig) {
    && c.name == d.name
    && Shown(InfoEntries(c)) == Shown(InfoEntries(d))
    && Shown(ContactEntries(c)) == Shown(ContactEntries(d))
    && c.primaryColor == d.primaryColor && c.secondaryColor == d.secondaryColor
    && c.accentColor == d.accentColor && c.backgroundColor == d.backgroundColor
    && c.width == d.width && c.height == d.height
    && c.namePosition == d.namePosition && c.infoPosition == d.infoPosition
    && c.contactPosition == d.contactPosition
    && c.fontSize == d.fontSize && c.fontFamily == d.fontFamily
    && c.showShapes == d.showShapes
    && (c.showShapes ==> c.shapesStyle == d.shapesStyle)
  }

  /** Two configurations that look the same render the same log. */
  lemma LookDecidesRender(c: BannerConfig, d: BannerConfig, env: Env)
    requires SameLook(c, d)
    ensures Render(c, env) == Render(d, env)
  {
    SameShownSameStack(InfoEntries(c), InfoEntries(d), InfoAnchor(c.infoPosition, c.width, c.height, c.fontSize).y,
                       InfoStep(c));
    SameShownSameStack(ContactEntries(c), ContactEntries(d),
                       ContactAnchor(c.contactPosition, c.width, c.height, c.fontSize).y, ContactStep(c));
    assert ShapeOps(c, env) == ShapeOps(d, env);
    assert NameText(c) == NameText(d);
    assert InfoOps(c) == InfoOps(d);
    assert ContactOps(c) == ContactOps(d);
    assert RenderOps(c, env) == RenderOps(d, env);
  }

  /** A hidden info field is not part of the look: with
      `LookDecidesRender`, changing its text leaves the render unchanged. */
  lemma HiddenInfoKeepsLook(c: BannerConfig, s: string)
    ensures !c.showDesignation ==> SameLook(c.(designation := s), c)
    ensures !c.showCompany ==> SameLook(c.(company := s), c)
    ensures !c.showTagline ==> SameLook(c.(tagline := s), c)
  {
    InfoTexts(c);
    InfoTexts(c.(designation := s));
    InfoTexts(c.(company := s));
    InfoTexts(c.(tagline := s));
  }

  /** Nor is a hidden contact field. */
  lemma HiddenContactKeepsLook(c: BannerConfig, s: string)
    ensures !c.showContactEmail ==> SameLook(c.(contactEmail := s), c)
    ensures !c.showContactPhone ==> SameLook(c.(contactPhone := s), c)
  {
    ContactTexts(c);
    ContactTexts(c.(contactEmail := s));
    ContactTexts(c.(contactPhone := s));
  }

  /** Nor are the template id and, while shapes are off, the pattern style. */
  lemma UnusedFieldsKeepLook(c: BannerConfig, s: string, style: ShapesStyle)
    ensures SameLook(c.(selectedTemplate := s), c)
    ensures !c.showShapes ==> SameLook(c.(shapesStyle := style), c)
  {
  }

  /** The foreign numeric sources matter only to the pattern that uses them:
      the random source only to circles, sine and cosine only to waves. */
  lemma EnvOnlyForPatterns(c: BannerConfig, e1: Env, e2: Env)
    requires c.showShapes && c.shapesStyle == Circles ==> e1.random == e2.random
    requires c.showShapes && c.shapesStyle == Waves ==> e1.sin == e2.sin && e1.cos == e2.cos
    ensures Render(c, e1) == Render(c, e2)
  {
    DeterministicPatterns(c.shapesStyle, c.width, c.height, TintsOf(c), e1, e2);
    assert ShapeOps(c, e1) == ShapeOps(c, e2);
    assert RenderOps(c, e1) == RenderOps(c, e2);
  }

  /** The banner the editor opens with shows every text: all four info
      lines, both contact lines, and the three geometric shapes, twelve
      commands in all. */
  lemma InitialShowsEverything(env: Env)
    ensures var c := Editor.InitialConfig;
      Shown(InfoEntries(c)) == [c.designation, c.company, c.skills, c.tagline]
    ensures var c := Editor.InitialConfig;
      Shown(ContactEntries(c)) == [c.contactEmail, c.contactPhone]
    ensures |Render(Editor.InitialConfig, env)| == 12
  {
    var c := Editor.InitialConfig;
    var info := InfoEntries(c);
    var contact := ContactEntries(c);
    assert info[1..][1..][1..][1..] == [];
    assert contact[1..][1..] == [];
    RenderLength(c, env);
  }
}
