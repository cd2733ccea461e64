/**
 * The preparation half of a render job: from an image's filename to a layout
 * object carrying the artist, set size, collector number and creator the
 * template prints, and the template class that will render it.
 */
module Render {
  import opened Wrappers
  import opened Json
  import opened Text
  import opened FileTags
  import opened PluginLoader

  /** What a layout constructor leaves on the object, limited to the attributes `render` reads or overrides. */
  datatype LayoutSeed = LayoutSeed(artist: Option<string>, setCode: string, cardClass: string, cardCount: Value)

  /** The layout object; `render` overwrites some of its attributes before the template runs. */
  class CardLayout {
    var artist: Option<string>
    var setCode: string
    var cardClass: string
    var cardCount: Value
    var collectorNumber: Value
    var creator: Option<string>

    /** The object as its layout constructor builds it. */
    constructor (seed: LayoutSeed)
      ensures artist == seed.artist && setCode == seed.setCode && cardClass == seed.cardClass
      ensures cardCount == seed.cardCount && collectorNumber == VNone && creator == None
    {
      artist := seed.artist;
      setCode := seed.setCode;
      cardClass := seed.cardClass;
      cardCount := seed.cardCount;
      collectorNumber := VNone;
      creator := None;
    }

    /** Lines 76-80: the set's size, "XXX" when the set reply has neither `printed_size` nor `card_count`. */
    method SetCardCount(mtgset: Value)
      modifies this
      ensures cardCount == CardCount(mtgset)
      ensures artist == old(artist) && setCode == old(setCode) && cardClass == old(cardClass)
      ensures collectorNumber == old(collectorNumber) && creator == old(creator)
    {
      cardCount := VStr("XXX");
      if mtgset.VDict? && "printed_size" in mtgset.fields {
        cardCount := mtgset.fields["printed_size"];
      } else if mtgset.VDict? && "card_count" in mtgset.fields {
        cardCount := mtgset.fields["card_count"];
      }
    }

    /**
     * Lines 89-95: the record's collector number, None without one (and for
     * a basic land, which has no record), and the creator tag, None when it
     * is absent or empty.
     */
    method IncludeDetails(scryfall: Option<Dict>, creatorTag: Option<string>)
      modifies this
      ensures collectorNumber == (if scryfall.Some? then GetOr(scryfall.value, "collector_number", VNone) else VNone)
      ensures creator == Tag(creatorTag)
      ensures artist == old(artist) && setCode == old(setCode) && cardClass == old(cardClass)
      ensures cardCount == old(cardCount)
    {
      if scryfall.Some? && "collector_number" in scryfall.value {
        collectorNumber := scryfall.value["collector_number"];
      } else {
        collectorNumber := VNone;
      }
      creator := if creatorTag.Some? && creatorTag.value != "" then creatorTag else None;
    }
  }

  /**
   * What `get_template` reads: the main template map (None when it does not
   * load), the plugin folders and the working directory's `config.ini`.
   */
  datatype Plugins = Plugins(mainJson: Option<TemplateMap>, folders: seq<Folder>, config: CwdConfig)

  /** The main map after every plugin has been merged, when nothing raised while loading. */
  function Merged(p: Plugins): TemplateMap
    requires !LoadRaises(p.mainJson, p.folders, p.config)
  {
    MergeFolders(p.mainJson.value, p.folders, MakeDefaultOf(p.config))
  }

  /**
   * Everything `render` calls that is not part of this model: the basic land
   * names, the BasicLand constructor, card and set lookups, the layout
   * constructors by Scryfall layout (None when one raises), the plugin
   * folders, and whether a template reference imports.
   */
  datatype RenderEnv = RenderEnv(
    basicLandNames: seq<string>,
    basicLand: (string, Option<string>, string) -> LayoutSeed,
    cardInfo: (string, Option<string>) -> Value,
    layoutMap: map<string, (Dict, string) -> Option<LayoutSeed>>,
    setInfo: string -> Value,
    plugins: Plugins,
    loads: TemplateRef -> bool)

  /** The `template` argument: a table by card class, or a template name. */
  datatype TemplateArg = TemplateTable | TemplateName(name: string)

  /** How the layout object comes about. */
  datatype Prepared = BasicLayout(seed: LayoutSeed) | ResolvedLayout(scryfall: Dict, seed: LayoutSeed) | Unsupported | PrepareCrash

  /**
   * Lines 53-67. A basic land name skips the card lookup and needs a set tag
   * (`None.upper()` raises otherwise). Any other card is looked up; a reply
   * that holds no `layout` raises again inside the handler, while a layout
   * with no constructor, or whose constructor raises, is reported as not
   * supported.
   */
  function PrepareLayout(card: FileTags, env: RenderEnv): (r: Prepared)
    ensures r.BasicLayout? <==> card.name in env.basicLandNames && card.setCode.Some?
    ensures r.BasicLayout? ==> r.seed == env.basicLand(card.name, card.artist, Upper(card.setCode.value))
    ensures card.name in env.basicLandNames && card.setCode.None? ==> r == PrepareCrash
    ensures r.ResolvedLayout? ==>
      && card.name !in env.basicLandNames
      && env.cardInfo(card.name, card.setCode) == VDict(r.scryfall)
      && "layout" in r.scryfall && r.scryfall["layout"].VStr? && r.scryfall["layout"].s in env.layoutMap
      && env.layoutMap[r.scryfall["layout"].s](r.scryfall, card.name) == Some(r.seed)
    ensures r.Unsupported? ==> card.name !in env.basicLandNames && env.cardInfo(card.name, card.setCode).VDict?
    ensures card.name !in env.basicLandNames && env.cardInfo(card.name, card.setCode).VDict? ==>
      var d := env.cardInfo(card.name, card.setCode).fields;
      var built := if "layout" in d && d["layout"].VStr? && d["layout"].s in env.layoutMap
                   then env.layoutMap[d["layout"].s](d, card.name) else None;
      && ("layout" !in d ==> r == PrepareCrash)
      && ("layout" in d && built.Some? ==> r == ResolvedLayout(d, built.value))
      && ("layout" in d && built.None? ==> r == Unsupported)
    ensures card.name !in env.basicLandNames && !env.cardInfo(card.name, card.setCode).VDict? ==> r == PrepareCrash
  {
    if card.name in env.basicLandNames then
      if card.setCode.None? then PrepareCrash
      else BasicLayout(env.basicLand(card.name, card.artist, Upper(card.setCode.value)))
    else
      match env.cardInfo(card.name, card.setCode)
      case VDict(scryfall) =>
        if "layout" !in scryfall then PrepareCrash
        else
          var key := scryfall["layout"];
          if key.VStr? && key.s in env.layoutMap && env.layoutMap[key.s](scryfall, card.name).Some? then
            ResolvedLayout(scryfall, env.layoutMap[key.s](scryfall, card.name).value)
          else Unsupported
      case _ => PrepareCrash
  }

  /** A filename tag counts only when it is present and non-empty. */
  function Tag(t: Option<string>): (r: Option<string>)
    ensures r.Some? <==> t.Some? && t.value != ""
    ensures r.Some? ==> r == t
  {
    if t.Some? && t.value != "" then t else None
  }

  /**
   * Lines 76-80: the set's `printed_size`, else its `card_count`, else
   * "XXX"; a set reply that is not an object also leaves "XXX".
   */
  function CardCount(mtgset: Value): (r: Value)
    ensures mtgset.VDict? && "printed_size" in mtgset.fields ==> r == mtgset.fields["printed_size"]
    ensures mtgset.VDict? && "printed_size" !in mtgset.fields && "card_count" in mtgset.fields ==>
      r == mtgset.fields["card_count"]
    ensures !(mtgset.VDict? && ("printed_size" in mtgset.fields || "card_count" in mtgset.fields)) ==> r == VStr("XXX")
  {
    match mtgset
    case VDict(m) =>
      if "printed_size" in m then m["printed_size"]
      else if "card_count" in m then m["card_count"]
      else VStr("XXX")
    case _ => VStr("XXX")
  }

  /** The template class looked up for a card class. */
  datatype TemplateOutcome = TemplateClass(ref: TemplateRef) | TemplateMissing | TemplateCrash

  /**
   * Lines 83-85. The loader module has no `get_template_class`, so a table
   * argument raises AttributeError; a name goes through `get_template`,
   * whose unknown layout is the "no template" case.
   */
  function ChooseTemplate(template: TemplateArg, cardClass: string, env: RenderEnv): (r: TemplateOutcome)
    ensures template.TemplateTable? ==> r == TemplateCrash
    ensures template.TemplateName? && LoadRaises(env.plugins.mainJson, env.plugins.folders, env.plugins.config) ==>
      r == TemplateCrash
    ensures template.TemplateName? && !LoadRaises(env.plugins.mainJson, env.plugins.folders, env.plugins.config) ==>
      var sel := SelectTemplate(Merged(env.plugins), template.name, cardClass);
      && (sel.Selected? ==> r == (if env.loads(sel.ref) then TemplateClass(sel.ref) else TemplateCrash))
      && (sel == SelectionFailed ==> r == TemplateCrash)
    ensures r.TemplateClass? ==>
      (template.TemplateName? && env.loads(r.ref)
       && !LoadRaises(env.plugins.mainJson, env.plugins.folders, env.plugins.config)
       && SelectTemplate(Merged(env.plugins), template.name, cardClass) == Selected(r.ref))
    ensures r == TemplateMissing <==>
      (template.TemplateName?
       && !LoadRaises(env.plugins.mainJson, env.plugins.folders, env.plugins.config)
       && cardClass !in Merged(env.plugins))
  {
    match template
    case TemplateTable => TemplateCrash
    case TemplateName(name) =>
      if LoadRaises(env.plugins.mainJson, env.plugins.folders, env.plugins.config) then TemplateCrash
      else
        match SelectTemplate(Merged(env.plugins), name, cardClass)
        case NoLayout => TemplateMissing
        case SelectionFailed => TemplateCrash
        case LoadFailed => TemplateCrash
        case Selected(ref) => if env.loads(ref) then TemplateClass(ref) else TemplateCrash
  }

  /** Lines 83-85 as `render` runs them: the loader call, then the import of the reference it returns. */
  method FindTemplate(template: TemplateArg, cardClass: string, env: RenderEnv) returns (found: TemplateOutcome)
    ensures found == ChooseTemplate(template, cardClass, env)
  {
    match template {
      case TemplateTable =>
        found := TemplateCrash;
      case TemplateName(name) =>
        var sel := GetTemplate(env.plugins.mainJson, env.plugins.folders, env.plugins.config, name, cardClass);
        found := match sel
                 case NoLayout => TemplateMissing
                 case SelectionFailed => TemplateCrash
                 case LoadFailed => TemplateCrash
                 case Selected(ref) => if env.loads(ref) then TemplateClass(ref) else TemplateCrash;
    }
  }

  /** How the job ends: the template executes, or the user is told to exit, or an exception escapes. */
  datatype RenderOutcome = Executed(ref: TemplateRef) | UnsupportedLayout | NoTemplate | Crashed

  /**
   * `render(file, template)` on the file's base name. Besides the outcome
   * it returns the layout object and the card lookups it made.
   */
  method Render(fileName: string, template: TemplateArg, env: RenderEnv)
    returns (outcome: RenderOutcome, layout: CardLayout?, lookups: seq<(string, Option<string>)>)
    ensures var card := RetrieveCardInfo(fileName);
      lookups == if card.name in env.basicLandNames then [] else [(card.name, card.setCode)]
    ensures var p := PrepareLayout(RetrieveCardInfo(fileName), env);
      && (p.PrepareCrash? ==> outcome == Crashed)
      && (p.Unsupported? ==> outcome == UnsupportedLayout)
      && (p.BasicLayout? || p.ResolvedLayout? ==>
            layout != null && fresh(layout) && layout.cardClass == p.seed.cardClass &&
            outcome == match ChooseTemplate(template, p.seed.cardClass, env)
                       case TemplateClass(ref) => Executed(ref)
                       case TemplateMissing => NoTemplate
                       case TemplateCrash => Crashed)
    ensures outcome.Executed? ==>
      var card := RetrieveCardInfo(fileName);
      var p := PrepareLayout(card, env);
      && layout != null
      && layout.creator == Tag(card.creator)
      && (p.BasicLayout? ==>
            && layout.artist == p.seed.artist && layout.setCode == p.seed.setCode
            && layout.cardCount == p.seed.cardCount && layout.collectorNumber == VNone)
      && (p.ResolvedLayout? ==>
            && layout.artist == (if Tag(card.artist).Some? then card.artist else p.seed.artist)
            && layout.setCode == p.seed.setCode
            && layout.cardCount == CardCount(env.setInfo(p.seed.setCode))
            && layout.collectorNumber == GetOr(p.scryfall, "collector_number", VNone))
  {
    var card := RetrieveCardInfo(fileName);
    ghost var p := PrepareLayout(card, env);
    var scryfall: Option<Dict> := None;
    lookups := [];
    layout := null;

    if card.name in env.basicLandNames {
      if card.setCode.None? {
        assert p.PrepareCrash?;
        return Crashed, layout, lookups;
      }
      layout := new CardLayout(env.basicLand(card.name, card.artist, Upper(card.setCode.value)));
      assert p == BasicLayout(env.basicLand(card.name, card.artist, Upper(card.setCode.value)));
    } else {
      var info := env.cardInfo(card.name, card.setCode);
      lookups := [(card.name, card.setCode)];
      if !info.VDict? || "layout" !in info.fields {
        assert p.PrepareCrash?;
        return Crashed, layout, lookups;
      }
      var key := info.fields["layout"];
      if !(key.VStr? && key.s in env.layoutMap && env.layoutMap[key.s](info.fields, card.name).Some?) {
        assert p.Unsupported?;
        return UnsupportedLayout, layout, lookups;
      }
      scryfall := Some(info.fields);
      layout := new CardLayout(env.layoutMap[key.s](info.fields, card.name).value);
      assert p == ResolvedLayout(info.fields, env.layoutMap[key.s](info.fields, card.name).value);

      if Tag(card.artist).Some? {
        layout.artist := card.artist;
      }

      layout.SetCardCount(env.setInfo(layout.setCode));
    }

    var found := FindTemplate(template, layout.cardClass, env);

    match found {
      case TemplateCrash =>
        outcome := Crashed;
      case TemplateMissing =>
        outcome := NoTemplate;
      case TemplateClass(ref) =>
        layout.IncludeDetails(scryfall, card.creator);
        outcome := Executed(ref);
    }
  }
}
