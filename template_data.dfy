/** The template table the editor fills the canvas from, and the dispatch
    that calls a template's builder with the parts of the editor state its
    parameters name. JavaScript passes arguments by position, so the
    dispatch has to pass the Product Hunt builders the listing as their
    second argument and the others the download flags. */
module TemplateData {
  import opened Wrappers
  import opened JsValue
  import opened TemplateElements
  import MobileTemplates
  import ProductHuntTemplates

  /** The builders `TEMPLATE_DATA` holds. */
  datatype Builder = Classic | Center | ProductHuntCenter | ProductHuntTop | VoiceAI | Palify

  /** `TEMPLATE_DATA[templateId]`. */
  function TemplateData(templateId: string): (r: Option<Builder>)
    ensures r.Some? <==> templateId in TemplateIds()
  {
    if templateId == "classic" then Some(Classic)
    else if templateId == "center" then Some(Center)
    else if templateId == "productHuntCenter" then Some(ProductHuntCenter)
    else if templateId == "productHuntTop" then Some(ProductHuntTop)
    else if templateId == "voiceAI" then Some(VoiceAI)
    else if templateId == "palify" then Some(Palify)
    else None
  }

  /** The six keys of `TEMPLATE_DATA`. */
  function TemplateIds(): set<string> {
    {"classic", "center", "productHuntCenter", "productHuntTop", "voiceAI", "palify"}
  }

  /** The ids the dispatch treats as Product Hunt templates. */
  function ProductHuntIds(): seq<string> {
    ["productHuntCenter", "productHuntTop", "voiceAI", "palify"]
  }

  /** The `i`-th argument of a call; `undefined` past the end. */
  function Arg(args: seq<Value>, i: nat): Value {
    if i < |args| then args[i] else Undefined
  }

  /** A builder called with positional arguments: each reads its
      parameters (`appInfo, downloads` for the phone layouts, `appInfo,
      productHuntInfo, downloads` for the Product Hunt ones) from the
      positions they are declared at. */
  function Call(b: Builder, args: seq<Value>, innerWidth: Option<real>): seq<Element> {
    match b
    case Classic => MobileTemplates.ClassicLayout(Props(Arg(args, 0)), Props(Arg(args, 1)))
    case Center => MobileTemplates.CenterLayout(Props(Arg(args, 0)), Props(Arg(args, 1)), innerWidth)
    case ProductHuntCenter =>
      ProductHuntTemplates.CenterLayout(Props(Arg(args, 0)), Props(Arg(args, 1)), Props(Arg(args, 2)), innerWidth)
    case ProductHuntTop => ProductHuntTemplates.TopLayout(Props(Arg(args, 0)), Props(Arg(args, 1)), innerWidth)
    case VoiceAI => ProductHuntTemplates.VoiceLayout(innerWidth)
    case Palify => ProductHuntTemplates.PalifyLayout(innerWidth)
  }

  /** The arguments the dispatch passes for a template id. */
  function ArgsFor(templateId: string, state: Object): seq<Value> {
    if templateId in ProductHuntIds() then
      [Get(state, "appInfo"), Get(state, "productHuntInfo"), Get(state, "downloads"), Obj(state)]
    else
      [Get(state, "appInfo"), Get(state, "downloads"), Obj(state)]
  }

  /** `getTemplateElements(templateId, state)`: no elements for an id the
      table does not hold. */
  function ElementsFor(templateId: string, state: Object, innerWidth: Option<real>): (r: seq<Element>)
    ensures TemplateData(templateId).None? ==> r == []
  {
    match TemplateData(templateId)
    case None => []
    case Some(b) => Call(b, ArgsFor(templateId, state), innerWidth)
  }

  /** The state's records as the builders declare them. */
  function AppInfo(state: Object): Object {
    Props(Get(state, "appInfo"))
  }

  function Listing(state: Object): Object {
    Props(Get(state, "productHuntInfo"))
  }

  function Downloads(state: Object): Object {
    Props(Get(state, "downloads"))
  }

  /** Which ids get the listing. */
  lemma ProductHuntMembership()
    ensures "productHuntCenter" in ProductHuntIds() && "productHuntTop" in ProductHuntIds()
    ensures "voiceAI" in ProductHuntIds() && "palify" in ProductHuntIds()
    ensures "classic" !in ProductHuntIds() && "center" !in ProductHuntIds()
  {
    assert "classic"[0] == 'c' && "center"[0] == 'c';
    assert "productHuntCenter"[0] == 'p' && "productHuntTop"[0] == 'p';
    assert "voiceAI"[0] == 'v' && "palify"[0] == 'p';
  }

  /** The phone layouts get the app and the download flags. */
  lemma MobileDispatch(state: Object, innerWidth: Option<real>)
    ensures ElementsFor("classic", state, innerWidth) ==
      MobileTemplates.ClassicLayout(AppInfo(state), Downloads(state))
    ensures ElementsFor("center", state, innerWidth) ==
      MobileTemplates.CenterLayout(AppInfo(state), Downloads(state), innerWidth)
  {
    ClassicDispatch(state, innerWidth);
    CenterDispatch(state, innerWidth);
  }

  lemma ClassicDispatch(state: Object, innerWidth: Option<real>)
    ensures ElementsFor("classic", state, innerWidth) ==
      MobileTemplates.ClassicLayout(AppInfo(state), Downloads(state))
  {
    ProductHuntMembership();
    assert TemplateData("classic") == Some(Classic);
  }

  lemma CenterDispatch(state: Object, innerWidth: Option<real>)
    ensures ElementsFor("center", state, innerWidth) ==
      MobileTemplates.CenterLayout(AppInfo(state), Downloads(state), innerWidth)
  {
    ProductHuntMembership();
    assert TemplateData("center") == Some(Center);
  }

  /** The Product Hunt layouts get the app, the listing and the download
      flags, in the order their parameters are declared. */
  lemma ProductHuntDispatch(state: Object, innerWidth: Option<real>)
    ensures ElementsFor("productHuntCenter", state, innerWidth) ==
      ProductHuntTemplates.CenterLayout(AppInfo(state), Listing(state), Downloads(state), innerWidth)
    ensures ElementsFor("productHuntTop", state, innerWidth) ==
      ProductHuntTemplates.TopLayout(AppInfo(state), Listing(state), innerWidth)
  {
    ProductHuntMembership();
    var args := ArgsFor("productHuntCenter", state);
    assert args == [Get(state, "appInfo"), Get(state, "productHuntInfo"), Get(state, "downloads"), Obj(state)];
    assert ArgsFor("productHuntTop", state) == args;
  }

  /** The showcase layouts in the table take no part of the state. */
  lemma ShowcaseDispatch(state: Object, innerWidth: Option<real>)
    ensures ElementsFor("voiceAI", state, innerWidth) == ProductHuntTemplates.VoiceLayout(innerWidth)
    ensures ElementsFor("palify", state, innerWidth) == ProductHuntTemplates.PalifyLayout(innerWidth)
  {
    VoiceDispatch(state, innerWidth);
    PalifyDispatch(state, innerWidth);
  }

  lemma VoiceDispatch(state: Object, innerWidth: Option<real>)
    ensures ElementsFor("voiceAI", state, innerWidth) == ProductHuntTemplates.VoiceLayout(innerWidth)
  {
    assert TemplateData("voiceAI") == Some(VoiceAI);
  }

  lemma PalifyDispatch(state: Object, innerWidth: Option<real>)
    ensures ElementsFor("palify", state, innerWidth) == ProductHuntTemplates.PalifyLayout(innerWidth)
  {
    assert TemplateData("palify") == Some(Palify);
  }

  /** Every element on the canvas after a template is chosen shows the part
      of the state it is bound to, for every template with bound content. */
  lemma DispatchedElementsBound(state: Object, innerWidth: Option<real>, templateId: string)
    requires templateId in {"classic", "center", "productHuntCenter", "productHuntTop"}
    ensures AllBound(AppInfo(state), Listing(state), Downloads(state), ElementsFor(templateId, state, innerWidth))
  {
    MobileDispatch(state, innerWidth);
    ProductHuntDispatch(state, innerWidth);
    MobileTemplates.ClassicShape(AppInfo(state), Listing(state), Downloads(state));
    MobileTemplates.CenterShape(AppInfo(state), Listing(state), Downloads(state), innerWidth);
    ProductHuntTemplates.CenterShape(AppInfo(state), Listing(state), Downloads(state), innerWidth);
    ProductHuntTemplates.TopShape(AppInfo(state), Listing(state), Downloads(state), innerWidth);
  }
}
