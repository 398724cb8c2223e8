/** The component library: colour themes, sizes and corner styles, the
    inline styles a component's props produce, and the component a type id
    inserts. */
module ComponentLibrary {
  import opened Wrappers

  datatype Theme = Theme(name: string, text: string, bg: string, border: string)

  datatype Size = Size(name: string, fontSize: string, padding: string)

  datatype Corner = Corner(name: string, borderRadius: string)

  /** `COLOR_THEMES[key]`. */
  function ThemeByKey(key: string): Option<Theme> {
    if key == "primary" then Some(Theme("\U{4e3b}\U{8272}\U{8c03}", "#3b82f6", "#eff6ff", "#dbeafe"))
    else if key == "success" then Some(Theme("\U{6210}\U{529f}\U{7eff}", "#10b981", "#d1fae5", "#a7f3d0"))
    else if key == "warning" then Some(Theme("\U{8b66}\U{544a}\U{6a59}", "#f59e0b", "#fffbeb", "#fef3c7"))
    else if key == "danger" then Some(Theme("\U{5371}\U{9669}\U{7ea2}", "#ef4444", "#fee2e2", "#fecaca"))
    else if key == "purple" then Some(Theme("\U{7d2b}\U{8272}", "#8b5cf6", "#f5f3ff", "#ddd6fe"))
    else if key == "indigo" then Some(Theme("\U{9773}\U{84dd}", "#6366f1", "#eef2ff", "#c7d2fe"))
    else if key == "yellow" then Some(Theme("\U{9ec4}\U{8272}", "#eab308", "#fef9c3", "#fde047"))
    else if key == "emerald" then Some(Theme("\U{7fe1}\U{7fe0}\U{7eff}", "#059669", "#d1fae5", "#a7f3d0"))
    else None
  }

  /** `SIZES[key]`. */
  function SizeByKey(key: string): Option<Size> {
    if key == "xs" then Some(Size("\U{8d85}\U{5c0f}", "12px", "4px 8px"))
    else if key == "sm" then Some(Size("\U{5c0f}", "14px", "6px 12px"))
    else if key == "md" then Some(Size("\U{4e2d}", "16px", "8px 16px"))
    else if key == "lg" then Some(Size("\U{5927}", "18px", "10px 20px"))
    else if key == "xl" then Some(Size("\U{8d85}\U{5927}", "20px", "12px 24px"))
    else None
  }

  /** `BORDER_STYLES[key]`. */
  function CornerByKey(key: string): Option<Corner> {
    if key == "sharp" then Some(Corner("\U{5c16}\U{89d2}", "4px"))
    else if key == "rounded" then Some(Corner("\U{5706}\U{89d2}", "12px"))
    else if key == "pill" then Some(Corner("\U{80f6}\U{56ca}", "999px"))
    else None
  }

  /** A prop as JavaScript reads it: `undefined` (here the empty string,
      which is falsy as well) when absent. */
  function Prop(props: map<string, string>, key: string): string {
    if key in props then props[key] else []
  }

  /** `COLOR_THEMES[props.theme] || COLOR_THEMES.primary`, and likewise for
      the size and the corner style. */
  function ThemeOf(props: map<string, string>): Theme {
    ThemeByKey(Prop(props, "theme")).GetOr(ThemeByKey("primary").value)
  }

  function SizeOf(props: map<string, string>): Size {
    SizeByKey(Prop(props, "size")).GetOr(SizeByKey("md").value)
  }

  function CornerOf(props: map<string, string>): Corner {
    CornerByKey(Prop(props, "borderStyle")).GetOr(CornerByKey("rounded").value)
  }

  /** `generateComponentStyles(componentTypeId, props)`: the inline style
      object. */
  function GenerateComponentStyles(props: map<string, string>): map<string, string> {
    var theme := ThemeOf(props);
    var size := SizeOf(props);
    var corner := CornerOf(props);
    map[
      "fontSize" := size.fontSize,
      "fontWeight" := if Prop(props, "fontWeight") != [] then Prop(props, "fontWeight") else "600",
      "color" := theme.text,
      "backgroundColor" := theme.bg,
      "padding" := size.padding,
      "borderRadius" := corner.borderRadius,
      "border" := "1px solid " + theme.border,
      "display" := "inline-block"]
  }

  /** The style keys every component gets. */
  function StyleKeys(): set<string> {
    {"fontSize", "fontWeight", "color", "backgroundColor", "padding", "borderRadius", "border", "display"}
  }

  /** Text colour, background and border all come from one theme: the
      named one when the table has it, `primary` otherwise. */
  lemma StylesFromOneTheme(props: map<string, string>)
    ensures var st := GenerateComponentStyles(props);
      exists t :: ThemeByKey(t).Some? &&
        (ThemeByKey(Prop(props, "theme")).None? ==> t == "primary") &&
        (ThemeByKey(Prop(props, "theme")).Some? ==> t == Prop(props, "theme")) &&
        st["color"] == ThemeByKey(t).value.text &&
        st["backgroundColor"] == ThemeByKey(t).value.bg &&
        st["border"] == "1px solid " + ThemeByKey(t).value.border
  {
    var key := Prop(props, "theme");
    var t := if ThemeByKey(key).Some? then key else "primary";
    assert ThemeByKey(t).Some?;
  }

  /** Every component gets the same eight style keys, is displayed inline,
      and falls back to weight `600`, size `md` and corner `rounded`. */
  lemma StyleFallbacks(props: map<string, string>)
    ensures var st := GenerateComponentStyles(props);
      st.Keys == StyleKeys() &&
      st["display"] == "inline-block" &&
      (Prop(props, "fontWeight") == [] ==> st["fontWeight"] == "600") &&
      (Prop(props, "fontWeight") != [] ==> st["fontWeight"] == Prop(props, "fontWeight")) &&
      (SizeByKey(Prop(props, "size")).None? ==> st["fontSize"] == "16px" && st["padding"] == "8px 16px") &&
      (CornerByKey(Prop(props, "borderStyle")).None? ==> st["borderRadius"] == "12px")
  {
  }

  /** An entry of `COMPONENT_TYPES`. */
  datatype ComponentType = ComponentType(
    id: string,
    name: string,
    description: string,
    defaultContent: string,
    defaultProps: map<string, string>)

  function LabelType(): ComponentType {
    ComponentType("label", "Label \U{6807}\U{7b7e}",
      "\U{53ef}\U{81ea}\U{5b9a}\U{4e49}\U{7684}\U{6587}\U{672c}\U{6807}\U{7b7e}\U{ff0c}\U{9002}\U{7528}\U{4e8e}\U{5404}\U{79cd}\U{573a}\U{666f}",
      "Label Text",
      map["theme" := "primary", "size" := "md", "borderStyle" := "rounded", "fontWeight" := "600"])
  }

  /** `COMPONENT_TYPES[typeId]`. */
  function ComponentTypeById(typeId: string): Option<ComponentType> {
    if typeId == "label" then Some(LabelType()) else None
  }

  /** `getAllComponentTypes()`. */
  function AllComponentTypes(): seq<ComponentType> {
    [LabelType()]
  }

  /** The object `generateComponent` returns. */
  datatype Component = Component(
    content: string,
    styles: map<string, string>,
    componentType: string,
    props: map<string, string>)

  /** `generateComponent(componentTypeId)`: `null` for an unknown type. */
  function GenerateComponent(typeId: string): (r: Option<Component>)
    ensures r.Some? <==> ComponentTypeById(typeId).Some?
    ensures r.Some? ==>
      var t := ComponentTypeById(typeId).value;
      r.value.content == t.defaultContent && r.value.props == t.defaultProps &&
      r.value.componentType == typeId && r.value.styles == GenerateComponentStyles(t.defaultProps)
  {
    match ComponentTypeById(typeId)
    case None => None
    case Some(t) =>
      var props := t.defaultProps;
      Some(Component(t.defaultContent, GenerateComponentStyles(props), typeId, props))
  }

  /** The label is inserted with its default text and the primary, medium,
      rounded, semi-bold style. */
  lemma LabelComponent()
    ensures GenerateComponent("label").Some?
    ensures var c := GenerateComponent("label").value;
      c.content == "Label Text" && c.styles.Keys == StyleKeys() &&
      c.styles["fontSize"] == "16px" && c.styles["fontWeight"] == "600" &&
      c.styles["color"] == "#3b82f6" && c.styles["backgroundColor"] == "#eff6ff" &&
      c.styles["padding"] == "8px 16px" && c.styles["borderRadius"] == "12px" &&
      c.styles["border"] == "1px solid #dbeafe"
  {
    var props := LabelType().defaultProps;
    assert Prop(props, "theme") == "primary" && Prop(props, "size") == "md";
    assert Prop(props, "borderStyle") == "rounded" && Prop(props, "fontWeight") == "600";
  }

  /** Every listed type is the one its id finds. */
  lemma AllTypesFound()
    ensures forall i :: 0 <= i < |AllComponentTypes()| ==>
      ComponentTypeById(AllComponentTypes()[i].id) == Some(AllComponentTypes()[i])
  {
  }
}
