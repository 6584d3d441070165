/**
 * The row of page indicators under the pager: one dot per step, the dot of
 * the current step enlarged and coloured, the others grey. Each dot carries
 * Tailwind classes and, as a fallback, an inline style.
 */
module PaginationDots {
  import opened JsText
  import opened ClassNames
  import opened OnboardingData

  /** The component's props; `None` is a prop the caller leaves out, which
      then takes its default. */
  datatype Props = Props(
    data: Option<seq<Step>>,
    currentIndex: Option<int>,
    activeDotClass: Option<string>,
    inactiveDotClass: Option<string>,
    containerClass: Option<string>,
    dotSize: Option<string>,
    getActiveColor: Option<(int, int) -> string>)

  /** `data = []` and the other default parameters: a prop left out takes
      its default, a given one is used as it is. */
  function Data(p: Props): (r: seq<Step>)
    ensures p.data.Some? ==> r == p.data.value
    ensures p.data.None? ==> r == []
  {
    if p.data.Some? then p.data.value else []
  }

  function CurrentIndex(p: Props): (r: int)
    ensures p.currentIndex.Some? ==> r == p.currentIndex.value
    ensures p.currentIndex.None? ==> r == 0
  {
    if p.currentIndex.Some? then p.currentIndex.value else 0
  }

  function ActiveDotClass(p: Props): (r: string)
    ensures p.activeDotClass.Some? ==> r == p.activeDotClass.value
    ensures p.activeDotClass.None? ==> r == ""
  {
    if p.activeDotClass.Some? then p.activeDotClass.value else ""
  }

  function InactiveDotClass(p: Props): (r: string)
    ensures p.inactiveDotClass.Some? ==> r == p.inactiveDotClass.value
    ensures p.inactiveDotClass.None? ==> r == "bg-gray-300"
  {
    if p.inactiveDotClass.Some? then p.inactiveDotClass.value else "bg-gray-300"
  }

  function ContainerClass(p: Props): (r: string)
    ensures p.containerClass.Some? ==> r == p.containerClass.value
    ensures p.containerClass.None? ==> r == ""
  {
    if p.containerClass.Some? then p.containerClass.value else ""
  }

  function DotSize(p: Props): (r: string)
    ensures p.dotSize.Some? ==> r == p.dotSize.value
    ensures p.dotSize.None? ==> r == "medium"
  {
    if p.dotSize.Some? then p.dotSize.value else "medium"
  }

  /** `sizes[dotSize]`, which an unknown size turns into the text
      "undefined" once interpolated. */
  function SizeClasses(dotSize: string): (r: string)
    ensures r != [] && !IsSpace(r[0]) && !IsSpace(r[|r| - 1])
  {
    if dotSize == "small" then "w-2 h-2"
    else if dotSize == "medium" then "w-3 h-3"
    else if dotSize == "large" then "w-4 h-4"
    else "undefined"
  }

  /** The fixed parts of the templates and their line breaks and
      indentation. */
  const ContainerBase := "flex-row justify-center items-center py-5"
  const DotShape := "rounded-full mx-1 transition-all duration-300"
  const Indent := "\n    "
  const End := "\n  "
  const DotIndent := "\n          "
  const DotEnd := "\n        "

  /** `baseContainerClasses`. */
  function ContainerClasses(p: Props): (r: string)
    ensures IsNormal(r)
  {
    Normalise(Indent + ContainerBase + Indent + ContainerClass(p) + End)
  }

  /** `baseDotClasses`. */
  function BaseDotClasses(dotSize: string): (r: string)
    ensures IsNormal(r)
  {
    Normalise(Indent + SizeClasses(dotSize) + " " + DotShape + End)
  }

  /** `activeColorClass` for the dot at `index`: the caller's function when it
      gives one, else `activeDotClass`. */
  function ActiveColorClass(p: Props, index: int): (r: string)
    ensures p.getActiveColor.None? ==> r == ActiveDotClass(p)
    ensures p.getActiveColor.Some? ==> r == p.getActiveColor.value(index, CurrentIndex(p))
  {
    if p.getActiveColor.Some? then p.getActiveColor.value(index, CurrentIndex(p)) else ActiveDotClass(p)
  }

  /** The colour class the dot at `index` is given. */
  function ColorClass(p: Props, index: int): (r: string)
    ensures index != CurrentIndex(p) && p.inactiveDotClass.None? ==> r == "bg-gray-300"
    ensures index == CurrentIndex(p) ==> r == ActiveColorClass(p, index)
  {
    if index == CurrentIndex(p) then ActiveColorClass(p, index) else InactiveDotClass(p)
  }

  /** The scale class: enlarged for the current dot only. */
  function ScaleClass(isActive: bool): (r: string)
    ensures isActive <==> r == "scale-125"
    ensures !isActive <==> r == "scale-100"
  {
    if isActive then "scale-125" else "scale-100"
  }

  /** A rendered dot: its classes and its inline style. */
  datatype Dot = Dot(classes: string, scale: real, backgroundColor: string)

  /** The dot at `index`. */
  function DotAt(p: Props, index: int): (d: Dot)
    ensures d.scale == 1.2 <==> index == CurrentIndex(p)
    ensures index != CurrentIndex(p) ==> d.scale == 1.0 && d.backgroundColor == "#E5E7EB"
    ensures index == CurrentIndex(p) ==> d.backgroundColor == Or(LegacyColorAt(Data(p), CurrentIndex(p)), "#3B82F6")
  {
    var isActive := index == CurrentIndex(p);
    Dot(
      Normalise(DotIndent + BaseDotClasses(DotSize(p)) + DotIndent + ColorClass(p, index)
                + DotIndent + ScaleClass(isActive) + DotEnd),
      if isActive then 1.2 else 1.0,
      if isActive then Or(LegacyColorAt(Data(p), CurrentIndex(p)), "#3B82F6") else "#E5E7EB")
  }

  /** `data.map(...)`: one dot per element of `data`. */
  function Dots(p: Props): (dots: seq<Dot>)
    ensures |dots| == |Data(p)|
    ensures forall i :: 0 <= i < |dots| ==> dots[i] == DotAt(p, i)
  {
    seq(|Data(p)|, i requires 0 <= i < |Data(p)| => DotAt(p, i))
  }

  /** Exactly one dot is enlarged when the current index names a step, and
      none when it is out of range. */
  lemma OneActiveDot(p: Props)
    ensures forall i, j :: 0 <= i < |Dots(p)| && 0 <= j < |Dots(p)| && Dots(p)[i].scale == 1.2 && Dots(p)[j].scale == 1.2 ==> i == j
    ensures (exists i :: 0 <= i < |Dots(p)| && Dots(p)[i].scale == 1.2) <==> 0 <= CurrentIndex(p) < |Data(p)|
  {
    var dots := Dots(p);
    if 0 <= CurrentIndex(p) < |Data(p)| {
      assert dots[CurrentIndex(p)].scale == 1.2;
    }
  }

  /** A dot's classes are the base classes, its colour class and its scale
      class, each normalised and joined by single spaces; a colour class that
      is empty or blank leaves no stray space. */
  lemma DotClassesJoin(p: Props, index: int)
    ensures DotAt(p, index).classes
         == Glue(Glue(BaseDotClasses(DotSize(p)), Normalise(ColorClass(p, index))),
                 Normalise(ScaleClass(index == CurrentIndex(p))))
    ensures IsNormal(DotAt(p, index).classes)
  {
    assert AllSpace(DotIndent) && AllSpace(DotEnd);
    TemplateJoin3(DotIndent, BaseDotClasses(DotSize(p)), DotIndent, ColorClass(p, index),
                  DotIndent, ScaleClass(index == CurrentIndex(p)), DotEnd);
    NormaliseIdempotent(Indent + SizeClasses(DotSize(p)) + " " + DotShape + End);
  }

  /** The base dot classes are the size classes, then the fixed shape
      classes. */
  lemma BaseDotClassesJoin(dotSize: string)
    ensures BaseDotClasses(dotSize) == Glue(Normalise(SizeClasses(dotSize)), Normalise(DotShape))
  {
    assert AllSpace(Indent) && AllSpace(" ") && AllSpace(End);
    TemplateJoin(Indent, SizeClasses(dotSize), " ", DotShape, End);
  }

  /** The container's classes are the fixed layout classes, then the
      caller's. */
  lemma ContainerClassesJoin(p: Props)
    ensures ContainerClasses(p) == Glue(Normalise(ContainerBase), Normalise(ContainerClass(p)))
  {
    assert AllSpace(Indent) && AllSpace(End);
    TemplateJoin(Indent, ContainerBase, Indent, ContainerClass(p), End);
  }

  /** Only the enlarged dot uses the active colour: every other dot gets the
      inactive class, whatever `getActiveColor` returns for it. */
  lemma InactiveDotsIgnoreActiveColor(p: Props, index: int)
    requires index != CurrentIndex(p)
    ensures ColorClass(p, index) == InactiveDotClass(p)
    ensures DotAt(p, index).classes
         == Glue(Glue(BaseDotClasses(DotSize(p)), Normalise(InactiveDotClass(p))), Normalise("scale-100"))
  {
    DotClassesJoin(p, index);
  }

  /** The current dot uses the active colour and the enlarged scale class. */
  lemma ActiveDotUsesActiveColor(p: Props, index: int)
    requires index == CurrentIndex(p)
    ensures ColorClass(p, index) == ActiveColorClass(p, index)
    ensures DotAt(p, index).classes
         == Glue(Glue(BaseDotClasses(DotSize(p)), Normalise(ActiveColorClass(p, index))), Normalise("scale-125"))
  {
    DotClassesJoin(p, index);
  }
}
