/**
 * Per-node configuration as the controller reads it: the node's `userData`
 * and the `showingModelOptions` it may carry, together with the JavaScript
 * defaulting rules (`opt.x || default`) the builders apply to each option.
 */
module Config {
  import opened Wrappers

  /** The options a builder may receive; every field may be absent (`undefined`). */
  datatype ModelOptions = ModelOptions(
    color: Option<int>,
    opacity: Option<real>,
    flowColor: Option<string>,
    flowOpacity: Option<real>,
    flowNumber: Option<int>,
    flowRotation: Option<real>,   // degrees
    flowSpeed: Option<real>,
    size: Option<real>)

  /** The empty object literal `{}`. */
  const NoOptions := ModelOptions(None, None, None, None, None, None, None, None)

  /** The keys of a node's `userData` that the controller understands. */
  datatype UserData = UserData(
    renderOrder: Option<int>,
    showingModel: Option<string>,
    bloom: Option<bool>,
    showingModelOptions: Option<ModelOptions>)

  /** The `{}` that three.js gives every new object as its `userData`. */
  const EmptyUserData := UserData(None, None, None, None)

  // JavaScript truthiness of the values that appear in the configuration.
  // (NaN, also falsy in JavaScript, has no counterpart among Dafny's reals.)

  predicate TruthyInt(o: Option<int>) { o.Some? && o.value != 0 }

  predicate TruthyReal(o: Option<real>) { o.Some? && o.value != 0.0 }

  predicate TruthyString(o: Option<string>) { o.Some? && o.value != "" }

  predicate TruthyBool(o: Option<bool>) { o == Some(true) }

  /** `o || d` for a numeric option. */
  function IntOr(o: Option<int>, d: int): int {
    if TruthyInt(o) then o.value else d
  }

  /** `o || d` for a real-valued option. */
  function RealOr(o: Option<real>, d: real): real {
    if TruthyReal(o) then o.value else d
  }

  /** `o || d` for a string option. */
  function StringOr(o: Option<string>, d: string): string {
    if TruthyString(o) then o.value else d
  }

  /**
   * `options || this.userData.showingModelOptions || {}`. The explicit options,
   * when given, replace the stored ones wholesale (nothing is merged). `None`
   * stands for the TypeError raised when there are no explicit options and the
   * controller's `userData` is null or undefined.
   */
  function SelectOptions(explicit: Option<ModelOptions>, userData: Option<UserData>): (r: Option<ModelOptions>)
    ensures r.None? <==> explicit.None? && userData.None?
    ensures explicit.Some? ==> r == explicit
  {
    if explicit.Some? then explicit
    else if userData.None? then None
    else Some(userData.value.showingModelOptions.GetOr(NoOptions))
  }

  /** Settings of the line representation's two materials. */
  datatype LineStyle = LineStyle(color: int, opacity: real)

  /** Settings of the pipe representation's base material and arrow texture. */
  datatype PipeStyle = PipeStyle(
    color: int, opacity: real,
    flowColor: string, flowOpacity: real, flowNumber: int, flowRotation: real)

  /** Settings of the points representation's material. */
  datatype PointsStyle = PointsStyle(size: real, color: int)

  const LineColor := 0x00FFFF
  const PipeColor := 0x4040FF
  const PointsColor := 0xFFFFFF
  const FlowNumber := 5
  const FlowRotation := 90.0
  const FlowColor := "#00ffff"

  function ResolveLine(o: ModelOptions): LineStyle {
    LineStyle(IntOr(o.color, LineColor), RealOr(o.opacity, 0.0))
  }

  /** `flowRotation` alone is tested with `isNumber`, so an explicit 0 is kept. */
  function ResolvePipe(o: ModelOptions): PipeStyle {
    PipeStyle(
      IntOr(o.color, PipeColor), RealOr(o.opacity, 0.5),
      StringOr(o.flowColor, FlowColor), RealOr(o.flowOpacity, 0.5),
      IntOr(o.flowNumber, FlowNumber),
      if o.flowRotation.Some? then o.flowRotation.value else FlowRotation)
  }

  function ResolvePoints(o: ModelOptions): PointsStyle {
    PointsStyle(RealOr(o.size, 0.1), IntOr(o.color, PointsColor))
  }

  /** Explicit options shadow the stored ones completely: a field missing from them
      takes the builder's default even when the stored options set it. */
  lemma ExplicitOptionsReplaceStored(explicit: ModelOptions, u1: Option<UserData>, u2: Option<UserData>)
    ensures SelectOptions(Some(explicit), u1) == SelectOptions(Some(explicit), u2) == Some(explicit)
    ensures explicit.color.None? ==>
      ResolveLine(SelectOptions(Some(explicit), u1).value).color == LineColor
  {
  }

  /** Without explicit options the builder sees the stored options, or `{}` when there are
      none; without options and without userData there is nothing to read. */
  lemma StoredOptionsUsed(u: Option<UserData>)
    ensures u.None? <==> SelectOptions(None, u).None?
    ensures u.Some? && u.value.showingModelOptions.None? ==> SelectOptions(None, u) == Some(NoOptions)
    ensures u.Some? && u.value.showingModelOptions.Some? ==>
      SelectOptions(None, u) == u.value.showingModelOptions
  {
  }

  /** The `||` defaulting treats 0 and "" as absent: each explicit zero colour, opacity,
      count, size or empty flow colour is replaced by its builder's default, while an
      explicit rotation, zero included, is kept. */
  lemma ZeroFallsBackToDefault(o: ModelOptions)
    ensures o.color == Some(0) ==>
      ResolveLine(o).color == LineColor && ResolvePipe(o).color == PipeColor && ResolvePoints(o).color == PointsColor
    ensures o.opacity == Some(0.0) ==> ResolveLine(o).opacity == 0.0 && ResolvePipe(o).opacity == 0.5
    ensures o.flowColor == Some("") ==> ResolvePipe(o).flowColor == FlowColor
    ensures o.flowOpacity == Some(0.0) ==> ResolvePipe(o).flowOpacity == 0.5
    ensures o.flowNumber == Some(0) ==> ResolvePipe(o).flowNumber == FlowNumber
    ensures o.size == Some(0.0) ==> ResolvePoints(o).size == 0.1
    ensures o.flowRotation.Some? ==> ResolvePipe(o).flowRotation == o.flowRotation.value
  {
  }

  /** The other direction: a truthy option is used as given by every builder that reads it. */
  lemma TruthyOptionsKept(o: ModelOptions)
    ensures TruthyInt(o.color) ==>
      ResolveLine(o).color == ResolvePipe(o).color == ResolvePoints(o).color == o.color.value
    ensures TruthyReal(o.opacity) ==> ResolveLine(o).opacity == ResolvePipe(o).opacity == o.opacity.value
    ensures TruthyString(o.flowColor) ==> ResolvePipe(o).flowColor == o.flowColor.value
    ensures TruthyReal(o.flowOpacity) ==> ResolvePipe(o).flowOpacity == o.flowOpacity.value
    ensures TruthyInt(o.flowNumber) ==> ResolvePipe(o).flowNumber == o.flowNumber.value
    ensures TruthyReal(o.size) ==> ResolvePoints(o).size == o.size.value
  {
  }

  /** With `{}` every builder uses its documented defaults. */
  lemma EmptyOptionsGiveDefaults()
    ensures ResolveLine(NoOptions) == LineStyle(LineColor, 0.0)
    ensures ResolvePipe(NoOptions) == PipeStyle(PipeColor, 0.5, FlowColor, 0.5, FlowNumber, FlowRotation)
    ensures ResolvePoints(NoOptions) == PointsStyle(0.1, PointsColor)
  {
  }
}
