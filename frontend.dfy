/**
 * The React component that shows the score: the values it derives from the
 * arguments it receives (render options, defaults, the size of its box, the
 * height it reports to the host), and the re-render gate of `renderAbc`,
 * which remembers the last notation that rendered and renders again only
 * when a different, non-empty notation arrives.
 *
 * The abc.js call is not modelled: each attempt receives its outcome as a
 * parameter, either a rendered score with the height it takes up or the
 * value the library threw.
 */
module Frontend {
  import opened Results

  /** The JavaScript values the component arguments can hold. */
  datatype JsValue = Undefined | Null | Bool(b: bool) | Number(n: real) | Str(s: string)

  /** JavaScript truthiness. */
  predicate Truthy(v: JsValue) {
    match v
    case Undefined => false
    case Null => false
    case Bool(b) => b
    case Number(n) => n != 0.0
    case Str(s) => s != ""
  }

  /** JavaScript's `v || d`. */
  function Or(v: JsValue, d: JsValue): JsValue {
    if Truthy(v) then v else d
  }

  /** The arguments the component reads; a missing argument is `Undefined`. */
  datatype Args = Args(notation: JsValue, height: JsValue, width: JsValue, scale: JsValue, responsive: JsValue)

  // ---------------------------------------------------------------------
  // Derived values
  // ---------------------------------------------------------------------

  /** `height || 400`: the configured height, or 400 when it is falsy. */
  function HeightOrDefault(height: JsValue): (r: JsValue)
    ensures Truthy(r)
    ensures Truthy(height) ==> r == height
    ensures !Truthy(height) ==> r == Number(400.0)
  {
    Or(height, Number(400.0))
  }

  /** `scale || 1.0`: the configured scale, or 1.0 when it is falsy. */
  function ScaleOrDefault(scale: JsValue): (r: JsValue)
    ensures Truthy(r)
    ensures Truthy(scale) ==> r == scale
    ensures !Truthy(scale) ==> r == Number(1.0)
  {
    Or(scale, Number(1.0))
  }

  /** `responsive !== false`. */
  predicate IsResponsive(args: Args) {
    args.responsive != Bool(false)
  }

  /** The options object handed to abc.js. */
  datatype RenderOptions = RenderOptions(scale: JsValue, staffwidth: JsValue, responsive: JsValue)

  /**
   * The render options: a fixed staff width of 600 exactly when responsive
   * layout is off, the "resize" mode exactly when it is on, and responsive
   * layout on for every argument other than `false` itself (absent, null and
   * other falsy values included).
   */
  function Options(args: Args): (r: RenderOptions)
    ensures r.responsive == Str("resize") <==> args.responsive != Bool(false)
    ensures r.staffwidth == Number(600.0) <==> args.responsive == Bool(false)
    ensures r.responsive != Str("resize") ==> r.responsive == Undefined
    ensures r.staffwidth != Number(600.0) ==> r.staffwidth == Undefined
    ensures Truthy(r.scale) && (Truthy(args.scale) ==> r.scale == args.scale)
    ensures !Truthy(args.scale) ==> r.scale == Number(1.0)
  {
    var responsive := IsResponsive(args);
    RenderOptions(
      ScaleOrDefault(args.scale),
      if responsive then Undefined else Number(600.0),
      if responsive then Str("resize") else Undefined)
  }

  /** A CSS length written as the template `${value}px`. */
  datatype CssLength = Px(value: JsValue)

  /** The sizing part of the outer box's style (theme colours, border and padding are not modelled). */
  datatype BoxStyle = BoxStyle(width: Option<CssLength>, height: CssLength, overflow: string)

  /**
   * The outer box's size: the height is always set, from `height || 400`;
   * the width only when the width argument is truthy; overflow scrolls.
   */
  function Dimensions(args: Args): (r: BoxStyle)
    ensures r.width.Some? <==> Truthy(args.width)
    ensures r.width.Some? ==> r.width.value == Px(args.width)
    ensures Truthy(r.height.value)
    ensures Truthy(args.height) ==> r.height == Px(args.height)
    ensures !Truthy(args.height) ==> r.height == Px(Number(400.0))
    ensures r.overflow == "auto"
  {
    BoxStyle(
      if Truthy(args.width) then Some(Px(args.width)) else None,
      Px(HeightOrDefault(args.height)),
      "auto")
  }

  /**
   * A height argument whose `height || 400` is not a string, so that
   * `Math.max` reads it without parsing text.
   */
  predicate NumericHeight(height: JsValue) {
    !(height.Str? && height.s != "")
  }

  /**
   * The number `Math.max` reads from `height || 400`: a non-zero number is
   * read as itself, `true` as 1, and every falsy value (`undefined`, `null`,
   * `false`, 0 and "") gives way to 400.
   */
  function MinFrameHeight(height: JsValue): (r: real)
    requires NumericHeight(height)
    ensures height.Number? && height.n != 0.0 ==> r == height.n
    ensures !Truthy(height) ==> r == 400.0
    ensures height == Bool(true) ==> r == 1.0
  {
    match height
    case Number(n) => if n != 0.0 then n else 400.0
    case Bool(b) => if b then 1.0 else 400.0
    case _ => 400.0
  }

  /**
   * The height reported to the host after a render:
   * `Math.max(renderedHeight + 20, height || 400)`. It leaves 20 pixels
   * below the rendered score, is never below the configured height (400
   * when that is falsy), and is one of the two.
   */
  function FrameHeight(renderedHeight: nat, height: JsValue): (r: real)
    requires NumericHeight(height)
    ensures r >= renderedHeight as real + 20.0
    ensures r >= MinFrameHeight(height)
    ensures r == renderedHeight as real + 20.0 || r == MinFrameHeight(height)
  {
    var content := renderedHeight as real + 20.0;
    var floor := MinFrameHeight(height);
    if content >= floor then content else floor
  }

  // ---------------------------------------------------------------------
  // The re-render gate
  // ---------------------------------------------------------------------

  /** What abc.js threw: an `Error` with its message, or any other value. */
  datatype Thrown = ErrorValue(message: string) | NonErrorValue

  /** The outcome of one abc.js render: the rendered content's `scrollHeight`, or what it threw. */
  datatype RenderOutcome = Rendered(scrollHeight: nat) | Threw(thrown: Thrown)

  /** The container's contents. */
  datatype Content =
    | Empty
    | Score(notation: JsValue, options: RenderOptions)
    | ErrorBlock(message: string)

  /** The text of the error block: the error's message, or "Unknown error" for a non-Error value. */
  function ErrorText(t: Thrown): string {
    match t
    case ErrorValue(m) => m
    case NonErrorValue => "Unknown error"
  }

  /** The component's state as a value: what `renderAbc` reads and changes. */
  datatype GateState = GateState(currentNotation: JsValue, containerPresent: bool, content: Content)

  /** The state after one call of `renderAbc`, whether it attempted a render, and the height it reports, if any. */
  datatype StepResult = StepResult(state: GateState, attempted: bool, frameHeight: Option<real>)

  /** The component as it is created: no notation rendered yet and an empty container. */
  function InitialState(containerPresent: bool): GateState {
    GateState(Str(""), containerPresent, Empty)
  }

  /** The gate: a truthy notation that differs from the last rendered one, and a mounted container. */
  predicate ShouldRender(notation: JsValue, currentNotation: JsValue, containerPresent: bool) {
    Truthy(notation) && notation != currentNotation && containerPresent
  }

  /**
   * One call of `renderAbc`. A render is attempted exactly when the gate is
   * open, and otherwise nothing changes. Only a successful render advances
   * the current notation and reports a frame height; a failed one replaces
   * the contents by an error block and keeps the current notation.
   */
  function Step(s: GateState, args: Args, outcome: RenderOutcome): (r: StepResult)
    requires NumericHeight(args.height)
    ensures r.attempted <==> Truthy(args.notation) && args.notation != s.currentNotation && s.containerPresent
    ensures !r.attempted ==> r.state == s && r.frameHeight == None
    ensures r.state.containerPresent == s.containerPresent
    ensures r.attempted && outcome.Rendered? ==> r.state.currentNotation == args.notation
    ensures !(r.attempted && outcome.Rendered?) ==> r.state.currentNotation == s.currentNotation
    ensures r.frameHeight.Some? <==> r.attempted && outcome.Rendered?
    ensures r.attempted && outcome.Rendered? ==>
              r.frameHeight == Some(FrameHeight(outcome.scrollHeight, args.height))
              && r.state.content == Score(args.notation, Options(args))
    ensures r.attempted && outcome.Threw? ==> r.state.content == ErrorBlock(ErrorText(outcome.thrown))
  {
    if ShouldRender(args.notation, s.currentNotation, s.containerPresent) then
      match outcome
      case Rendered(h) =>
        StepResult(s.(currentNotation := args.notation, content := Score(args.notation, Options(args))),
                   true, Some(FrameHeight(h, args.height)))
      case Threw(t) =>
        StepResult(s.(content := ErrorBlock(ErrorText(t))), true, None)
    else
      StepResult(s, false, None)
  }

  /** A failed render shows the error block with the error's message, or "Unknown error". */
  lemma FailedRenderShowsError(s: GateState, args: Args, t: Thrown)
    requires NumericHeight(args.height)
    requires ShouldRender(args.notation, s.currentNotation, s.containerPresent)
    ensures var r := Step(s, args, Threw(t));
            r.state.content == ErrorBlock(if t.ErrorValue? then t.message else "Unknown error")
            && r.state.currentNotation == s.currentNotation
  {
  }

  /** One host update: the arguments it carries and what abc.js would do with them. */
  datatype Update = Update(args: Args, outcome: RenderOutcome)

  predicate AllNumeric(us: seq<Update>) {
    forall i :: 0 <= i < |us| ==> NumericHeight(us[i].args.height)
  }

  /** The state after a sequence of updates, each followed by a call of `renderAbc`. */
  function Run(s: GateState, us: seq<Update>): GateState
    requires AllNumeric(us)
    decreases us
  {
    if us == [] then s else Run(Step(s, us[0].args, us[0].outcome).state, us[1..])
  }

  /** How many of those calls attempted a render. */
  function Attempts(s: GateState, us: seq<Update>): nat
    requires AllNumeric(us)
    decreases us
  {
    if us == [] then 0
    else
      var r := Step(s, us[0].args, us[0].outcome);
      (if r.attempted then 1 else 0) + Attempts(r.state, us[1..])
  }

  /**
   * Once a notation has rendered, updates that carry the same notation never
   * render again, whatever else they change.
   */
  lemma {:induction false} SameNotationIsNeverRerendered(s: GateState, us: seq<Update>)
    requires AllNumeric(us)
    requires forall i :: 0 <= i < |us| ==> us[i].args.notation == s.currentNotation
    ensures Run(s, us) == s && Attempts(s, us) == 0
  {
    if us != [] {
      SameNotationIsNeverRerendered(s, us[1..]);
    }
  }

  /**
   * A new notation that renders successfully is rendered exactly once, however
   * many updates carrying it follow.
   */
  lemma {:induction false} NewNotationRendersOnce(s: GateState, us: seq<Update>)
    requires AllNumeric(us) && |us| > 0
    requires forall i :: 0 <= i < |us| ==> us[i].args.notation == us[0].args.notation
    requires ShouldRender(us[0].args.notation, s.currentNotation, s.containerPresent)
    requires us[0].outcome.Rendered?
    ensures Attempts(s, us) == 1
    ensures Run(s, us).currentNotation == us[0].args.notation
  {
    var s1 := Step(s, us[0].args, us[0].outcome).state;
    SameNotationIsNeverRerendered(s1, us[1..]);
  }

  /**
   * A notation that keeps failing is attempted again on every update, and
   * the current notation stays where it was.
   */
  lemma {:induction false} FailingNotationIsRetried(s: GateState, us: seq<Update>)
    requires AllNumeric(us)
    requires forall i :: 0 <= i < |us| ==> us[i].outcome.Threw?
    requires forall i :: 0 <= i < |us| ==> ShouldRender(us[i].args.notation, s.currentNotation, s.containerPresent)
    ensures Attempts(s, us) == |us|
    ensures Run(s, us).currentNotation == s.currentNotation
    decreases us
  {
    if us != [] {
      var s1 := Step(s, us[0].args, us[0].outcome).state;
      assert s1.currentNotation == s.currentNotation && s1.containerPresent == s.containerPresent;
      FailingNotationIsRetried(s1, us[1..]);
    }
  }

  /**
   * The gate's invariant: the current notation is the initial empty string
   * or a truthy value that rendered, and a score on show is the score of the
   * current notation.
   */
  predicate Inv(s: GateState) {
    (s.currentNotation == Str("") || Truthy(s.currentNotation))
    && (s.content.Score? ==> s.content.notation == s.currentNotation)
  }

  /** The invariant holds from creation on, across any sequence of updates. */
  lemma {:induction false} RunKeepsInv(s: GateState, us: seq<Update>)
    requires AllNumeric(us) && Inv(s)
    ensures Inv(Run(s, us))
    decreases us
  {
    if us != [] {
      var s1 := Step(s, us[0].args, us[0].outcome).state;
      assert Inv(s1);
      RunKeepsInv(s1, us[1..]);
    }
  }

  /** The component, with the state `renderAbc` updates in place. */
  class AbcScoreComponent {
    /** The last notation that rendered successfully. */
    var currentNotation: JsValue
    /** Whether the container element is mounted (the ref's `current` is set). */
    var containerPresent: bool
    /** The container's contents (its `innerHTML`). */
    var content: Content

    function State(): GateState
      reads this
    {
      GateState(currentNotation, containerPresent, content)
    }

    constructor (containerPresent: bool)
      ensures State() == InitialState(containerPresent)
      ensures Inv(State())
    {
      currentNotation := Str("");
      this.containerPresent := containerPresent;
      content := Empty;
    }

    /**
     * `renderAbc`: renders the notation when the gate is open; on success
     * records it as current and returns the frame height to report; on
     * failure shows the error block instead.
     */
    method RenderAbc(args: Args, outcome: RenderOutcome) returns (attempted: bool, frameHeight: Option<real>)
      requires NumericHeight(args.height)
      modifies this`currentNotation, this`content
      ensures StepResult(State(), attempted, frameHeight) == Step(old(State()), args, outcome)
      ensures Inv(old(State())) ==> Inv(State())
    {
      attempted := false;
      frameHeight := None;
      var notation := args.notation;
      if Truthy(notation) && notation != currentNotation && containerPresent {
        attempted := true;
        content := Empty;
        var options := Options(args);
        match outcome {
          case Rendered(scrollHeight) =>
            content := Score(notation, options);
            currentNotation := notation;
            frameHeight := Some(FrameHeight(scrollHeight, args.height));
          case Threw(t) =>
            content := ErrorBlock(ErrorText(t));
        }
      }
    }
  }
}
