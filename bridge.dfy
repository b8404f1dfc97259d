/**
 * The hand-off between the two halves: the keyword arguments `abc_score`
 * forwards reach the frontend as JSON values, and every call `abc_score`
 * accepts is one the frontend's gate lets through.
 */
module Bridge {
  import opened Results
  import AbcScore
  import Frontend

  /**
   * The component arguments the frontend reads for a forwarded call: strings,
   * numbers and booleans as themselves, an absent width as `null`. The
   * `key` and `default` arguments are consumed by Streamlit and not passed on.
   */
  function ToArgs<V>(c: AbcScore.ComponentCall<V>): Frontend.Args {
    Frontend.Args(
      Frontend.Str(c.notation),
      Frontend.Number(c.height as real),
      match c.width
      case None => Frontend.Null
      case Some(w) => Frontend.Number(w as real),
      Frontend.Number(c.scale),
      Frontend.Bool(c.responsive))
  }

  /**
   * A call `abc_score` accepts is rendered by a freshly mounted component,
   * which then reports a frame height no lower than the height passed to
   * `abc_score`, lays the score out responsively exactly when `responsive`
   * was true, and sizes its box with the given width exactly when one was
   * given.
   */
  lemma AcceptedCallRendersOnMount<V>(a: AbcScore.ScoreArgs<V>, scrollHeight: nat)
    requires AbcScore.IsPythonCall(a) && AbcScore.AbcScore(a).Ok?
    ensures var args := ToArgs(AbcScore.AbcScore(a).value);
            var r := Frontend.Step(Frontend.InitialState(true), args, Frontend.Rendered(scrollHeight));
            && r.attempted
            && r.state.currentNotation == Frontend.Str(a.notation.s)
            && r.frameHeight.Some? && r.frameHeight.value >= a.height as real
            && (Frontend.Options(args).responsive == Frontend.Str("resize") <==> a.responsive)
            && (Frontend.Dimensions(args).width.Some? <==> a.width.Some?)
  {
  }
}
