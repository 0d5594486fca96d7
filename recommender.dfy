/**
 * The "Get AI Recommendation" dialog: its three-field form schema and the
 * state it keeps in `open`, `isLoading`, `result` and `error`, changed by
 * submitting the form and by opening or closing the dialog.
 */
module Recommender {
  import opened Wrappers
  import opened Strings
  import ReviewIntake

  /** The dialog's form values. */
  datatype PrefValues = PrefValues(cuisine: string, budget: string, eventType: string)

  const Budgets: seq<string> := ["economy", "standard", "premium"]
  const MinCuisineLength := 2
  const MinEventTypeLength := 3

  /** `formSchema`. */
  predicate FormSchemaAccepts(v: PrefValues)
  {
    Utf16Length(v.cuisine) >= MinCuisineLength && v.budget in Budgets && Utf16Length(v.eventType) >= MinEventTypeLength
  }

  const DefaultPrefs := PrefValues("", "standard", "")

  /** The initial values fail, but only because of the two empty text fields. */
  lemma DefaultPrefsRejected()
    ensures !FormSchemaAccepts(DefaultPrefs)
    ensures FormSchemaAccepts(DefaultPrefs.(cuisine := "BBQ", eventType := "Wedding"))
  {
  }

  /** The exact thresholds of every field. */
  lemma FormSchemaBoundaries(v: PrefValues)
    requires FormSchemaAccepts(v)
    ensures FormSchemaAccepts(v.(cuisine := "It")) && !FormSchemaAccepts(v.(cuisine := "I"))
    ensures FormSchemaAccepts(v.(eventType := "Gal")) && !FormSchemaAccepts(v.(eventType := "Ga"))
    ensures FormSchemaAccepts(v.(budget := "premium")) && !FormSchemaAccepts(v.(budget := "Premium"))
  {
  }

  /** The dialog's state; `result` holds what the recommender returned. */
  datatype DialogState = DialogState(open: bool, isLoading: bool, result: Option<string>, error: Option<string>)

  const Closed := DialogState(false, false, None, None)

  /** How the awaited call ended: its resolved value (null is `None`), or an exception. */
  datatype Reply = Resolved(value: Option<string>) | Threw

  const NoMatchMessage := "Could not find a suitable recommendation. Please try different criteria."
  const FailureMessage := "An error occurred while getting recommendations. Please try again."

  /** JavaScript truthiness of the resolved value: null and "" are falsy. */
  predicate Truthy(rec: Option<string>)
  {
    rec.Some? && rec.value != ""
  }

  /** Never a result and an error at once, neither while loading, and only a truthy result. */
  predicate Consistent(s: DialogState)
  {
    && !(s.result.Some? && s.error.Some?)
    && (s.isLoading ==> s.result.None? && s.error.None?)
    && (s.result.Some? ==> Truthy(s.result))
  }

  /** The first three statements of `onSubmit`. */
  function Begin(s: DialogState): (t: DialogState)
    ensures Consistent(t) && t.isLoading && t.open == s.open
  {
    s.(isLoading := true, result := None, error := None)
  }

  /** The rest of `onSubmit`, once the awaited call has settled. */
  function Finish(s: DialogState, reply: Reply): (t: DialogState)
    ensures !t.isLoading && t.open == s.open
  {
    var t :=
      match reply
      case Resolved(rec) =>
        if Truthy(rec) then s.(result := rec) else s.(error := Some(NoMatchMessage))
      case Threw => s.(error := Some(FailureMessage));
    t.(isLoading := false)
  }

  /** A whole submit, with the awaited call taken as atomic. */
  function OnSubmit(s: DialogState, reply: Reply): DialogState
  {
    Finish(Begin(s), reply)
  }

  /** Each way a submit can end, and that it ends with exactly one of result and error. */
  lemma SubmitOutcome(s: DialogState, reply: Reply)
    ensures var t := OnSubmit(s, reply);
      && t.open == s.open && !t.isLoading
      && (t.result.Some? <==> reply.Resolved? && Truthy(reply.value))
      && (t.result.Some? ==> t.result == reply.value && t.error.None?)
      && (reply.Resolved? && !Truthy(reply.value) ==> t.error == Some(NoMatchMessage) && t.result.None?)
      && (reply.Threw? ==> t.error == Some(FailureMessage) && t.result.None?)
      && (t.result.Some? != t.error.Some?)
  {
  }

  /** A submit forgets the previous result and error. */
  lemma SubmitForgetsPrevious(s1: DialogState, s2: DialogState, reply: Reply)
    requires s1.open == s2.open
    ensures OnSubmit(s1, reply) == OnSubmit(s2, reply)
  {
  }

  /** `handleOpenChange`, on the dialog state. */
  function OpenChange(s: DialogState, isOpen: bool): (t: DialogState)
    ensures t.open == isOpen
  {
    if isOpen then s.(open := true)
    else DialogState(false, false, None, None)
  }

  lemma CloseResets(s: DialogState)
    ensures OpenChange(s, false) == Closed
    ensures OpenChange(OpenChange(s, false), true) == DialogState(true, false, None, None)
  {
  }

  lemma OpenChangesOnlyOpen(s: DialogState)
    ensures OpenChange(s, true).isLoading == s.isLoading
    ensures OpenChange(s, true).result == s.result && OpenChange(s, true).error == s.error
  {
  }

  /** Every transition keeps the state consistent. */
  lemma TransitionsKeepConsistent(s: DialogState, reply: Reply, isOpen: bool)
    requires Consistent(s)
    ensures Consistent(Begin(s)) && Consistent(OnSubmit(s, reply)) && Consistent(OpenChange(s, isOpen))
  {
  }

  /**
   * Which parts of the dialog's content are in the page. `card` holds the
   * value handed to the caterer card when that branch is taken.
   */
  datatype View = View(form: bool, skeleton: bool, card: Option<string>, errorText: Option<string>)

  /** The empty view: a closed dialog renders none of its content. */
  const Hidden := View(false, false, None, None)

  /**
   * Which parts of the dialog show. All of them sit inside the dialog's
   * content, so nothing shows while it is closed; `result` and `error` are
   * tested for truthiness, as in the markup.
   */
  function Render(s: DialogState): (v: View)
    ensures !s.open ==> v == Hidden
    ensures v.form <==> s.open && !Truthy(s.result)
    ensures v.skeleton <==> s.open && s.isLoading
    ensures v.card.Some? <==> s.open && Truthy(s.result) && !s.isLoading
    ensures v.card.Some? ==> v.card == s.result
    ensures v.errorText.Some? <==> s.open && Truthy(s.error) && !s.isLoading
    ensures v.errorText.Some? ==> v.errorText == s.error
  {
    if !s.open then Hidden
    else
      View(!Truthy(s.result), s.isLoading,
           if Truthy(s.result) && !s.isLoading then s.result else None,
           if Truthy(s.error) && !s.isLoading then s.error else None)
  }

  /**
   * After a submit from the open dialog, it shows either the card or the
   * error text, never both; the form stays only beside the error. A submit
   * from a closed dialog shows nothing.
   */
  lemma RenderAfterSubmit(s: DialogState, reply: Reply)
    ensures var v := Render(OnSubmit(s, reply));
      && (s.open ==> !v.skeleton && (v.card.Some? != v.errorText.Some?) && (v.form <==> v.errorText.Some?))
      && (!s.open ==> v == Hidden)
  {
  }

  /** The dialog component: its state, plus the form's current values. */
  class AIRecommender {
    var open: bool
    var isLoading: bool
    var result: Option<string>
    var error: Option<string>
    var values: PrefValues

    function State(): DialogState
      reads this
    {
      DialogState(open, isLoading, result, error)
    }

    constructor()
      ensures State() == Closed && values == DefaultPrefs
    {
      open, isLoading, result, error := false, false, None, None;
      values := DefaultPrefs;
    }

    method HandleOpenChange(isOpen: bool)
      modifies this
      ensures State() == OpenChange(old(State()), isOpen)
      ensures values == if isOpen then old(values) else DefaultPrefs
    {
      open := isOpen;
      if !isOpen {
        values := DefaultPrefs;
        isLoading := false;
        result := None;
        error := None;
      }
    }

    method EditValues(v: PrefValues)
      modifies this
      ensures values == v && State() == old(State())
    {
      values := v;
    }

    /**
     * The form's submit, with the server action's outcome as `reply`. The
     * form is shown only while there is no result, and its button is
     * disabled while loading. Values the schema refuses never reach
     * `onSubmit`; valid ones reach the server action with all three fields.
     */
    method Submit(reply: Reply)
      requires !Truthy(result) && !isLoading
      modifies this
      ensures !FormSchemaAccepts(old(values)) ==> State() == old(State())
      ensures FormSchemaAccepts(old(values)) ==> State() == OnSubmit(old(State()), reply)
      ensures values == old(values)
    {
      if !FormSchemaAccepts(values) {
        return;
      }
      isLoading := true;
      result := None;
      error := None;
      match reply {
        case Resolved(answer) =>
          var prefs := ReviewIntake.RawPreferences(Some(values.cuisine), Some(values.budget), Some(values.eventType));
          var recommendation := ReviewIntake.GetAIRecommendation(prefs, answer);
          if Truthy(recommendation) {
            result := recommendation;
          } else {
            error := Some(NoMatchMessage);
          }
        case Threw =>
          error := Some(FailureMessage);
      }
      isLoading := false;
    }
  }
}
