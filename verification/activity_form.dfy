/** The activity submission form: its validation guard, the row it asks the
    backend to insert, and what it does with the backend's answer. The
    backend call itself is an input: the outcome the insert would have. */
module ActivityForm {
  import opened Wrappers
  import opened Categories

  /** What the form holds: the typed name, the selected category (`None` is
      the empty "nothing selected" value) and the busy flag. */
  datatype FormState = FormState(activityName: string, category: Option<Category>, loading: bool)

  const InitialForm: FormState := FormState("", None, false)

  /** The row the form asks the backend to insert. It has no points field:
      the client never sends points; the backend assigns them. */
  datatype InsertPayload = InsertPayload(userId: string, activityName: string, category: Category)

  /** The backend's answer to the insert: no error, or an error message. */
  datatype InsertOutcome = Inserted | InsertFailed(message: string)

  /** The toast the user sees. */
  datatype Notice =
    | MissingInformation
    | FailedToAdd(message: string)
    | ActivityAdded(earnedPoints: int)

  /** Everything one submission does: the form state afterwards, the insert
      it issued (if any), the toast, and how many times it called the
      parent's refresh callback. */
  datatype SubmitEffect = SubmitEffect(form: FormState, insert: Option<InsertPayload>, notice: Notice, refreshCalls: nat)

  /** One entry of the category menu: the value the select reports when it
      is picked, and the label and points shown for it. */
  datatype MenuOption = MenuOption(value: string, displayName: string, points: int)

  /** The category menu, one option per table row in declaration order. */
  function MenuOptions(): (opts: seq<MenuOption>)
    ensures |opts| == 7
    ensures forall i :: 0 <= i < |opts| ==> 5 <= opts[i].points <= 25
  {
    seq(|AllCategories|, i requires 0 <= i < |AllCategories| =>
      var c := AllCategories[i];
      MenuOption(Tag(c), Info(c).displayName, Info(c).points))
  }

  /** The unchecked cast of the picked value to a category is safe: every
      menu value is the literal of exactly one category, the option shows
      that category's label and points, and every category is offered. */
  lemma MenuValuesAreCategories()
    ensures forall i :: 0 <= i < |MenuOptions()| ==>
      && ParseTag(MenuOptions()[i].value) == Some(AllCategories[i])
      && MenuOptions()[i].displayName == Info(AllCategories[i]).displayName
      && MenuOptions()[i].points == Points(AllCategories[i])
    ensures forall c: Category :: MenuOption(Tag(c), Info(c).displayName, Points(c)) in MenuOptions()
  {
    AllCategoriesExact();
    forall i | 0 <= i < |MenuOptions()|
      ensures ParseTag(MenuOptions()[i].value) == Some(AllCategories[i])
    {
      TagRoundTrip(AllCategories[i]);
    }
    forall c: Category
      ensures MenuOption(Tag(c), Info(c).displayName, Points(c)) in MenuOptions()
    {
      assert c in AllCategories;
      var i :| 0 <= i < |AllCategories| && AllCategories[i] == c;
      assert MenuOptions()[i] == MenuOption(Tag(c), Info(c).displayName, Points(c));
    }
  }

  /** The guard: a non-empty name, a selected category and a signed-in user.
      A name made of spaces passes; only the empty string is refused. */
  predicate Ready(form: FormState, user: Option<string>) {
    form.activityName != "" && form.category.Some? && user.Some?
  }

  /** The insert a submission would issue, or nothing when the guard fails. */
  function Validate(form: FormState, user: Option<string>): (r: Option<InsertPayload>)
    ensures r.Some? <==> Ready(form, user)
    ensures r.Some? ==> r.value.userId == user.value
    ensures r.Some? ==> r.value.activityName == form.activityName
    ensures r.Some? ==> Some(r.value.category) == form.category
  {
    if form.activityName == "" || form.category.None? || user.None? then None
    else Some(InsertPayload(user.value, form.activityName, form.category.value))
  }

  /** One press of "Add Activity". `outcome` is what the backend would answer
      and is only consulted when an insert is actually issued. On refusal the
      form is left exactly as it was; on success the name and category are
      cleared, the earned points are read from the category table and the
      refresh callback fires once; on failure the inputs are kept and
      nothing is refreshed. */
  function HandleSubmit(form: FormState, user: Option<string>, outcome: InsertOutcome): (e: SubmitEffect)
    ensures !Ready(form, user) ==> e == SubmitEffect(form, None, MissingInformation, 0)
    ensures Ready(form, user) ==> e.insert == Validate(form, user) && !e.form.loading
    ensures Ready(form, user) && outcome.Inserted? ==>
      && e.form.activityName == ""
      && e.form.category == None
      && e.notice == ActivityAdded(Points(form.category.value))
      && e.refreshCalls == 1
    ensures Ready(form, user) && outcome.InsertFailed? ==>
      && e.form.activityName == form.activityName
      && e.form.category == form.category
      && e.notice == FailedToAdd(outcome.message)
      && e.refreshCalls == 0
  {
    match Validate(form, user)
    case None => SubmitEffect(form, None, MissingInformation, 0)
    case Some(payload) =>
      match outcome
      case InsertFailed(message) =>
        SubmitEffect(form.(loading := false), Some(payload), FailedToAdd(message), 0)
      case Inserted =>
        SubmitEffect(FormState("", None, false), Some(payload), ActivityAdded(Points(payload.category)), 1)
  }

  /** The refresh callback fires exactly when an insert was issued and the
      backend accepted it. */
  lemma RefreshIffInserted(form: FormState, user: Option<string>, outcome: InsertOutcome)
    ensures HandleSubmit(form, user, outcome).refreshCalls == 1
        <==> HandleSubmit(form, user, outcome).insert.Some? && outcome.Inserted?
    ensures HandleSubmit(form, user, outcome).refreshCalls <= 1
  {
  }

  /** The announced points identify the submitted category. */
  lemma EarnedPointsIdentifyCategory(form: FormState, user: Option<string>)
    requires HandleSubmit(form, user, Inserted).notice.ActivityAdded?
    ensures HandleSubmit(form, user, Inserted).insert.Some?
    ensures forall c: Category ::
      (Points(c) == HandleSubmit(form, user, Inserted).notice.earnedPoints <==> Some(c) == form.category)
  {
    forall c: Category
      ensures Points(c) == HandleSubmit(form, user, Inserted).notice.earnedPoints <==> Some(c) == form.category
    {
      PointsInjective(c, form.category.value);
    }
  }

  /** After a successful submission the form is back to its initial state, so
      pressing the button again without typing issues no second insert. */
  lemma ResubmitAfterSuccessIsRefused(form: FormState, user: Option<string>, again: InsertOutcome)
    requires Ready(form, user)
    ensures HandleSubmit(form, user, Inserted).form == InitialForm
    ensures HandleSubmit(HandleSubmit(form, user, Inserted).form, user, again).insert == None
  {
  }

  /** After a failed submission the inputs survive, so a retry sends exactly
      the same row again. */
  lemma RetryAfterFailureResendsSameRow(form: FormState, user: Option<string>, message: string, again: InsertOutcome)
    requires Ready(form, user)
    ensures HandleSubmit(HandleSubmit(form, user, InsertFailed(message)).form, user, again).insert
         == HandleSubmit(form, user, InsertFailed(message)).insert
  {
  }

  /** The row sent depends only on the user, the name and the category: the
      busy flag plays no part in it. */
  lemma PayloadIgnoresLoading(form: FormState, user: Option<string>, busy: bool)
    ensures Validate(form.(loading := busy), user) == Validate(form, user)
  {
  }
}
