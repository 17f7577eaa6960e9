/** The dashboard's state and its `fetchActivities` step: a fetched list
    replaces the shown list and both scores are recomputed from it; any
    failure leaves the list and the scores as they were. */
module Dashboard {
  import opened Wrappers
  import opened Records
  import opened Scoring

  datatype DashboardState = DashboardState(
    activities: seq<Activity>,
    totalScore: int,
    weeklyScore: int,
    loading: bool)

  const InitialDashboard: DashboardState := DashboardState([], 0, 0, true)

  /** The backend's `{ data, error }` answer to the list query. */
  datatype FetchResponse = FetchResponse(data: Option<seq<Activity>>, error: Option<string>)

  /** The state afterwards and the error toast, if one was shown. */
  datatype FetchEffect = FetchEffect(state: DashboardState, errorNotice: Option<string>)

  /** One refresh at time `now`. Without a signed-in user nothing happens at
      all (not even the loading flag is cleared). An error is reported and
      keeps the list and scores; a response with no data and no error keeps
      them silently; otherwise the list is replaced and both scores are
      recomputed from it. */
  function FetchActivities(s: DashboardState, user: Option<string>, response: FetchResponse, now: int): (e: FetchEffect)
    ensures user.None? ==> e == FetchEffect(s, None)
    ensures user.Some? ==> !e.state.loading
    ensures user.Some? && response.error.Some? ==>
      && e.state == s.(loading := false)
      && e.errorNotice == response.error
    ensures user.Some? && response.error.None? && response.data.None? ==>
      e == FetchEffect(s.(loading := false), None)
    ensures user.Some? && response.error.None? && response.data.Some? ==>
      && e.state.activities == response.data.value
      && Summary(e.state.totalScore, e.state.weeklyScore) == Summarize(response.data.value, now)
      && e.errorNotice == None
  {
    if user.None? then FetchEffect(s, None)
    else if response.error.Some? then FetchEffect(s.(loading := false), response.error)
    else if response.data.Some? then
      var summary := Summarize(response.data.value, now);
      FetchEffect(DashboardState(response.data.value, summary.total, summary.weekly, false), None)
    else FetchEffect(s.(loading := false), None)
  }

  /** The shown scores agree with the shown list: the total is the sum over
      it, and when no activity has negative points the weekly score lies
      between zero and the total. */
  ghost predicate Consistent(s: DashboardState) {
    && s.totalScore == SumPoints(s.activities)
    && (AllNonNegative(s.activities) ==> 0 <= s.weeklyScore <= s.totalScore)
  }

  lemma InitialConsistent()
    ensures Consistent(InitialDashboard)
  {
  }

  /** Every refresh, whatever the backend answers, keeps the scores
      consistent with the list. */
  lemma FetchPreservesConsistency(s: DashboardState, user: Option<string>, response: FetchResponse, now: int)
    requires Consistent(s)
    ensures Consistent(FetchActivities(s, user, response, now).state)
  {
  }

  /** A failed refresh shows the previous list and scores unchanged. */
  lemma FetchErrorKeepsScores(s: DashboardState, user: Option<string>, response: FetchResponse, now: int)
    requires response.error.Some?
    ensures FetchActivities(s, user, response, now).state.activities == s.activities
    ensures FetchActivities(s, user, response, now).state.totalScore == s.totalScore
    ensures FetchActivities(s, user, response, now).state.weeklyScore == s.weeklyScore
  {
  }

  /** The scores shown after a refresh do not depend on the order in which
      the backend returned the rows. */
  lemma FetchOrderIrrelevant(s: DashboardState, user: Option<string>, d1: seq<Activity>, d2: seq<Activity>, now: int)
    requires multiset(d1) == multiset(d2)
    ensures FetchActivities(s, user, FetchResponse(Some(d1), None), now).state.totalScore
         == FetchActivities(s, user, FetchResponse(Some(d2), None), now).state.totalScore
    ensures FetchActivities(s, user, FetchResponse(Some(d1), None), now).state.weeklyScore
         == FetchActivities(s, user, FetchResponse(Some(d2), None), now).state.weeklyScore
  {
    SummarizePermutation(d1, d2, now);
  }
}
