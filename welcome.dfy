/**
 * The welcome panel is shown on a first visit and again after more than an
 * hour away. The time of the last showing is kept in local storage; times
 * are milliseconds since the epoch.
 */
module Welcome {
  import opened Wrappers

  const RevisitIntervalMs: int := 3600000

  /** The outcome of checkWelcomePanel: whether to show, and what is stored afterwards. */
  datatype WelcomeDecision = WelcomeDecision(show: bool, lastVisit: Option<int>)

  function CheckWelcomePanel(lastVisit: Option<int>, now: int): (d: WelcomeDecision)
    ensures d.show <==> lastVisit.None? || now - lastVisit.value > RevisitIntervalMs
    ensures d.lastVisit == if d.show then Some(now) else lastVisit
  {
    if lastVisit.None? || now - lastVisit.value > RevisitIntervalMs then WelcomeDecision(true, Some(now))
    else WelcomeDecision(false, lastVisit)
  }

  /** The stored time changes exactly when the panel is shown. */
  lemma StoredOnlyWhenShown(lastVisit: Option<int>, now: int)
    ensures CheckWelcomePanel(lastVisit, now).lastVisit != lastVisit <==> CheckWelcomePanel(lastVisit, now).show
  {
  }

  /**
   * After a showing at `shown`, a visit at most an hour later does not show
   * the panel and keeps the stored time; one later than that shows it again.
   */
  lemma ShownAtMostOncePerHour(lastVisit: Option<int>, shown: int, later: int)
    requires CheckWelcomePanel(lastVisit, shown).show
    ensures var stored := CheckWelcomePanel(lastVisit, shown).lastVisit;
            var next := CheckWelcomePanel(stored, later);
            (next.show <==> later - shown > RevisitIntervalMs) &&
            (!next.show ==> next.lastVisit == Some(shown))
  {
  }
}
