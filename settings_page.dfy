/** The settings page: the hearing notifications (today's hearings and those of
    the next seven days) and the change-password form with its checks. */
module SettingsPage {
  import opened Common
  import opened Dates
  import opened CasesApi

  // ---------------------------------------------------------------------------
  // Notifications
  // ---------------------------------------------------------------------------

  /** The hearing falls on the same local calendar day as now. */
  predicate HearsToday(c: CaseSummary, now: Moment)
    ensures HearsToday(c, now) ==> c.nextHearing.Some? && c.nextHearing.value.local.year == now.local.year &&
                                   c.nextHearing.value.local.month == now.local.month &&
                                   c.nextHearing.value.local.day == now.local.day
  {
    c.nextHearing.Some? && c.nextHearing.value.local == now.local
  }

  /** The hearing lies strictly after now and strictly before seven days from now. */
  predicate HearsWithinWeek(c: CaseSummary, now: Moment)
    ensures HearsWithinWeek(c, now) ==> c.nextHearing.Some? && c.nextHearing.value.ms != now.ms &&
                                        c.nextHearing.value.ms != now.ms + 7 * MillisPerDay
  {
    c.nextHearing.Some? && now.ms < c.nextHearing.value.ms < now.ms + 7 * MillisPerDay
  }

  function TodayHearings(cases: seq<CaseSummary>, now: Moment): (r: seq<CaseSummary>)
    ensures IsSubsequence(r, cases)
    ensures forall c :: c in r <==> c in cases && HearsToday(c, now)
  {
    Filter(cases, (c: CaseSummary) => HearsToday(c, now))
  }

  function UpcomingHearings(cases: seq<CaseSummary>, now: Moment): (r: seq<CaseSummary>)
    ensures IsSubsequence(r, cases)
    ensures forall c :: c in r <==> c in cases && HearsWithinWeek(c, now)
  {
    Filter(cases, (c: CaseSummary) => HearsWithinWeek(c, now))
  }

  /** A case without a hearing date is in neither list. */
  lemma NoHearingNoNotice(cases: seq<CaseSummary>, c: CaseSummary, now: Moment)
    requires c.nextHearing.None?
    ensures c !in TodayHearings(cases, now) && c !in UpcomingHearings(cases, now)
  {
  }

  /** A hearing later today is in both lists; one earlier today, or exactly
      now, only in today's; one exactly seven days ahead in neither. */
  lemma TodayAndUpcoming(cases: seq<CaseSummary>, c: CaseSummary, now: Moment)
    requires c in cases && c.nextHearing.Some? && c.nextHearing.value.local == now.local
    ensures now.ms < c.nextHearing.value.ms < now.ms + MillisPerDay ==>
              c in TodayHearings(cases, now) && c in UpcomingHearings(cases, now)
    ensures c.nextHearing.value.ms <= now.ms ==>
              c in TodayHearings(cases, now) && c !in UpcomingHearings(cases, now)
  {
  }

  lemma WeekBoundExcluded(cases: seq<CaseSummary>, c: CaseSummary, now: Moment)
    requires c.nextHearing.Some? && c.nextHearing.value.ms == now.ms + 7 * MillisPerDay
    ensures c !in UpcomingHearings(cases, now)
  {
  }

  // ---------------------------------------------------------------------------
  // Change password
  // ---------------------------------------------------------------------------

  /** The three fields of the security tab: current, new and confirmation. */
  datatype PasswordForm = PasswordForm(current: string, next: string, confirm: string)

  const EmptyPasswords := PasswordForm("", "", "")
  const FillAllAlert := "Please fill all password fields"
  const MismatchAlert := "New passwords do not match"
  const UpdatedAlert := "Password updated successfully!"
  const FailedFallback := "Failed to update password"

  /** The checks made before anything is sent: the alert they raise, if any. */
  function CheckPasswords(p: PasswordForm): (alert: Option<string>)
    ensures alert.None? <==> p.current != "" && p.next != "" && p.confirm != "" && p.next == p.confirm
    ensures alert.Some? ==> alert.value == FillAllAlert || alert.value == MismatchAlert
    ensures (p.current == "" || p.next == "" || p.confirm == "") ==> alert == Some(FillAllAlert)
  {
    if p.current == "" || p.next == "" || p.confirm == "" then Some(FillAllAlert)
    else if p.next != p.confirm then Some(MismatchAlert)
    else None
  }

  class SettingsState {
    var todayHearings: seq<CaseSummary>
    var upcomingHearings: seq<CaseSummary>
    var passwords: PasswordForm
    var isSavingPass: bool

    constructor()
      ensures todayHearings == [] && upcomingHearings == []
      ensures passwords == EmptyPasswords && !isSavingPass
    {
      todayHearings := [];
      upcomingHearings := [];
      passwords := EmptyPasswords;
      isSavingPass := false;
    }

    /** `fetchNotifications`: a successful fetch fills both lists; a failed one leaves them. */
    method FetchNotifications(fetched: Option<seq<CaseSummary>>, now: Moment)
      modifies this
      ensures fetched.Some? ==> todayHearings == TodayHearings(fetched.value, now) &&
                                upcomingHearings == UpcomingHearings(fetched.value, now)
      ensures fetched.None? ==> todayHearings == old(todayHearings) &&
                                upcomingHearings == old(upcomingHearings)
      ensures passwords == old(passwords) && isSavingPass == old(isSavingPass)
    {
      if fetched.Some? {
        todayHearings := TodayHearings(fetched.value, now);
        upcomingHearings := UpcomingHearings(fetched.value, now);
      }
    }

    /** `handleUpdatePassword`: a form failing the checks is not sent and only
        raises its alert. Otherwise the current and new passwords are sent; on
        success the fields are cleared, on failure the error's message (or a
        fallback) is shown and the fields are kept. */
    method HandleUpdatePassword(failure: Option<string>)
      returns (sent: Option<(string, string)>, alert: string)
      modifies this
      ensures CheckPasswords(old(passwords)).Some? ==>
                sent.None? && alert == CheckPasswords(old(passwords)).value &&
                passwords == old(passwords) && isSavingPass == old(isSavingPass)
      ensures CheckPasswords(old(passwords)).None? ==>
                sent == Some((old(passwords).current, old(passwords).next)) && !isSavingPass &&
                (failure.None? ==> alert == UpdatedAlert && passwords == EmptyPasswords) &&
                (failure.Some? ==> passwords == old(passwords) &&
                                   alert == (if failure.value != "" then failure.value else FailedFallback))
      ensures todayHearings == old(todayHearings) && upcomingHearings == old(upcomingHearings)
    {
      var check := CheckPasswords(passwords);
      if check.Some? {
        return None, check.value;
      }
      isSavingPass := true;
      sent := Some((passwords.current, passwords.next));
      if failure.None? {
        alert := UpdatedAlert;
        passwords := EmptyPasswords;
      } else {
        alert := if failure.value != "" then failure.value else FailedFallback;
      }
      isSavingPass := false;
    }
  }
}
