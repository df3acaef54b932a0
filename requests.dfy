/** The testimonial-request page of `src/pages/Dashboard/Requests/Requests.jsx`:
    a form that picks a customer and a set of questions and sends a request
    after a confirmation, and the list of sent requests with a reminder
    action and the `dd/mm/yyyy` date format. */
module Requests {
  import opened Js
  import opened Http
  import opened HtmlForms

  const DefaultExpiresDays := 30
  const MinExpiresDays := 1
  const MaxExpiresDays := 365
  const FillAllMessage := "Please fill all required fields and select at least one question."
  const SendFailedMessage := "Failed to send testimonial request. Please try again."
  const ReminderFailedMessage := "Failed to send reminder. Please try again."
  const LoadFailedMessage := "Failed to load testimonial requests. Please try again later."
  const QuestionsFailedMessage := "Failed to load questions. Please try again later."
  const NeverText := "Never"
  const CompletedStatus := "COMPLETED"

  // ---------------------------------------------------------------------
  // The question selection
  // ---------------------------------------------------------------------

  /** `selected.filter(id => id !== x)`. */
  function RemoveAll(s: seq<int>, x: int): (r: seq<int>)
    ensures x !in r
    ensures forall y :: y in r <==> y in s && y != x
    ensures multiset(r) == multiset(s)[x := 0]
  {
    if s == [] then []
    else
      assert s == [s[0]] + s[1..];
      if s[0] == x then RemoveAll(s[1..], x) else [s[0]] + RemoveAll(s[1..], x)
  }

  /** The filter keeps the order of what it keeps: it distributes over
      concatenation. */
  lemma {:induction false} RemoveAllConcat(a: seq<int>, b: seq<int>, x: int)
    ensures RemoveAll(a + b, x) == RemoveAll(a, x) + RemoveAll(b, x)
  {
    if a != [] {
      var ab := a + b;
      assert ab[0] == a[0] && ab[1..] == a[1..] + b;
      RemoveAllConcat(a[1..], b, x);
    } else {
      assert a + b == b;
    }
  }

  /** A sequence without `x` passes the filter unchanged. */
  lemma {:induction false} RemoveAllAbsent(s: seq<int>, x: int)
    requires x !in s
    ensures RemoveAll(s, x) == s
  {
    if s != [] {
      RemoveAllAbsent(s[1..], x);
    }
  }

  /** `handleQuestionSelect`'s updater: a selected id is removed (every
      occurrence), any other id is appended at the end. */
  function ToggleQuestion(selected: seq<int>, id: int): (r: seq<int>)
    ensures id in selected ==> id !in r && forall y :: y in r <==> y in selected && y != id
    ensures id !in selected ==> r == selected + [id]
  {
    if id in selected then RemoveAll(selected, id) else selected + [id]
  }

  predicate NoDuplicates(s: seq<int>) {
    forall i, j :: 0 <= i < j < |s| ==> s[i] != s[j]
  }

  /** The filter of a list without duplicates has none. */
  lemma {:induction false} RemoveAllNoDuplicates(s: seq<int>, x: int)
    requires NoDuplicates(s)
    ensures NoDuplicates(RemoveAll(s, x))
  {
    if s != [] {
      RemoveAllNoDuplicates(s[1..], x);
      if s[0] != x {
        var r := RemoveAll(s, x);
        assert r == [s[0]] + RemoveAll(s[1..], x);
        assert s[0] !in s[1..];
        assert s[0] !in RemoveAll(s[1..], x);
      }
    }
  }

  /** Toggling never makes a duplicate. */
  lemma ToggleKeepsNoDuplicates(selected: seq<int>, id: int)
    requires NoDuplicates(selected)
    ensures NoDuplicates(ToggleQuestion(selected, id))
  {
    if id in selected {
      RemoveAllNoDuplicates(selected, id);
    }
  }

  /** Toggling twice restores the selected set. An id that was not selected
      comes back to exactly the same list; a selected one, to the list with
      that id moved to the end. */
  lemma ToggleTwice(selected: seq<int>, id: int)
    ensures (set y | y in ToggleQuestion(ToggleQuestion(selected, id), id)) == (set y | y in selected)
    ensures id !in selected ==> ToggleQuestion(ToggleQuestion(selected, id), id) == selected
    ensures id in selected ==> ToggleQuestion(ToggleQuestion(selected, id), id) == RemoveAll(selected, id) + [id]
  {
    if id !in selected {
      RemoveAllConcat(selected, [id], id);
      RemoveAllAbsent(selected, id);
      assert RemoveAll([id], id) == [];
    }
  }

  // ---------------------------------------------------------------------
  // The request list
  // ---------------------------------------------------------------------

  /** A sent request as the list shows it. */
  datatype TestimonialRequest = TestimonialRequest(
    id: int,
    status: string,
    createdAt: Option<string>,
    lastReminderSent: Option<string>)

  /** The `map` after a reminder: only the request with that id gets the new
      reminder date. */
  function MarkReminded(requests: seq<TestimonialRequest>, id: int, now: string): (r: seq<TestimonialRequest>)
    ensures |r| == |requests|
    ensures forall i :: 0 <= i < |r| && requests[i].id == id ==>
      r[i] == requests[i].(lastReminderSent := Some(now))
    ensures forall i :: 0 <= i < |r| && requests[i].id != id ==> r[i] == requests[i]
  {
    seq(|requests|, i requires 0 <= i < |requests| =>
      if requests[i].id == id then requests[i].(lastReminderSent := Some(now)) else requests[i])
  }

  /** `formatDate` for a date the library reads as day `day`, month index
      `monthIndex` (0 for January) and year `year`: `Never` for a falsy text,
      `dd/mm/yyyy` otherwise. */
  function FormatDate(dateString: Option<string>, day: nat, monthIndex: nat, year: nat): (r: string)
    ensures r == NeverText <==> !TruthyOpt(dateString)
    ensures TruthyOpt(dateString) ==> |r| >= 7
  {
    if !TruthyOpt(dateString) then NeverText
    else PadStart2(NatToDecimal(day)) + "/" + PadStart2(NatToDecimal(monthIndex + 1)) + "/" + NatToDecimal(year)
  }

  /** A formatted calendar date reads back as its day, its 1-based month and
      its year, in that order, separated by `/`. */
  lemma FormatDateReadsBack(dateString: Option<string>, day: nat, monthIndex: nat, year: nat)
    requires TruthyOpt(dateString) && 1 <= day <= 31 && monthIndex <= 11
    ensures var r := FormatDate(dateString, day, monthIndex, year);
      |r| >= 7 && r[2] == '/' && r[5] == '/' &&
      AllDigits(r[..2]) && DecimalValue(r[..2]) == day &&
      AllDigits(r[3..5]) && DecimalValue(r[3..5]) == monthIndex + 1 &&
      AllDigits(r[6..]) && DecimalValue(r[6..]) == year
  {
    PadStart2Decimal(day);
    PadStart2Decimal(monthIndex + 1);
    DecimalRoundTrip(year);
    var d := PadStart2(NatToDecimal(day));
    var m := PadStart2(NatToDecimal(monthIndex + 1));
    var y := NatToDecimal(year);
    var r := FormatDate(dateString, day, monthIndex, year);
    assert r == d + "/" + m + "/" + y;
    assert r[..2] == d && r[3..5] == m && r[6..] == y;
  }

  /** A falsy date text shows `Never`. */
  lemma FormatDateNever(dateString: Option<string>, day: nat, monthIndex: nat, year: nat)
    requires !TruthyOpt(dateString)
    ensures FormatDate(dateString, day, monthIndex, year) == NeverText
  {
  }

  // ---------------------------------------------------------------------
  // The page
  // ---------------------------------------------------------------------

  /** The request form. */
  datatype RequestForm = RequestForm(
    customerEmail: string,
    customerName: string,
    selectedQuestions: seq<int>,
    expiresDays: int)

  const EmptyRequestForm := RequestForm("", "", [], DefaultExpiresDays)

  /** The two confirmation dialogs and the request a reminder is for. */
  datatype Modals = Modals(showRequestModal: bool, showReminderModal: bool, reminderRequestId: Option<int>)

  /** The body of `POST /api/testimonials/request`. */
  datatype RequestBody = RequestBody(customerEmail: string, customerName: string, questionIds: seq<int>, expiresDays: int)

  /** `!reminderRequestId`: no id, or the id 0. */
  predicate FalsyId(id: Option<int>) {
    id.None? || id.value == 0
  }

  /** The request form passes the page's guard. */
  predicate ReadyToSend(form: RequestForm) {
    Trim(form.customerEmail) != "" && Trim(form.customerName) != "" && |form.selectedQuestions| > 0
  }

  /** The browser's own checks of the request form, made before the page's
      handler runs: name and e-mail present, the e-mail a valid address, and
      the days within the input's `min` and `max`. */
  predicate FormConstraintsMet(form: RequestForm) {
    !ValueMissing(form.customerName) && !ValueMissing(form.customerEmail) &&
    ValidEmailAddress(form.customerEmail) && InRange(form.expiresDays, MinExpiresDays, MaxExpiresDays)
  }

  /** Once the browser's checks pass, the page's e-mail test cannot fail: the
      form is ready exactly when the name is not blank and a question is
      selected. */
  lemma ConstraintsLeaveNameAndSelection(form: RequestForm)
    requires FormConstraintsMet(form)
    ensures ReadyToSend(form) <==> Trim(form.customerName) != "" && |form.selectedQuestions| > 0
  {
    ValidEmailShape(form.customerEmail);
  }

  /** A question offered for selection. */
  datatype OfferedQuestion = OfferedQuestion(id: int, text: string)

  class RequestsPage {
    var requests: seq<TestimonialRequest>
    var questions: seq<OfferedQuestion>
    var form: RequestForm
    var modals: Modals
    var isSending: bool
    var loading: bool
    var error: Option<string>

    /** The page as mounted: its first fetch of the list is in flight. */
    constructor ()
      ensures requests == [] && questions == [] && form == EmptyRequestForm
      ensures modals == Modals(false, false, None) && !isSending && loading && error == None
    {
      requests := [];
      questions := [];
      form := EmptyRequestForm;
      modals := Modals(false, false, None);
      isSending := false;
      loading := true;
      error := None;
    }

    /** The form's three inputs. */
    method EditForm(customerEmail: string, customerName: string, expiresDays: int)
      modifies this
      ensures form == old(form).(customerEmail := customerEmail, customerName := customerName, expiresDays := expiresDays)
      ensures requests == old(requests) && questions == old(questions) && modals == old(modals) && isSending == old(isSending)
      ensures loading == old(loading) && error == old(error)
    {
      form := form.(customerEmail := customerEmail, customerName := customerName, expiresDays := expiresDays);
    }

    /** `handleQuestionSelect`, a question's checkbox. */
    method HandleQuestionSelect(questionId: int)
      requires exists i :: 0 <= i < |questions| && questions[i].id == questionId
      modifies this
      ensures form == old(form).(selectedQuestions := ToggleQuestion(old(form.selectedQuestions), questionId))
      ensures requests == old(requests) && questions == old(questions) && modals == old(modals) && isSending == old(isSending)
      ensures loading == old(loading) && error == old(error)
    {
      form := form.(selectedQuestions := ToggleQuestion(form.selectedQuestions, questionId));
    }

    /** The request form's `submit` event, from its button or from Enter in a
        field (no submission takes place while the button is disabled). A
        form the browser's checks refuse changes nothing; one they accept
        reaches `handleSubmitRequest`. */
    method SubmitRequestForm()
      requires |questions| > 0
      modifies this
      ensures !FormConstraintsMet(old(form)) ==> unchanged(this)
      ensures FormConstraintsMet(old(form)) && Trim(old(form.customerName)) != "" && |old(form.selectedQuestions)| > 0 ==>
        modals == old(modals).(showRequestModal := true) && error == old(error)
      ensures FormConstraintsMet(old(form)) && (Trim(old(form.customerName)) == "" || |old(form.selectedQuestions)| == 0) ==>
        modals == old(modals) && error == Some(FillAllMessage)
      ensures requests == old(requests) && questions == old(questions) && form == old(form) && isSending == old(isSending) && loading == old(loading)
    {
      if !FormConstraintsMet(form) {
        return;
      }
      ConstraintsLeaveNameAndSelection(form);
      HandleSubmitRequest();
    }

    /** `handleSubmitRequest`: the confirmation opens only for a non-blank
        e-mail and name and at least one question; otherwise the error is set
        and the dialog stays closed. */
    method HandleSubmitRequest()
      requires |questions| > 0
      modifies this
      ensures ReadyToSend(old(form)) ==> modals == old(modals).(showRequestModal := true) && error == old(error)
      ensures !ReadyToSend(old(form)) ==> modals == old(modals) && error == Some(FillAllMessage)
      ensures requests == old(requests) && questions == old(questions) && form == old(form) && isSending == old(isSending) && loading == old(loading)
    {
      if Trim(form.customerEmail) == "" || Trim(form.customerName) == "" || |form.selectedQuestions| == 0 {
        error := Some(FillAllMessage);
        return;
      }
      modals := modals.(showRequestModal := true);
    }

    /** The `Cancel` button of the request dialog. */
    method CancelRequestModal()
      modifies this
      ensures modals == old(modals).(showRequestModal := false)
      ensures requests == old(requests) && questions == old(questions) && form == old(form) && isSending == old(isSending)
      ensures loading == old(loading) && error == old(error)
    {
      modals := modals.(showRequestModal := false);
    }

    /** `sendTestimonialRequest`, confirmed in the dialog while no send is in
        flight. `sent` is the posted body. Success resets the form (e-mail,
        name, selection, 30 days), starts a new fetch of the list and clears
        the error; failure keeps the form and sets the error. The dialog
        closes and `isSending` is false after both. */
    method SendTestimonialRequest(accepted: bool) returns (sent: RequestBody)
      requires modals.showRequestModal && !isSending
      modifies this
      ensures sent == RequestBody(old(form.customerEmail), old(form.customerName),
                                  old(form.selectedQuestions), old(form.expiresDays))
      ensures modals == old(modals).(showRequestModal := false) && !isSending
      ensures accepted ==> form == EmptyRequestForm && loading && error == None
      ensures !accepted ==> form == old(form) && loading == old(loading) && error == Some(SendFailedMessage)
      ensures requests == old(requests) && questions == old(questions)
    {
      isSending := true;
      sent := RequestBody(form.customerEmail, form.customerName, form.selectedQuestions, form.expiresDays);
      if accepted {
        form := EmptyRequestForm;
        modals := modals.(showRequestModal := false);
        loading := true;
        error := None;
      } else {
        error := Some(SendFailedMessage);
        modals := modals.(showRequestModal := false);
      }
      isSending := false;
    }

    /** `fetchRequests` started: the list is loading. */
    method FetchRequests()
      modifies this
      ensures loading
      ensures requests == old(requests) && questions == old(questions) && form == old(form) && modals == old(modals)
      ensures isSending == old(isSending) && error == old(error)
    {
      loading := true;
    }

    /** The list's answer: it replaces the list and clears the error, or sets
        the error and keeps the list; loading ends either way. */
    method FetchRequestsResponse(reply: Reply<seq<TestimonialRequest>>)
      requires loading
      modifies this
      ensures !loading
      ensures reply.Ok? ==> requests == reply.data && error == None
      ensures reply.Failed? ==> requests == old(requests) && error == Some(LoadFailedMessage)
      ensures questions == old(questions) && form == old(form) && modals == old(modals) && isSending == old(isSending)
    {
      match reply {
        case Ok(data) =>
          requests := data;
          error := None;
        case Failed(_) =>
          error := Some(LoadFailedMessage);
      }
      loading := false;
    }

    /** The question list's answer: it replaces the list, or sets the error
        and keeps the list. The error is not cleared on success. */
    method FetchQuestionsResponse(reply: Reply<seq<OfferedQuestion>>)
      modifies this
      ensures reply.Ok? ==> questions == reply.data && error == old(error)
      ensures reply.Failed? ==> questions == old(questions) && error == Some(QuestionsFailedMessage)
      ensures requests == old(requests) && form == old(form) && modals == old(modals)
      ensures isSending == old(isSending) && loading == old(loading)
    {
      match reply {
        case Ok(data) => questions := data;
        case Failed(_) => error := Some(QuestionsFailedMessage);
      }
    }

    /** `confirmSendReminder`, the reminder button of a request that is not
        completed: the dialog opens for that request. */
    method ConfirmSendReminder(requestId: int)
      requires exists i :: 0 <= i < |requests| && requests[i].id == requestId && requests[i].status != CompletedStatus
      modifies this
      ensures modals == old(modals).(showReminderModal := true, reminderRequestId := Some(requestId))
      ensures requests == old(requests) && questions == old(questions) && form == old(form) && isSending == old(isSending)
      ensures loading == old(loading) && error == old(error)
    {
      modals := modals.(showReminderModal := true, reminderRequestId := Some(requestId));
    }

    /** The `Cancel` button of the reminder dialog: it only hides the dialog;
        the chosen id stays. */
    method CancelReminderModal()
      modifies this
      ensures modals == old(modals).(showReminderModal := false)
      ensures requests == old(requests) && questions == old(questions) && form == old(form) && isSending == old(isSending)
      ensures loading == old(loading) && error == old(error)
    {
      modals := modals.(showReminderModal := false);
    }

    /** `sendReminder`, confirmed in the dialog. A falsy id does nothing at
        all. Otherwise a success stamps `now` on the matching requests only
        and clears the error, a failure sets the error; the dialog closes and
        the id is cleared either way. `sent` is the id reminded, if any. */
    method SendReminder(accepted: bool, now: string) returns (sent: Option<int>)
      requires modals.showReminderModal
      modifies this
      ensures FalsyId(old(modals.reminderRequestId)) ==>
        sent == None && requests == old(requests) && modals == old(modals) && error == old(error)
      ensures !FalsyId(old(modals.reminderRequestId)) ==>
        sent == old(modals.reminderRequestId) && modals == old(modals).(showReminderModal := false, reminderRequestId := None)
      ensures !FalsyId(old(modals.reminderRequestId)) && accepted ==>
        requests == MarkReminded(old(requests), old(modals.reminderRequestId).value, now) && error == None
      ensures !FalsyId(old(modals.reminderRequestId)) && !accepted ==>
        requests == old(requests) && error == Some(ReminderFailedMessage)
      ensures questions == old(questions) && form == old(form) && isSending == old(isSending) && loading == old(loading)
    {
      if FalsyId(modals.reminderRequestId) {
        sent := None;
        return;
      }
      var id := modals.reminderRequestId.value;
      sent := Some(id);
      if accepted {
        requests := MarkReminded(requests, id, now);
        error := None;
      } else {
        error := Some(ReminderFailedMessage);
      }
      modals := modals.(showReminderModal := false, reminderRequestId := None);
    }
  }
}
