/** The testimonial list of `src/pages/Dashboard/Testimonials/Testimonials.jsx`:
    the status badge, the View link that only completed testimonials get,
    and the fetch that fills the table. */
module Testimonials {
  import opened Js
  import opened Http
  import Requests

  const BadgeBase := "status-badge"
  const CompletedStatus := "completed"
  const LoadFailedMessage := "Failed to load testimonials. Please try again."
  const MissingNamePlaceholder := "—"

  /** A row of the table. */
  datatype TestimonialRow = TestimonialRow(
    id: string,
    customerName: Option<string>,
    customerEmail: string,
    status: string)

  /** The three statuses with a badge style of their own. */
  predicate KnownStatus(status: string) {
    status == "pending" || status == "completed" || status == "expired"
  }

  /** `getStatusBadgeClass`. */
  function StatusBadgeClass(status: string): (r: string)
    ensures KnownStatus(status) ==> r == BadgeBase + " " + status
    ensures !KnownStatus(status) ==> r == BadgeBase
  {
    match status
    case "pending" => "status-badge pending"
    case "completed" => "status-badge completed"
    case "expired" => "status-badge expired"
    case _ => BadgeBase
  }

  /** The bare base class marks exactly the statuses without a style of
      their own: a known status never yields it. */
  lemma BadgeClassNamesStatus(status: string)
    ensures StatusBadgeClass(status) == BadgeBase <==> !KnownStatus(status)
  {
    if KnownStatus(status) {
      assert |StatusBadgeClass(status)| > |BadgeBase|;
    }
  }

  /** Letter case matters. */
  lemma BadgeClassIsCaseSensitive()
    ensures StatusBadgeClass("COMPLETED") == BadgeBase
    ensures StatusBadgeClass("Pending") == BadgeBase
  {
    assert "COMPLETED" != "completed" by { assert "COMPLETED"[0] != "completed"[0]; }
    assert "COMPLETED" != "pending" by { assert "COMPLETED"[0] != "pending"[0]; }
    assert "COMPLETED" != "expired" by { assert "COMPLETED"[0] != "expired"[0]; }
    assert "Pending" != "completed" by { assert "Pending"[0] != "completed"[0]; }
    assert "Pending" != "pending" by { assert "Pending"[0] != "pending"[0]; }
    assert "Pending" != "expired" by { assert "Pending"[0] != "expired"[0]; }
  }

  /** The View link's target: a link to the testimonial's page exactly for a
      completed row, a disabled button otherwise. */
  function ViewTarget(row: TestimonialRow): (r: Option<string>)
    ensures r.Some? <==> row.status == CompletedStatus
    ensures r.Some? ==> r.value == "/dashboard/testimonials/" + row.id
  {
    if row.status == CompletedStatus then Some("/dashboard/testimonials/" + row.id) else None
  }

  /** The customer cell: the name, or a dash for a missing or empty one. */
  function CustomerCell(row: TestimonialRow): (r: string)
    ensures TruthyOpt(row.customerName) ==> r == row.customerName.value
    ensures !TruthyOpt(row.customerName) ==> r == MissingNamePlaceholder
    ensures r != ""
  {
    OrDefault(row.customerName, MissingNamePlaceholder)
  }

  /** The two pages that list the same requests disagree on the spelling of
      the completed status: no status both enables the View link here and
      disables the reminder button on the request page. */
  lemma CompletedSpellingsDisagree(status: string)
    ensures !(status == CompletedStatus && status == Requests.CompletedStatus)
  {
    assert CompletedStatus[0] != Requests.CompletedStatus[0];
  }

  class TestimonialsPage {
    var testimonials: seq<TestimonialRow>
    var loading: bool
    var error: Option<string>

    /** The page as mounted: its first fetch is in flight. */
    constructor ()
      ensures testimonials == [] && loading && error == None
    {
      testimonials := [];
      loading := true;
      error := None;
    }

    /** The Refresh button, disabled while a fetch is in flight. */
    method FetchTestimonials()
      requires !loading
      modifies this
      ensures loading && testimonials == old(testimonials) && error == old(error)
    {
      loading := true;
    }

    /** The fetch's answer: the list is replaced and the error cleared, or the
        error is set and the list kept; loading ends either way. */
    method FetchTestimonialsResponse(reply: Reply<seq<TestimonialRow>>)
      requires loading
      modifies this
      ensures !loading
      ensures reply.Ok? ==> testimonials == reply.data && error == None
      ensures reply.Failed? ==> testimonials == old(testimonials) && error == Some(LoadFailedMessage)
    {
      match reply {
        case Ok(data) =>
          testimonials := data;
          error := None;
        case Failed(_) =>
          error := Some(LoadFailedMessage);
      }
      loading := false;
    }
  }
}
