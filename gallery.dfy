/**
 * The project gallery: a click on a project card opens one shared modal
 * whose title is the card's heading and whose body is chosen by exact match
 * of that heading against four project titles; any other title shows a
 * placeholder. The modal is created on first use and afterwards only its
 * `display` style changes. Markup and styling are not modelled: each body
 * is its ordered groups of (image path, alt text) under a heading, plus the
 * notice the Audit Portal body opens with.
 */
module Gallery {
  import opened Maybe
  import opened JsString

  datatype Image = Image(path: string, alt: string)
  datatype Group = Group(heading: string, images: seq<Image>)

  /** The modal body: image groups (with an optional notice above them) or the placeholder. */
  datatype Content = Images(notice: Option<string>, groups: seq<Group>) | Placeholder(text: string)

  const WaterMeter: string := "Water Meter Management System"
  const AuditPortal: string := "Audit Portal"
  const SciLab: string := "SciLab Reservation System"
  const PlspCart: string := "PLSPCart \U{2013} E-Commerce Platform"

  /** The titles that have a gallery. */
  const ProjectTitles: set<string> := {WaterMeter, AuditPortal, SciLab, PlspCart}

  const AuditNotice: string :=
    "Screenshots of the live system are unavailable due to company policy. The images shown are photos taken during development/deployment."
  const PlaceholderText: string := "No images available for this project yet."

  const WaterMeterGroups: seq<Group> := [
    Group("Admin Panel", [
      Image("img/Water-Works/admin/login.jpg", "Login"),
      Image("img/Water-Works/admin/consumer_list.jpg", "Consumer List"),
      Image("img/Water-Works/admin/consumer_info.jpg", "Consumer Info"),
      Image("img/Water-Works/admin/meter_connection.jpg", "Meter Connection"),
      Image("img/Water-Works/admin/reading.jpg", "Reading"),
      Image("img/Water-Works/admin/charges.jpg", "Charges"),
      Image("img/Water-Works/admin/posting.jpg", "Posting"),
      Image("img/Water-Works/admin/bills_and_payment.jpg", "Bills and Payment"),
      Image("img/Water-Works/admin/billing_summary.jpg", "Billing Summary"),
      Image("img/Water-Works/admin/analytics.jpg", "Analytics"),
      Image("img/Water-Works/admin/user_management.jpg", "User Management"),
      Image("img/Water-Works/admin/brgy_list.jpg", "Brgy List")
    ]),
    Group("Reader Portal", [
      Image("img/Water-Works/reader/homepage.jpg", "Homepage"),
      Image("img/Water-Works/reader/dashboard.jpg", "Dashboard"),
      Image("img/Water-Works/reader/list_of_consumers.jpg", "List of Consumers"),
      Image("img/Water-Works/reader/readingpage.jpg", "Reading Page")
    ]),
    Group("Consumer Portal", [
      Image("img/Water-Works/consumer/login.jpg", "Consumer Login"),
      Image("img/Water-Works/consumer/homepage.jpg", "Consumer Homepage")
    ])
  ]

  const AuditPortalGroups: seq<Group> := [
    Group("System Screenshots", [
      Image("img/audit-portal/homepage.jpg", "Homepage"),
      Image("img/audit-portal/fyp.jpg", "FYP"),
      Image("img/audit-portal/fyp1.jpg", "FYP 1"),
      Image("img/audit-portal/meeting.jpg", "Meeting"),
      Image("img/audit-portal/meeting1.jpg", "Meeting 1"),
      Image("img/audit-portal/leaderboard.jpg", "Leaderboard"),
      Image("img/audit-portal/proffilepage.jpg", "Profile Page")
    ])
  ]

  const SciLabGroups: seq<Group> := [
    Group("Admin Dashboard", [
      Image("img/SciLab/admin/dashboard.png", "Dashboard"),
      Image("img/SciLab/admin/inventory_admin.png", "Inventory"),
      Image("img/SciLab/admin/manage_professor_admin.png", "Manage Professor"),
      Image("img/SciLab/admin/ongoing_reservation_admin.png", "Ongoing Reservations"),
      Image("img/SciLab/admin/professor_approval_admin.png", "Professor Approval"),
      Image("img/SciLab/admin/reserve_history_admin.png", "Reserve History"),
      Image("img/SciLab/admin/room_monitor_admin.png", "Room Monitor"),
      Image("img/SciLab/admin/student_approval_admin.png", "Student Approval"),
      Image("img/SciLab/admin/unreturned_item_admin.png", "Unreturned Items")
    ]),
    Group("Professor Portal", [
      Image("img/SciLab/professor/dashboard_student_professor.png", "Dashboard"),
      Image("img/SciLab/professor/history_professor.png", "History"),
      Image("img/SciLab/professor/pending_professor.png", "Pending"),
      Image("img/SciLab/professor/reservation_professor.png", "Reservation"),
      Image("img/SciLab/professor/students_with_unra.png", "Students with Unreturned"),
      Image("img/SciLab/professor/student_approval_professor.png", "Student Approval"),
      Image("img/SciLab/professor/student_approved_professor.png", "Student Approved")
    ]),
    Group("Student Portal", [
      Image("img/SciLab/student/ladningpage.png", "Landing Page"),
      Image("img/SciLab/student/login.png", "Login"),
      Image("img/SciLab/student/register.png", "Register"),
      Image("img/SciLab/student/createreserve.png", "Create Reservation"),
      Image("img/SciLab/student/reservation.png", "Reservation"),
      Image("img/SciLab/student/pendingapproval.png", "Pending Approval"),
      Image("img/SciLab/student/history.png", "History")
    ])
  ]

  const PlspCartGroups: seq<Group> := [
    Group("Admin Dashboard", [
      Image("img/plspcart/admin/Screenshot 2026-02-07 000636.png", "Admin 1"),
      Image("img/plspcart/admin/Screenshot 2026-02-07 000640.png", "Admin 2"),
      Image("img/plspcart/admin/Screenshot 2026-02-07 000643.png", "Admin 3"),
      Image("img/plspcart/admin/Screenshot 2026-02-07 000647.png", "Admin 4"),
      Image("img/plspcart/admin/Screenshot 2026-02-07 000651.png", "Admin 5"),
      Image("img/plspcart/admin/Screenshot 2026-02-07 000700.png", "Admin 6"),
      Image("img/plspcart/admin/Screenshot 2026-02-07 000704.png", "Admin 7")
    ]),
    Group("Buyer Platform", [
      Image("img/plspcart/buyer/Screenshot 2026-02-07 000006.png", "Buyer 1"),
      Image("img/plspcart/buyer/Screenshot 2026-02-07 000011.png", "Buyer 2"),
      Image("img/plspcart/buyer/Screenshot 2026-02-07 000017.png", "Buyer 3"),
      Image("img/plspcart/buyer/Screenshot 2026-02-07 000023.png", "Buyer 4"),
      Image("img/plspcart/buyer/Screenshot 2026-02-07 000032.png", "Buyer 5"),
      Image("img/plspcart/buyer/Screenshot 2026-02-07 000035.png", "Buyer 6"),
      Image("img/plspcart/buyer/Screenshot 2026-02-07 000342.png", "Buyer 7"),
      Image("img/plspcart/buyer/Screenshot 2026-02-07 000346.png", "Buyer 8"),
      Image("img/plspcart/buyer/Screenshot 2026-02-07 000356.png", "Buyer 9"),
      Image("img/plspcart/buyer/Screenshot 2026-02-07 000414.png", "Buyer 10")
    ])
  ]

  /**
   * The body chosen for a card title: a gallery exactly for the four project
   * titles (exact string comparison), the placeholder for every other
   * string; only the Audit Portal gallery carries a notice; every gallery
   * has at least one group and every group at least one image.
   */
  function Lookup(title: string): (c: Content)
    ensures c.Placeholder? <==> title !in ProjectTitles
    ensures c.Placeholder? ==> c.text == PlaceholderText
    ensures c.Images? ==> (c.notice.Some? <==> title == AuditPortal)
    ensures c.Images? && c.notice.Some? ==> c.notice.value == AuditNotice
    ensures c.Images? ==> |c.groups| > 0 && forall g :: g in c.groups ==> |g.images| > 0
  {
    if title == WaterMeter then Images(None, WaterMeterGroups)
    else if title == AuditPortal then Images(Some(AuditNotice), AuditPortalGroups)
    else if title == SciLab then Images(None, SciLabGroups)
    else if title == PlspCart then Images(None, PlspCartGroups)
    else Placeholder(PlaceholderText)
  }

  function Headings(c: Content): seq<string> {
    match c
    case Placeholder(_) => []
    case Images(_, groups) => seq(|groups|, i requires 0 <= i < |groups| => groups[i].heading)
  }

  function Counts(c: Content): seq<nat> {
    match c
    case Placeholder(_) => []
    case Images(_, groups) => seq(|groups|, i requires 0 <= i < |groups| => |groups[i].images|)
  }

  /** The group headings and image counts of the four galleries, in display order. */
  lemma CatalogShape()
    ensures Headings(Lookup(WaterMeter)) == ["Admin Panel", "Reader Portal", "Consumer Portal"]
    ensures Counts(Lookup(WaterMeter)) == [12, 4, 2]
    ensures Headings(Lookup(AuditPortal)) == ["System Screenshots"]
    ensures Counts(Lookup(AuditPortal)) == [7]
    ensures Headings(Lookup(SciLab)) == ["Admin Dashboard", "Professor Portal", "Student Portal"]
    ensures Counts(Lookup(SciLab)) == [9, 7, 7]
    ensures Headings(Lookup(PlspCart)) == ["Admin Dashboard", "Buyer Platform"]
    ensures Counts(Lookup(PlspCart)) == [7, 10]
  {
  }

  /** The modal's inline `display` style. */
  datatype Display = Flex | DisplayNone

  /** The shared modal: absent until the first card click, then title, body and display. */
  datatype CardView = Absent | Present(display: Display, title: string, content: Content)

  /** `showCardModal(title)`: create the modal if needed, set its title and body, display it. */
  function Show(v: CardView, title: string): (r: CardView)
    ensures r.Present? && r.display == Flex && r.title == title
    ensures r.content == Lookup(title)
  {
    Present(Flex, title, Lookup(title))
  }

  /** `closeCardModal()`: hide the modal if it exists. */
  function Close(v: CardView): (r: CardView)
    ensures v.Absent? ==> r == v
    ensures v.Present? ==> r.Present? && r.display == DisplayNone && r.title == v.title && r.content == v.content
  {
    match v
    case Absent => Absent
    case Present(_, title, content) => Present(DisplayNone, title, content)
  }

  /** The modal's keydown listener (registered when it is created): Escape closes it unless it is already hidden. */
  function KeyDown(v: CardView, key: string): (r: CardView)
    ensures key != "Escape" || v.Absent? || v.display == DisplayNone ==> r == v
    ensures key == "Escape" && v.Present? ==> r == Close(v)
  {
    if v.Present? && key == "Escape" && v.display != DisplayNone then Close(v) else v
  }

  /** The modal's click listener: only a click on the overlay itself closes it. */
  function OverlayClick(v: CardView, targetIsOverlay: bool): (r: CardView)
    ensures !targetIsOverlay ==> r == v
    ensures targetIsOverlay ==> r == Close(v)
  {
    if v.Present? && targetIsOverlay then Close(v) else v
  }

  /** What was shown before makes no difference to what `Show` displays. */
  lemma ShowForgetsHistory(v: CardView, w: CardView, title: string)
    ensures Show(v, title) == Show(w, title)
    ensures Show(Close(Show(v, title)), title) == Show(v, title)
  {
  }

  lemma CloseIdempotent(v: CardView)
    ensures Close(Close(v)) == Close(v)
  {
  }

  /** `element.closest(tag)` over the target's ancestry (the target first, then its parents): the nearest match. */
  function Closest(ancestry: seq<string>, tag: string): (r: Option<nat>)
    ensures r.None? <==> tag !in ancestry
    ensures r.Some? ==> r.value < |ancestry| && ancestry[r.value] == tag
    ensures r.Some? ==> forall k :: 0 <= k < r.value ==> ancestry[k] != tag
  {
    if ancestry == [] then None
    else if ancestry[0] == tag then Some(0)
    else match Closest(ancestry[1..], tag)
      case None => None
      case Some(k) => Some(k + 1)
  }

  /** The card's guard: the target is an anchor, or lies inside one. */
  predicate ClickOnLink(ancestry: seq<string>) {
    (|ancestry| > 0 && ancestry[0] == "A") || Closest(ancestry, "A").Some?
  }

  /** A card click is ignored exactly when some element from the target upwards is an anchor. */
  lemma ClickOnLinkIffAnchorAbove(ancestry: seq<string>)
    ensures ClickOnLink(ancestry) <==> "A" in ancestry
  {
  }

  /** A click on a project card whose `h3` text is `heading`. */
  function CardClick(v: CardView, ancestry: seq<string>, heading: string): (r: CardView)
    ensures "A" in ancestry ==> r == v
    ensures "A" !in ancestry ==> r == Show(v, Trim(heading))
  {
    if ClickOnLink(ancestry) then v else Show(v, Trim(heading))
  }

  /**
   * A card whose heading is a project title padded with whitespace opens
   * that project's gallery.
   */
  lemma CardClickPaddedTitle(v: CardView, ancestry: seq<string>, pad1: string, pad2: string, title: string)
    requires "A" !in ancestry && AllWhiteSpace(pad1) && AllWhiteSpace(pad2)
    requires title in ProjectTitles
    ensures CardClick(v, ancestry, pad1 + title + pad2).content == Lookup(title)
  {
    TrimOfPadded(pad1, title, pad2);
  }

  /** The modal element as the page script sees it. */
  class CardModal {
    var view: CardView

    constructor ()
      ensures view == Absent
    {
      view := Absent;
    }

    method ShowCardModal(cardTitle: string)
      modifies this
      ensures view == Show(old(view), cardTitle)
    {
      view := Present(Flex, cardTitle, Lookup(cardTitle));
    }

    method CloseCardModal()
      modifies this
      ensures view == Close(old(view))
    {
      if view.Present? {
        view := view.(display := DisplayNone);
      }
    }

    method OnKeyDown(key: string)
      modifies this
      ensures view == KeyDown(old(view), key)
    {
      if view.Present? && key == "Escape" && view.display != DisplayNone {
        CloseCardModal();
      }
    }

    method OnModalClick(targetIsOverlay: bool)
      modifies this
      ensures view == OverlayClick(old(view), targetIsOverlay)
    {
      if view.Present? && targetIsOverlay {
        CloseCardModal();
      }
    }

    method OnCardClick(ancestry: seq<string>, heading: string)
      modifies this
      ensures view == CardClick(old(view), ancestry, heading)
    {
      if (|ancestry| > 0 && ancestry[0] == "A") || Closest(ancestry, "A").Some? {
        return;
      }
      var cardTitle := Trim(heading);
      ShowCardModal(cardTitle);
    }
  }
}
