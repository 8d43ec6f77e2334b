// The account page (components/Profile.tsx): the digit localiser used for
// every number it prints, the order status badge, the four-step delivery
// timeline, order cancellation, and the review editor. The page's own state
// (active tab, the profile form, the review being edited, the order being
// shown) is the `ProfileView` class; clock and `window.confirm` are
// parameters.
module Profile {
  import opened Types
  import opened Prices

  // ---------------------------------------------------------------------------
  // toPersianDigits

  /**
   * `num.toString().replace(/\d/g, d => '۰۱۲۳۴۵۶۷۸۹'[parseInt(d)])`. Without the
   * `u` flag `\d` is exactly 0-9, so every ASCII digit becomes the Persian digit
   * of the same value and everything else is kept.
   */
  function ToPersianDigits(s: string): (r: string)
    ensures |r| == |s|
    ensures forall i :: 0 <= i < |s| ==> r[i] == if IsAsciiDigit(s[i]) then PersianDigit(DigitValue(s[i])) else s[i]
  {
    DigitTables();
    if s == [] then []
    else [if IsAsciiDigit(s[0]) then PersianDigits[DigitValue(s[0])] else s[0]] + ToPersianDigits(s[1..])
  }

  /** Localising the digits does not change the number a price string spells. */
  lemma {:induction false} PersianKeepsValue(s: string)
    ensures DigitsOf(ToPersianDigits(s)) == DigitsOf(s)
    ensures PriceValue(ToPersianDigits(s)) == PriceValue(s)
  {
    if s != [] {
      PersianKeepsValue(s[1..]);
      var r := ToPersianDigits(s);
      assert r[1..] == ToPersianDigits(s[1..]);
    }
  }

  /** The cart's parser reads back any natural number that `toPersianDigits` printed. */
  lemma PersianDecimalRoundTrip(n: nat)
    ensures PriceValue(ToPersianDigits(Decimal(n))) == n
  {
    PersianKeepsValue(Decimal(n));
    DecimalRoundTrip(n);
  }

  /** On text without Persian digits, the parser's digit passes undo `toPersianDigits`. */
  lemma {:induction false} EnglishUndoesPersian(s: string)
    requires forall i :: 0 <= i < |s| ==> !IsPersianDigit(s[i])
    ensures ToEnglishDigits(ToPersianDigits(s)) == s
  {
    if s != [] {
      EnglishUndoesPersian(s[1..]);
      var r := ToPersianDigits(s);
      assert r[1..] == ToPersianDigits(s[1..]);
      assert ToEnglishDigits(r) == [AfterPasses(r[0], 10)] + ToEnglishDigits(r[1..]);
      assert [s[0]] + s[1..] == s;
    }
  }

  /** Conversely, on text without ASCII digits, `toPersianDigits` undoes the passes. */
  lemma {:induction false} PersianUndoesEnglish(s: string)
    requires forall i :: 0 <= i < |s| ==> !IsAsciiDigit(s[i])
    ensures ToPersianDigits(ToEnglishDigits(s)) == s
  {
    if s != [] {
      PersianUndoesEnglish(s[1..]);
      var r := ToEnglishDigits(s);
      assert r[1..] == ToEnglishDigits(s[1..]);
      assert [s[0]] + s[1..] == s;
    }
  }

  // ---------------------------------------------------------------------------
  // The status badge

  /** The order statuses the page knows, in the order of the switch. */
  const KnownStatuses: seq<string> := ["pending", "processing", "shipped", "delivered", "cancelled"]

  /** `getStatusLabel`'s answer for an unrecognised status. */
  const UnknownStatusLabel: string := "نامشخص"

  /** `getStatusLabel`. */
  function StatusLabel(status: string): string
  {
    match status
    case "pending" => "در انتظار پرداخت"
    case "processing" => "در حال پردازش"
    case "shipped" => "ارسال شده"
    case "delivered" => "تحویل شده"
    case "cancelled" => "لغو شده"
    case _ => UnknownStatusLabel
  }

  /** `getStatusColor`: one colour scheme per known status, slate for anything else. */
  function StatusColor(status: string): string
  {
    match status
    case "pending" => "bg-amber-500/10 text-amber-500 border-amber-500/20"
    case "processing" => "bg-blue-500/10 text-blue-500 border-blue-500/20"
    case "shipped" => "bg-purple-500/10 text-purple-500 border-purple-500/20"
    case "delivered" => "bg-emerald-500/10 text-emerald-500 border-emerald-500/20"
    case "cancelled" => "bg-rose-500/10 text-rose-500 border-rose-500/20"
    case _ => "bg-slate-500/10 text-slate-500 border-slate-500/20"
  }

  /**
   * The five known statuses get five different labels, none of them the
   * "unknown" label, and every other string gets the "unknown" label.
   */
  lemma StatusLabelsDistinct(s: string, t: string)
    ensures s in KnownStatuses && t in KnownStatuses ==> (StatusLabel(s) == StatusLabel(t) <==> s == t)
    ensures StatusLabel(s) == UnknownStatusLabel <==> s !in KnownStatuses
  {
  }

  /** Reads the status back off a colour scheme; "" for the default scheme or any other string. */
  function StatusOfColor(color: string): string
  {
    match color
    case "bg-amber-500/10 text-amber-500 border-amber-500/20" => "pending"
    case "bg-blue-500/10 text-blue-500 border-blue-500/20" => "processing"
    case "bg-purple-500/10 text-purple-500 border-purple-500/20" => "shipped"
    case "bg-emerald-500/10 text-emerald-500 border-emerald-500/20" => "delivered"
    case "bg-rose-500/10 text-rose-500 border-rose-500/20" => "cancelled"
    case _ => ""
  }

  /** A known status can be read back off its colour scheme. */
  lemma ColorRoundTrip(s: string)
    ensures s in KnownStatuses ==> StatusOfColor(StatusColor(s)) == s
  {
    if s == "pending" {
      assert StatusOfColor("bg-amber-500/10 text-amber-500 border-amber-500/20") == s;
    } else if s == "processing" {
      assert StatusOfColor("bg-blue-500/10 text-blue-500 border-blue-500/20") == s;
    } else if s == "shipped" {
      assert StatusOfColor("bg-purple-500/10 text-purple-500 border-purple-500/20") == s;
    } else if s == "delivered" {
      assert StatusOfColor("bg-emerald-500/10 text-emerald-500 border-emerald-500/20") == s;
    } else if s == "cancelled" {
      assert StatusOfColor("bg-rose-500/10 text-rose-500 border-rose-500/20") == s;
    }
  }

  /** Likewise for the colours: the five known statuses get five different schemes. */
  lemma StatusColorsDistinct(s: string, t: string)
    ensures s in KnownStatuses && t in KnownStatuses ==> (StatusColor(s) == StatusColor(t) <==> s == t)
  {
    ColorRoundTrip(s);
    ColorRoundTrip(t);
  }

  /** The slate default scheme goes to exactly the statuses the switch does not know. */
  lemma DefaultColorMeansUnknown(s: string)
    ensures StatusColor(s) == StatusColor("") <==> s !in KnownStatuses
  {
  }

  // ---------------------------------------------------------------------------
  // The delivery timeline

  datatype TimelineStep = TimelineStep(title: string, date: string, active: bool, completed: bool, last: bool)

  /** The four `TimelineStep`s of the order modal, with the flags it computes from the status. */
  function Timeline(order: Order): (steps: seq<TimelineStep>)
    ensures |steps| == 4
    ensures forall i :: 0 <= i < 4 ==> (steps[i].last <==> i == 3)
  {
    var s := order.status;
    [ TimelineStep("ثبت سفارش", order.date, false, true, false),
      TimelineStep("در حال پردازش", if s != "pending" then "1402/12/11" else "",
        s == "processing", s in ["shipped", "delivered"], false),
      TimelineStep("تحویل به پست", if s == "shipped" || s == "delivered" then "1402/12/12" else "",
        s == "shipped", s == "delivered", false),
      TimelineStep("تحویل مشتری", if s == "delivered" then "1402/12/14" else "",
        false, s == "delivered", true) ]
  }

  /** Position of a status along the delivery path; 0 for anything off it. */
  function Progress(status: string): nat
  {
    match status
    case "processing" => 1
    case "shipped" => 2
    case "delivered" => 3
    case _ => 0
  }

  /**
   * The timeline reads as a path: at most one step is active, the completed
   * steps form a prefix, and an active step sits at the status's place on the
   * path, after completed steps only.
   */
  lemma TimelineIsPath(order: Order)
    ensures forall i, j :: 0 <= i < j < 4 ==> !(Timeline(order)[i].active && Timeline(order)[j].active)
    ensures forall i, j :: 0 <= i < j < 4 && Timeline(order)[j].completed ==> Timeline(order)[i].completed
    ensures forall j :: 0 <= j < 4 && Timeline(order)[j].active ==>
      j == Progress(order.status) && forall i :: 0 <= i < j ==> Timeline(order)[i].completed
  {
  }

  /** An order further along the path has every step completed that an earlier one has. */
  lemma TimelineMonotone(a: Order, b: Order)
    requires Progress(a.status) <= Progress(b.status)
    ensures forall j :: 0 <= j < 4 && Timeline(a)[j].completed ==> Timeline(b)[j].completed
  {
  }

  /** The first step is always done and the last is never the active one. */
  lemma TimelineEnds(order: Order)
    ensures Timeline(order)[0].completed && Timeline(order)[0].date == order.date
    ensures !Timeline(order)[3].active
    ensures Timeline(order)[3].completed <==> order.status == "delivered"
  {
  }

  /**
   * For a status on the delivery path, a later step carries a date exactly when
   * it is reached (active or completed). A cancelled order is the exception: it
   * still shows the processing date, on a step that is neither.
   */
  lemma TimelineDates(order: Order)
    ensures order.status in ["pending", "processing", "shipped", "delivered"] ==>
      forall j :: 1 <= j < 4 ==> (Timeline(order)[j].date != "" <==> Timeline(order)[j].active || Timeline(order)[j].completed)
    ensures order.status == "cancelled" ==>
      Timeline(order)[1].date != "" && !Timeline(order)[1].active && !Timeline(order)[1].completed
  {
  }

  // ---------------------------------------------------------------------------
  // Cancellation and review editing

  /** The cancel button is rendered only for pending or processing orders. */
  predicate CanCancel(order: Order)
  {
    order.status == "pending" || order.status == "processing"
  }

  /** The list's cancel button: after a confirmed dialog the order id goes to `onCancelOrder`. */
  function ListCancel(order: Order, confirmed: bool): (sent: Option<string>)
    requires CanCancel(order)
    ensures sent.Some? <==> confirmed
    ensures sent.Some? ==> sent.value == order.id
  {
    if confirmed then Some(order.id) else None
  }

  /** The suffix an edited review's date gets. */
  const EditedMark: string := " (ویرایش شده)"

  /** The review `handleUpdateReviewSubmit` sends: the draft with today's date and the edited mark. */
  function EditedReview(draft: Review, today: string): (r: Review)
    ensures r.(date := draft.date) == draft
    ensures r.date == today + EditedMark
  {
    draft.(date := today + EditedMark)
  }

  /** The browser's `required` check on the review editor: the comment box is not empty. */
  predicate CommentFilled(draft: Review)
  {
    draft.comment != ""
  }

  /** Re-dating keeps the comment, so an edited review that passed the check still has one. */
  lemma EditedKeepsComment(draft: Review, today: string)
    requires CommentFilled(draft)
    ensures CommentFilled(EditedReview(draft, today))
    ensures EditedReview(draft, today).comment == draft.comment
  {
  }

  /** The picker's stars, `[5, 4, 3, 2, 1]`. */
  const StarChoices: seq<int> := [5, 4, 3, 2, 1]

  /** The picker offers every rating from 1 to 5 and nothing else. */
  lemma StarChoicesAreRatings()
    ensures forall s :: s in StarChoices <==> 1 <= s <= 5
  {
  }

  // ---------------------------------------------------------------------------
  // The tab strip's counts

  /** The two list props the tab strip reads; `None` is a prop left undefined. */
  datatype ListProps = ListProps(orders: Option<seq<Order>>, userReviews: Option<seq<Review>>)

  /** What the storefront passes (App.tsx:397-407): neither list. */
  const AppListProps: ListProps := ListProps(None, None)

  /**
   * The badges of the orders and reviews tabs, `toPersianDigits(orders.length)`
   * and `toPersianDigits(userReviews.length)`, rendered whatever tab is active.
   * Reading `.length` of an undefined prop throws; that is `None`.
   */
  function TabBadges(props: ListProps): (badges: Option<(string, string)>)
    ensures badges.Some? <==> props.orders.Some? && props.userReviews.Some?
  {
    if props.orders.Some? && props.userReviews.Some? then
      Some((ToPersianDigits(Decimal(|props.orders.value|)), ToPersianDigits(Decimal(|props.userReviews.value|))))
    else None
  }

  /** As the storefront mounts the page, the tab strip throws on every render. */
  lemma AsWiredTabsThrow()
    ensures TabBadges(AppListProps) == None
  {
  }

  /** Given both lists, the strip renders and each badge reads back as its list's length. */
  lemma ListsGiveCounts(orders: seq<Order>, userReviews: seq<Review>)
    ensures TabBadges(ListProps(Some(orders), Some(userReviews))).Some?
    ensures PriceValue(TabBadges(ListProps(Some(orders), Some(userReviews))).value.0) == |orders|
    ensures PriceValue(TabBadges(ListProps(Some(orders), Some(userReviews))).value.1) == |userReviews|
  {
    PersianDecimalRoundTrip(|orders|);
    PersianDecimalRoundTrip(|userReviews|);
  }

  datatype ProfileTab = InfoTab | OrdersTab | ReviewsTab

  /** The browser's `required` checks on the profile form: all four inputs are filled. */
  predicate ProfileFilled(firstName: string, lastName: string, nationalId: string, phone: string)
  {
    firstName != "" && lastName != "" && nationalId != "" && phone != ""
  }

  class ProfileView {
    var activeTab: ProfileTab
    var isEditingProfile: bool
    var editingReview: Option<Review>
    var selectedOrder: Option<Order>
    var firstName: string
    var lastName: string
    var nationalId: string
    var phone: string

    /** The info tab, nothing open, and the profile form preloaded from the user. */
    constructor (user: User)
      ensures activeTab == InfoTab && !isEditingProfile && editingReview == None && selectedOrder == None
      ensures firstName == user.firstName && lastName == user.lastName
      ensures nationalId == user.nationalId && phone == user.phone
    {
      activeTab := InfoTab;
      isEditingProfile := false;
      editingReview := None;
      selectedOrder := None;
      firstName := user.firstName;
      lastName := user.lastName;
      nationalId := user.nationalId;
      phone := user.phone;
    }

    method SelectTab(tab: ProfileTab)
      modifies this
      ensures activeTab == tab
      ensures isEditingProfile == old(isEditingProfile) && editingReview == old(editingReview)
      ensures selectedOrder == old(selectedOrder)
      ensures firstName == old(firstName) && lastName == old(lastName)
      ensures nationalId == old(nationalId) && phone == old(phone)
    {
      activeTab := tab;
    }

    method StartEditProfile()
      modifies this
      ensures isEditingProfile
      ensures activeTab == old(activeTab) && editingReview == old(editingReview) && selectedOrder == old(selectedOrder)
      ensures firstName == old(firstName) && lastName == old(lastName)
      ensures nationalId == old(nationalId) && phone == old(phone)
    {
      isEditingProfile := true;
    }

    /** One of the four inputs; `field` picks which (0 first name, 1 last name, 2 national id, 3 phone). */
    method EditField(field: int, value: string)
      requires 0 <= field < 4
      modifies this
      ensures firstName == if field == 0 then value else old(firstName)
      ensures lastName == if field == 1 then value else old(lastName)
      ensures nationalId == if field == 2 then value else old(nationalId)
      ensures phone == if field == 3 then value else old(phone)
      ensures activeTab == old(activeTab) && isEditingProfile == old(isEditingProfile)
      ensures editingReview == old(editingReview) && selectedOrder == old(selectedOrder)
    {
      if field == 0 {
        firstName := value;
      } else if field == 1 {
        lastName := value;
      } else if field == 2 {
        nationalId := value;
      } else {
        phone := value;
      }
    }

    /**
     * Pressing save on the profile form. When all four `required` inputs are
     * filled, `handleUpdate` sends them to `onUpdateProfile`, verbatim, and the
     * form closes; otherwise the browser stops the submit and nothing changes.
     */
    method SubmitProfile() returns (sent: Option<(string, string, string, string)>)
      modifies this
      ensures ProfileFilled(firstName, lastName, nationalId, phone) ==>
        sent == Some((firstName, lastName, nationalId, phone)) && !isEditingProfile
      ensures !ProfileFilled(firstName, lastName, nationalId, phone) ==>
        sent == None && isEditingProfile == old(isEditingProfile)
      ensures firstName == old(firstName) && lastName == old(lastName)
      ensures nationalId == old(nationalId) && phone == old(phone)
      ensures activeTab == old(activeTab) && editingReview == old(editingReview) && selectedOrder == old(selectedOrder)
    {
      if ProfileFilled(firstName, lastName, nationalId, phone) {
        sent := Some((firstName, lastName, nationalId, phone));
        isEditingProfile := false;
      } else {
        sent := None;
      }
    }

    /** "Details and tracking" on an order: the modal shows it. */
    method OpenOrder(order: Order)
      modifies this
      ensures selectedOrder == Some(order)
      ensures activeTab == old(activeTab) && isEditingProfile == old(isEditingProfile) && editingReview == old(editingReview)
      ensures firstName == old(firstName) && lastName == old(lastName)
      ensures nationalId == old(nationalId) && phone == old(phone)
    {
      selectedOrder := Some(order);
    }

    method CloseOrder()
      modifies this
      ensures selectedOrder == None
      ensures activeTab == old(activeTab) && isEditingProfile == old(isEditingProfile) && editingReview == old(editingReview)
      ensures firstName == old(firstName) && lastName == old(lastName)
      ensures nationalId == old(nationalId) && phone == old(phone)
    {
      selectedOrder := None;
    }

    /**
     * The modal's cancel button, shown only for a cancellable order. With the
     * dialog confirmed the id goes to `onCancelOrder` and the shown order turns
     * cancelled, which hides the button; otherwise nothing happens.
     */
    method CancelSelected(confirmed: bool) returns (sent: Option<string>)
      requires selectedOrder.Some? && CanCancel(selectedOrder.value)
      modifies this
      ensures confirmed ==> sent == Some(old(selectedOrder).value.id)
      ensures confirmed ==> selectedOrder == Some(old(selectedOrder).value.(status := "cancelled"))
      ensures confirmed ==> !CanCancel(selectedOrder.value) && StatusLabel(selectedOrder.value.status) == "لغو شده"
      ensures !confirmed ==> sent == None && selectedOrder == old(selectedOrder)
      ensures activeTab == old(activeTab) && isEditingProfile == old(isEditingProfile) && editingReview == old(editingReview)
      ensures firstName == old(firstName) && lastName == old(lastName)
      ensures nationalId == old(nationalId) && phone == old(phone)
    {
      if confirmed {
        sent := Some(selectedOrder.value.id);
        selectedOrder := Some(selectedOrder.value.(status := "cancelled"));
      } else {
        sent := None;
      }
    }

    /** The edit button on a review: the editor opens with a copy of it. */
    method StartEditReview(review: Review)
      modifies this
      ensures editingReview == Some(review)
      ensures activeTab == old(activeTab) && isEditingProfile == old(isEditingProfile) && selectedOrder == old(selectedOrder)
      ensures firstName == old(firstName) && lastName == old(lastName)
      ensures nationalId == old(nationalId) && phone == old(phone)
    {
      editingReview := Some(review);
    }

    /** A star of the picker: only the draft's rating changes, to that star. */
    method PickStar(star: int)
      requires editingReview.Some? && star in StarChoices
      modifies this
      ensures editingReview == Some(old(editingReview).value.(rating := star))
      ensures 1 <= editingReview.value.rating <= 5
      ensures activeTab == old(activeTab) && isEditingProfile == old(isEditingProfile) && selectedOrder == old(selectedOrder)
      ensures firstName == old(firstName) && lastName == old(lastName)
      ensures nationalId == old(nationalId) && phone == old(phone)
    {
      editingReview := Some(editingReview.value.(rating := star));
    }

    /** Typing in the comment box: only the draft's comment changes. */
    method EditComment(comment: string)
      requires editingReview.Some?
      modifies this
      ensures editingReview == Some(old(editingReview).value.(comment := comment))
      ensures activeTab == old(activeTab) && isEditingProfile == old(isEditingProfile) && selectedOrder == old(selectedOrder)
      ensures firstName == old(firstName) && lastName == old(lastName)
      ensures nationalId == old(nationalId) && phone == old(phone)
    {
      editingReview := Some(editingReview.value.(comment := comment));
    }

    method CloseReviewEditor()
      modifies this
      ensures editingReview == None
      ensures activeTab == old(activeTab) && isEditingProfile == old(isEditingProfile) && selectedOrder == old(selectedOrder)
      ensures firstName == old(firstName) && lastName == old(lastName)
      ensures nationalId == old(nationalId) && phone == old(phone)
    {
      editingReview := None;
    }

    /**
     * Pressing save in the review editor. An empty comment box fails its
     * `required` check, so the browser stops the submit and the draft stays
     * open. Otherwise `handleUpdateReviewSubmit` runs: with a draft open,
     * `onUpdateReview` gets it re-dated to `today` plus the edited mark, and
     * the editor closes.
     */
    method SubmitReviewEdit(today: string) returns (sent: Option<Review>)
      modifies this
      ensures old(editingReview).Some? && CommentFilled(old(editingReview).value) ==>
        sent == Some(EditedReview(old(editingReview).value, today)) && editingReview == None
      ensures old(editingReview).Some? && !CommentFilled(old(editingReview).value) ==>
        sent == None && editingReview == old(editingReview)
      ensures old(editingReview).None? ==> sent == None && editingReview == None
      ensures sent.Some? ==> CommentFilled(sent.value)
      ensures activeTab == old(activeTab) && isEditingProfile == old(isEditingProfile) && selectedOrder == old(selectedOrder)
      ensures firstName == old(firstName) && lastName == old(lastName)
      ensures nationalId == old(nationalId) && phone == old(phone)
    {
      if editingReview.Some? && CommentFilled(editingReview.value) {
        EditedKeepsComment(editingReview.value, today);
        sent := Some(EditedReview(editingReview.value, today));
        editingReview := None;
      } else {
        sent := None;
      }
    }
  }
}
