/** The Media screen: uploaded photos and videos awaiting moderation, a
    filter bar, a selection of ids, approve/reject/delete actions single
    and in bulk, marking an uploader verified, and the status counters. */
module Media {
  import opened Seqs
  import Selection

  datatype MediaType = Image | Video
  datatype MediaStatus = Pending | Approved | Rejected | Flagged
  datatype VerificationStatus = Verified | VerificationPending | Unverified

  function TypeName(t: MediaType): string
  {
    match t
    case Image => "image"
    case Video => "video"
  }

  function StatusName(s: MediaStatus): string
  {
    match s
    case Pending => "pending"
    case Approved => "approved"
    case Rejected => "rejected"
    case Flagged => "flagged"
  }

  function VerificationName(v: VerificationStatus): string
  {
    match v
    case Verified => "verified"
    case VerificationPending => "pending"
    case Unverified => "unverified"
  }

  /** An uploaded item; `reports` and `rejectionReason` are optional as in
      the source. Display-only fields (url, upload time, AI score, uploader
      details shown in the modal) are not part of the model. */
  datatype MediaItem = MediaItem(
    id: int,
    userId: int,
    kind: MediaType,
    status: MediaStatus,
    rejectionReason: Option<string>,
    isProfilePicture: bool,
    reports: Option<int>,
    userVerificationStatus: VerificationStatus)

  datatype FilterOptions = FilterOptions(
    status: string,
    kind: string,
    dateRange: string,
    verification: string,
    reports: string,
    profilePicture: string)

  const DefaultFilters := FilterOptions("all", "all", "all", "all", "all", "all")

  /** `item.reports || 0`. */
  function ReportsOrZero(m: MediaItem): int
  {
    if m.reports.Some? then m.reports.value else 0
  }

  // ---------------------------------------------------------------------
  // The filter effect, one step per `if` block, in source order. The
  // date-range criterion is never consulted.

  function ByStatus(s: seq<MediaItem>, f: FilterOptions): seq<MediaItem>
  {
    if f.status != "all" then Filter((m: MediaItem) => StatusName(m.status) == f.status, s) else s
  }

  function ByType(s: seq<MediaItem>, f: FilterOptions): seq<MediaItem>
  {
    if f.kind != "all" then Filter((m: MediaItem) => TypeName(m.kind) == f.kind, s) else s
  }

  function ByVerification(s: seq<MediaItem>, f: FilterOptions): seq<MediaItem>
  {
    if f.verification != "all" then
      Filter((m: MediaItem) => VerificationName(m.userVerificationStatus) == f.verification, s)
    else s
  }

  /** Only "reported" and "none" restrict; any other value keeps all. */
  function ByReports(s: seq<MediaItem>, f: FilterOptions): seq<MediaItem>
  {
    if f.reports != "all" then
      if f.reports == "reported" then Filter((m: MediaItem) => ReportsOrZero(m) > 0, s)
      else if f.reports == "none" then Filter((m: MediaItem) => ReportsOrZero(m) == 0, s)
      else s
    else s
  }

  /** "profile" keeps profile pictures; any other value but "all" keeps
      the rest. */
  function ByPicture(s: seq<MediaItem>, f: FilterOptions): seq<MediaItem>
  {
    if f.profilePicture != "all" then
      Filter((m: MediaItem) => if f.profilePicture == "profile" then m.isProfilePicture else !m.isProfilePicture, s)
    else s
  }

  /** The filter effect: the visible list for `media` under `f`. */
  function FilterMedia(media: seq<MediaItem>, f: FilterOptions): (r: seq<MediaItem>)
    ensures |r| <= |media|
  {
    ByPicture(ByReports(ByVerification(ByType(ByStatus(media, f), f), f), f), f)
  }

  predicate StatusOk(f: FilterOptions, m: MediaItem) { f.status == "all" || StatusName(m.status) == f.status }

  predicate TypeOk(f: FilterOptions, m: MediaItem) { f.kind == "all" || TypeName(m.kind) == f.kind }

  predicate VerificationOk(f: FilterOptions, m: MediaItem)
  {
    f.verification == "all" || VerificationName(m.userVerificationStatus) == f.verification
  }

  predicate ReportsOk(f: FilterOptions, m: MediaItem)
  {
    (f.reports == "reported" ==> ReportsOrZero(m) > 0) && (f.reports == "none" ==> ReportsOrZero(m) == 0)
  }

  predicate PictureOk(f: FilterOptions, m: MediaItem)
  {
    f.profilePicture == "all" || (if f.profilePicture == "profile" then m.isProfilePicture else !m.isProfilePicture)
  }

  /** The reference definition of the view: the conjunction of the
      criteria. */
  predicate Matches(f: FilterOptions, m: MediaItem)
  {
    StatusOk(f, m) && TypeOk(f, m) && VerificationOk(f, m) && ReportsOk(f, m) && PictureOk(f, m)
  }

  // Each step of the chain is a filter by its criterion predicate.

  lemma ByStatusIsFilter(s: seq<MediaItem>, f: FilterOptions)
    ensures ByStatus(s, f) == Filter((m: MediaItem) => StatusOk(f, m), s)
  {
    if f.status == "all" { FilterKeepsAll((m: MediaItem) => StatusOk(f, m), s); }
    else { FilterExt((m: MediaItem) => StatusName(m.status) == f.status, (m: MediaItem) => StatusOk(f, m), s); }
  }

  lemma ByTypeIsFilter(s: seq<MediaItem>, f: FilterOptions)
    ensures ByType(s, f) == Filter((m: MediaItem) => TypeOk(f, m), s)
  {
    if f.kind == "all" { FilterKeepsAll((m: MediaItem) => TypeOk(f, m), s); }
    else { FilterExt((m: MediaItem) => TypeName(m.kind) == f.kind, (m: MediaItem) => TypeOk(f, m), s); }
  }

  lemma ByVerificationIsFilter(s: seq<MediaItem>, f: FilterOptions)
    ensures ByVerification(s, f) == Filter((m: MediaItem) => VerificationOk(f, m), s)
  {
    if f.verification == "all" { FilterKeepsAll((m: MediaItem) => VerificationOk(f, m), s); }
    else {
      FilterExt((m: MediaItem) => VerificationName(m.userVerificationStatus) == f.verification,
                (m: MediaItem) => VerificationOk(f, m), s);
    }
  }

  lemma ByReportsIsFilter(s: seq<MediaItem>, f: FilterOptions)
    ensures ByReports(s, f) == Filter((m: MediaItem) => ReportsOk(f, m), s)
  {
    if f.reports == "reported" {
      FilterExt((m: MediaItem) => ReportsOrZero(m) > 0, (m: MediaItem) => ReportsOk(f, m), s);
    } else if f.reports == "none" {
      FilterExt((m: MediaItem) => ReportsOrZero(m) == 0, (m: MediaItem) => ReportsOk(f, m), s);
    } else {
      FilterKeepsAll((m: MediaItem) => ReportsOk(f, m), s);
    }
  }

  lemma ByPictureIsFilter(s: seq<MediaItem>, f: FilterOptions)
    ensures ByPicture(s, f) == Filter((m: MediaItem) => PictureOk(f, m), s)
  {
    if f.profilePicture == "all" { FilterKeepsAll((m: MediaItem) => PictureOk(f, m), s); }
    else {
      FilterExt((m: MediaItem) => if f.profilePicture == "profile" then m.isProfilePicture else !m.isProfilePicture,
                (m: MediaItem) => PictureOk(f, m), s);
    }
  }

  /** The chain of filters is one filter by the conjunction of the
      criteria. */
  lemma FilterMediaIsOneFilter(media: seq<MediaItem>, f: FilterOptions)
    ensures FilterMedia(media, f) == Filter((m: MediaItem) => Matches(f, m), media)
  {
    var c1 := (m: MediaItem) => StatusOk(f, m);
    var c2 := (m: MediaItem) => StatusOk(f, m) && TypeOk(f, m);
    var c3 := (m: MediaItem) => StatusOk(f, m) && TypeOk(f, m) && VerificationOk(f, m);
    var c4 := (m: MediaItem) => StatusOk(f, m) && TypeOk(f, m) && VerificationOk(f, m) && ReportsOk(f, m);
    var s1 := ByStatus(media, f);
    ByStatusIsFilter(media, f);
    var s2 := ByType(s1, f);
    ByTypeIsFilter(s1, f);
    FilterFilter(c1, (m: MediaItem) => TypeOk(f, m), c2, media);
    assert s2 == Filter(c2, media);
    var s3 := ByVerification(s2, f);
    ByVerificationIsFilter(s2, f);
    FilterFilter(c2, (m: MediaItem) => VerificationOk(f, m), c3, media);
    assert s3 == Filter(c3, media);
    var s4 := ByReports(s3, f);
    ByReportsIsFilter(s3, f);
    FilterFilter(c3, (m: MediaItem) => ReportsOk(f, m), c4, media);
    assert s4 == Filter(c4, media);
    ByPictureIsFilter(s4, f);
    FilterFilter(c4, (m: MediaItem) => PictureOk(f, m), (m: MediaItem) => Matches(f, m), media);
  }

  /** The view is an order-preserving subsequence of `media` holding
      exactly the matching items. */
  lemma FilterMediaSound(media: seq<MediaItem>, f: FilterOptions)
    ensures IsSubsequence(FilterMedia(media, f), media)
    ensures forall i :: 0 <= i < |FilterMedia(media, f)| ==> Matches(f, FilterMedia(media, f)[i])
    ensures forall i :: 0 <= i < |media| && Matches(f, media[i]) ==> media[i] in FilterMedia(media, f)
  {
    FilterMediaIsOneFilter(media, f);
    FilterIsSubsequence((m: MediaItem) => Matches(f, m), media);
  }

  /** The date-range drop-down never changes the view. */
  lemma DateRangeIgnored(media: seq<MediaItem>, f: FilterOptions, range: string)
    ensures FilterMedia(media, f.(dateRange := range)) == FilterMedia(media, f)
  {
    var g := f.(dateRange := range);
    var s1 := ByStatus(media, f);
    assert ByStatus(media, g) == s1;
    var s2 := ByType(s1, f);
    assert ByType(s1, g) == s2;
    var s3 := ByVerification(s2, f);
    assert ByVerification(s2, g) == s3;
    var s4 := ByReports(s3, f);
    assert ByReports(s3, g) == s4;
    assert ByPicture(s4, g) == ByPicture(s4, f);
  }

  /** The starting filters show every item. */
  lemma DefaultShowsAll(media: seq<MediaItem>)
    ensures FilterMedia(media, DefaultFilters) == media
  {
    FilterMediaIsOneFilter(media, DefaultFilters);
    FilterKeepsAll((m: MediaItem) => Matches(DefaultFilters, m), media);
  }

  /** A reports filter other than "all", "reported" and "none" (or a
      picture filter such as "gallery") still behaves as described: the
      reports value keeps everything, the picture value keeps non-profile
      items. */
  lemma OddFilterValues(media: seq<MediaItem>, f: FilterOptions)
    requires f.reports != "reported" && f.reports != "none"
    requires f.profilePicture != "all" && f.profilePicture != "profile"
    ensures FilterMedia(media, f) ==
            Filter((m: MediaItem) => StatusOk(f, m) && TypeOk(f, m) && VerificationOk(f, m) && !m.isProfilePicture, media)
  {
    FilterMediaIsOneFilter(media, f);
    forall m: MediaItem
      ensures Matches(f, m) == (StatusOk(f, m) && TypeOk(f, m) && VerificationOk(f, m) && !m.isProfilePicture)
    {
      assert ReportsOk(f, m);
      assert PictureOk(f, m) == !m.isProfilePicture;
    }
    FilterExt((m: MediaItem) => Matches(f, m),
              (m: MediaItem) => StatusOk(f, m) && TypeOk(f, m) && VerificationOk(f, m) && !m.isProfilePicture, media);
  }

  // ---------------------------------------------------------------------
  // Record rewrites behind the actions.

  /** `handleApprove`: the item with that id becomes approved; any
      rejection reason it carries is kept. */
  function Approve(media: seq<MediaItem>, id: int): (r: seq<MediaItem>)
    ensures |r| == |media|
    ensures forall i :: 0 <= i < |media| ==>
              r[i] == if media[i].id == id then media[i].(status := Approved) else media[i]
    ensures forall i :: 0 <= i < |media| ==> r[i].rejectionReason == media[i].rejectionReason
  {
    MapWhere((m: MediaItem) => m.id == id, (m: MediaItem) => m.(status := Approved), media)
  }

  /** `handleReject`: the item with that id becomes rejected with the given
      reason. */
  function Reject(media: seq<MediaItem>, id: int, reason: string): (r: seq<MediaItem>)
    ensures |r| == |media|
    ensures forall i :: 0 <= i < |media| ==>
              r[i] == if media[i].id == id
                      then media[i].(status := Rejected, rejectionReason := Some(reason))
                      else media[i]
  {
    MapWhere((m: MediaItem) => m.id == id, (m: MediaItem) => m.(status := Rejected, rejectionReason := Some(reason)), media)
  }

  /** The reason a bulk rejection records. */
  const BulkRejectionReason := "Bulk rejection"

  /** `prev.filter(item => !ids.includes(item.id))`. */
  function RemoveItems(media: seq<MediaItem>, ids: seq<int>): (r: seq<MediaItem>)
    ensures forall i :: 0 <= i < |r| ==> r[i] in media && r[i].id !in ids
    ensures forall i :: 0 <= i < |media| && media[i].id !in ids ==> media[i] in r
  {
    Filter((m: MediaItem) => m.id !in ids, media)
  }

  /** The bulk-action drop-down's values; any other string, the empty
      placeholder included, is `BulkOther`. */
  datatype BulkAction = BulkApprove | BulkReject | BulkDelete | BulkOther

  /** The `switch (bulkAction)` of the bulk handler: each recognised value
      selects its case, every other value none. */
  function ParseBulkAction(s: string): (a: BulkAction)
    ensures a == BulkApprove <==> s == "approve"
    ensures a == BulkReject <==> s == "reject"
    ensures a == BulkDelete <==> s == "delete"
  {
    match s
    case "approve" => BulkApprove
    case "reject" => BulkReject
    case "delete" => BulkDelete
    case _ => BulkOther
  }

  /** What a bulk action does to the media list. */
  function BulkUpdate(media: seq<MediaItem>, selected: seq<int>, action: BulkAction): (r: seq<MediaItem>)
    ensures action != BulkDelete ==>
              |r| == |media| &&
              forall i :: 0 <= i < |media| ==> r[i].id == media[i].id && (media[i].id !in selected ==> r[i] == media[i])
    ensures action == BulkApprove ==>
              forall i :: 0 <= i < |media| && media[i].id in selected ==> r[i] == media[i].(status := Approved)
    ensures action == BulkReject ==>
              forall i :: 0 <= i < |media| && media[i].id in selected ==>
                r[i] == media[i].(status := Rejected, rejectionReason := Some(BulkRejectionReason))
    ensures action == BulkDelete ==>
              (forall i :: 0 <= i < |r| ==> r[i] in media && r[i].id !in selected) &&
              (forall i :: 0 <= i < |media| && media[i].id !in selected ==> media[i] in r)
    ensures action == BulkOther ==> r == media
  {
    match action
    case BulkApprove =>
      MapWhere((m: MediaItem) => m.id in selected, (m: MediaItem) => m.(status := Approved), media)
    case BulkReject =>
      MapWhere((m: MediaItem) => m.id in selected,
               (m: MediaItem) => m.(status := Rejected, rejectionReason := Some(BulkRejectionReason)), media)
    case BulkDelete => RemoveItems(media, selected)
    case BulkOther => media
  }

  /** Applying a bulk action twice is applying it once. */
  lemma BulkUpdateIdempotent(media: seq<MediaItem>, selected: seq<int>, action: BulkAction)
    ensures BulkUpdate(BulkUpdate(media, selected, action), selected, action) == BulkUpdate(media, selected, action)
  {
    match action
    case BulkDelete =>
      var p := (m: MediaItem) => m.id !in selected;
      FilterFilter(p, p, p, media);
    case BulkApprove =>
      MapWhereIdempotent((m: MediaItem) => m.id in selected, (m: MediaItem) => m.(status := Approved), media);
    case BulkReject =>
      MapWhereIdempotent((m: MediaItem) => m.id in selected,
                         (m: MediaItem) => m.(status := Rejected, rejectionReason := Some(BulkRejectionReason)), media);
    case BulkOther =>
  }

  /** Deleting straight from the visible list gives the same list as
      re-running the filter over the shrunken source. */
  lemma DeleteKeepsViewInSync(media: seq<MediaItem>, f: FilterOptions, selected: seq<int>)
    ensures RemoveItems(FilterMedia(media, f), selected) == FilterMedia(RemoveItems(media, selected), f)
  {
    FilterMediaIsOneFilter(media, f);
    FilterMediaIsOneFilter(RemoveItems(media, selected), f);
    FilterCommute((m: MediaItem) => Matches(f, m), (m: MediaItem) => m.id !in selected, media);
  }

  /** `handleVerifyUser`: every item uploaded by that user, however many,
      shows the uploader as verified; nothing else changes. */
  function VerifyUser(media: seq<MediaItem>, userId: int): (r: seq<MediaItem>)
    ensures |r| == |media|
    ensures forall i :: 0 <= i < |media| && media[i].userId == userId ==>
              r[i] == media[i].(userVerificationStatus := Verified)
    ensures forall i :: 0 <= i < |media| && media[i].userId != userId ==> r[i] == media[i]
  {
    MapWhere((m: MediaItem) => m.userId == userId, (m: MediaItem) => m.(userVerificationStatus := Verified), media)
  }

  // ---------------------------------------------------------------------
  // The statistics cards.

  /** `media.filter(m => m.status === s).length`. */
  function CountStatus(media: seq<MediaItem>, s: MediaStatus): (n: nat)
    ensures n <= |media|
    ensures n == 0 <==> forall i :: 0 <= i < |media| ==> media[i].status != s
  {
    FilterEmpty((m: MediaItem) => m.status == s, media);
    |Filter((m: MediaItem) => m.status == s, media)|
  }

  /** The "Verified Users" card. */
  function VerifiedCount(media: seq<MediaItem>): (n: nat)
    ensures n <= |media|
    ensures n == 0 <==> forall i :: 0 <= i < |media| ==> media[i].userVerificationStatus != Verified
  {
    FilterEmpty((m: MediaItem) => m.userVerificationStatus == Verified, media);
    |Filter((m: MediaItem) => m.userVerificationStatus == Verified, media)|
  }

  /** The "Reported Media" card. */
  function ReportedCount(media: seq<MediaItem>): (n: nat)
    ensures n <= |media|
    ensures n == 0 <==> forall i :: 0 <= i < |media| ==> ReportsOrZero(media[i]) <= 0
  {
    FilterEmpty((m: MediaItem) => ReportsOrZero(m) > 0, media);
    |Filter((m: MediaItem) => ReportsOrZero(m) > 0, media)|
  }

  /** Every item has exactly one of the four statuses, so the pending,
      flagged, approved and rejected cards add up to the list length. */
  lemma {:induction false} StatusCountsSum(media: seq<MediaItem>)
    ensures CountStatus(media, Pending) + CountStatus(media, Flagged) +
            CountStatus(media, Approved) + CountStatus(media, Rejected) == |media|
    decreases |media|
  {
    if |media| > 0 {
      StatusCountsSum(media[1..]);
    }
  }

  /** Verifying an uploader never lowers the "Verified Users" card, and
      raises it by the number of that user's items not yet verified. */
  lemma {:induction false} VerifyUserCount(media: seq<MediaItem>, userId: int)
    ensures VerifiedCount(VerifyUser(media, userId)) ==
            VerifiedCount(media) +
            |Filter((m: MediaItem) => m.userId == userId && m.userVerificationStatus != Verified, media)|
    decreases |media|
  {
    if |media| > 0 {
      VerifyUserCount(media[1..], userId);
      assert VerifyUser(media, userId)[1..] == VerifyUser(media[1..], userId);
    }
  }

  /** The moderation scenario: with items 1 (pending), 2 (approved) and 3
      (pending), the status filter "pending" shows 1 and 3, and approving
      that selection approves 1 and 3 and leaves 2 as it was. */
  lemma ApproveScenario(a: MediaItem, b: MediaItem, c: MediaItem)
    requires a.id == 1 && a.status == Pending
    requires b.id == 2 && b.status == Approved
    requires c.id == 3 && c.status == Pending
    ensures FilterMedia([a, b, c], DefaultFilters.(status := "pending")) == [a, c]
    ensures BulkUpdate([a, b, c], [1, 3], ParseBulkAction("approve")) ==
            [a.(status := Approved), b, c.(status := Approved)]
  {
    var f := DefaultFilters.(status := "pending");
    var p := (m: MediaItem) => Matches(f, m);
    FilterMediaIsOneFilter([a, b, c], f);
    assert [a, b, c][1..] == [b, c] && [b, c][1..] == [c];
    assert Filter(p, [c]) == [c];
    assert Filter(p, [b, c]) == [c];
  }

  /** The screen's state and its event handlers. */
  class MediaScreen {
    var media: seq<MediaItem>
    var filteredMedia: seq<MediaItem>
    var bulkAction: string
    var selectedItems: seq<int>
    var filters: FilterOptions

    ghost predicate ViewInSync()
      reads this
    {
      filteredMedia == FilterMedia(media, filters)
    }

    constructor ()
      ensures media == [] && filteredMedia == [] && bulkAction == "" && selectedItems == []
      ensures filters == DefaultFilters && ViewInSync()
    {
      media := [];
      filteredMedia := [];
      bulkAction := "";
      selectedItems := [];
      filters := DefaultFilters;
    }

    /** The mount-time load. */
    method Load(loaded: seq<MediaItem>)
      modifies this
      ensures media == loaded && filteredMedia == loaded
      ensures bulkAction == old(bulkAction) && selectedItems == old(selectedItems) && filters == old(filters)
    {
      media := loaded;
      filteredMedia := loaded;
    }

    /** The filter effect. */
    method RecomputeView()
      modifies this
      ensures ViewInSync()
      ensures media == old(media) && bulkAction == old(bulkAction)
      ensures selectedItems == old(selectedItems) && filters == old(filters)
    {
      filteredMedia := FilterMedia(media, filters);
    }

    /** A change in the filter bar, followed by the effect. */
    method SetFilters(f: FilterOptions)
      modifies this
      ensures filters == f && ViewInSync()
      ensures media == old(media) && bulkAction == old(bulkAction) && selectedItems == old(selectedItems)
    {
      filters := f;
      filteredMedia := FilterMedia(media, filters);
    }

    method HandleApprove(id: int)
      modifies this
      ensures media == Approve(old(media), id)
      ensures filteredMedia == old(filteredMedia) && bulkAction == old(bulkAction)
      ensures selectedItems == old(selectedItems) && filters == old(filters)
    {
      media := Approve(media, id);
    }

    method HandleReject(id: int, reason: string)
      modifies this
      ensures media == Reject(old(media), id, reason)
      ensures filteredMedia == old(filteredMedia) && bulkAction == old(bulkAction)
      ensures selectedItems == old(selectedItems) && filters == old(filters)
    {
      media := Reject(media, id, reason);
    }

    /** `handleBulkAction`: a no-op without an action or a selection;
      otherwise the action is applied and the selection and the chosen
      action are reset. A delete removes the selected ids from the visible
      list too, which `DeleteKeepsViewInSync` shows to agree with
      re-running the filter. */
    method HandleBulkAction()
      modifies this
      ensures old(bulkAction) == "" || old(selectedItems) == [] ==>
                media == old(media) && filteredMedia == old(filteredMedia) &&
                selectedItems == old(selectedItems) && bulkAction == old(bulkAction)
      ensures old(bulkAction) != "" && old(selectedItems) != [] ==>
                && media == BulkUpdate(old(media), old(selectedItems), ParseBulkAction(old(bulkAction)))
                && filteredMedia == (if ParseBulkAction(old(bulkAction)) == BulkDelete
                                     then RemoveItems(old(filteredMedia), old(selectedItems))
                                     else old(filteredMedia))
                && selectedItems == [] && bulkAction == ""
      ensures filters == old(filters)
    {
      if bulkAction == "" || selectedItems == [] {
        return;
      }
      var action := ParseBulkAction(bulkAction);
      if action == BulkDelete {
        filteredMedia := RemoveItems(filteredMedia, selectedItems);
      }
      media := BulkUpdate(media, selectedItems, action);
      selectedItems := [];
      bulkAction := "";
    }

    method SetBulkAction(a: string)
      modifies this
      ensures bulkAction == a
      ensures media == old(media) && filteredMedia == old(filteredMedia)
      ensures selectedItems == old(selectedItems) && filters == old(filters)
    {
      bulkAction := a;
    }

    method ToggleItemSelection(id: int)
      modifies this
      ensures selectedItems == Selection.Toggle(old(selectedItems), id)
      ensures media == old(media) && filteredMedia == old(filteredMedia)
      ensures bulkAction == old(bulkAction) && filters == old(filters)
    {
      selectedItems := Selection.Toggle(selectedItems, id);
    }

    /** `selectAllItems`: compares the lengths of the selection and of the
      visible list. */
    method SelectAllItems()
      modifies this
      ensures selectedItems == Selection.SelectAll(old(selectedItems), Map((m: MediaItem) => m.id, old(filteredMedia)))
      ensures media == old(media) && filteredMedia == old(filteredMedia)
      ensures bulkAction == old(bulkAction) && filters == old(filters)
    {
      selectedItems := Selection.SelectAll(selectedItems, Map((m: MediaItem) => m.id, filteredMedia));
    }

    method HandleVerifyUser(userId: int)
      modifies this
      ensures media == VerifyUser(old(media), userId)
      ensures filteredMedia == old(filteredMedia) && bulkAction == old(bulkAction)
      ensures selectedItems == old(selectedItems) && filters == old(filters)
    {
      media := VerifyUser(media, userId);
    }
  }
}
