/**
 * Which moderation banners are shown above a post or comment, in which order, and what each
 * carries. Reported is shown to everybody; Edited and Closed only behind the editorial gate.
 */
module AlertBanner {
  import opened JsValues
  import opened Permissions

  /** `lastEdit`: both fields are optional. */
  datatype LastEdit = LastEdit(editorUsername: Option<string>, reason: Option<string>)

  /** The content item's moderation state, as the component's props. */
  datatype Content = Content(
    author: string,
    abuseFlagged: bool,
    lastEdit: Option<LastEdit>,
    closed: Option<bool>,
    closedBy: Option<string>,
    closeReason: Option<string>)

  /** The default of the `lastEdit` prop: an empty object. */
  const NoEdit: Option<LastEdit> := Some(LastEdit(None, None))

  /**
   * A banner and the data it interpolates. The editor and the closer are passed on as given
   * (possibly undefined); a Closed banner has a reason segment only when one is shown.
   */
  datatype Banner =
    | Reported
    | Edited(editor: Option<string>, reason: string)
    | Closed(closer: Option<string>, reasonSegment: Option<string>)

  /** Position of each kind of banner in the fixed display order. */
  function Rank(b: Banner): nat {
    match b
    case Reported => 0
    case Edited(_, _) => 1
    case Closed(_, _) => 2
  }

  /** Banners appear in display order, each kind at most once. */
  predicate InDisplayOrder(bs: seq<Banner>) {
    forall i, j :: 0 <= i < j < |bs| ==> Rank(bs[i]) < Rank(bs[j])
  }

  predicate HasEdited(bs: seq<Banner>) {
    exists i :: 0 <= i < |bs| && bs[i].Edited?
  }

  predicate HasClosed(bs: seq<Banner>) {
    exists i :: 0 <= i < |bs| && bs[i].Closed?
  }

  /** `lastEdit?.reason` and `lastEdit?.editorUsername`: optional chaining through an absent `lastEdit`. */
  function EditReason(c: Content): Option<string> {
    if c.lastEdit.Some? then c.lastEdit.value.reason else None
  }

  function EditorOf(c: Content): Option<string> {
    if c.lastEdit.Some? then c.lastEdit.value.editorUsername else None
  }

  /** A role, or authorship of the content, lets the viewer see edit and closure details. */
  function CanSeeLastEditOrClosedAlert(v: Viewer, c: Content): (r: bool)
    ensures r <==> (v.hasModerationPrivileges || v.isGroupTa || v.isGlobalStaff
                    || v.username == Some(c.author))
  {
    v.hasModerationPrivileges || v.isGroupTa || v.isGlobalStaff || IsContentAuthor(v, c.author)
  }

  /** Both the reason-codes setting and the role-or-author test must hold. */
  predicate EditorialGate(v: Viewer, c: Content) {
    v.reasonCodesEnabled && CanSeeLastEditOrClosedAlert(v, c)
  }

  /** The reason segment of a Closed banner: present only for a non-empty `closeReason`. */
  function ClosedReasonSegment(c: Content): (r: Option<string>)
    ensures r.Some? <==> TruthyString(c.closeReason)
    ensures r.Some? ==> r == c.closeReason && r.value != ""
  {
    if TruthyString(c.closeReason) then c.closeReason else None
  }

  /** The banners rendered for viewer `v` and content `c`, top to bottom. */
  function Banners(v: Viewer, c: Content): (r: seq<Banner>)
    ensures |r| <= 3
    ensures Reported in r <==> c.abuseFlagged
    ensures forall b :: b in r && b.Edited? ==>
              b.editor == EditorOf(c) && EditReason(c) == Some(b.reason)
    ensures forall b :: b in r && b.Closed? ==>
              b.closer == c.closedBy && b.reasonSegment == ClosedReasonSegment(c)
  {
    var reported := if c.abuseFlagged then [Reported] else [];
    var edited :=
      if TruthyString(EditReason(c)) then [Edited(EditorOf(c), EditReason(c).value)] else [];
    var closed :=
      if TruthyBool(c.closed) then [Closed(c.closedBy, ClosedReasonSegment(c))] else [];
    if EditorialGate(v, c) then reported + edited + closed else reported
  }

  /** Reported, Edited and Closed never change places, and none appears twice. */
  lemma BannersInDisplayOrder(v: Viewer, c: Content)
    ensures InDisplayOrder(Banners(v, c))
  {
  }

  /** The Edited banner appears exactly when the gate holds and `lastEdit.reason` is non-empty. */
  lemma EditedShownIff(v: Viewer, c: Content)
    ensures HasEdited(Banners(v, c)) <==> EditorialGate(v, c) && TruthyString(EditReason(c))
  {
    var r := Banners(v, c);
    var k := if c.abuseFlagged then 1 else 0;
    if EditorialGate(v, c) && TruthyString(EditReason(c)) {
      assert r[k].Edited?;
    } else {
      forall i | 0 <= i < |r| ensures !r[i].Edited? {
        assert r[i] in r;
      }
    }
  }

  /** The Closed banner appears exactly when the gate holds and `closed` is true. */
  lemma ClosedShownIff(v: Viewer, c: Content)
    ensures HasClosed(Banners(v, c)) <==> EditorialGate(v, c) && TruthyBool(c.closed)
  {
    var r := Banners(v, c);
    if EditorialGate(v, c) && TruthyBool(c.closed) {
      assert r[|r| - 1].Closed?;
    } else {
      forall i | 0 <= i < |r| ensures !r[i].Closed? {
        assert r[i] in r;
      }
    }
  }

  /** Whoever the viewer is, the Reported banner is there exactly when the content is flagged. */
  lemma ReportedIgnoresViewer(v1: Viewer, v2: Viewer, c: Content)
    ensures Reported in Banners(v1, c) <==> Reported in Banners(v2, c)
    ensures Reported in Banners(v1, c) <==> c.abuseFlagged
  {
  }

  /**
   * With reason codes off, or with no role and no authorship, only the Reported banner can
   * appear, however `lastEdit` and `closed` are set.
   */
  lemma GateShutLeavesOnlyReported(v: Viewer, c: Content)
    requires !v.reasonCodesEnabled
          || (!v.hasModerationPrivileges && !v.isGroupTa && !v.isGlobalStaff
              && v.username != Some(c.author))
    ensures Banners(v, c) == if c.abuseFlagged then [Reported] else []
    ensures !HasEdited(Banners(v, c)) && !HasClosed(Banners(v, c))
  {
  }

  /** Authorship alone opens the gate: a plain learner sees edit and closure details on their own content. */
  lemma SelfAuthorshipSuffices(v: Viewer, c: Content)
    requires v.reasonCodesEnabled && v.username == Some(c.author)
    requires !v.hasModerationPrivileges && !v.isGroupTa && !v.isGlobalStaff
    ensures HasEdited(Banners(v, c)) <==> TruthyString(EditReason(c))
    ensures HasClosed(Banners(v, c)) <==> TruthyBool(c.closed)
  {
    EditedShownIff(v, c);
    ClosedShownIff(v, c);
  }

  /** An unauthenticated viewer (no username) never passes the gate by authorship. */
  lemma AbsentViewerIsNotAuthor(v: Viewer, c: Content)
    requires v.username.None?
    ensures EditorialGate(v, c) <==>
              v.reasonCodesEnabled && (v.hasModerationPrivileges || v.isGroupTa || v.isGlobalStaff)
  {
  }

  /** With the default empty `lastEdit`, or none at all, there is no Edited banner. */
  lemma NoEditNoEditedBanner(v: Viewer, c: Content)
    requires c.lastEdit == NoEdit || c.lastEdit.None?
    ensures !HasEdited(Banners(v, c))
  {
  }

  /** An empty edit reason is falsy: no Edited banner even for a moderator. */
  lemma EmptyEditReasonHidden(v: Viewer, c: Content)
    requires EditReason(c) == Some("")
    ensures !HasEdited(Banners(v, c))
  {
  }

  /**
   * Edited and Closed are independent: a moderator looking at a flagged, edited, closed post
   * sees all three banners in order, carrying the editor, the reason verbatim and the closer.
   */
  lemma AllThreeBanners(v: Viewer, c: Content, editor: string, reason: string, closer: string)
    requires v.reasonCodesEnabled && v.hasModerationPrivileges
    requires reason != ""
    requires c.abuseFlagged && c.closed == Some(true) && c.closedBy == Some(closer)
    requires c.lastEdit == Some(LastEdit(Some(editor), Some(reason)))
    ensures Banners(v, c) ==
              [Reported, Edited(Some(editor), reason), Closed(Some(closer), ClosedReasonSegment(c))]
  {
  }

  /** A Closed banner carries a reason segment only for a non-empty `closeReason`. */
  lemma ClosedReasonShownOnlyIfNonEmpty(v: Viewer, c: Content, reason: string)
    requires EditorialGate(v, c) && c.closed == Some(true)
    ensures c.closeReason == Some(reason) && reason != "" ==>
              Closed(c.closedBy, Some(reason)) in Banners(v, c)
    ensures c.closeReason == Some("") || c.closeReason.None? ==>
              Closed(c.closedBy, None) in Banners(v, c)
  {
  }

  /**
   * The banners depend on the viewer's name, roles and reason-code setting only: the blackout
   * flag of the shared snapshot is not read.
   */
  lemma BannersIgnoreBlackoutFlag(v: Viewer, c: Content, blackout: bool)
    ensures Banners(v.(canAddThreadInBlackoutDate := blackout), c) == Banners(v, c)
  {
  }
}
