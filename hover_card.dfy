/**
 * The hover-revealed action bar of a post or comment: which controls are rendered, in which
 * state, and what activating each one does.
 */
module HoverCard {
  import opened JsValues
  import opened Permissions

  /** The identity of a caller-supplied callback; two props may share one. */
  datatype Callback = Callback(id: nat)

  /** `endorseIcons`: `id` selects the colour, `action` names the handler to call. */
  datatype EndorseIcons = EndorseIcons(id: string, action: string)

  /** The props of the card (`following` and `voted` come from `commentOrPost`). */
  datatype Props = Props(
    isClosedPost: bool,
    endorseIcons: Option<EndorseIcons>,
    following: Option<bool>,
    voted: bool,
    actionHandlers: map<string, Callback>,
    handleResponseCommentButton: Callback,
    onLike: Callback,
    onFollow: Option<Callback>)

  datatype IconState = Filled | Outline
  datatype EndorseColour = Dark | Success
  datatype ReplyButton = ReplyButton(disabled: bool)
  /** The overflow menu; what it offers is decided by the handler map it is given. */
  datatype OverflowMenu = OverflowMenu(handlers: map<string, Callback>)

  /** The rendered bar: optional reply, endorse and follow controls, then like and overflow. */
  datatype ActionBar = ActionBar(
    reply: Option<ReplyButton>,
    endorse: Option<EndorseColour>,
    follow: Option<IconState>,
    like: IconState,
    overflow: OverflowMenu)

  /** The ids whose endorse control is drawn dark. */
  predicate IsEndorseFamily(id: string) {
    id == "endorse" || id == "unendorse"
  }

  function IconFor(on: bool): IconState {
    if on then Filled else Outline
  }

  /** The action bar rendered for viewer `v` and props `p`. */
  function Render(v: Viewer, p: Props): (bar: ActionBar)
    ensures bar.reply.Some? <==> v.canAddThreadInBlackoutDate
    ensures bar.reply.Some? ==> (bar.reply.value.disabled <==> p.isClosedPost)
    ensures bar.endorse.Some? <==> p.endorseIcons.Some?
    ensures bar.endorse.Some? ==>
              (bar.endorse.value == Dark <==> IsEndorseFamily(p.endorseIcons.value.id))
    ensures bar.follow.Some? <==> p.following.Some?
    ensures bar.follow.Some? ==> (bar.follow.value == Filled <==> p.following == Some(true))
    ensures bar.like == Filled <==> p.voted
    ensures bar.overflow.handlers == p.actionHandlers
  {
    ActionBar(
      if v.canAddThreadInBlackoutDate then Some(ReplyButton(p.isClosedPost)) else None,
      if p.endorseIcons.Some? then
        Some(if IsEndorseFamily(p.endorseIcons.value.id) then Dark else Success)
      else None,
      if p.following.Some? then Some(IconFor(p.following.value)) else None,
      IconFor(p.voted),
      OverflowMenu(p.actionHandlers))
  }

  /** The controls whose activation calls a handler of this component. */
  datatype Affordance = Reply | Endorse | Follow | Like

  /** A control is live when it is rendered and not disabled. */
  predicate Live(bar: ActionBar, a: Affordance) {
    match a
    case Reply => bar.reply.Some? && !bar.reply.value.disabled
    case Endorse => bar.endorse.Some?
    case Follow => bar.follow.Some?
    case Like => true
  }

  /**
   * What the caller must supply for activating `a` not to fail: the endorse action names a
   * handler of the map, and a follow control has a follow callback.
   */
  predicate HandlersWired(p: Props, a: Affordance) {
    match a
    case Endorse => p.endorseIcons.Some? ==> p.endorseIcons.value.action in p.actionHandlers
    case Follow => p.following.Some? ==> p.onFollow.Some?
    case _ => true
  }

  /** The wiring table: which callback each live control is bound to, `None` if it is not live. */
  function Wired(v: Viewer, p: Props, a: Affordance): (h: Option<Callback>)
    requires HandlersWired(p, a)
    ensures h.Some? <==> Live(Render(v, p), a)
  {
    if !Live(Render(v, p), a) then None
    else match a
      case Reply => Some(p.handleResponseCommentButton)
      case Endorse => Some(p.actionHandlers[p.endorseIcons.value.action])
      case Follow => Some(p.onFollow.value)
      case Like => Some(p.onLike)
  }

  /** The observable effects of one activation, in order. */
  datatype Effect = PreventDefault | Call(callback: Callback)

  /** The follow and like toggles cancel the browser's default action before calling out. */
  predicate IsToggle(a: Affordance) {
    a == Follow || a == Like
  }

  /** The callbacks a trace calls, in order. */
  function Calls(t: seq<Effect>): (cs: seq<Callback>)
    ensures forall c :: c in cs <==> Call(c) in t
  {
    if t == [] then []
    else (if t[0].Call? then [t[0].callback] else []) + Calls(t[1..])
  }

  /**
   * One activation of control `a` (a click that reaches a control no longer rendered, or a
   * disabled button, does nothing): it calls exactly the wired callback once, and a toggle
   * cancels the default action first.
   */
  function Activate(v: Viewer, p: Props, a: Affordance): (t: seq<Effect>)
    requires HandlersWired(p, a)
    ensures Calls(t) == if Wired(v, p, a).Some? then [Wired(v, p, a).value] else []
    ensures PreventDefault in t <==> Live(Render(v, p), a) && IsToggle(a)
    ensures PreventDefault in t ==> t[0] == PreventDefault
    ensures forall i :: 0 <= i < |t| && t[i] == PreventDefault ==> i + 1 < |t| && t[i + 1].Call?
    ensures t != [] ==> t[|t| - 1] == Call(Wired(v, p, a).value)
  {
    match a
    case Reply =>
      if v.canAddThreadInBlackoutDate && !p.isClosedPost
      then [Call(p.handleResponseCommentButton)] else []
    case Endorse =>
      if p.endorseIcons.Some? then [Call(p.actionHandlers[p.endorseIcons.value.action])] else []
    case Follow =>
      if p.following.Some? then
        ToggleCallsOnce(p.onFollow.value);
        [PreventDefault, Call(p.onFollow.value)]
      else []
    case Like =>
      ToggleCallsOnce(p.onLike);
      [PreventDefault, Call(p.onLike)]
  }

  /** A toggle's trace calls its callback once. */
  lemma ToggleCallsOnce(cb: Callback)
    ensures Calls([PreventDefault, Call(cb)]) == [cb]
  {
    var t := [PreventDefault, Call(cb)];
    assert t[1..] == [Call(cb)];
    assert t[1..][1..] == [];
    assert Calls(t[1..]) == [cb] + Calls([]);
    assert Calls(t) == [] + Calls(t[1..]);
  }

  /** Calling out is compositional: the calls of two traces in a row are their calls in a row. */
  lemma {:induction false} CallsAppend(t1: seq<Effect>, t2: seq<Effect>)
    ensures Calls(t1 + t2) == Calls(t1) + Calls(t2)
  {
    if t1 != [] {
      assert (t1 + t2)[1..] == t1[1..] + t2;
      CallsAppend(t1[1..], t2);
    } else {
      assert t1 + t2 == t2;
    }
  }

  /** On a closed post the reply button is still rendered, disabled, and clicking it calls nothing. */
  lemma ClosedPostDisablesReply(v: Viewer, p: Props)
    requires v.canAddThreadInBlackoutDate && p.isClosedPost
    ensures Render(v, p).reply == Some(ReplyButton(true))
    ensures Activate(v, p, Reply) == []
  {
  }

  /** Reply calls `handleResponseCommentButton` once and does nothing else. */
  lemma ReplyCallsOnlyItsHandler(v: Viewer, p: Props)
    requires v.canAddThreadInBlackoutDate && !p.isClosedPost
    ensures Activate(v, p, Reply) == [Call(p.handleResponseCommentButton)]
  {
  }

  /** Endorse calls the handler its action names, once, without cancelling anything. */
  lemma EndorseCallsNamedHandler(v: Viewer, p: Props)
    requires p.endorseIcons.Some? && p.endorseIcons.value.action in p.actionHandlers
    ensures Activate(v, p, Endorse) == [Call(p.actionHandlers[p.endorseIcons.value.action])]
  {
  }

  /**
   * `following == false` renders an outline follow control that still works; an absent
   * `following` renders no follow control at all.
   */
  lemma FollowFalseDiffersFromAbsent(v: Viewer, p: Props, onFollow: Callback)
    requires p.following == Some(false) && p.onFollow == Some(onFollow)
    ensures Render(v, p).follow == Some(Outline)
    ensures Render(v, p.(following := None)).follow == None
    ensures Activate(v, p, Follow) == [PreventDefault, Call(onFollow)]
    ensures Activate(v, p.(following := None), Follow) == []
  {
  }

  /** Follow and like cancel the default action and then call their own callback, once. */
  lemma TogglesPreventThenCall(v: Viewer, p: Props, onFollow: Callback)
    requires p.following.Some? && p.onFollow == Some(onFollow)
    ensures Activate(v, p, Follow) == [PreventDefault, Call(onFollow)]
    ensures Activate(v, p, Like) == [PreventDefault, Call(p.onLike)]
  {
  }

  /**
   * The action bar reads only the blackout flag of the viewer snapshot: names, roles and the
   * reason-code setting do not change it.
   */
  lemma RenderReadsOnlyBlackoutFlag(v1: Viewer, v2: Viewer, p: Props)
    requires v1.canAddThreadInBlackoutDate == v2.canAddThreadInBlackoutDate
    ensures Render(v1, p) == Render(v2, p)
    ensures forall a :: HandlersWired(p, a) ==> Activate(v1, p, a) == Activate(v2, p, a)
  {
  }
}
