# Discussion banners and hover action bar, as pure functions

This project models the decision rules of two components of the discussions micro-frontend:

- `AlertBanner` decides which moderation banners sit above a post or comment. Reported is shown
  to every viewer when the content is flagged. Edited and Closed sit behind a gate: the course
  has reason codes enabled, and the viewer is a moderator, a group TA, global staff, or the
  author. The order is always Reported, Edited, Closed.
- `HoverCard` decides which controls the hover action bar renders (reply, endorse, follow,
  like, overflow menu) and in which state. It also decides what activating each control does.

Both are modelled as pure functions of an explicit viewer snapshot (`Permissions.Viewer`) and
of the component's props. Activation is a function from a control to the trace of effects it
produces: `PreventDefault` and `Call(callback)`. The component's `onClick` closures keep no
state, so `ActivationSession` builds a run of clicks one click at a time, each click against
the props it was made on. `ActivationSession.RunCallsWiredHandlers` proves that the callbacks a
run calls are exactly the wired callbacks of its live clicks, in click order, one per click.
`ActivationSession.RepeatedLikes` proves the repeated-click case.

Files:
- `js_values.dfy` holds `Option` and JavaScript truthiness (`undefined`, `""` and `false` are falsy).
- `permissions.dfy` holds the viewer snapshot and the self-authorship test.
- `alert_banner.dfy` holds the banner rule and its lemmas.
- `hover_card.dfy` holds rendering, the wiring table and activation.
- `activation_session.dfy` holds runs of clicks.

Two behaviours of the component worth stating outright:
- The component does not debounce like/follow clicks. Every click calls its handler
  (src/discussions/common/HoverCard.jsx:76-79, 90-93). `ActivationSession.RepeatedLikes` proves
  that `n` like clicks call `onLike` `n` times.
- The endorse control is dark when `id` is `endorse` or `unendorse`, and success-coloured for any
  other id (src/discussions/common/HoverCard.jsx:61).

## Model

| member | source | states |
|---|---|---|
| `Permissions.IsContentAuthor` | src/discussions/common/AlertBanner.jsx:30 | the viewer is the author iff its username is present and equals `author`; an absent username never matches |
| `AlertBanner.CanSeeLastEditOrClosedAlert` | src/discussions/common/AlertBanner.jsx:32-34 | the viewer may see edit/closure details iff moderator, group TA, global staff or author |
| `AlertBanner.ClosedReasonSegment` | src/discussions/common/AlertBanner.jsx:75 | a Closed banner gets a reason segment iff `closeReason` is a non-empty string, and then it is `closeReason` verbatim |
| `AlertBanner.Banners` | src/discussions/common/AlertBanner.jsx:36-82 | at most three banners; Reported is present iff `abuseFlagged`; an Edited banner carries `lastEdit.editorUsername` and the reason verbatim; a Closed banner carries `closedBy` and the reason segment |
| `AlertBanner.BannersInDisplayOrder` | src/discussions/common/AlertBanner.jsx:38-80 | banners come in the order Reported, Edited, Closed, each kind at most once |
| `AlertBanner.EditedShownIff` | src/discussions/common/AlertBanner.jsx:43-61 | Edited is present iff reason codes are on, the viewer passes the role-or-author test, and `lastEdit?.reason` is non-empty |
| `AlertBanner.ClosedShownIff` | src/discussions/common/AlertBanner.jsx:43-78 | Closed is present iff reason codes are on, the viewer passes the role-or-author test, and `closed` is true |
| `AlertBanner.ReportedIgnoresViewer` | src/discussions/common/AlertBanner.jsx:31-42 | any two viewers agree on the Reported banner; it is there iff the content is flagged |
| `AlertBanner.GateShutLeavesOnlyReported` | src/discussions/common/AlertBanner.jsx:32-43 | with reason codes off, or with no role and no authorship, the output is Reported or nothing, whatever `lastEdit` and `closed` hold |
| `AlertBanner.SelfAuthorshipSuffices` | src/discussions/common/AlertBanner.jsx:30-34 | a viewer with no role who wrote the content sees Edited iff there is an edit reason, and Closed iff it is closed |
| `AlertBanner.AbsentViewerIsNotAuthor` | src/discussions/common/AlertBanner.jsx:30-34 | with no viewer username, the gate is exactly reason codes on and some role |
| `AlertBanner.NoEditNoEditedBanner` | src/discussions/common/AlertBanner.jsx:97-102 | with the default empty `lastEdit`, or none, no Edited banner appears |
| `AlertBanner.EmptyEditReasonHidden` | src/discussions/common/AlertBanner.jsx:45 | an empty edit reason is falsy: no Edited banner for any viewer |
| `AlertBanner.AllThreeBanners` | src/discussions/common/AlertBanner.jsx:38-80 | Edited and Closed are independent; a moderator on a flagged, edited, closed post gets exactly the three banners in order with their data |
| `AlertBanner.ClosedReasonShownOnlyIfNonEmpty` | src/discussions/common/AlertBanner.jsx:62-75 | a shown Closed banner has `Some(reason)` for a non-empty reason and no segment for `""` or an absent reason |
| `AlertBanner.BannersIgnoreBlackoutFlag` | src/discussions/common/AlertBanner.jsx:17-34 | the banners do not depend on the viewer's blackout flag, only on the facts the component reads |
| `HoverCard.Render` | src/discussions/common/HoverCard.jsx:34-99 | reply present iff the blackout hook allows it, disabled iff `isClosedPost`; endorse present iff `endorseIcons` is defined, dark iff its id is `endorse`/`unendorse`; follow present iff `following` is defined, filled iff true; like filled iff `voted`; the overflow menu always gets the handler map |
| `HoverCard.Wired` | src/discussions/common/HoverCard.jsx:41-93 | a control has a wired callback iff it is rendered and enabled (partner of `Render`) |
| `HoverCard.Activate` | src/discussions/common/HoverCard.jsx:41-93 | an activation calls exactly the wired callback once, or nothing for a dead control; it cancels the default action iff it is a live follow or like; a cancel comes first and is followed by a call |
| `HoverCard.ClosedPostDisablesReply` | src/discussions/common/HoverCard.jsx:36-42 | on a closed post the reply button is rendered disabled and clicking it calls nothing |
| `HoverCard.ReplyCallsOnlyItsHandler` | src/discussions/common/HoverCard.jsx:41 | an enabled reply button calls `handleResponseCommentButton` once and nothing else |
| `HoverCard.EndorseCallsNamedHandler` | src/discussions/common/HoverCard.jsx:57-60 | endorse calls `actionHandlers[endorseIcons.action]` once, given the key is in the map |
| `HoverCard.FollowFalseDiffersFromAbsent` | src/discussions/common/HoverCard.jsx:69-80 | `following == false` gives a working outline follow control; an absent `following` gives none |
| `HoverCard.TogglesPreventThenCall` | src/discussions/common/HoverCard.jsx:76-93 | follow and like cancel the default action and then call `onFollow` / `onLike` once |
| `HoverCard.RenderReadsOnlyBlackoutFlag` | src/discussions/common/HoverCard.jsx:32-36 | two viewers with the same blackout flag get the same bar and the same activations |
| `ActivationSession.RunAppend` | src/discussions/common/HoverCard.jsx:41-93 | runs compose by concatenation: a run of clicks followed by another gives the two traces in a row (this follows from building runs click by click, which mirrors the stateless `onClick` closures) |
| `ActivationSession.RunCallsWiredHandlers` | src/discussions/common/HoverCard.jsx:41-93 | over any run of clicks, even with re-renders in between, the callbacks called are exactly the wired callbacks of the live clicks, in click order, one per live click |
| `ActivationSession.PreventDefaultThenCall` | src/discussions/common/HoverCard.jsx:76-93 | in any run, every cancelled default is followed at once by a callback |
| `ActivationSession.RepeatedLikes` | src/discussions/common/HoverCard.jsx:90-93 | `n` like clicks call `onLike` exactly `n` times; nothing debounces them |

## Left out

- Markup, CSS classes, inline styles, the `enableInContextSidebar` width class, icon assets, `AuthorLabel`, and the reply button's label. These are presentation only. The endorse colour is kept as a two-valued enum.
- i18n (`intl.formatMessage` and the message catalogue). The banners carry their data, not their text.
- The Redux selectors, `getAuthenticatedUser` and `useUserCanAddThreadInBlackoutDate`. These are external state; their results are the fields of `Permissions.Viewer`. A `getAuthenticatedUser()` that returns no user object at all is not modelled; only an absent username is.
- `ActionsDropdown` (its file is not part of this model). Only the fact that the overflow menu is always rendered and receives the handler map is modelled; what its entries dispatch is not.
- `React.memo`, `injectIntl`, PropTypes and the return value of the follow handler. These are framework wrappers without effect on what is rendered or called.
- The network mutations behind `onLike`, `onFollow` and the action handlers. Callbacks are opaque identities, and their effects belong to the caller.
- `HoverCard.Activate`: it requires that the endorse action names a key of `actionHandlers` and that `onFollow` is supplied whenever `following` is defined. Violating either throws a `TypeError` in the component. The model treats this as the caller's contract, not as an error path.
- A click on a disabled reply button is modelled as doing nothing. That is the host's behaviour for disabled buttons, not code in the component.
- `null` values for optional props (`following`, `endorseIcons`, `lastEdit`, `closeReason`) are not distinguished from `undefined`; the model has only "absent". The component differs for two of them. `following: null` passes the `!== undefined` test and renders an outline follow control. `endorseIcons: null` passes the same test at src/discussions/common/HoverCard.jsx:52, and reading `endorseIcons.icon` at line 55 then throws during render. In the model, `None` renders no control in both cases.
