/**
 * The viewer facts both components read from the session and the store, gathered into one
 * read-only snapshot that is passed in explicitly on every render.
 */
module Permissions {
  import opened JsValues

  /**
   * `username` is the authenticated user's name, `None` when there is none;
   * the four flags are the moderation selectors; `canAddThreadInBlackoutDate`
   * is the blackout-window hook's answer.
   */
  datatype Viewer = Viewer(
    username: Option<string>,
    hasModerationPrivileges: bool,
    isGroupTa: bool,
    isGlobalStaff: bool,
    reasonCodesEnabled: bool,
    canAddThreadInBlackoutDate: bool)

  /** `username === author`: an absent viewer name is never equal to an author's name. */
  function IsContentAuthor(v: Viewer, author: string): (r: bool)
    ensures r <==> v.username == Some(author)
    ensures v.username.None? ==> !r
  {
    match v.username
    case None => false
    case Some(name) => name == author
  }
}
