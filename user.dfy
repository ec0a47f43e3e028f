/**
 * The user client of the Vue code (src/vue/src/api/user.js): own-profile reads and
 * updates and the two notification switches.
 */
module User {
  import opened Wrappers
  import opened Json
  import opened Http

  /** GET `/get_own_user_data/`, resolving to `data.user`. */
  function GetOwnUserData(): (c: Call)
    ensures c.request == Request(AuthenticatedGet, "/get_own_user_data/", None)
    ensures forall x :: Resolve(c, Plant(["data", "user"], x)) == Success(x)
  {
    var c := Call(Request(AuthenticatedGet, "/get_own_user_data/", None), ["data", "user"]);
    ResolvesPlanted(c);
    c
  }

  /** POST `{username}` to `/update_user_data/`; the promise resolves to the raw response. */
  function UpdateUserData(username: Value): (c: Call)
    ensures c.request == Request(AuthenticatedPost, "/update_user_data/", Body([("username", username)]))
    ensures forall response :: Resolve(c, response) == Success(response)
  {
    Call(Request(AuthenticatedPost, "/update_user_data/", Body([("username", username)])), [])
  }

  /** File-POST `{picture: file}` to the same `/update_user_data/`; resolves to the raw response. */
  function UpdateProfilePicture(file: Value): (c: Call)
    ensures c.request == Request(AuthenticatedFilePost, "/update_user_data/", Body([("picture", file)]))
    ensures forall response :: Resolve(c, response) == Success(response)
  {
    Call(Request(AuthenticatedFilePost, "/update_user_data/", Body([("picture", file)])), [])
  }

  /** POST `{new_value}` to `/update_grade_notification/`, resolving to `data.new_value`. */
  function UpdateGradeNotification(getsNotified: Value): (c: Call)
    ensures c.request == Request(AuthenticatedPost, "/update_grade_notification/", Body([("new_value", getsNotified)]))
    ensures forall x :: Resolve(c, Plant(["data", "new_value"], x)) == Success(x)
  {
    var c := Call(Request(AuthenticatedPost, "/update_grade_notification/", Body([("new_value", getsNotified)])),
                  ["data", "new_value"]);
    ResolvesPlanted(c);
    c
  }

  /** POST `{new_value}` to `/update_comment_notification/`, resolving to `data.new_value`. */
  function UpdateCommentNotification(getsNotified: Value): (c: Call)
    ensures c.request == Request(AuthenticatedPost, "/update_comment_notification/", Body([("new_value", getsNotified)]))
    ensures forall x :: Resolve(c, Plant(["data", "new_value"], x)) == Success(x)
  {
    var c := Call(Request(AuthenticatedPost, "/update_comment_notification/", Body([("new_value", getsNotified)])),
                  ["data", "new_value"]);
    ResolvesPlanted(c);
    c
  }

  /**
   * The username update and the picture upload share one endpoint; only the
   * transport entry point and the body key tell them apart.
   */
  lemma UserDataEndpointShared(username: Value, file: Value)
    ensures UpdateUserData(username).request.path == UpdateProfilePicture(file).request.path
    ensures UpdateUserData(username).request.verb != UpdateProfilePicture(file).request.verb
    ensures ArgumentKeys(UpdateUserData(username).request) == ["username"]
    ensures ArgumentKeys(UpdateProfilePicture(file).request) == ["picture"]
  {
  }

  /** The two notification switches differ only in their path. */
  lemma NotificationSwitchesAlike(v: Value)
    ensures UpdateGradeNotification(v).request.verb == UpdateCommentNotification(v).request.verb
    ensures UpdateGradeNotification(v).request.path != UpdateCommentNotification(v).request.path
    ensures UpdateGradeNotification(v).request.argument == UpdateCommentNotification(v).request.argument
    ensures UpdateGradeNotification(v).unwrap == UpdateCommentNotification(v).unwrap
  {
  }
}
