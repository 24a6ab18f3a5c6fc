/** The `SDK` class (src/examples/18.ts): a client that holds an optional
    logged-in user id and refuses to post unless that id is truthy. The
    global `postFn` is declared but not defined in the source; it is modelled
    as a log of the calls made to it. */
module Sdk {
  import opened Js

  /** One call `postFn(userId, title)`. */
  datatype Post = Post(userId: string, title: string)

  /** What is known of the foreign `postFn`: the calls it received, in order. */
  class PostLog {
    var calls: seq<Post>

    constructor ()
      ensures calls == []
    {
      calls := [];
    }
  }

  const NotLoggedInMessage: string := "User is not logged in"

  class SDK {
    var loggedInUserId: Option<string>

    /** `constructor(public loggedInUserId?: string)` */
    constructor (loggedInUserId: Option<string>)
      ensures this.loggedInUserId == loggedInUserId
    {
      this.loggedInUserId := loggedInUserId;
    }

    /** Completes exactly when the user id is present and non-empty; the test
        is the falsiness of the field, so `""` fails like `undefined`. */
    method AssertUserIsLoggedIn() returns (r: Outcome)
      ensures r.Completed? <==> loggedInUserId.Some? && loggedInUserId.value != ""
      ensures r.Threw? ==> r.error == Error(NotLoggedInMessage)
    {
      if !Truthy(OptionalString(loggedInUserId)) {
        r := Threw(Error(NotLoggedInMessage));
      } else {
        r := Completed;
      }
    }

    /** Posts under the logged-in user: `postFn` is reached only after the
        assertion passes, and then once, with the stored id and the title. */
    method CreatePost(title: string, postFn: PostLog) returns (r: Outcome)
      modifies postFn
      ensures r.Completed? <==> loggedInUserId.Some? && loggedInUserId.value != ""
      ensures r.Threw? ==> r.error == Error(NotLoggedInMessage) && postFn.calls == old(postFn.calls)
      ensures r.Completed? ==> postFn.calls == old(postFn.calls) + [Post(loggedInUserId.value, title)]
    {
      r := AssertUserIsLoggedIn();
      if r.Threw? {
        return;
      }
      postFn.calls := postFn.calls + [Post(loggedInUserId.value, title)];
    }
  }

  /** A client of the contracts alone: an SDK built without a user id, or
      with an empty one, never posts; one built with a real id posts once. */
  method PostingNeedsAUser(postFn: PostLog, id: string, title: string)
    requires id != ""
    modifies postFn
    ensures postFn.calls == old(postFn.calls) + [Post(id, title)]
  {
    var anonymous := new SDK(None);
    var r := anonymous.CreatePost(title, postFn);
    assert r == Threw(Error(NotLoggedInMessage));
    var empty := new SDK(Some(""));
    r := empty.CreatePost(title, postFn);
    assert r.Threw?;
    var user := new SDK(Some(id));
    r := user.CreatePost(title, postFn);
    assert r == Completed;
  }
}
