/** The identity holder of src/Models/User.ts.

    `initialize` is asynchronous and the constructor does not await it. An
    anonymous user takes its id from the fresh-id generator before the first
    `await`, so the constructor returns with the id in place. A non-anonymous
    user suspends on the identity provider; the constructor returns with the
    empty id, and `ResumeInitialize` models the rest of `initialize` once the
    provider has answered. The provider's answers and the generated id are
    inputs. An `undefined` id from the provider is modelled as "", which the
    `user_id` getter cannot tell apart from it. */
module User {
  import opened Common

  const NotAuthorized: string := "User not authorized"

  class User {
    /** `_user_id` ("" until known). */
    var userId: string
    /** `_photo` ("" until fetched). */
    var photo: string
    /** The non-anonymous `initialize` is suspended on `getMyId()`. */
    var awaitingIdentity: bool

    /** `new User(anonymous)` up to the constructor's return. The source's
        parameter defaults to `false`. */
    constructor (anonymous: bool, freshId: string)
      ensures anonymous ==> userId == freshId && !awaitingIdentity
      ensures !anonymous ==> userId == "" && awaitingIdentity
      ensures photo == ""
    {
      photo := "";
      if !anonymous {
        userId := "";
        awaitingIdentity := true;
      } else {
        userId := freshId;
        awaitingIdentity := false;
      }
    }

    /** The rest of the non-anonymous `initialize`: the id the provider
        returned is stored; an empty one raises `AuthorizationError("User not
        authorized")` before the photo is asked for; otherwise the profile
        photo is stored. The result is the error the promise rejects with. */
    method ResumeInitialize(myId: string, profilePhoto: string) returns (authError: Option<string>)
      requires awaitingIdentity
      modifies this
      ensures !awaitingIdentity && userId == myId
      ensures authError == (if myId == "" then Some(NotAuthorized) else None)
      ensures photo == (if myId == "" then old(photo) else profilePhoto)
    {
      awaitingIdentity := false;
      userId := myId;
      if userId == "" {
        authError := Some(NotAuthorized);
        return;
      }
      photo := profilePhoto;
      authError := None;
    }

    /** The `user_id` getter: `undefined` when the stored id is empty. */
    function UserIdView(): (r: Option<string>)
      reads this
      ensures r == None <==> userId == ""
      ensures r.Some? ==> r.value == userId
    {
      if userId == "" then None else Some(userId)
    }

    /** The `user_id` setter overwrites unconditionally. */
    method SetUserId(id: string)
      modifies this`userId
      ensures userId == id
    {
      userId := id;
    }

    /** The `photo` setter overwrites unconditionally. */
    method SetPhoto(p: string)
      modifies this`photo
      ensures photo == p
    {
      photo := p;
    }
  }
}
