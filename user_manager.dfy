/** The signed-in user: held in memory, persisted to a file whose existence
    is tracked as a flag, and announced to listeners on every change. */
module UserManager {
  import opened Wrappers
  import opened JavaText
  import opened Domain

  // The element names of the user file.
  const ID_TAG: string := "id"
  const FIRST_NAME_TAG: string := "first_name"
  const LAST_NAME_TAG: string := "last_name"
  const E_MAIL_TAG: string := "e_mail"
  const PASSWORD_TAG: string := "password"

  datatype UserError =
    | UserPersistingImpossible   // no user, or the file cannot be written
    | NumberFormat               // Long.parseLong refused the id text

  /** One call of a listener's onUserChanged. */
  datatype UserNotification = UserNotification(listener: nat, user: Option<User>)

  /** The calls one notification round makes: each listener once, in
      registration order, with the same user. */
  function UserNotifications(listeners: seq<nat>, user: Option<User>): (r: seq<UserNotification>)
    ensures |r| == |listeners|
    ensures forall i :: 0 <= i < |listeners| ==> r[i] == UserNotification(listeners[i], user)
  {
    if listeners == [] then []
    else UserNotifications(listeners[..|listeners| - 1], user) + [UserNotification(listeners[|listeners| - 1], user)]
  }

  class AopdsUserManager {
    var user: Option<User>
    var listeners: seq<nat>
    /** Whether the user file exists. */
    var fileExists: bool
    /** Every onUserChanged call made so far. */
    var notifications: seq<UserNotification>

    /** getInstance on first use. `persisted` says whether the user file
        exists; `loaded` is the user read from it, None when reading failed. */
    constructor (persisted: bool, loaded: Option<User>)
      ensures fileExists == persisted
      ensures user == if persisted then loaded else None
      ensures listeners == [] && notifications == []
    {
      fileExists := persisted;
      user := if persisted then loaded else None;
      listeners := [];
      notifications := [];
    }

    method RegisterUserChangedListener(listener: nat)
      modifies this`listeners
      ensures listeners == old(listeners) + [listener]
    {
      listeners := listeners + [listener];
    }

    /** notifyUserChanged: tells each listener the current user. */
    method NotifyUserChanged()
      modifies this`notifications
      ensures notifications == old(notifications) + UserNotifications(listeners, user)
    {
      var i := 0;
      while i < |listeners|
        invariant 0 <= i <= |listeners|
        invariant notifications == old(notifications) + UserNotifications(listeners[..i], user)
      {
        assert listeners[..i + 1][..i] == listeners[..i];
        notifications := notifications + [UserNotification(listeners[i], user)];
        i := i + 1;
      }
      assert listeners[..i] == listeners;
    }

    /** discardUser: no user afterwards, and no file; a missing file is left
        missing. */
    method DiscardUser()
      modifies this`user, this`fileExists
      ensures user == None && !fileExists
    {
      user := None;
      if fileExists {
        fileExists := false;
      }
    }

    /** handleUserField: routes one field of the user file to the user being
        loaded; an unknown name changes nothing. */
    method HandleUserField(name: string, value: string) returns (r: Outcome<UserError>)
      requires user.Some?
      modifies this`user
      ensures r.Fail? <==> name == ID_TAG && ParseLong(value).None?
      ensures r.Fail? ==> r.error == NumberFormat && user == old(user)
      ensures name == FIRST_NAME_TAG ==> user == Some(old(user).value.(firstName := Some(value)))
      ensures name == LAST_NAME_TAG ==> user == Some(old(user).value.(lastName := Some(value)))
      ensures name == E_MAIL_TAG ==> user == Some(old(user).value.(email := Some(value)))
      ensures name == ID_TAG && r.Pass? ==> user == Some(old(user).value.(id := ParseLong(value).value))
      ensures name == PASSWORD_TAG ==> user == Some(old(user).value.(password := Some(value)))
      ensures name !in {FIRST_NAME_TAG, LAST_NAME_TAG, E_MAIL_TAG, ID_TAG, PASSWORD_TAG} ==> user == old(user)
    {
      r := Pass;
      if name == FIRST_NAME_TAG {
        user := Some(user.value.(firstName := Some(value)));
      } else if name == LAST_NAME_TAG {
        user := Some(user.value.(lastName := Some(value)));
      } else if name == E_MAIL_TAG {
        user := Some(user.value.(email := Some(value)));
      } else if name == ID_TAG {
        var id := ParseLong(value);
        if id.None? {
          return Fail(NumberFormat);
        }
        user := Some(user.value.(id := id.value));
      } else if name == PASSWORD_TAG {
        user := Some(user.value.(password := Some(value)));
      }
    }

    /** persistUser: refuses before writing anything when there is no user;
        otherwise the file is opened (created) and written, each step
        succeeding as the file system says. */
    method PersistUser(openSucceeds: bool, writeSucceeds: bool) returns (r: Outcome<UserError>)
      modifies this`fileExists
      ensures user.None? ==> r == Fail(UserPersistingImpossible) && fileExists == old(fileExists)
      ensures user.Some? && !openSucceeds ==> r == Fail(UserPersistingImpossible) && fileExists == old(fileExists)
      ensures user.Some? && openSucceeds ==> fileExists && (r.Pass? <==> writeSucceeds)
      ensures r.Fail? ==> r.error == UserPersistingImpossible
    {
      if user.None? {
        return Fail(UserPersistingImpossible);
      }
      if !openSucceeds {
        return Fail(UserPersistingImpossible);
      }
      fileExists := true;
      if !writeSucceeds {
        return Fail(UserPersistingImpossible);
      }
      return Pass;
    }

    /** setUser: stores the user and tells every listener; setting no user
        also discards the file. */
    method SetUser(u: Option<User>)
      modifies this`user, this`notifications, this`fileExists
      ensures user == u
      ensures notifications == old(notifications) + UserNotifications(listeners, u)
      ensures u.None? ==> !fileExists
      ensures u.Some? ==> fileExists == old(fileExists)
    {
      user := u;
      NotifyUserChanged();
      if u.None? {
        DiscardUser();
      }
    }
  }
}
