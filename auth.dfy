/** The parent account slice: the signed-in user, the child profile in use,
    and the loading and error flags of the sign-in flow. */
module Auth {
  import opened Common

  datatype AccountRole = Parent | Child

  /** The interface a child profile uses. */
  datatype ChildUiMode = PetitChefUi | GrandPatissierUi

  datatype ChildProfile = ChildProfile(id: string, name: string, age: int, uiMode: ChildUiMode)

  datatype User = User(id: string, phone: string, role: AccountRole, childProfiles: Option<seq<ChildProfile>>)

  /** What the interface shows: the parent view, or a child's own mode. */
  datatype UiMode = ParentUi | ChildUi(mode: ChildUiMode)

  /** selectUIMode */
  function SelectUiMode(activeChild: Option<ChildProfile>): (m: UiMode)
    ensures m == ParentUi <==> activeChild.None?
    ensures activeChild.Some? ==> m == ChildUi(activeChild.value.uiMode)
  {
    if activeChild.None? then ParentUi else ChildUi(activeChild.value.uiMode)
  }

  class AuthStore {
    var user: Option<User>
    var activeChild: Option<ChildProfile>
    var isAuthenticated: bool
    var isLoading: bool
    var error: Option<string>

    /** Nobody signed in, no child, no flag raised. */
    ghost predicate IsInitial()
      reads this
    {
      user == None && activeChild == None && !isAuthenticated && !isLoading && error == None
    }

    constructor ()
      ensures IsInitial()
    {
      user, activeChild, isAuthenticated, isLoading, error := None, None, false, false, None;
    }

    /** A successful sign-in: the user is stored, the flow ends without error;
        the active child is kept. */
    method LoginSuccess(u: User)
      modifies this`user, this`isAuthenticated, this`isLoading, this`error
      ensures user == Some(u) && isAuthenticated && !isLoading && error == None
    {
      user := Some(u);
      isAuthenticated := true;
      isLoading := false;
      error := None;
    }

    /** Back to the initial state. */
    method Logout()
      modifies this`user, this`activeChild, this`isAuthenticated, this`isLoading, this`error
      ensures IsInitial()
      ensures SelectUiMode(activeChild) == ParentUi
    {
      user := None;
      activeChild := None;
      isAuthenticated := false;
      isLoading := false;
      error := None;
    }

    /** Switches profile, signed in or not. */
    method SelectChild(child: ChildProfile)
      modifies this`activeChild
      ensures activeChild == Some(child)
      ensures SelectUiMode(activeChild) == ChildUi(child.uiMode)
    {
      activeChild := Some(child);
    }

    method SetLoading(b: bool)
      modifies this`isLoading
      ensures isLoading == b
    {
      isLoading := b;
    }

    /** Recording an error, or clearing it, ends the loading state. */
    method SetError(e: Option<string>)
      modifies this`error, this`isLoading
      ensures error == e && !isLoading
    {
      error := e;
      isLoading := false;
    }
  }
}
