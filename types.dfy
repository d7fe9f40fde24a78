/**
 * The records the client exchanges with the backend. Optional properties
 * that are only ever tested for truthiness are `Option`s (null, undefined
 * and missing all read the same); the optional properties of a task are
 * `Prop<Option<_>>` because the store spreads one task over another, where
 * a missing key and an explicit null behave differently.
 */
module Types {
  import opened Wrappers
  import opened Js

  datatype Category = Category(
    id: string,
    categoryName: Option<string>,
    categorySort: int,
    syncDt: string,
    tag: Option<string>)

  datatype Priority = Priority(
    id: string,
    appUserId: string,
    priorityName: Option<string>,
    prioritySort: int,
    syncDt: string,
    tag: Option<string>)

  /** `createdDt` is the creation time as an already parsed timestamp. */
  datatype Task = Task(
    id: string,
    taskName: Prop<Option<string>>,
    taskSort: int,
    createdDt: int,
    dueDt: Prop<Option<string>>,
    isCompleted: bool,
    isArchived: bool,
    todoCategoryId: string,
    todoPriorityId: string,
    syncDt: string,
    todoCategory: Prop<Option<Category>>,
    todoPriority: Prop<Option<Priority>>)

  datatype TaskCreate = TaskCreate(
    taskName: string,
    todoCategoryId: string,
    todoPriorityId: string,
    dueDt: Option<string>)

  datatype TaskUpdate = TaskUpdate(
    id: string,
    taskName: Option<string>,
    todoCategoryId: Option<string>,
    todoPriorityId: Option<string>,
    dueDt: Option<string>,
    isCompleted: Option<bool>,
    isArchived: Option<bool>,
    taskSort: Option<int>)

  datatype CategoryCreate = CategoryCreate(
    categoryName: Option<string>,
    categorySort: int,
    tag: Option<string>)

  datatype PriorityCreate = PriorityCreate(
    priorityName: string,
    prioritySort: int,
    tag: Option<string>)

  datatype LoginCredentials = LoginCredentials(email: Option<string>, password: Option<string>)

  datatype RegisterInfo = RegisterInfo(
    email: Option<string>,
    password: Option<string>,
    firstName: Option<string>,
    lastName: Option<string>)

  datatype JwtResponse = JwtResponse(
    token: Option<string>,
    refreshToken: Option<string>,
    firstName: Option<string>,
    lastName: Option<string>)

  /**
   * The part of a decoded access token the client reads: the
   * nameidentifier, emailaddress, givenname and surname claims of the
   * `http://schemas.xmlsoap.org/ws/2005/05/identity/claims/` namespace,
   * and the expiry in epoch seconds.
   */
  datatype Claims = Claims(
    nameIdentifier: Option<string>,
    emailAddress: Option<string>,
    givenName: Option<string>,
    surname: Option<string>,
    exp: Option<int>)

  /** `firstName`/`lastName` are optional in the stored JSON; None is `undefined`. */
  datatype UserProfile = UserProfile(
    id: string,
    email: string,
    firstName: Option<string>,
    lastName: Option<string>)
}
