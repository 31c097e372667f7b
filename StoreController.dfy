/** The decision rules of the store controller: page-size normalization,
    the owner-or-admin checks before a store is updated or deleted, the
    exact "ROLE_MASTER" check before category and region changes, and the
    creator a new store is recorded with. Each handler either proceeds to
    exactly one service call or is refused without any mutating one (the
    store lookup that precedes the update and delete checks happens
    outside this model). */
module StoreController {
  import opened Wrappers

  type Uuid = nat

  /** A request body handed through to the service unchanged. */
  datatype RequestBody = RequestBody(fields: map<string, string>)

  /** The authenticated user: username and granted authorities. */
  datatype UserDetails = UserDetails(username: string, authorities: seq<string>)

  /** The store as the service returns it, as far as the checks look at it. */
  datatype Store = Store(createdBy: string)

  /** The token decoder: username and role claims of an access token. */
  datatype JwtDecoder = JwtDecoder(getUsername: string -> string, getRole: string -> string)

  /** The service calls a handler makes once its checks pass. */
  datatype ServiceCall =
    | GetAllStoresCall(page: int, size: int, status: Option<string>, sortBy: string)
    | CreateStoreCall(dto: RequestBody, createdBy: string)
    | UpdateStoreCall(storeId: Uuid, dto: RequestBody)
    | DeleteStoreCall(storeId: Uuid, username: string)
    | CreateCategoryCall(dto: RequestBody, role: string)
    | UpdateCategoryCall(categoryId: Uuid, dto: RequestBody, role: string)
    | DeleteCategoryCall(categoryId: Uuid, role: string)
    | CreateRegionCall(dto: RequestBody, role: string)

  /** Why a handler refused: a runtime error (not the owner) or an access
      denial (not the master role). */
  datatype Refusal = NotOwner(message: string) | AccessDenied(message: string)

  datatype Outcome = Proceed(call: ServiceCall) | Refused(refusal: Refusal)

  const DefaultPageSize := 10
  const AllowedPageSizes: set<int> := {10, 30, 50}
  const UpdateAdminAuthority := "ADMIN"
  const DeleteAdminAuthority := "ROLE_ADMIN"
  const OwnerAuthority := "ROLE_OWNER"
  const MasterRole := "ROLE_MASTER"
  const NotOwnerOnUpdateMessage := "본인이 소유한 가게만 수정할 수 있습니다."
  const NotOwnerOnDeleteMessage := "본인이 소유한 가게만 삭제할 수 있습니다."
  const MasterRequiredMessage := "ROLE_MASTER 권한이 필요합니다."

  // ---------------------------------------------------------------------
  // Paging

  /** The page size used for listing: the requested one when it is 10, 30
      or 50, and 10 for any other request. */
  function NormalizePageSize(size: int): (r: int)
    ensures r in AllowedPageSizes
    ensures size in AllowedPageSizes ==> r == size
    ensures size !in AllowedPageSizes ==> r == DefaultPageSize
  {
    if size != 10 && size != 30 && size != 50 then 10 else size
  }

  /** Normalizing twice gives what normalizing once gives. */
  lemma NormalizePageSizeIdempotent(size: int)
    ensures NormalizePageSize(NormalizePageSize(size)) == NormalizePageSize(size)
  {
  }

  /** Lists stores with the normalized page size; every other argument is
      passed on unchanged. */
  function GetAllStores(page: int, size: int, status: Option<string>, sortBy: string): (r: Outcome)
    ensures r.Proceed? && r.call.GetAllStoresCall?
    ensures r.call.size in AllowedPageSizes
    ensures r.call.size == NormalizePageSize(size)
    ensures r.call.page == page && r.call.status == status && r.call.sortBy == sortBy
  {
    Proceed(GetAllStoresCall(page, NormalizePageSize(size), status, sortBy))
  }

  // ---------------------------------------------------------------------
  // Store creation and ownership

  /** Some granted authority equals `authority` exactly. */
  predicate HasAuthority(user: UserDetails, authority: string) {
    exists i :: 0 <= i < |user.authorities| && user.authorities[i] == authority
  }

  /** The check the framework applies to the store update and delete routes
      before the handler runs. */
  predicate PreAuthorized(user: UserDetails) {
    HasAuthority(user, OwnerAuthority) || HasAuthority(user, DeleteAdminAuthority)
  }

  /** Who may update a store: an account holding "ADMIN", or its creator. */
  predicate MayUpdate(user: UserDetails, store: Store) {
    HasAuthority(user, UpdateAdminAuthority) || store.createdBy == user.username
  }

  /** Who may delete a store: an account holding "ROLE_ADMIN", or its creator. */
  predicate MayDelete(user: UserDetails, store: Store) {
    HasAuthority(user, DeleteAdminAuthority) || store.createdBy == user.username
  }

  /** Creates a store recorded as created by the token's username. */
  function CreateStore(dto: RequestBody, token: string, jwt: JwtDecoder): (r: Outcome)
    ensures r.Proceed? && r.call.CreateStoreCall?
    ensures r.call.createdBy == jwt.getUsername(token) && r.call.dto == dto
  {
    Proceed(CreateStoreCall(dto, jwt.getUsername(token)))
  }

  /** Updates the store only for an "ADMIN" account or the store's creator;
      otherwise refuses without calling the update. */
  function UpdateStore(storeId: Uuid, dto: RequestBody, user: UserDetails, store: Store): (r: Outcome)
    ensures r.Proceed? <==> MayUpdate(user, store)
    ensures r.Proceed? ==> r.call == UpdateStoreCall(storeId, dto)
    ensures r.Refused? ==> r.refusal == NotOwner(NotOwnerOnUpdateMessage)
  {
    var isAdmin := HasAuthority(user, UpdateAdminAuthority);
    if !isAdmin && store.createdBy != user.username then
      Refused(NotOwner(NotOwnerOnUpdateMessage))
    else
      Proceed(UpdateStoreCall(storeId, dto))
  }

  /** Deletes the store only for a "ROLE_ADMIN" account or the store's
      creator; otherwise refuses without calling the delete. */
  function DeleteStore(storeId: Uuid, user: UserDetails, store: Store): (r: Outcome)
    ensures r.Proceed? <==> MayDelete(user, store)
    ensures r.Proceed? ==> r.call == DeleteStoreCall(storeId, user.username)
    ensures r.Refused? ==> r.refusal == NotOwner(NotOwnerOnDeleteMessage)
  {
    var isAdmin := HasAuthority(user, DeleteAdminAuthority);
    if !isAdmin && store.createdBy != user.username then
      Refused(NotOwner(NotOwnerOnDeleteMessage))
    else
      Proceed(DeleteStoreCall(storeId, user.username))
  }

  /** The two checks disagree exactly for a non-creator who holds one of
      the two admin strings but not the other. */
  lemma UpdateAndDeleteDisagreeIff(storeId: Uuid, dto: RequestBody, user: UserDetails, store: Store)
    ensures UpdateStore(storeId, dto, user, store).Proceed? != DeleteStore(storeId, user, store).Proceed?
      <==> store.createdBy != user.username
           && HasAuthority(user, UpdateAdminAuthority) != HasAuthority(user, DeleteAdminAuthority)
  {
  }

  /** An account whose only authority is "ROLE_ADMIN" passes the route's
      framework check, and for a store it did not create it may delete the
      store but may not update it. */
  lemma RoleAdminDeletesButCannotUpdate(storeId: Uuid, dto: RequestBody, user: UserDetails, store: Store)
    requires user.authorities == [DeleteAdminAuthority]
    requires store.createdBy != user.username
    ensures PreAuthorized(user)
    ensures DeleteStore(storeId, user, store).Proceed?
    ensures UpdateStore(storeId, dto, user, store) == Refused(NotOwner(NotOwnerOnUpdateMessage))
  {
    assert user.authorities[0] == DeleteAdminAuthority;
    assert UpdateAdminAuthority != DeleteAdminAuthority;
  }

  /** Whoever creates a store with a token may later update and delete it
      when the user details carry the token's username. */
  lemma CreatorMayUpdateAndDelete(dto: RequestBody, token: string, jwt: JwtDecoder,
                                  storeId: Uuid, user: UserDetails)
    requires user.username == jwt.getUsername(token)
    ensures var store := Store(CreateStore(dto, token, jwt).call.createdBy);
      UpdateStore(storeId, dto, user, store).Proceed? && DeleteStore(storeId, user, store).Proceed?
  {
  }

  // ---------------------------------------------------------------------
  // Category and region administration

  /** Exactly the role "ROLE_MASTER" may change categories and regions. */
  predicate IsMaster(role: string) {
    role == MasterRole
  }

  function CreateCategory(dto: RequestBody, token: string, jwt: JwtDecoder): (r: Outcome)
    ensures r.Proceed? <==> IsMaster(jwt.getRole(token))
    ensures r.Proceed? ==> r.call == CreateCategoryCall(dto, MasterRole)
    ensures r.Refused? ==> r.refusal == AccessDenied(MasterRequiredMessage)
  {
    var role := jwt.getRole(token);
    if !IsMaster(role) then Refused(AccessDenied(MasterRequiredMessage))
    else Proceed(CreateCategoryCall(dto, role))
  }

  function UpdateCategory(categoryId: Uuid, dto: RequestBody, token: string, jwt: JwtDecoder): (r: Outcome)
    ensures r.Proceed? <==> IsMaster(jwt.getRole(token))
    ensures r.Proceed? ==> r.call == UpdateCategoryCall(categoryId, dto, MasterRole)
    ensures r.Refused? ==> r.refusal == AccessDenied(MasterRequiredMessage)
  {
    var role := jwt.getRole(token);
    if !IsMaster(role) then Refused(AccessDenied(MasterRequiredMessage))
    else Proceed(UpdateCategoryCall(categoryId, dto, role))
  }

  function DeleteCategory(categoryId: Uuid, token: string, jwt: JwtDecoder): (r: Outcome)
    ensures r.Proceed? <==> IsMaster(jwt.getRole(token))
    ensures r.Proceed? ==> r.call == DeleteCategoryCall(categoryId, MasterRole)
    ensures r.Refused? ==> r.refusal == AccessDenied(MasterRequiredMessage)
  {
    var role := jwt.getRole(token);
    if !IsMaster(role) then Refused(AccessDenied(MasterRequiredMessage))
    else Proceed(DeleteCategoryCall(categoryId, role))
  }

  function CreateRegion(dto: RequestBody, token: string, jwt: JwtDecoder): (r: Outcome)
    ensures r.Proceed? <==> IsMaster(jwt.getRole(token))
    ensures r.Proceed? ==> r.call == CreateRegionCall(dto, MasterRole)
    ensures r.Refused? ==> r.refusal == AccessDenied(MasterRequiredMessage)
  {
    var role := jwt.getRole(token);
    if !IsMaster(role) then Refused(AccessDenied(MasterRequiredMessage))
    else Proceed(CreateRegionCall(dto, role))
  }

  /** The four administration handlers let the same tokens through: for a
      given token they all proceed or are all denied. */
  lemma MasterHandlersAgree(token: string, jwt: JwtDecoder, dto: RequestBody, categoryId: Uuid)
    ensures CreateCategory(dto, token, jwt).Proceed? == UpdateCategory(categoryId, dto, token, jwt).Proceed?
    ensures UpdateCategory(categoryId, dto, token, jwt).Proceed? == DeleteCategory(categoryId, token, jwt).Proceed?
    ensures DeleteCategory(categoryId, token, jwt).Proceed? == CreateRegion(dto, token, jwt).Proceed?
  {
  }
}
