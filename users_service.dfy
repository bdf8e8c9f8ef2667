/**
 * The logic of the users service that is not a call into the database: the
 * payload builders for create and update, the error classifier, and the error
 * flow of `findOne` and `update`. Database answers are parameters.
 */
module UsersService {
  import opened Wrappers
  import opened Http
  import opened UserDto

  // ----- Create payload -----

  datatype GeoInput = GeoInput(lat: string, lng: string)

  datatype AddressCreateData = AddressCreateData(
    street: string,
    suite: string,
    city: string,
    zipcode: string,
    geo: GeoInput)

  datatype CompanyCreateData = CompanyCreateData(name: string, catch_phrase: string, bs: string)

  /** `{ create: {...} }`: a nested record created together with the user. */
  datatype AddressCreate = AddressCreate(create: AddressCreateData)

  datatype CompanyCreate = CompanyCreate(create: CompanyCreateData)

  datatype UserCreateInput = UserCreateInput(
    name: string,
    username: string,
    email: string,
    phone: string,
    website: string,
    address: AddressCreate,
    company: CompanyCreate)

  /** The user a create payload would store, read back out of its nesting. */
  function StoredUser(p: UserCreateInput): CreateUserDto
  {
    var a := p.address.create;
    var c := p.company.create;
    CreateUserDto(p.name, p.username, p.email, p.phone, p.website,
                  CreateAddressDto(a.street, a.suite, a.city, a.zipcode, CreateGeoDto(a.geo.lat, a.geo.lng)),
                  CreateCompanyDto(c.name, c.catch_phrase, c.bs))
  }

  /** Every string of a create payload is non-empty. */
  predicate CompletePayload(p: UserCreateInput)
  {
    && p.name != "" && p.username != "" && p.email != "" && p.phone != "" && p.website != ""
    && p.address.create.street != "" && p.address.create.suite != ""
    && p.address.create.city != "" && p.address.create.zipcode != ""
    && p.address.create.geo.lat != "" && p.address.create.geo.lng != ""
    && p.company.create.name != "" && p.company.create.catch_phrase != "" && p.company.create.bs != ""
  }

  /**
   * `buildCreatePayload`: the user's fields, with the address and company
   * nested under `create`. Nothing is lost or changed on the way, and the
   * payload is complete exactly when the user passes validation.
   */
  function BuildCreatePayload(user: CreateUserDto): (p: UserCreateInput)
    ensures StoredUser(p) == user
    ensures CompletePayload(p) <==> ValidUser(user)
  {
    UserCreateInput(
      user.name, user.username, user.email, user.phone, user.website,
      AddressCreate(AddressCreateData(user.address.street, user.address.suite, user.address.city,
                                      user.address.zipcode, GeoInput(user.address.geo.lat, user.address.geo.lng))),
      CompanyCreate(CompanyCreateData(user.company.name, user.company.catch_phrase, user.company.bs)))
  }

  /** Distinct users give distinct create payloads. */
  lemma CreatePayloadInjective(u1: CreateUserDto, u2: CreateUserDto)
    ensures BuildCreatePayload(u1) == BuildCreatePayload(u2) ==> u1 == u2
  {
    assert StoredUser(BuildCreatePayload(u1)) == u1;
    assert StoredUser(BuildCreatePayload(u2)) == u2;
  }

  // ----- Update payload -----

  /** A geo object in an update body; either coordinate may be missing. */
  datatype GeoPatch = GeoPatch(lat: Option<string>, lng: Option<string>)

  datatype AddressPatch = AddressPatch(
    street: Option<string>,
    suite: Option<string>,
    city: Option<string>,
    zipcode: Option<string>,
    geo: Option<GeoPatch>)

  datatype CompanyPatch = CompanyPatch(name: Option<string>, catch_phrase: Option<string>, bs: Option<string>)

  /** An update body: any field may be missing. */
  datatype UpdateUserDto = UpdateUserDto(
    name: Option<string>,
    username: Option<string>,
    email: Option<string>,
    phone: Option<string>,
    website: Option<string>,
    address: Option<AddressPatch>,
    company: Option<CompanyPatch>)

  datatype AddressUpdateData = AddressUpdateData(
    street: Option<string>,
    suite: Option<string>,
    city: Option<string>,
    zipcode: Option<string>,
    geo: Option<GeoPatch>)

  datatype CompanyUpdateData = CompanyUpdateData(name: Option<string>, catch_phrase: Option<string>, bs: Option<string>)

  /** `{ update: {...} }`: the nested record is updated in place. */
  datatype AddressUpdate = AddressUpdate(update: AddressUpdateData)

  datatype CompanyUpdate = CompanyUpdate(update: CompanyUpdateData)

  /** The update payload; a `None` field is a key the object does not have. */
  datatype UserUpdateInput = UserUpdateInput(
    name: Option<string>,
    username: Option<string>,
    email: Option<string>,
    phone: Option<string>,
    website: Option<string>,
    address: Option<AddressUpdate>,
    company: Option<CompanyUpdate>)

  const EMPTY_UPDATE: UserUpdateInput := UserUpdateInput(None, None, None, None, None, None, None)
  const EMPTY_ADDRESS_UPDATE: AddressUpdateData := AddressUpdateData(None, None, None, None, None)
  const EMPTY_COMPANY_UPDATE: CompanyUpdateData := CompanyUpdateData(None, None, None)

  /** The message of the TypeError thrown when `updateData.address.geo.lat` is read. */
  const GEO_TYPE_ERROR: string := "Cannot read properties of undefined (reading 'lat')"

  /** JavaScript truthiness of an optional string: present and not empty. */
  predicate Truthy(v: Option<string>)
  {
    v.Some? && v.value != ""
  }

  /** `if (v) out.k = v`: the key holds the input's value exactly when that value is truthy. */
  predicate SparseCopy(out: Option<string>, v: Option<string>)
  {
    (out.Some? <==> Truthy(v)) && (out.Some? ==> out == v)
  }

  function KeepTruthy(v: Option<string>): Option<string>
  {
    if Truthy(v) then v else None
  }

  /**
   * What `buildUpdatePayload` returns, or the TypeError it throws: it reads the
   * coordinates from `updateData.address.geo`, which is never set, so every
   * body that carries `address.geo` fails.
   */
  function UpdatePayload(user: UpdateUserDto): Result<UserUpdateInput, string>
  {
    if user.address.Some? && user.address.value.geo.Some? then Failure(GEO_TYPE_ERROR)
    else
      Success(UserUpdateInput(
        KeepTruthy(user.name), KeepTruthy(user.username), KeepTruthy(user.email),
        KeepTruthy(user.phone), KeepTruthy(user.website),
        if user.address.Some? then Some(AddressUpdate(AddressUpdateOf(user.address.value))) else None,
        if user.company.Some? then Some(CompanyUpdate(CompanyUpdateOf(user.company.value))) else None))
  }

  function AddressUpdateOf(a: AddressPatch): AddressUpdateData
  {
    AddressUpdateData(KeepTruthy(a.street), KeepTruthy(a.suite), KeepTruthy(a.city), KeepTruthy(a.zipcode), None)
  }

  function CompanyUpdateOf(c: CompanyPatch): CompanyUpdateData
  {
    CompanyUpdateData(KeepTruthy(c.name), KeepTruthy(c.catch_phrase), KeepTruthy(c.bs))
  }

  /** The `address.update` block of `buildUpdatePayload`, before the `geo` branch. */
  method BuildAddressUpdate(a: AddressPatch) returns (update: AddressUpdateData)
    ensures update == AddressUpdateOf(a)
  {
    update := EMPTY_ADDRESS_UPDATE;
    if Truthy(a.street) { update := update.(street := a.street); }
    if Truthy(a.suite) { update := update.(suite := a.suite); }
    if Truthy(a.city) { update := update.(city := a.city); }
    if Truthy(a.zipcode) { update := update.(zipcode := a.zipcode); }
  }

  /** The `company.update` block of `buildUpdatePayload`. */
  method BuildCompanyUpdate(c: CompanyPatch) returns (update: CompanyUpdateData)
    ensures update == CompanyUpdateOf(c)
  {
    update := EMPTY_COMPANY_UPDATE;
    if Truthy(c.name) { update := update.(name := c.name); }
    if Truthy(c.catch_phrase) { update := update.(catch_phrase := c.catch_phrase); }
    if Truthy(c.bs) { update := update.(bs := c.bs); }
  }

  /** `buildUpdatePayload` as written: the payload object is filled in one conditional assignment at a time. */
  method BuildUpdatePayload(user: UpdateUserDto) returns (r: Result<UserUpdateInput, string>)
    ensures r == UpdatePayload(user)
  {
    var updateData := EMPTY_UPDATE;
    if Truthy(user.name) { updateData := updateData.(name := user.name); }
    if Truthy(user.username) { updateData := updateData.(username := user.username); }
    if Truthy(user.email) { updateData := updateData.(email := user.email); }
    if Truthy(user.phone) { updateData := updateData.(phone := user.phone); }
    if Truthy(user.website) { updateData := updateData.(website := user.website); }

    if user.address.Some? {
      var update := BuildAddressUpdate(user.address.value);
      updateData := updateData.(address := Some(AddressUpdate(update)));
      if user.address.value.geo.Some? {
        // updateData.address has no `geo` key, so reading `.lat` from it throws
        return Failure(GEO_TYPE_ERROR);
      }
    }

    if user.company.Some? {
      var update := BuildCompanyUpdate(user.company.value);
      updateData := updateData.(company := Some(CompanyUpdate(update)));
    }

    r := Success(updateData);
  }

  /**
   * The update payload is a sparse patch: a top-level key is present exactly
   * when the input's value is truthy, `address` and `company` are present
   * exactly when the input has them, and inside them each key again exactly
   * when its value is truthy.
   */
  lemma UpdatePayloadIsSparse(user: UpdateUserDto)
    requires UpdatePayload(user).Success?
    ensures var p := UpdatePayload(user).value;
            && SparseCopy(p.name, user.name)
            && SparseCopy(p.username, user.username)
            && SparseCopy(p.email, user.email)
            && SparseCopy(p.phone, user.phone)
            && SparseCopy(p.website, user.website)
            && (p.address.Some? <==> user.address.Some?)
            && (p.address.Some? ==>
                  var a, u := user.address.value, p.address.value.update;
                  SparseCopy(u.street, a.street) && SparseCopy(u.suite, a.suite)
                  && SparseCopy(u.city, a.city) && SparseCopy(u.zipcode, a.zipcode) && u.geo.None?)
            && (p.company.Some? <==> user.company.Some?)
            && (p.company.Some? ==>
                  var c, u := user.company.value, p.company.value.update;
                  SparseCopy(u.name, c.name) && SparseCopy(u.catch_phrase, c.catch_phrase) && SparseCopy(u.bs, c.bs))
  {
  }

  /** The builder throws exactly for bodies that carry `address.geo`. */
  lemma UpdatePayloadFailsIff(user: UpdateUserDto)
    ensures UpdatePayload(user).Failure? <==> user.address.Some? && user.address.value.geo.Some?
    ensures UpdatePayload(user).Failure? ==> UpdatePayload(user).error == GEO_TYPE_ERROR
  {
  }

  /** A body without fields, or with only empty strings, yields the empty payload. */
  lemma EmptyBodyEmptyPayload(user: UpdateUserDto)
    requires !Truthy(user.name) && !Truthy(user.username) && !Truthy(user.email)
    requires !Truthy(user.phone) && !Truthy(user.website)
    requires user.address.None? && user.company.None?
    ensures UpdatePayload(user) == Success(EMPTY_UPDATE)
  {
  }

  /**
   * The evidently intended builder: the coordinates are copied from the
   * input's `address.geo`, so a body with coordinates is forwarded instead of
   * failing.
   */
  function UpdatePayloadIntended(user: UpdateUserDto): (p: UserUpdateInput)
    ensures p.address.Some? <==> user.address.Some?
    ensures p.address.Some? ==> p.address.value.update.geo == user.address.value.geo
    ensures UpdatePayload(user).Success? ==> UpdatePayload(user).value == p
  {
    UserUpdateInput(
      KeepTruthy(user.name), KeepTruthy(user.username), KeepTruthy(user.email),
      KeepTruthy(user.phone), KeepTruthy(user.website),
      if user.address.Some? then
        var a := user.address.value;
        Some(AddressUpdate(AddressUpdateOf(a).(geo := a.geo)))
      else None,
      if user.company.Some? then Some(CompanyUpdate(CompanyUpdateOf(user.company.value))) else None)
  }

  /** A body that sets coordinates: the builder as written throws, the intended one carries them. */
  lemma GeoUpdateCounterexample()
    ensures var geo := GeoPatch(Some("37.7"), Some("-122.4"));
            var user := UpdateUserDto(None, None, None, None, None,
                                      Some(AddressPatch(None, None, None, None, Some(geo))), None);
            && UpdatePayload(user) == Failure(GEO_TYPE_ERROR)
            && UpdatePayloadIntended(user).address == Some(AddressUpdate(AddressUpdateData(None, None, None, None, Some(geo))))
  {
  }

  // ----- Errors -----

  /** What the `catch` blocks receive. */
  datatype ServiceError =
    | KnownRequestError(code: string)   // Prisma.PrismaClientKnownRequestError
    | NotFoundError(message: string)    // the NotFoundException thrown by findOne
    | OtherError(message: string)       // anything else, such as a TypeError

  const UNIQUE_MESSAGE: string := "Unique constraint failed on the field(s)"

  /**
   * `handlePrismaError` always throws a 500: the unique-constraint message for
   * a known request error with code P2002, `Failed to <operation> user` for
   * every other error.
   */
  function HandlePrismaError(error: ServiceError, operation: string): (e: HttpError)
    ensures e.status == INTERNAL_SERVER_ERROR
    ensures e.message == UNIQUE_MESSAGE <==> error == KnownRequestError("P2002")
    ensures e.message != UNIQUE_MESSAGE ==> e.message == "Failed to " + operation + " user"
  {
    var generic := "Failed to " + operation + " user";
    assert generic[0] == 'F' && UNIQUE_MESSAGE[0] == 'U';
    if error.KnownRequestError? && error.code == "P2002" then HttpError(INTERNAL_SERVER_ERROR, UNIQUE_MESSAGE)
    else HttpError(INTERNAL_SERVER_ERROR, generic)
  }

  /**
   * `findOne`: `found` is the database's answer (a row, no row, or an error).
   * A missing user raises NotFound inside the `try`, and the `catch` turns it
   * into a 500 `Failed to findOne user`, so NotFound never reaches the caller.
   */
  function FindOne<T>(id: string, found: Result<Option<T>, ServiceError>): (r: Result<T, HttpError>)
    ensures r.Success? <==> found.Success? && found.value.Some?
    ensures r.Success? ==> r.value == found.value.value
    ensures r.Failure? ==> r.error.status == INTERNAL_SERVER_ERROR
    ensures found.Failure? ==> r == Failure(HandlePrismaError(found.error, "findOne"))
    ensures found == Success(None) ==> r == Failure(HttpError(INTERNAL_SERVER_ERROR, "Failed to findOne user"))
  {
    assert "Failed to " + "findOne" + " user" == "Failed to findOne user";
    match found
    case Failure(e) => Failure(HandlePrismaError(e, "findOne"))
    case Success(None) => Failure(HandlePrismaError(NotFoundError("User with ID " + id + " not found"), "findOne"))
    case Success(Some(user)) => Success(user)
  }

  /**
   * `update`: build the payload, then hand it to the database, whose answer
   * `persist` gives. Either failure goes through `handlePrismaError`.
   */
  function Update<T>(id: string, user: UpdateUserDto, persist: UserUpdateInput -> Result<T, ServiceError>): (r: Result<T, HttpError>)
    ensures r.Success? <==> UpdatePayload(user).Success? && persist(UpdatePayload(user).value).Success?
    ensures r.Success? ==> r.value == persist(UpdatePayload(user).value).value
    ensures UpdatePayload(user).Success? && r.Failure? ==>
              r.error == HandlePrismaError(persist(UpdatePayload(user).value).error, "update")
    ensures r.Failure? ==> r.error.status == INTERNAL_SERVER_ERROR
  {
    match UpdatePayload(user)
    case Failure(message) => Failure(HandlePrismaError(OtherError(message), "update"))
    case Success(payload) =>
      match persist(payload)
      case Success(updated) => Success(updated)
      case Failure(e) => Failure(HandlePrismaError(e, "update"))
  }

  /** Whatever the database would say, a body with coordinates fails as `Failed to update user`. */
  lemma UpdateWithGeoFails<T>(id: string, user: UpdateUserDto, persist: UserUpdateInput -> Result<T, ServiceError>)
    requires user.address.Some? && user.address.value.geo.Some?
    ensures Update(id, user, persist) == Failure(HttpError(INTERNAL_SERVER_ERROR, "Failed to update user"))
  {
    assert "Failed to " + "update" + " user" == "Failed to update user";
  }

  /** `update` over the intended builder: only the database's answer decides the outcome. */
  function UpdateIntended<T>(id: string, user: UpdateUserDto, persist: UserUpdateInput -> Result<T, ServiceError>): (r: Result<T, HttpError>)
    ensures r.Success? <==> persist(UpdatePayloadIntended(user)).Success?
    ensures r.Success? ==> r.value == persist(UpdatePayloadIntended(user)).value
    ensures r.Failure? ==> r.error == HandlePrismaError(persist(UpdatePayloadIntended(user)).error, "update")
  {
    match persist(UpdatePayloadIntended(user))
    case Success(updated) => Success(updated)
    case Failure(e) => Failure(HandlePrismaError(e, "update"))
  }
}
