/**
 * The request body for creating a user: a user with a nested address (which
 * nests its coordinates) and a nested company. The class-validator decorators
 * on each field become the validity predicates below: every field is a string
 * that must not be empty, and nothing more is checked.
 */
module UserDto {

  datatype CreateGeoDto = CreateGeoDto(lat: string, lng: string)

  datatype CreateAddressDto = CreateAddressDto(
    street: string,
    suite: string,
    city: string,
    zipcode: string,
    geo: CreateGeoDto)

  datatype CreateCompanyDto = CreateCompanyDto(name: string, catch_phrase: string, bs: string)

  datatype CreateUserDto = CreateUserDto(
    name: string,
    username: string,
    email: string,
    phone: string,
    website: string,
    address: CreateAddressDto,
    company: CreateCompanyDto)

  /** `@IsString() @IsNotEmpty()`. */
  predicate NonEmpty(s: string)
  {
    s != ""
  }

  predicate ValidGeo(geo: CreateGeoDto)
  {
    NonEmpty(geo.lat) && NonEmpty(geo.lng)
  }

  predicate ValidAddress(address: CreateAddressDto)
  {
    && NonEmpty(address.street)
    && NonEmpty(address.suite)
    && NonEmpty(address.city)
    && NonEmpty(address.zipcode)
    && ValidGeo(address.geo)
  }

  predicate ValidCompany(company: CreateCompanyDto)
  {
    NonEmpty(company.name) && NonEmpty(company.catch_phrase) && NonEmpty(company.bs)
  }

  /** `@ValidateNested()` on address and company: the user is valid only if both are. */
  predicate ValidUser(user: CreateUserDto)
  {
    && NonEmpty(user.name)
    && NonEmpty(user.username)
    && NonEmpty(user.email)
    && NonEmpty(user.phone)
    && NonEmpty(user.website)
    && ValidAddress(user.address)
    && ValidCompany(user.company)
  }

  /**
   * The checks are about emptiness only: an email without `@` and coordinates
   * that are not numbers pass, while emptying any one nested field fails the
   * whole user.
   */
  lemma OnlyEmptinessIsChecked()
    ensures var geo := CreateGeoDto("north", "west");
            var address := CreateAddressDto("Main St", "Apt 4B", "Springfield", "94105", geo);
            var company := CreateCompanyDto("Tech Corp", "Innovating", "Software");
            var user := CreateUserDto("John Doe", "johndoe", "not an email", "555", "x", address, company);
            && ValidUser(user)
            && '@' !in user.email
            && !ValidUser(user.(address := address.(geo := geo.(lat := ""))))
            && !ValidUser(user.(company := company.(bs := "")))
  {
    var user := CreateUserDto("John Doe", "johndoe", "not an email", "555", "x",
      CreateAddressDto("Main St", "Apt 4B", "Springfield", "94105", CreateGeoDto("north", "west")),
      CreateCompanyDto("Tech Corp", "Innovating", "Software"));
    assert user.email[3] == ' ';
    assert forall i :: 0 <= i < |user.email| ==> user.email[i] != '@';
  }
}
