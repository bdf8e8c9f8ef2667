/**
 * The record factory. Each generator reads its entity's counter once, issues
 * `Math.ceil(count / 10)` GET requests for template records, concatenates the
 * pages, keeps the first `count` items, rewrites item `i` with the suffix
 * `_<base + i + 1>`, and finally advances the counter by the number of records
 * produced. Any failed request fails the whole call before the counter moves.
 *
 * The sample source is an oracle: `fetch(i)` is the response to the i-th GET
 * request of one call.
 */
module Factory {
  import opened Wrappers
  import opened Http
  import opened Strings
  import opened UserDto
  import Counter

  /** Number of records the sample source returns per page when a page is full. */
  const PAGE_SIZE: nat := 10

  datatype Response<T> = Page(data: seq<T>) | RequestFailed

  /** The concatenated pages, or the index of the first request that failed. */
  datatype FetchOutcome<T> = Gathered(items: seq<T>) | FailedAt(index: nat)

  // ----- Counting the requests -----

  /** `Math.ceil(count / 10)` on an integer `count`, negative ones included. */
  function Ceil10(count: int): (k: int)
    ensures 10 * (k - 1) < count <= 10 * k
  {
    if count >= 0 then (count + 9) / 10 else -((-count) / 10)
  }

  /** How often `for (let i = 0; i < k; i++)` runs. */
  function Clamp0(k: int): nat
  {
    if k > 0 then k else 0
  }

  /** The number of GET requests a call with this `count` needs. */
  function PageRequests(count: int): (k: nat)
    ensures count <= 0 ==> k == 0
    ensures count > 0 ==> 10 * (k - 1) < count <= 10 * k
  {
    Clamp0(Ceil10(count))
  }

  /** The first `n` responses concatenated, stopping at the first failure. */
  function Gather<T>(fetch: nat -> Response<T>, n: nat): FetchOutcome<T>
  {
    if n == 0 then Gathered([])
    else
      match Gather(fetch, n - 1)
      case FailedAt(k) => FailedAt(k)
      case Gathered(items) =>
        match fetch(n - 1)
        case Page(data) => Gathered(items + data)
        case RequestFailed => FailedAt(n - 1)
  }

  /** Requests actually sent when the loop was meant to send `n`: the loop throws at the first failure. */
  function Issued<T>(outcome: FetchOutcome<T>, n: nat): nat
  {
    match outcome
    case Gathered(_) => n
    case FailedAt(k) => k + 1
  }

  predicate AllPagesOk<T>(fetch: nat -> Response<T>, n: nat)
  {
    forall i :: 0 <= i < n ==> fetch(i).Page?
  }

  function Repeat(url: string, n: nat): (r: seq<string>)
  {
    seq(n, _ => url)
  }

  lemma {:induction false} GatherSucceedsIff<T>(fetch: nat -> Response<T>, n: nat)
    ensures Gather(fetch, n).Gathered? <==> AllPagesOk(fetch, n)
  {
    if n > 0 {
      GatherSucceedsIff(fetch, n - 1);
    }
  }

  /** A failed gather names the first failed request: all earlier ones succeeded. */
  lemma {:induction false} GatherFirstFailure<T>(fetch: nat -> Response<T>, n: nat)
    ensures Gather(fetch, n).FailedAt? ==>
              var k := Gather(fetch, n).index;
              k < n && fetch(k).RequestFailed? && AllPagesOk(fetch, k)
  {
    if n > 0 {
      GatherFirstFailure(fetch, n - 1);
      GatherSucceedsIff(fetch, n - 1);
    }
  }

  /** Once a request has failed, issuing more would not change the outcome. */
  lemma {:induction false} GatherKeepsFailure<T>(fetch: nat -> Response<T>, k: nat, n: nat)
    requires k <= n && Gather(fetch, k).FailedAt?
    ensures Gather(fetch, n) == Gather(fetch, k)
    decreases n - k
  {
    if k < n {
      GatherKeepsFailure(fetch, k, n - 1);
    }
  }

  /** Every request succeeds with a full page: exactly `PAGE_SIZE * n` items. */
  lemma {:induction false} GatherFullPages<T>(fetch: nat -> Response<T>, n: nat)
    requires forall i :: 0 <= i < n ==> fetch(i).Page? && |fetch(i).data| == PAGE_SIZE
    ensures Gather(fetch, n).Gathered? && |Gather(fetch, n).items| == PAGE_SIZE * n
  {
    if n > 0 {
      GatherFullPages(fetch, n - 1);
    }
  }

  /** Whatever happens, no more than the planned number of requests is sent. */
  lemma IssuedRequests<T>(fetch: nat -> Response<T>, n: nat)
    ensures Issued(Gather(fetch, n), n) <= n
    ensures Gather(fetch, n).Gathered? ==> Issued(Gather(fetch, n), n) == n
  {
    GatherFirstFailure(fetch, n);
  }

  // ----- Truncating and renumbering -----

  /** `xs.slice(0, end)`: a negative `end` counts back from the end of `xs`. */
  function SliceTo<T>(xs: seq<T>, end: int): seq<T>
  {
    if end >= |xs| then xs
    else if end >= 0 then xs[..end]
    else if |xs| + end > 0 then xs[..|xs| + end]
    else []
  }

  /** `xs.map((x, index) => rewrite(x, base + index + 1))`. */
  function Renumber<T, U>(xs: seq<T>, base: nat, rewrite: (T, nat) -> U): seq<U>
  {
    seq(|xs|, i requires 0 <= i < |xs| => rewrite(xs[i], base + i + 1))
  }

  function Min(a: int, b: int): int
  {
    if a <= b then a else b
  }

  /**
   * One generator call whose counter read `base`: the records it returns, or
   * the `Failed to fetch <resource>` error.
   */
  function Synthesize<T, U>(base: nat, count: int, fetch: nat -> Response<T>,
                            rewrite: (T, nat) -> U, resource: string): Result<seq<U>, HttpError>
  {
    match Gather(fetch, PageRequests(count))
    case FailedAt(_) => Failure(HttpError(INTERNAL_SERVER_ERROR, "Failed to fetch " + resource))
    case Gathered(items) => Success(Renumber(SliceTo(items, count), base, rewrite))
  }

  /** A call fails exactly when one of its requests fails, and then with the fixed message. */
  lemma SynthesizeFailsIff<T, U>(base: nat, count: int, fetch: nat -> Response<T>,
                                 rewrite: (T, nat) -> U, resource: string)
    ensures Synthesize(base, count, fetch, rewrite, resource).Failure?
            <==> !AllPagesOk(fetch, PageRequests(count))
    ensures Synthesize(base, count, fetch, rewrite, resource).Failure? ==>
              Synthesize(base, count, fetch, rewrite, resource).error
              == HttpError(INTERNAL_SERVER_ERROR, "Failed to fetch " + resource)
  {
    GatherSucceedsIff(fetch, PageRequests(count));
  }

  /**
   * A successful call returns `min(count, fetched)` records (none when
   * `count <= 0`), and record `i` is template `i` rewritten with `base + i + 1`.
   */
  lemma SynthesizeShape<T, U>(base: nat, count: int, fetch: nat -> Response<T>,
                              rewrite: (T, nat) -> U, resource: string)
    requires Synthesize(base, count, fetch, rewrite, resource).Success?
    ensures var items := Gather(fetch, PageRequests(count)).items;
            var r := Synthesize(base, count, fetch, rewrite, resource).value;
            && |r| == (if count <= 0 then 0 else Min(count, |items|))
            && forall i :: 0 <= i < |r| ==> r[i] == rewrite(items[i], base + i + 1)
  {
  }

  /** With full pages the call returns exactly `count` records. */
  lemma SynthesizeFullPages<T, U>(base: nat, count: int, fetch: nat -> Response<T>,
                                  rewrite: (T, nat) -> U, resource: string)
    requires count > 0
    requires forall i :: 0 <= i < PageRequests(count) ==> fetch(i).Page? && |fetch(i).data| == PAGE_SIZE
    ensures Synthesize(base, count, fetch, rewrite, resource).Success?
    ensures |Synthesize(base, count, fetch, rewrite, resource).value| == count
  {
    GatherFullPages(fetch, PageRequests(count));
  }

  /**
   * Two successive calls for one entity against one counter store: the first
   * advances the row by what it returned, so the second rewrites its record
   * `j` with `base + |first| + j + 1`, right after the first call's numbers.
   */
  lemma SynthesizeSuccessive<T, U>(rows: map<string, nat>, entity: string,
                                   count1: int, fetch1: nat -> Response<T>,
                                   count2: int, fetch2: nat -> Response<T>,
                                   rewrite: (T, nat) -> U, resource: string)
    requires Synthesize(Counter.Lookup(rows, entity), count1, fetch1, rewrite, resource).Success?
    ensures var base := Counter.Lookup(rows, entity);
            var first := Synthesize(base, count1, fetch1, rewrite, resource).value;
            var items1 := Gather(fetch1, PageRequests(count1)).items;
            var second := Synthesize(Counter.Lookup(Counter.Upsert(rows, entity, |first|), entity),
                                     count2, fetch2, rewrite, resource);
            && |first| <= |items1|
            && (forall i :: 0 <= i < |first| ==> first[i] == rewrite(items1[i], base + i + 1))
            && (second.Success? ==>
                  var items2 := Gather(fetch2, PageRequests(count2)).items;
                  && |second.value| <= |items2|
                  && forall j :: 0 <= j < |second.value| ==> second.value[j] == rewrite(items2[j], base + |first| + j + 1))
  {
    var base := Counter.Lookup(rows, entity);
    var first := Synthesize(base, count1, fetch1, rewrite, resource).value;
    var base' := Counter.Lookup(Counter.Upsert(rows, entity, |first|), entity);
    assert base' == base + |first|;
    SynthesizeShape(base, count1, fetch1, rewrite, resource);
    if Synthesize(base', count2, fetch2, rewrite, resource).Success? {
      SynthesizeShape(base', count2, fetch2, rewrite, resource);
    }
  }

  // ----- Rewriting one template -----

  /** `${local}_${n}@${email.split('@')[1]}`, with the local part cut at the first `@`. */
  function RewriteEmail(email: string, n: nat): string
  {
    Suffixed(Before(email, '@'), n) + "@" + ElementOrUndefined(Split(email, '@'), 1)
  }

  /** The local part of a rewritten email is the suffixed local part of the template's. */
  lemma RewriteEmailLocalPart(email: string, n: nat)
    ensures Before(RewriteEmail(email, n), '@') == Suffixed(Before(email, '@'), n)
  {
    SuffixedAvoids(Before(email, '@'), n, '@');
    BeforeFirst(Suffixed(Before(email, '@'), n), '@', ElementOrUndefined(Split(email, '@'), 1));
  }

  /** Two rewritten emails that are equal carry the same suffix. */
  lemma RewriteEmailInjective(e1: string, m: nat, e2: string, n: nat)
    ensures RewriteEmail(e1, m) == RewriteEmail(e2, n) ==> m == n
  {
    RewriteEmailLocalPart(e1, m);
    RewriteEmailLocalPart(e2, n);
    SuffixedInjective(Before(e1, '@'), m, Before(e2, '@'), n);
  }

  /** An email with one `@` becomes `local_n@domain`. */
  lemma RewriteEmailOneAt(local: string, domain: string, n: nat)
    requires '@' !in local && '@' !in domain
    ensures RewriteEmail(local + "@" + domain, n) == Suffixed(local, n) + "@" + domain
  {
    SplitOneSeparator(local, '@', domain);
  }

  /** An email without `@` keeps all its text as the local part and gets the domain "undefined". */
  lemma RewriteEmailNoAt(email: string, n: nat)
    requires '@' !in email
    ensures RewriteEmail(email, n) == Suffixed(email, n) + "@undefined"
  {
  }

  // ----- Users -----

  datatype CompanyTemplate = CompanyTemplate(name: string, catchPhrase: string, bs: string)

  /** A user record as the sample source serves it. */
  datatype UserTemplate = UserTemplate(
    id: int,
    name: string,
    username: string,
    email: string,
    address: CreateAddressDto,
    phone: string,
    website: string,
    company: CompanyTemplate)

  /** The company of a generated user: the spread template company plus `catch_phrase`. */
  datatype GeneratedCompany = GeneratedCompany(name: string, catchPhrase: string, bs: string, catch_phrase: string)

  datatype GeneratedUser = GeneratedUser(
    id: nat,
    name: string,
    username: string,
    email: string,
    address: CreateAddressDto,
    phone: string,
    website: string,
    company: GeneratedCompany)

  /** The object spread `{...user, id, username, email, phone, website, company}` with suffix `n`. */
  function RewriteUser(user: UserTemplate, n: nat): GeneratedUser
  {
    GeneratedUser(
      id := n,
      name := user.name,
      username := Suffixed(user.username, n),
      email := RewriteEmail(user.email, n),
      address := user.address,
      phone := Suffixed(Before(user.phone, ' '), n),
      website := Suffixed(Before(user.website, '.'), n),
      company := GeneratedCompany(
        name := Suffixed(user.company.name, n),
        catchPhrase := user.company.catchPhrase,
        bs := Suffixed(user.company.bs, n),
        catch_phrase := Suffixed(user.company.catchPhrase, n)))
  }

  /** The `CreateUserDto` a generated user is declared as. */
  function AsCreateUserDto(user: GeneratedUser): CreateUserDto
  {
    CreateUserDto(user.name, user.username, user.email, user.phone, user.website, user.address,
                  CreateCompanyDto(user.company.name, user.company.catch_phrase, user.company.bs))
  }

  function GeneratedUsers(base: nat, count: int, fetch: nat -> Response<UserTemplate>): Result<seq<GeneratedUser>, HttpError>
  {
    Synthesize(base, count, fetch, RewriteUser, "users")
  }

  /**
   * A template shaped as the sample source serves it (one `@` in the email,
   * a space in the phone, a dot in the website) is rewritten field by field:
   * username, email local part, phone head, website head and the company's
   * name, bs and catch phrase get the suffix; name, address and the template's
   * own `catchPhrase` are copied.
   */
  lemma RewriteUserFields(user: UserTemplate, n: nat, local: string, domain: string,
                          phoneHead: string, phoneRest: string, site: string, siteRest: string)
    requires user.email == local + "@" + domain && '@' !in local && '@' !in domain
    requires user.phone == phoneHead + " " + phoneRest && ' ' !in phoneHead
    requires user.website == site + "." + siteRest && '.' !in site
    ensures RewriteUser(user, n) == GeneratedUser(
              n, user.name, Suffixed(user.username, n), Suffixed(local, n) + "@" + domain,
              user.address, Suffixed(phoneHead, n), Suffixed(site, n),
              GeneratedCompany(Suffixed(user.company.name, n), user.company.catchPhrase,
                               Suffixed(user.company.bs, n), Suffixed(user.company.catchPhrase, n)))
  {
    RewriteEmailOneAt(local, domain, n);
    BeforeFirst(phoneHead, ' ', phoneRest);
    BeforeFirst(site, '.', siteRest);
  }

  /** Two users rewritten with different suffixes differ in every field that is made unique. */
  lemma RewrittenUsersDiffer(u1: UserTemplate, m: nat, u2: UserTemplate, n: nat)
    requires m != n
    ensures var g1, g2 := RewriteUser(u1, m), RewriteUser(u2, n);
            && g1.id != g2.id
            && g1.username != g2.username
            && g1.email != g2.email
            && g1.phone != g2.phone
            && g1.website != g2.website
            && g1.company.name != g2.company.name
            && g1.company.bs != g2.company.bs
            && g1.company.catch_phrase != g2.company.catch_phrase
  {
    SuffixedInjective(u1.username, m, u2.username, n);
    RewriteEmailInjective(u1.email, m, u2.email, n);
    SuffixedInjective(Before(u1.phone, ' '), m, Before(u2.phone, ' '), n);
    SuffixedInjective(Before(u1.website, '.'), m, Before(u2.website, '.'), n);
    SuffixedInjective(u1.company.name, m, u2.company.name, n);
    SuffixedInjective(u1.company.bs, m, u2.company.bs, n);
    SuffixedInjective(u1.company.catchPhrase, m, u2.company.catchPhrase, n);
  }

  /** The number every uniquified field of a user carries, read back from its text. */
  predicate CarriesNumber(g: GeneratedUser, n: nat)
  {
    && g.id == n
    && SuffixNumber(g.username) == n
    && SuffixNumber(Before(g.email, '@')) == n
    && SuffixNumber(g.phone) == n
    && SuffixNumber(g.website) == n
  }

  /** A user rewritten with `n` carries `n` in its id, username, email local part, phone and website. */
  lemma RewriteUserNumbered(user: UserTemplate, n: nat)
    ensures CarriesNumber(RewriteUser(user, n), n)
  {
    var g := RewriteUser(user, n);
    SuffixNumberOfSuffixed(user.username, n);
    RewriteEmailLocalPart(user.email, n);
    SuffixNumberOfSuffixed(Before(user.email, '@'), n);
    SuffixNumberOfSuffixed(Before(user.phone, ' '), n);
    SuffixNumberOfSuffixed(Before(user.website, '.'), n);
  }

  /** Users carrying the numbers `base + 1, base + 2, ...` in order share no uniquified field. */
  lemma NumberedUsersDistinct(r: seq<GeneratedUser>, base: nat)
    requires forall i :: 0 <= i < |r| ==> CarriesNumber(r[i], base + i + 1)
    ensures forall i, j :: 0 <= i < j < |r| ==>
              && r[i].id < r[j].id
              && r[i].username != r[j].username
              && r[i].email != r[j].email
              && r[i].phone != r[j].phone
              && r[i].website != r[j].website
  {
    forall i, j | 0 <= i < j < |r|
      ensures && r[i].id < r[j].id
              && r[i].username != r[j].username
              && r[i].email != r[j].email
              && r[i].phone != r[j].phone
              && r[i].website != r[j].website
    {
      assert CarriesNumber(r[i], base + i + 1) && CarriesNumber(r[j], base + j + 1);
    }
  }

  /** Users rewritten in order from `base + 1` on are numbered in order and pairwise distinct. */
  lemma RenumberedUsersDistinct(r: seq<GeneratedUser>, items: seq<UserTemplate>, base: nat)
    requires |r| <= |items|
    requires forall i :: 0 <= i < |r| ==> r[i] == RewriteUser(items[i], base + i + 1)
    ensures forall i, j :: 0 <= i < j < |r| ==>
              && r[i].id < r[j].id
              && r[i].username != r[j].username
              && r[i].email != r[j].email
              && r[i].phone != r[j].phone
              && r[i].website != r[j].website
  {
    forall i | 0 <= i < |r|
      ensures CarriesNumber(r[i], base + i + 1)
    {
      RewriteUserNumbered(items[i], base + i + 1);
    }
    NumberedUsersDistinct(r, base);
  }

  /**
   * The users of one call are numbered `base + 1, base + 2, ...` in order,
   * and no two of them share a username, email, phone or website.
   */
  lemma GeneratedUsersUnique(base: nat, count: int, fetch: nat -> Response<UserTemplate>)
    requires GeneratedUsers(base, count, fetch).Success?
    ensures var r := GeneratedUsers(base, count, fetch).value;
            && (forall i :: 0 <= i < |r| ==> r[i].id == base + i + 1)
            && (forall i, j :: 0 <= i < j < |r| ==>
                  && r[i].id < r[j].id
                  && r[i].username != r[j].username
                  && r[i].email != r[j].email
                  && r[i].phone != r[j].phone
                  && r[i].website != r[j].website)
  {
    var r := GeneratedUsers(base, count, fetch).value;
    var items := Gather(fetch, PageRequests(count)).items;
    SynthesizeShape(base, count, fetch, RewriteUser, "users");
    RenumberedUsersDistinct(r, items, base);
  }

  /** A template with a name and a valid address yields a valid `CreateUserDto`. */
  lemma GeneratedUserIsValid(user: UserTemplate, n: nat)
    requires NonEmpty(user.name) && ValidAddress(user.address)
    ensures ValidUser(AsCreateUserDto(RewriteUser(user, n)))
  {
  }

  /** Users carrying numbers in two ranges, the first below the second, share no id, username or email. */
  lemma NumberedUsersApart(first: seq<GeneratedUser>, second: seq<GeneratedUser>, base1: nat, base2: nat)
    requires base1 + |first| <= base2
    requires forall i :: 0 <= i < |first| ==> CarriesNumber(first[i], base1 + i + 1)
    requires forall j :: 0 <= j < |second| ==> CarriesNumber(second[j], base2 + j + 1)
    ensures forall i, j :: 0 <= i < |first| && 0 <= j < |second| ==>
              && first[i].id < second[j].id
              && first[i].username != second[j].username
              && first[i].email != second[j].email
  {
    forall i, j | 0 <= i < |first| && 0 <= j < |second|
      ensures && first[i].id < second[j].id
              && first[i].username != second[j].username
              && first[i].email != second[j].email
    {
      assert CarriesNumber(first[i], base1 + i + 1) && CarriesNumber(second[j], base2 + j + 1);
    }
  }

  /**
   * Users of two calls whose number ranges do not overlap (the first call's
   * numbers all lie below `base2 + 1`) share no id, username or email.
   */
  lemma GeneratedUsersApart(base1: nat, count1: int, fetch1: nat -> Response<UserTemplate>,
                            base2: nat, count2: int, fetch2: nat -> Response<UserTemplate>)
    requires GeneratedUsers(base1, count1, fetch1).Success?
    requires GeneratedUsers(base2, count2, fetch2).Success?
    requires base1 + |GeneratedUsers(base1, count1, fetch1).value| <= base2
    ensures var first, second := GeneratedUsers(base1, count1, fetch1).value, GeneratedUsers(base2, count2, fetch2).value;
            forall i, j :: 0 <= i < |first| && 0 <= j < |second| ==>
              && first[i].id < second[j].id
              && first[i].username != second[j].username
              && first[i].email != second[j].email
  {
    var first, second := GeneratedUsers(base1, count1, fetch1).value, GeneratedUsers(base2, count2, fetch2).value;
    var items1 := Gather(fetch1, PageRequests(count1)).items;
    var items2 := Gather(fetch2, PageRequests(count2)).items;
    SynthesizeShape(base1, count1, fetch1, RewriteUser, "users");
    SynthesizeShape(base2, count2, fetch2, RewriteUser, "users");
    forall i | 0 <= i < |first|
      ensures CarriesNumber(first[i], base1 + i + 1)
    {
      RewriteUserNumbered(items1[i], base1 + i + 1);
    }
    forall j | 0 <= j < |second|
      ensures CarriesNumber(second[j], base2 + j + 1)
    {
      RewriteUserNumbered(items2[j], base2 + j + 1);
    }
    NumberedUsersApart(first, second, base1, base2);
  }

  /**
   * Two successive user generations against one counter store: the first
   * advances the `User` row by what it returned, so the second numbers its
   * users after all of the first call's, and no username or email repeats.
   */
  lemma SuccessiveUserCallsDisjoint(rows: map<string, nat>,
                                    count1: int, fetch1: nat -> Response<UserTemplate>,
                                    count2: int, fetch2: nat -> Response<UserTemplate>)
    requires GeneratedUsers(Counter.Lookup(rows, "User"), count1, fetch1).Success?
    ensures var first := GeneratedUsers(Counter.Lookup(rows, "User"), count1, fetch1).value;
            var rows' := Counter.Upsert(rows, "User", |first|);
            var second := GeneratedUsers(Counter.Lookup(rows', "User"), count2, fetch2);
            second.Success? ==>
              forall i, j :: 0 <= i < |first| && 0 <= j < |second.value| ==>
                && first[i].id < second.value[j].id
                && first[i].username != second.value[j].username
                && first[i].email != second.value[j].email
  {
    var base := Counter.Lookup(rows, "User");
    var first := GeneratedUsers(base, count1, fetch1).value;
    var base' := Counter.Lookup(Counter.Upsert(rows, "User", |first|), "User");
    assert base' == base + |first|;
    if GeneratedUsers(base', count2, fetch2).Success? {
      GeneratedUsersApart(base, count1, fetch1, base', count2, fetch2);
    }
  }

  // ----- Posts -----

  /** A post record as the sample source serves it. */
  datatype PostTemplate = PostTemplate(userId: int, id: int, title: string, body: string)

  /** A generated post: only the suffixed title and body are kept. */
  datatype GeneratedPost = GeneratedPost(title: string, body: string)

  function RewritePost(post: PostTemplate, n: nat): GeneratedPost
  {
    GeneratedPost(Suffixed(post.title, n), Suffixed(post.body, n))
  }

  function GeneratedPosts(base: nat, count: int, fetch: nat -> Response<PostTemplate>): Result<seq<GeneratedPost>, HttpError>
  {
    Synthesize(base, count, fetch, RewritePost, "posts")
  }

  /**
   * Post `i` of a call is template `i`'s title and body with suffix
   * `base + i + 1`; titles and bodies are never empty and never repeat.
   */
  lemma GeneratedPostsUnique(base: nat, count: int, fetch: nat -> Response<PostTemplate>)
    requires GeneratedPosts(base, count, fetch).Success?
    ensures var items := Gather(fetch, PageRequests(count)).items;
            var r := GeneratedPosts(base, count, fetch).value;
            && (forall i :: 0 <= i < |r| ==>
                  && r[i].title == Suffixed(items[i].title, base + i + 1)
                  && r[i].body == Suffixed(items[i].body, base + i + 1)
                  && NonEmpty(r[i].title) && NonEmpty(r[i].body))
            && (forall i, j :: 0 <= i < j < |r| ==> r[i].title != r[j].title && r[i].body != r[j].body)
  {
    var r := GeneratedPosts(base, count, fetch).value;
    var items := Gather(fetch, PageRequests(count)).items;
    SynthesizeShape(base, count, fetch, RewritePost, "posts");
    GeneratedPostsNumbered(base, count, fetch);
    forall i, j | 0 <= i < j < |r|
      ensures r[i].title != r[j].title && r[i].body != r[j].body
    {
      assert PostCarries(r[i], base + i + 1) && PostCarries(r[j], base + j + 1);
    }
  }

  /** The number both fields of a generated post carry, read back from their text. */
  predicate PostCarries(p: GeneratedPost, n: nat)
  {
    SuffixNumber(p.title) == n && SuffixNumber(p.body) == n
  }

  lemma RewritePostNumbered(post: PostTemplate, n: nat)
    ensures PostCarries(RewritePost(post, n), n)
  {
    SuffixNumberOfSuffixed(post.title, n);
    SuffixNumberOfSuffixed(post.body, n);
  }

  /** Posts carrying numbers in two ranges, the first below the second, share no title and no body. */
  lemma NumberedPostsApart(first: seq<GeneratedPost>, second: seq<GeneratedPost>, base1: nat, base2: nat)
    requires base1 + |first| <= base2
    requires forall i :: 0 <= i < |first| ==> PostCarries(first[i], base1 + i + 1)
    requires forall j :: 0 <= j < |second| ==> PostCarries(second[j], base2 + j + 1)
    ensures forall i, j :: 0 <= i < |first| && 0 <= j < |second| ==>
              first[i].title != second[j].title && first[i].body != second[j].body
  {
    forall i, j | 0 <= i < |first| && 0 <= j < |second|
      ensures first[i].title != second[j].title && first[i].body != second[j].body
    {
      assert PostCarries(first[i], base1 + i + 1) && PostCarries(second[j], base2 + j + 1);
    }
  }

  /** Every post of one call carries its number `base + i + 1` in each identifying field. */
  lemma GeneratedPostsNumbered(base: nat, count: int, fetch: nat -> Response<PostTemplate>)
    requires GeneratedPosts(base, count, fetch).Success?
    ensures var r := GeneratedPosts(base, count, fetch).value;
            forall i :: 0 <= i < |r| ==> PostCarries(r[i], base + i + 1)
  {
    var r := GeneratedPosts(base, count, fetch).value;
    var items := Gather(fetch, PageRequests(count)).items;
    SynthesizeShape(base, count, fetch, RewritePost, "posts");
    forall i | 0 <= i < |r|
      ensures PostCarries(r[i], base + i + 1)
    {
      RewritePostNumbered(items[i], base + i + 1);
    }
  }

  /** Posts of two calls whose number ranges do not overlap share no title and no body. */
  lemma GeneratedPostsApart(base1: nat, count1: int, fetch1: nat -> Response<PostTemplate>,
                            base2: nat, count2: int, fetch2: nat -> Response<PostTemplate>)
    requires GeneratedPosts(base1, count1, fetch1).Success?
    requires GeneratedPosts(base2, count2, fetch2).Success?
    requires base1 + |GeneratedPosts(base1, count1, fetch1).value| <= base2
    ensures var first, second := GeneratedPosts(base1, count1, fetch1).value, GeneratedPosts(base2, count2, fetch2).value;
            forall i, j :: 0 <= i < |first| && 0 <= j < |second| ==>
              first[i].title != second[j].title && first[i].body != second[j].body
  {
    GeneratedPostsNumbered(base1, count1, fetch1);
    GeneratedPostsNumbered(base2, count2, fetch2);
    NumberedPostsApart(GeneratedPosts(base1, count1, fetch1).value, GeneratedPosts(base2, count2, fetch2).value, base1, base2);
  }

  /** Two successive post generations against one counter store repeat no title and no body. */
  lemma SuccessivePostCallsDisjoint(rows: map<string, nat>,
                                    count1: int, fetch1: nat -> Response<PostTemplate>,
                                    count2: int, fetch2: nat -> Response<PostTemplate>)
    requires GeneratedPosts(Counter.Lookup(rows, "Post"), count1, fetch1).Success?
    ensures var first := GeneratedPosts(Counter.Lookup(rows, "Post"), count1, fetch1).value;
            var second := GeneratedPosts(Counter.Lookup(Counter.Upsert(rows, "Post", |first|), "Post"), count2, fetch2);
            second.Success? ==>
              forall i, j :: 0 <= i < |first| && 0 <= j < |second.value| ==>
                first[i].title != second.value[j].title && first[i].body != second.value[j].body
  {
    var base := Counter.Lookup(rows, "Post");
    var first := GeneratedPosts(base, count1, fetch1).value;
    var base' := Counter.Lookup(Counter.Upsert(rows, "Post", |first|), "Post");
    assert base' == base + |first|;
    if GeneratedPosts(base', count2, fetch2).Success? {
      GeneratedPostsApart(base, count1, fetch1, base', count2, fetch2);
    }
  }

  // ----- Comments -----

  /** A comment record as the sample source serves it. */
  datatype CommentTemplate = CommentTemplate(postId: int, id: int, name: string, email: string, body: string)

  /** A generated comment: only the suffixed name, email and body are kept. */
  datatype GeneratedComment = GeneratedComment(name: string, email: string, body: string)

  function RewriteComment(comment: CommentTemplate, n: nat): GeneratedComment
  {
    GeneratedComment(Suffixed(comment.name, n), RewriteEmail(comment.email, n), Suffixed(comment.body, n))
  }

  function GeneratedComments(base: nat, count: int, fetch: nat -> Response<CommentTemplate>): Result<seq<GeneratedComment>, HttpError>
  {
    Synthesize(base, count, fetch, RewriteComment, "comments")
  }

  /** A comment whose email has one `@` is `name_n`, `local_n@domain`, `body_n`. */
  lemma RewriteCommentFields(comment: CommentTemplate, n: nat, local: string, domain: string)
    requires comment.email == local + "@" + domain && '@' !in local && '@' !in domain
    ensures RewriteComment(comment, n)
            == GeneratedComment(Suffixed(comment.name, n), Suffixed(local, n) + "@" + domain, Suffixed(comment.body, n))
  {
    RewriteEmailOneAt(local, domain, n);
  }

  /** The comments of one call never repeat a name, an email or a body. */
  lemma GeneratedCommentsUnique(base: nat, count: int, fetch: nat -> Response<CommentTemplate>)
    requires GeneratedComments(base, count, fetch).Success?
    ensures var r := GeneratedComments(base, count, fetch).value;
            forall i, j :: 0 <= i < j < |r| ==>
              r[i].name != r[j].name && r[i].email != r[j].email && r[i].body != r[j].body
  {
    var r := GeneratedComments(base, count, fetch).value;
    var items := Gather(fetch, PageRequests(count)).items;
    SynthesizeShape(base, count, fetch, RewriteComment, "comments");
    forall i, j | 0 <= i < j < |r|
      ensures r[i].name != r[j].name && r[i].email != r[j].email && r[i].body != r[j].body
    {
      SuffixedInjective(items[i].name, base + i + 1, items[j].name, base + j + 1);
      RewriteEmailInjective(items[i].email, base + i + 1, items[j].email, base + j + 1);
      SuffixedInjective(items[i].body, base + i + 1, items[j].body, base + j + 1);
    }
  }

  /** The number every field of a generated comment carries, read back from its text. */
  predicate CommentCarries(c: GeneratedComment, n: nat)
  {
    SuffixNumber(c.name) == n && SuffixNumber(Before(c.email, '@')) == n && SuffixNumber(c.body) == n
  }

  lemma RewriteCommentNumbered(comment: CommentTemplate, n: nat)
    ensures CommentCarries(RewriteComment(comment, n), n)
  {
    SuffixNumberOfSuffixed(comment.name, n);
    RewriteEmailLocalPart(comment.email, n);
    SuffixNumberOfSuffixed(Before(comment.email, '@'), n);
    SuffixNumberOfSuffixed(comment.body, n);
  }

  /** Comments carrying numbers in two ranges, the first below the second, share no name, email or body. */
  lemma NumberedCommentsApart(first: seq<GeneratedComment>, second: seq<GeneratedComment>, base1: nat, base2: nat)
    requires base1 + |first| <= base2
    requires forall i :: 0 <= i < |first| ==> CommentCarries(first[i], base1 + i + 1)
    requires forall j :: 0 <= j < |second| ==> CommentCarries(second[j], base2 + j + 1)
    ensures forall i, j :: 0 <= i < |first| && 0 <= j < |second| ==>
              first[i].name != second[j].name && first[i].email != second[j].email && first[i].body != second[j].body
  {
    forall i, j | 0 <= i < |first| && 0 <= j < |second|
      ensures first[i].name != second[j].name && first[i].email != second[j].email && first[i].body != second[j].body
    {
      assert CommentCarries(first[i], base1 + i + 1) && CommentCarries(second[j], base2 + j + 1);
    }
  }

  /** Every comment of one call carries its number `base + i + 1` in each identifying field. */
  lemma GeneratedCommentsNumbered(base: nat, count: int, fetch: nat -> Response<CommentTemplate>)
    requires GeneratedComments(base, count, fetch).Success?
    ensures var r := GeneratedComments(base, count, fetch).value;
            forall i :: 0 <= i < |r| ==> CommentCarries(r[i], base + i + 1)
  {
    var r := GeneratedComments(base, count, fetch).value;
    var items := Gather(fetch, PageRequests(count)).items;
    SynthesizeShape(base, count, fetch, RewriteComment, "comments");
    forall i | 0 <= i < |r|
      ensures CommentCarries(r[i], base + i + 1)
    {
      RewriteCommentNumbered(items[i], base + i + 1);
    }
  }

  /** Comments of two calls whose number ranges do not overlap share no name, email or body. */
  lemma GeneratedCommentsApart(base1: nat, count1: int, fetch1: nat -> Response<CommentTemplate>,
                               base2: nat, count2: int, fetch2: nat -> Response<CommentTemplate>)
    requires GeneratedComments(base1, count1, fetch1).Success?
    requires GeneratedComments(base2, count2, fetch2).Success?
    requires base1 + |GeneratedComments(base1, count1, fetch1).value| <= base2
    ensures var first, second := GeneratedComments(base1, count1, fetch1).value, GeneratedComments(base2, count2, fetch2).value;
            forall i, j :: 0 <= i < |first| && 0 <= j < |second| ==>
              first[i].name != second[j].name && first[i].email != second[j].email && first[i].body != second[j].body
  {
    GeneratedCommentsNumbered(base1, count1, fetch1);
    GeneratedCommentsNumbered(base2, count2, fetch2);
    NumberedCommentsApart(GeneratedComments(base1, count1, fetch1).value, GeneratedComments(base2, count2, fetch2).value, base1, base2);
  }

  /** Two successive comment generations against one counter store repeat no name, email or body. */
  lemma SuccessiveCommentCallsDisjoint(rows: map<string, nat>,
                                    count1: int, fetch1: nat -> Response<CommentTemplate>,
                                    count2: int, fetch2: nat -> Response<CommentTemplate>)
    requires GeneratedComments(Counter.Lookup(rows, "Comment"), count1, fetch1).Success?
    ensures var first := GeneratedComments(Counter.Lookup(rows, "Comment"), count1, fetch1).value;
            var second := GeneratedComments(Counter.Lookup(Counter.Upsert(rows, "Comment", |first|), "Comment"), count2, fetch2);
            second.Success? ==>
              forall i, j :: 0 <= i < |first| && 0 <= j < |second.value| ==>
                first[i].name != second.value[j].name && first[i].email != second.value[j].email && first[i].body != second.value[j].body
  {
    var base := Counter.Lookup(rows, "Comment");
    var first := GeneratedComments(base, count1, fetch1).value;
    var base' := Counter.Lookup(Counter.Upsert(rows, "Comment", |first|), "Comment");
    assert base' == base + |first|;
    if GeneratedComments(base', count2, fetch2).Success? {
      GeneratedCommentsApart(base, count1, fetch1, base', count2, fetch2);
    }
  }

  // ----- The service -----

  class FactoryService {
    const counter: Counter.CounterService
    const baseUrl: string
    /** The URLs of the GET requests sent to the sample source, oldest first. */
    var requestLog: seq<string>

    constructor(counter: Counter.CounterService, baseUrl: string)
      ensures this.counter == counter && this.baseUrl == baseUrl && requestLog == []
    {
      this.counter := counter;
      this.baseUrl := baseUrl;
      requestLog := [];
    }

    /** The `for` loop that concatenates the pages, throwing at the first failed request. */
    method FetchPages<T>(url: string, fetchCount: int, fetch: nat -> Response<T>) returns (outcome: FetchOutcome<T>)
      modifies this
      ensures outcome == Gather(fetch, Clamp0(fetchCount))
      ensures requestLog == old(requestLog) + Repeat(url, Issued(outcome, Clamp0(fetchCount)))
    {
      var items: seq<T> := [];
      var i := 0;
      while i < fetchCount
        invariant 0 <= i <= Clamp0(fetchCount)
        invariant Gather(fetch, i) == Gathered(items)
        invariant requestLog == old(requestLog) + Repeat(url, i)
      {
        requestLog := requestLog + [url];
        var response := fetch(i);
        if response.RequestFailed? {
          GatherKeepsFailure(fetch, i + 1, Clamp0(fetchCount));
          assert Repeat(url, i) + [url] == Repeat(url, i + 1);
          return FailedAt(i);
        }
        items := items + response.data;
        assert Repeat(url, i) + [url] == Repeat(url, i + 1);
        i := i + 1;
      }
      outcome := Gathered(items);
    }

    /** The body shared by the three generators. */
    method Generate<T, U>(entity: string, resource: string, fetch: nat -> Response<T>, count: int,
                          rewrite: (T, nat) -> U)
      returns (r: Result<seq<U>, HttpError>)
      modifies this, counter
      ensures r == Synthesize(old(Counter.Lookup(counter.rows, entity)), count, fetch, rewrite, resource)
      ensures counter.rows == if r.Success? then Counter.Upsert(old(counter.rows), entity, |r.value|)
                              else old(counter.rows)
      ensures requestLog == old(requestLog)
                            + Repeat(baseUrl + "/" + resource, Issued(Gather(fetch, PageRequests(count)), PageRequests(count)))
    {
      var fetchCount := Ceil10(count);
      var currentCount := counter.GetCurrentCount(entity);
      var outcome := FetchPages(baseUrl + "/" + resource, fetchCount, fetch);
      match outcome {
        case FailedAt(_) =>
          r := Failure(HttpError(INTERNAL_SERVER_ERROR, "Failed to fetch " + resource));
        case Gathered(items) =>
          var unique := Renumber(SliceTo(items, count), currentCount, rewrite);
          counter.IncrementCount(entity, |unique|);
          r := Success(unique);
      }
    }

    method GenerateUsers(fetch: nat -> Response<UserTemplate>, count: int := 500)
      returns (r: Result<seq<GeneratedUser>, HttpError>)
      modifies this, counter
      ensures r == GeneratedUsers(old(Counter.Lookup(counter.rows, "User")), count, fetch)
      ensures counter.rows == if r.Success? then Counter.Upsert(old(counter.rows), "User", |r.value|)
                              else old(counter.rows)
      ensures requestLog == old(requestLog)
                            + Repeat(baseUrl + "/users", Issued(Gather(fetch, PageRequests(count)), PageRequests(count)))
    {
      assert baseUrl + "/" + "users" == baseUrl + "/users";
      r := Generate("User", "users", fetch, count, RewriteUser);
    }

    method GeneratePosts(fetch: nat -> Response<PostTemplate>, count: int := 500)
      returns (r: Result<seq<GeneratedPost>, HttpError>)
      modifies this, counter
      ensures r == GeneratedPosts(old(Counter.Lookup(counter.rows, "Post")), count, fetch)
      ensures counter.rows == if r.Success? then Counter.Upsert(old(counter.rows), "Post", |r.value|)
                              else old(counter.rows)
      ensures requestLog == old(requestLog)
                            + Repeat(baseUrl + "/posts", Issued(Gather(fetch, PageRequests(count)), PageRequests(count)))
    {
      assert baseUrl + "/" + "posts" == baseUrl + "/posts";
      r := Generate("Post", "posts", fetch, count, RewritePost);
    }

    method GenerateComments(fetch: nat -> Response<CommentTemplate>, count: int := 500)
      returns (r: Result<seq<GeneratedComment>, HttpError>)
      modifies this, counter
      ensures r == GeneratedComments(old(Counter.Lookup(counter.rows, "Comment")), count, fetch)
      ensures counter.rows == if r.Success? then Counter.Upsert(old(counter.rows), "Comment", |r.value|)
                              else old(counter.rows)
      ensures requestLog == old(requestLog)
                            + Repeat(baseUrl + "/comments", Issued(Gather(fetch, PageRequests(count)), PageRequests(count)))
    {
      assert baseUrl + "/" + "comments" == baseUrl + "/comments";
      r := Generate("Comment", "comments", fetch, count, RewriteComment);
    }
  }
}
