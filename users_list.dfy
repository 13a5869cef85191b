/**
 * The admin API's user listing: the query-string form of its filter
 * parameters (used to build pagination links), the mapping of those
 * parameters to a storage filter, and the HTTP status of its errors.
 */
module AdminUsersList {
  import opened Results
  import opened Text

  datatype UserStatus = Active | Locked

  /** `Display for UserStatus`. */
  function StatusText(s: UserStatus): string
  {
    match s
    case Active => "active"
    case Locked => "locked"
  }

  /** Deserialising a status (`rename_all = "snake_case"`). */
  function ParseStatus(s: string): Option<UserStatus>
  {
    match s
    case "active" => Some(Active)
    case "locked" => Some(Locked)
    case _ => None
  }

  /** The displayed status is the serde name: it parses back to the same status. */
  lemma StatusRoundTrip(s: UserStatus)
    ensures ParseStatus(StatusText(s)) == Some(s)
  {
  }

  function BoolText(b: bool): string
  {
    if b then "true" else "false"
  }

  function ParseBool(s: string): Option<bool>
  {
    match s
    case "true" => Some(true)
    case "false" => Some(false)
    case _ => None
  }

  /** The query parameters `filter[admin]` and `filter[status]`. */
  datatype FilterParams = FilterParams(admin: Option<bool>, status: Option<UserStatus>)

  const AdminKey: string := "filter[admin]="
  const StatusKey: string := "filter[status]="

  /** The `key=value` pairs of the filters that are present, `filter[admin]` first. */
  function QueryPairs(p: FilterParams): seq<string>
  {
    (if p.admin.Some? then [AdminKey + BoolText(p.admin.value)] else [])
    + (if p.status.Some? then [StatusKey + StatusText(p.status.value)] else [])
  }

  /** A query string: nothing when there are no pairs, otherwise `?` and the pairs joined by `&`. */
  function QueryString(pairs: seq<string>): string
  {
    if pairs == [] then "" else "?" + Join(pairs, "&")
  }

  /** The query string of the parameters, written as each present filter prefixed by its separator. */
  lemma QueryStringPieces(p: FilterParams)
    ensures QueryString(QueryPairs(p)) ==
      (if p.admin.Some? then "?" + AdminKey + BoolText(p.admin.value) else "")
      + (if p.status.Some? then (if p.admin.Some? then "&" else "?") + StatusKey + StatusText(p.status.value) else "")
  {
    var pairs := QueryPairs(p);
    if p.admin.Some? && p.status.Some? {
      assert pairs == [AdminKey + BoolText(p.admin.value), StatusKey + StatusText(p.status.value)];
      assert Join(pairs, "&") == pairs[0] + "&" + Join(pairs[1..], "&");
    } else if p.admin.Some? {
      assert pairs == [AdminKey + BoolText(p.admin.value)];
    } else if p.status.Some? {
      assert pairs == [StatusKey + StatusText(p.status.value)];
    }
  }

  /**
   * `Display for FilterParams`: writes each present filter prefixed by the
   * current separator, which starts as `?` and becomes `&` after the first.
   */
  method Display(p: FilterParams) returns (s: string)
    ensures s == QueryString(QueryPairs(p))
    ensures s == "" <==> p.admin.None? && p.status.None?
  {
    var sep := '?';
    s := "";
    if p.admin.Some? {
      s := s + [sep] + AdminKey + BoolText(p.admin.value);
      sep := '&';
    }
    if p.status.Some? {
      s := s + [sep] + StatusKey + StatusText(p.status.value);
      sep := '&';
    }
    QueryStringPieces(p);
  }

  datatype RouteError = Internal | InvalidFilter

  /** Reads one `key=value` pair into the parameters read so far; other keys are ignored. */
  function ParsePair(pair: string, acc: FilterParams): Result<FilterParams, RouteError>
  {
    if StartsWith(pair, AdminKey) then
      match ParseBool(pair[|AdminKey|..])
      case None => Err(InvalidFilter)
      case Some(b) => if acc.admin.Some? then Err(InvalidFilter) else Ok(acc.(admin := Some(b)))
    else if StartsWith(pair, StatusKey) then
      match ParseStatus(pair[|StatusKey|..])
      case None => Err(InvalidFilter)
      case Some(st) => if acc.status.Some? then Err(InvalidFilter) else Ok(acc.(status := Some(st)))
    else Ok(acc)
  }

  function ParsePairs(pairs: seq<string>, acc: FilterParams): Result<FilterParams, RouteError>
  {
    if pairs == [] then Ok(acc)
    else
      match ParsePair(pairs[0], acc)
      case Err(e) => Err(e)
      case Ok(next) => ParsePairs(pairs[1..], next)
  }

  /**
   * The `Query<FilterParams>` extraction of a query string: a malformed or
   * repeated filter is an `InvalidFilter` rejection.
   */
  function ParseQuery(q: string): Result<FilterParams, RouteError>
  {
    if q == "" then Ok(FilterParams(None, None))
    else if q[0] != '?' then Err(InvalidFilter)
    else ParsePairs(Split(q[1..], '&'), FilterParams(None, None))
  }

  /**
   * The query string written for pagination links is read back as the same
   * filter parameters, so every page of a listing applies the same filter.
   */
  lemma PaginationQueryRoundTrip(p: FilterParams)
    ensures ParseQuery(QueryString(QueryPairs(p))) == Ok(p)
  {
    var pairs := QueryPairs(p);
    if pairs != [] {
      var q := QueryString(pairs);
      assert q[1..] == Join(pairs, "&");
      forall i | 0 <= i < |pairs| ensures '&' !in pairs[i] {
        if p.admin.Some? && i == 0 {
          assert pairs[i] == AdminKey + BoolText(p.admin.value);
        } else {
          assert pairs[i] == StatusKey + StatusText(p.status.value);
        }
      }
      SplitJoin(pairs, '&');
      var empty := FilterParams(None, None);
      assert q != "" && q[0] == '?';
      assert ParseQuery(q) == ParsePairs(pairs, empty);
      if p.admin.Some? {
        var a := AdminKey + BoolText(p.admin.value);
        assert a[..|AdminKey|] == AdminKey && a[|AdminKey|..] == BoolText(p.admin.value);
        assert ParsePair(a, empty) == Ok(empty.(admin := p.admin));
        assert ParsePairs(pairs, empty) == ParsePairs(pairs[1..], empty.(admin := p.admin));
      }
      if p.status.Some? {
        var st := StatusKey + StatusText(p.status.value);
        assert st[..|StatusKey|] == StatusKey && st[|StatusKey|..] == StatusText(p.status.value);
        assert !StartsWith(st, AdminKey) by {
          assert st[7] != AdminKey[7];
        }
        StatusRoundTrip(p.status.value);
        assert ParsePair(st, empty.(admin := p.admin)) == Ok(p);
        assert ParsePairs([st], empty.(admin := p.admin)) == Ok(p);
        if p.admin.None? {
          assert pairs == [st];
        }
      }
      if p.admin.Some? && p.status.Some? {
        var a := AdminKey + BoolText(p.admin.value);
        var st := StatusKey + StatusText(p.status.value);
        assert pairs == [a, st];
        assert ParsePairs([st], empty.(admin := p.admin)) == Ok(p);
        assert ParsePairs(pairs, empty) == ParsePairs(pairs[1..], empty.(admin := p.admin));
        assert pairs[1..] == [st];
      }
    }
  }

  /** The storage filter over users, as far as this listing sets it. */
  datatype UserState = StateActive | StateLocked
  datatype UserFilter = UserFilter(canRequestAdmin: Option<bool>, state: Option<UserState>)

  const DefaultFilter: UserFilter := UserFilter(None, None)

  function CanRequestAdminOnly(f: UserFilter): UserFilter { f.(canRequestAdmin := Some(true)) }
  function CannotRequestAdminOnly(f: UserFilter): UserFilter { f.(canRequestAdmin := Some(false)) }
  function ActiveOnly(f: UserFilter): UserFilter { f.(state := Some(StateActive)) }
  function LockedOnly(f: UserFilter): UserFilter { f.(state := Some(StateLocked)) }

  /** The handler's two matches turning the parameters into a storage filter. */
  function ApplyParams(p: FilterParams, base: UserFilter): (f: UserFilter)
    ensures p.admin == Some(true) ==> f.canRequestAdmin == Some(true)
    ensures p.admin == Some(false) ==> f.canRequestAdmin == Some(false)
    ensures p.admin.None? ==> f.canRequestAdmin == base.canRequestAdmin
    ensures p.status == Some(Active) ==> f.state == Some(StateActive)
    ensures p.status == Some(Locked) ==> f.state == Some(StateLocked)
    ensures p.status.None? ==> f.state == base.state
  {
    var f := match p.admin
      case Some(true) => CanRequestAdminOnly(base)
      case Some(false) => CannotRequestAdminOnly(base)
      case None => base;
    match p.status
    case Some(Active) => ActiveOnly(f)
    case Some(Locked) => LockedOnly(f)
    case None => f
  }

  /** Distinct parameters give distinct filters from the default one: no filter is lost. */
  lemma ApplyParamsInjective(p1: FilterParams, p2: FilterParams)
    ensures ApplyParams(p1, DefaultFilter) == ApplyParams(p2, DefaultFilter) ==> p1 == p2
  {
  }

  /** `into_response` status: 500 for internal errors, 400 for a rejected filter. */
  function Status(e: RouteError): (code: int)
    ensures code == 400 <==> e == InvalidFilter
    ensures code == 500 <==> e == Internal
  {
    match e
    case Internal => 500
    case InvalidFilter => 400
  }
}
