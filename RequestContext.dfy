/**
 * The per-request context (RequestContext.go): the pager read from the
 * query string when the context is created, the body classes, the typed
 * reads of values stored on the request, the response content type and the
 * authenticated user with its roles.
 *
 * Numbers are read with Go's `strconv.ParseInt(s, 10, 64)`, modelled here
 * as that function is defined: an optional sign, then decimal digits; a
 * value out of the 64-bit range is clamped and reported as a range error.
 */
module RequestContexts {
  import opened Wrappers

  const Int64Min: int := -0x8000_0000_0000_0000
  const Int64Max: int := 0x7FFF_FFFF_FFFF_FFFF
  const Uint64Max: int := 0xFFFF_FFFF_FFFF_FFFF
  const TwoTo64: int := 0x1_0000_0000_0000_0000

  predicate InInt64(x: int)
  {
    Int64Min <= x <= Int64Max
  }

  /** Two's-complement wrap-around of a 64-bit signed result. */
  function Wrap64(x: int): (r: int)
    ensures InInt64(r)
    ensures InInt64(x) ==> r == x
    ensures (r - x) % TwoTo64 == 0
  {
    (x - Int64Min) % TwoTo64 + Int64Min
  }

  /** The error kinds of `strconv.NumError`. */
  datatype NumError = ErrSyntax | ErrRange

  /** What a parse returns: the value and the error, as Go returns both. */
  datatype Parsed = Parsed(value: int, err: Option<NumError>)

  predicate IsDigit(c: char)
  {
    '0' <= c <= '9'
  }

  predicate AllDigits(s: string)
  {
    forall i :: 0 <= i < |s| ==> IsDigit(s[i])
  }

  /** The number a string of decimal digits denotes (reference definition). */
  function DecimalValue(s: string): nat
    requires AllDigits(s)
    decreases |s|
  {
    if |s| == 0 then 0 else DecimalValue(s[..|s| - 1]) * 10 + (s[|s| - 1] as int - '0' as int)
  }

  /**
   * The digit loop of `strconv.ParseUint` for base 10 from index `i`, `n`
   * being the value so far: a non-digit is a syntax error (value 0); a
   * value that would pass the largest unsigned 64-bit number stops the scan
   * at once with a range error and that largest number.
   */
  function ScanUint(s: string, i: nat, n: nat): (r: Parsed)
    requires i <= |s| && n <= Uint64Max
    ensures 0 <= r.value <= Uint64Max
    ensures r.err == Some(ErrSyntax) ==> r.value == 0
    ensures r.err == Some(ErrRange) ==> r.value == Uint64Max
    decreases |s| - i
  {
    if i == |s| then Parsed(n, None)
    else if !IsDigit(s[i]) then Parsed(0, Some(ErrSyntax))
    else if n >= Uint64Max / 10 + 1 then Parsed(Uint64Max, Some(ErrRange))
    else if n * 10 + (s[i] as int - '0' as int) > Uint64Max then Parsed(Uint64Max, Some(ErrRange))
    else ScanUint(s, i + 1, n * 10 + (s[i] as int - '0' as int))
  }

  /** The text after an optional leading sign. */
  function Unsigned(s: string): string
  {
    if |s| > 0 && (s[0] == '+' || s[0] == '-') then s[1..] else s
  }

  /**
   * `strconv.ParseInt(s, 10, 64)`: the empty text and a missing digit are
   * syntax errors with value 0; out of range values are clamped to the
   * nearer end of the 64-bit range with a range error.
   */
  function ParseInt(s: string): (r: Parsed)
    ensures InInt64(r.value)
    ensures r.err == Some(ErrSyntax) ==> r.value == 0
    ensures r.err == Some(ErrRange) ==> r.value == Int64Min || r.value == Int64Max
  {
    if |s| == 0 then Parsed(0, Some(ErrSyntax))
    else
      var neg := s[0] == '-';
      var digits := Unsigned(s);
      var u := if |digits| == 0 then Parsed(0, Some(ErrSyntax)) else ScanUint(digits, 0, 0);
      if u.err == Some(ErrSyntax) then Parsed(0, Some(ErrSyntax))
      else if !neg && u.value >= -Int64Min then Parsed(Int64Max, Some(ErrRange))
      else if neg && u.value > -Int64Min then Parsed(Int64Min, Some(ErrRange))
      else Parsed(if neg then -u.value else u.value, None)
  }

  lemma {:induction false} DecimalValueGrows(s: string, i: nat, j: nat)
    requires i <= j <= |s| && AllDigits(s)
    ensures DecimalValue(s[..i]) <= DecimalValue(s[..j])
    decreases j - i
  {
    if i < j {
      DecimalValueGrows(s, i, j - 1);
      assert s[..j][..j - 1] == s[..j - 1];
    }
  }

  lemma {:induction false} ScanUintOfDigits(s: string, i: nat, n: nat)
    requires i <= |s| && AllDigits(s) && n <= Uint64Max && n == DecimalValue(s[..i])
    ensures ScanUint(s, i, n) ==
      if DecimalValue(s) <= Uint64Max then Parsed(DecimalValue(s), None) else Parsed(Uint64Max, Some(ErrRange))
    decreases |s| - i
  {
    if i == |s| {
      assert s[..i] == s;
    } else {
      var d := s[i] as int - '0' as int;
      assert s[..i + 1][..i] == s[..i];
      assert DecimalValue(s[..i + 1]) == n * 10 + d;
      if n * 10 + d <= Uint64Max {
        ScanUintOfDigits(s, i + 1, n * 10 + d);
      } else {
        DecimalValueGrows(s, i + 1, |s|);
        assert s[..|s|] == s;
      }
    }
  }

  lemma {:induction false} ScanUintAcceptsOnlyDigits(s: string, i: nat, n: nat)
    requires i <= |s| && n <= Uint64Max
    ensures ScanUint(s, i, n).err.None? ==> forall k :: i <= k < |s| ==> IsDigit(s[k])
    decreases |s| - i
  {
    if i < |s| && IsDigit(s[i]) && n < Uint64Max / 10 + 1 && n * 10 + (s[i] as int - '0' as int) <= Uint64Max {
      ScanUintAcceptsOnlyDigits(s, i + 1, n * 10 + (s[i] as int - '0' as int));
    }
  }

  /**
   * `ParseInt` against the number the text denotes: a sign and at least one
   * digit give that number when it fits in 64 bits, and the nearer end of the
   * range with a range error when it does not; any other text is an error.
   */
  lemma ParseIntMeaning(s: string)
    ensures var digits := Unsigned(s);
      var r := ParseInt(s);
      if |digits| > 0 && AllDigits(digits) then
        var v: int := if |s| > 0 && s[0] == '-' then -(DecimalValue(digits) as int) else DecimalValue(digits);
        && (InInt64(v) ==> r == Parsed(v, None))
        && (v > Int64Max ==> r == Parsed(Int64Max, Some(ErrRange)))
        && (v < Int64Min ==> r == Parsed(Int64Min, Some(ErrRange)))
      else r.err.Some?
  {
    var digits := Unsigned(s);
    if |s| > 0 && |digits| > 0 {
      if AllDigits(digits) {
        ScanUintOfDigits(digits, 0, 0);
      } else {
        var k :| 0 <= k < |digits| && !IsDigit(digits[k]);
        ScanUintAcceptsOnlyDigits(digits, 0, 0);
        var u := ScanUint(digits, 0, 0);
        assert u.err == Some(ErrSyntax) || u.err == Some(ErrRange) by {
          assert u.err.value.ErrSyntax? || u.err.value.ErrRange?;
        }
      }
    }
  }

  /** A configuration lookup with a default (`GetF`): the configured text, or the default when unset. */
  function ConfigValue(cfg: map<string, string>, key: string, fallback: string): string
  {
    if key in cfg then cfg[key] else fallback
  }

  /** `pagination.Pager`, the part the context sets. */
  datatype Pager = Pager(currentUrl: string, limit: int, page: int)

  /** The request as the context sees it; `urlPath` is absent when the request has no URL. */
  datatype Request = Request(verb: string, urlPath: Option<string>, query: map<string, seq<string>>, contentType: string)

  /** The page size the configuration sets (PAGER_LIMIT, "20" by default). */
  function ConfiguredLimit(cfg: map<string, string>): int
  {
    ParseInt(ConfigValue(cfg, "PAGER_LIMIT", "20")).value
  }

  /** The bound a requested page size must stay under (PAGER_LIMIT_MAX, "50" by default). */
  function LimitMax(cfg: map<string, string>): int
  {
    ParseInt(ConfigValue(cfg, "PAGER_LIMIT_MAX", "50")).value
  }

  /** The query asks for one page size that parses and lies strictly between 0 and `limitMax`. */
  predicate LimitAccepted(query: map<string, seq<string>>, limitMax: int)
  {
    && "limit" in query && |query["limit"]| == 1
    && ParseInt(query["limit"][0]).err.None?
    && 0 < ParseInt(query["limit"][0]).value < limitMax
  }

  /** The query names one page. */
  predicate PageGiven(query: map<string, seq<string>>)
  {
    "page" in query && |query["page"]| == 1
  }

  /**
   * The parameter goes on to the query parser: everything except a single
   * page, and a single page size that does not parse.
   */
  predicate Forwarded(key: string, values: seq<string>)
  {
    !(key == "page" && |values| == 1) && !(key == "limit" && |values| == 1 && ParseInt(values[0]).err.Some?)
  }

  /**
   * The pager part of `NewRequestContext`. Without a request or a URL the
   * fresh pager stays as it is; otherwise it gets the path and the
   * configured page size, and for a GET the query string may set a smaller
   * page size and the page. `forwarded` holds the parameters handed to the
   * query parser.
   */
  method RequestPager(req: Option<Request>, cfg: map<string, string>, freshPager: Pager)
    returns (pager: Pager, forwarded: set<string>)
    ensures req.None? || req.value.urlPath.None? ==> pager == freshPager && forwarded == {}
    ensures req.Some? && req.value.urlPath.Some? ==> pager.currentUrl == req.value.urlPath.value
    ensures req.Some? && req.value.urlPath.Some? && req.value.verb != "GET" ==>
      pager.limit == ConfiguredLimit(cfg) && pager.page == freshPager.page && forwarded == {}
    ensures req.Some? && req.value.urlPath.Some? && req.value.verb == "GET" ==>
      var q := req.value.query;
      && pager.limit == (if LimitAccepted(q, LimitMax(cfg)) then ParseInt(q["limit"][0]).value else ConfiguredLimit(cfg))
      && pager.page == (if PageGiven(q) then ParseInt(q["page"][0]).value else freshPager.page)
      && (forall k :: k in forwarded <==> k in q && Forwarded(k, q[k]))
    ensures pager.limit == freshPager.limit || pager.limit == ConfiguredLimit(cfg) || 0 < pager.limit < LimitMax(cfg)
  {
    pager := freshPager;
    forwarded := {};
    if req.None? || req.value.urlPath.None? {
      return;
    }
    var r := req.value;
    pager := pager.(currentUrl := r.urlPath.value, limit := ParseInt(ConfigValue(cfg, "PAGER_LIMIT", "20")).value);
    if r.verb != "GET" {
      return;
    }
    var limitMax := ParseInt(ConfigValue(cfg, "PAGER_LIMIT_MAX", "50")).value;
    var q := r.query;
    var left := q.Keys;
    while left != {}
      invariant left <= q.Keys
      invariant pager.currentUrl == r.urlPath.value
      invariant pager.limit == (if "limit" !in left && LimitAccepted(q, limitMax) then ParseInt(q["limit"][0]).value else ConfiguredLimit(cfg))
      invariant pager.page == (if "page" !in left && PageGiven(q) then ParseInt(q["page"][0]).value else freshPager.page)
      invariant forall k :: k in forwarded <==> k in q && k !in left && Forwarded(k, q[k])
      decreases left
    {
      var key :| key in left;
      left := left - {key};
      var param := q[key];
      if key == "limit" && |param| == 1 {
        var queryLimit := ParseInt(param[0]);
        if queryLimit.err.Some? {
          continue;
        }
        if 0 < queryLimit.value < limitMax {
          pager := pager.(limit := queryLimit.value);
        }
      }
      if key == "page" && |param| == 1 {
        var page := ParseInt(param[0]);
        pager := pager.(page := page.value);
        continue;
      }
      forwarded := forwarded + {key};
    }
  }

  /**
   * `GetOffset` on a pager's page size and page: 0 for the first page (and
   * for any page below it), else the size times the pages before, with
   * 64-bit wrap-around.
   */
  function Offset(limit: int, page: int): (r: int)
    ensures InInt64(r)
    ensures page < 2 ==> r == 0
    ensures 2 <= page && InInt64(limit * (page - 1)) ==> r == limit * (page - 1)
  {
    if page < 2 then 0 else Wrap64(limit * (page - 1))
  }

  lemma WrapOfSum(a: int, b: int)
    ensures Wrap64(Wrap64(a) + b) == Wrap64(a + b)
  {
    var u, v := Wrap64(Wrap64(a) + b), Wrap64(a + b);
    var c1, c2, c3 := (u - (Wrap64(a) + b)) / TwoTo64, (Wrap64(a) - a) / TwoTo64, (v - (a + b)) / TwoTo64;
    assert u - v == (c1 + c2 - c3) * TwoTo64;
  }

  /**
   * Consecutive pages are consecutive windows: each page starts one page
   * size after the previous one (modulo 2^64, as the product wraps).
   */
  lemma PagesTile(limit: int, page: int)
    requires 1 <= page
    ensures Offset(limit, page + 1) == Wrap64(Offset(limit, page) + limit)
  {
    if page == 1 {
      assert Offset(limit, 1) == 0;
    } else {
      WrapOfSum(limit * (page - 1), limit);
      assert limit * (page - 1) + limit == limit * page;
    }
  }

  /** `strings.Join`. */
  function Join(parts: seq<string>, sep: string): (r: string)
    ensures |parts| == 0 ==> r == ""
    ensures |parts| == 1 ==> r == parts[0]
  {
    if |parts| == 0 then ""
    else if |parts| == 1 then parts[0]
    else parts[0] + sep + Join(parts[1..], sep)
  }

  /** `strings.Split` on one separator character: the inverse of `Join` (reference definition). */
  function Split(s: string, c: char): (r: seq<string>)
    ensures |r| >= 1
    decreases |s|
  {
    if |s| == 0 then [""]
    else if s[0] == c then [""] + Split(s[1..], c)
    else
      var rest := Split(s[1..], c);
      [[s[0]] + rest[0]] + rest[1..]
  }

  lemma {:induction false} SplitWithout(a: string, c: char)
    requires c !in a
    ensures Split(a, c) == [a]
    decreases |a|
  {
    if |a| > 0 {
      SplitWithout(a[1..], c);
      assert [a[0]] + a[1..] == a;
    }
  }

  lemma {:induction false} SplitAt(a: string, c: char, b: string)
    requires c !in a
    ensures Split(a + [c] + b, c) == [a] + Split(b, c)
    decreases |a|
  {
    if |a| == 0 {
      assert a + [c] + b == [c] + b;
      assert ([c] + b)[1..] == b;
    } else {
      assert (a + [c] + b)[1..] == a[1..] + [c] + b;
      SplitAt(a[1..], c, b);
      assert [a[0]] + a[1..] == a;
    }
  }

  /** No part holds the separator. */
  predicate NoSeparator(parts: seq<string>, c: char)
  {
    forall i :: 0 <= i < |parts| ==> c !in parts[i]
  }

  /** Splitting a join on a separator that no part holds gives back the parts. */
  lemma {:induction false} SplitJoin(parts: seq<string>, c: char)
    requires |parts| > 0 && NoSeparator(parts, c)
    ensures Split(Join(parts, [c]), c) == parts
    decreases |parts|
  {
    if |parts| == 1 {
      SplitWithout(parts[0], c);
    } else {
      SplitJoin(parts[1..], c);
      SplitAt(parts[0], c, Join(parts[1..], [c]));
      assert [parts[0]] + parts[1..] == parts;
    }
  }

  /** No class is listed twice. */
  predicate NoDuplicates(classes: seq<string>)
  {
    forall i, j :: 0 <= i < j < |classes| ==> classes[i] != classes[j]
  }

  /** `RemoveBodyClass` as written: a present class is appended once more, an absent one changes nothing. */
  function RemoveBodyClassAsWritten(classes: seq<string>, c: string): (r: seq<string>)
    ensures |r| == |classes| + 1 <==> c in classes
    ensures |r| == |classes| <==> c !in classes
    ensures r[..|classes|] == classes
    ensures forall x :: x in r <==> x in classes
  {
    if c in classes then classes + [c] else classes
  }

  /** What `RemoveBodyClass` does as written: the class is not removed, and is then listed twice. */
  lemma RemoveBodyClassKeepsTheClass(classes: seq<string>, c: string)
    requires c in classes
    ensures c in RemoveBodyClassAsWritten(classes, c)
    ensures !NoDuplicates(RemoveBodyClassAsWritten(classes, c))
    ensures RemoveBodyClassAsWritten(["home"], "home") == ["home", "home"]
  {
    var i :| 0 <= i < |classes| && classes[i] == c;
    var r := RemoveBodyClassAsWritten(classes, c);
    assert r[i] == c && r[|classes|] == c;
  }

  /** The removal the name and comment promise: every occurrence of `c` dropped, the rest kept in order. */
  function WithoutClass(classes: seq<string>, c: string): (r: seq<string>)
    ensures c !in r
    ensures forall x :: x != c ==> (x in r <==> x in classes)
    ensures c !in classes ==> r == classes
    ensures |r| <= |classes|
  {
    if |classes| == 0 then []
    else if classes[0] == c then WithoutClass(classes[1..], c)
    else [classes[0]] + WithoutClass(classes[1..], c)
  }

  lemma {:induction false} WithoutClassKeepsUnique(classes: seq<string>, c: string)
    requires NoDuplicates(classes)
    ensures NoDuplicates(WithoutClass(classes, c))
    decreases |classes|
  {
    if |classes| > 0 {
      WithoutClassKeepsUnique(classes[1..], c);
      if classes[0] != c {
        assert classes[0] !in classes[1..];
      }
    }
  }

  /** A value stored on the request (an `interface{}`), by the types the typed getters read. */
  datatype Value = Text(s: string) | Flag(b: bool) | Texts(items: seq<string>) | OtherValue

  /** The authenticated user, seen through its id and its role names. */
  datatype User = User(id: string, roles: seq<string>)

  /** The panic of a failed type assertion in a typed getter. */
  const TypeAssertionPanic: string := "interface conversion: wrong type"

  const ResponseContentTypeKey: string := "responseContentType"
  const UnauthenticatedRole: string := "unAuthenticated"
  const AuthenticatedRole: string := "authenticated"

  class RequestContext {
    var isAuthenticated: bool
    var authenticatedUser: Option<User>
    var roles: seq<string>
    var bodyClass: seq<string>
    var pager: Pager
    /** The values stored on the echo context. */
    var values: map<string, Value>
    /** The request's Content-Type header. */
    const requestContentType: string

    /** A context with the pager `NewRequestContext` computed and nothing else set. */
    constructor (pager: Pager, requestContentType: string)
      ensures this.pager == pager && this.requestContentType == requestContentType
      ensures !isAuthenticated && authenticatedUser.None? && roles == [] && bodyClass == [] && values == map[]
    {
      this.pager := pager;
      this.requestContentType := requestContentType;
      isAuthenticated := false;
      authenticatedUser := None;
      roles := [];
      bodyClass := [];
      values := map[];
    }

    /** `Set`: store a value under a name. */
    method Set(name: string, v: Value)
      modifies this`values
      ensures values == old(values)[name := v]
      ensures v.Text? ==> GetString(name) == Success(v.s)
      ensures v.Flag? ==> GetBool(name) == Success(v.b)
      ensures v.Texts? ==> GetStringMap(name) == Success(v.items)
    {
      values := values[name := v];
    }

    /** `GetString`: "" when nothing is stored; a value of another type panics. */
    function GetString(name: string): (r: Result<string, string>)
      reads this
      ensures name !in values ==> r == Success("")
      ensures name in values ==> (r.Success? <==> values[name].Text?)
      ensures r.Success? && name in values ==> r.value == values[name].s
    {
      if name !in values then Success("")
      else match values[name]
        case Text(s) => Success(s)
        case _ => Failure(TypeAssertionPanic)
    }

    /** `GetBool`: false when nothing is stored; a value of another type panics. */
    function GetBool(name: string): (r: Result<bool, string>)
      reads this
      ensures name !in values ==> r == Success(false)
      ensures name in values ==> (r.Success? <==> values[name].Flag?)
      ensures r.Success? && name in values ==> r.value == values[name].b
    {
      if name !in values then Success(false)
      else match values[name]
        case Flag(b) => Success(b)
        case _ => Failure(TypeAssertionPanic)
    }

    /** `GetStringMap`: an empty list when nothing is stored; a value of another type panics. */
    function GetStringMap(name: string): (r: Result<seq<string>, string>)
      reads this
      ensures name !in values ==> r == Success([])
      ensures name in values ==> (r.Success? <==> values[name].Texts?)
      ensures r.Success? && name in values ==> r.value == values[name].items
    {
      if name !in values then Success([])
      else match values[name]
        case Texts(items) => Success(items)
        case _ => Failure(TypeAssertionPanic)
    }

    /** `AddBodyClass`: appends a class that is not there yet. */
    method AddBodyClass(c: string)
      modifies this`bodyClass
      ensures bodyClass == if c in old(bodyClass) then old(bodyClass) else old(bodyClass) + [c]
      ensures c in bodyClass
      ensures NoDuplicates(old(bodyClass)) ==> NoDuplicates(bodyClass)
    {
      if c in bodyClass {
        return;
      }
      bodyClass := bodyClass + [c];
    }

    /**
     * `RemoveBodyClass`, as its name and comment intend: a present class is
     * dropped (the source appends it again instead, see
     * `RemoveBodyClassAsWritten`); an absent one changes nothing.
     */
    method RemoveBodyClass(c: string)
      modifies this`bodyClass
      ensures bodyClass == WithoutClass(old(bodyClass), c)
      ensures c !in bodyClass
      ensures c !in old(bodyClass) ==> bodyClass == old(bodyClass)
      ensures NoDuplicates(old(bodyClass)) ==> NoDuplicates(bodyClass)
    {
      if c !in bodyClass {
        return;
      }
      if NoDuplicates(bodyClass) {
        WithoutClassKeepsUnique(bodyClass, c);
      }
      bodyClass := WithoutClass(bodyClass, c);
    }

    /** `GetBodyClassText`: the classes joined by spaces, from which they can be read back. */
    function GetBodyClassText(): (r: string)
      reads this
      ensures bodyClass == [] ==> r == ""
      ensures |bodyClass| > 0 && NoSeparator(bodyClass, ' ') ==> Split(r, ' ') == bodyClass
    {
      var r := Join(bodyClass, " ");
      if |bodyClass| > 0 && NoSeparator(bodyClass, ' ') then
        SplitJoin(bodyClass, ' ');
        r
      else r
    }

    /** `GetResponseContentType`: the type chosen for the response, else the request's Content-Type. */
    function GetResponseContentType(): (r: Result<string, string>)
      reads this
      ensures r.Failure? <==> ResponseContentTypeKey in values && !values[ResponseContentTypeKey].Text?
      ensures r.Success? && GetString(ResponseContentTypeKey).value != "" ==> r.value == GetString(ResponseContentTypeKey).value
      ensures r.Success? && GetString(ResponseContentTypeKey).value == "" ==> r.value == requestContentType
    {
      match GetString(ResponseContentTypeKey)
      case Failure(e) => Failure(e)
      case Success(v) => if v == "" then Success(requestContentType) else Success(v)
    }

    /** `SetResponseContentType`: refuses the empty type; any other is what the getter returns next. */
    method SetResponseContentType(v: string) returns (err: Option<string>)
      modifies this`values
      ensures v == "" <==> err.Some?
      ensures v == "" ==> values == old(values)
      ensures v != "" ==> values == old(values)[ResponseContentTypeKey := Text(v)] && GetResponseContentType() == Success(v)
    {
      if v == "" {
        return Some("RequestContext.SetResponseContentType value should not be empty");
      }
      Set(ResponseContentTypeKey, Text(v));
      err := None;
    }

    /** `GetLimit`: the pager's page size. */
    function GetLimit(): int
      reads this
    {
      pager.limit
    }

    /** `GetOffset`: where the current page starts; the next page starts one page size later. */
    function GetOffset(): (r: int)
      reads this
      ensures InInt64(r)
      ensures pager.page < 2 ==> r == 0
      ensures 2 <= pager.page && InInt64(pager.limit * (pager.page - 1)) ==> r == pager.limit * (pager.page - 1)
      ensures 1 <= pager.page ==> Offset(pager.limit, pager.page + 1) == Wrap64(r + pager.limit)
    {
      if 1 <= pager.page then
        PagesTile(pager.limit, pager.page);
        Offset(pager.limit, pager.page)
      else Offset(pager.limit, pager.page)
    }

    /** `GetAuthenticatedRoles`: the user's roles, or the single "unAuthenticated" role. */
    function GetAuthenticatedRoles(): (r: seq<string>)
      reads this
      ensures isAuthenticated ==> r == roles
      ensures !isAuthenticated ==> r == [UnauthenticatedRole]
      ensures |r| > 0 || isAuthenticated
    {
      if isAuthenticated then roles else [UnauthenticatedRole]
    }

    /** `SetAuthenticatedUser`: marks the context authenticated; the roles stay as they were. */
    method SetAuthenticatedUser(user: User)
      modifies this`authenticatedUser, this`isAuthenticated
      ensures authenticatedUser == Some(user) && isAuthenticated
      ensures GetAuthenticatedRoles() == roles
    {
      authenticatedUser := Some(user);
      isAuthenticated := true;
    }

    /** `SetAuthenticatedUserAndFillRoles`: the user's roles followed by "authenticated". */
    method SetAuthenticatedUserAndFillRoles(user: User)
      modifies this`authenticatedUser, this`isAuthenticated, this`roles
      ensures authenticatedUser == Some(user) && isAuthenticated
      ensures roles == user.roles + [AuthenticatedRole]
      ensures GetAuthenticatedRoles() == user.roles + [AuthenticatedRole]
      ensures AuthenticatedRole in GetAuthenticatedRoles()
    {
      SetAuthenticatedUser(user);
      roles := user.roles;
      roles := roles + [AuthenticatedRole];
    }
  }
}
