/**
 * The access checks of middlewareHandler.go: `JwtAuth` (strip the
 * "Bearer " prefix, parse the token, check that it is stored, record the
 * caller in the request locals), `ParamsCheck` (a caller other than an
 * admin may only reach its own `user_id`) and `Authorize` (the caller's
 * role id and the sum of the accepted role ids must share a set bit).
 */
module Middlewares {
  import opened SqlText
  import opened Entities

  const JwtAuthErr: string := "middleware-002"
  const ParamsCheckErr: string := "middleware-003"
  const AuthorizeErr: string := "middleware-004"

  const NoPermission: string := "no permission to access"

  /** The admin role id. */
  const AdminRole: int := 2

  /**
   * What a handler sees of the request: the Authorization header, the path
   * parameters, and the locals `userId` and `userRoleId` (`None` when
   * absent; for the role also when it is not a Go `int`).
   */
  datatype Ctx = Ctx(authorization: string, params: map<string, string>,
                     userId: Option<string>, userRoleId: Option<int>)

  /** `c.Params(key)`: the path parameter, "" when there is none. */
  function Param(c: Ctx, key: string): string
  {
    if key in c.params then c.params[key] else ""
  }

  // ---------------------------------------------------------------------------
  // JwtAuth

  const BearerPrefix: string := "Bearer "

  /** The token: the header with one leading "Bearer " removed, if there is one. */
  function StripBearer(header: string): string
  {
    TrimPrefix(header, BearerPrefix)
  }

  /** What `auth.ParseToken` reports: its error text, or the claims. */
  datatype ParseResult = ParseError(message: string) | Parsed(claims: UserClaims)

  /**
   * `JwtAuth`. Parsing and signature checking (`parse`) and the stored-token
   * lookup `FindAccessToken(userId, token)` (`stored`) are inputs. The result
   * is the handler's answer and the request context after it.
   */
  function JwtAuth(c: Ctx, parse: string -> ParseResult, stored: (string, string) -> bool): (r: (Response, Ctx))
    ensures var token := StripBearer(c.authorization);
      r.0 == Next <==> parse(token).Parsed? && stored(parse(token).claims.id, token)
    ensures var token := StripBearer(c.authorization);
      r.0 == Next ==> r.1 == c.(userId := Some(parse(token).claims.id), userRoleId := Some(parse(token).claims.roleId))
    ensures r.0 != Next ==> r.0.Failure? && r.0.status == StatusUnauthorized && r.0.code == JwtAuthErr && r.1 == c
  {
    var token := StripBearer(c.authorization);
    match parse(token)
    case ParseError(message) => (Failure(StatusUnauthorized, JwtAuthErr, message), c)
    case Parsed(claims) =>
      if !stored(claims.id, token) then (Failure(StatusUnauthorized, JwtAuthErr, "You Are Not Logged In"), c)
      else (Next, c.(userId := Some(claims.id), userRoleId := Some(claims.roleId)))
  }

  /** A header "Bearer t" yields the token t, whatever t is. */
  lemma StripBearerPrefixed(t: string)
    ensures StripBearer(BearerPrefix + t) == t
  {
    assert (BearerPrefix + t)[..|BearerPrefix|] == BearerPrefix;
    assert (BearerPrefix + t)[|BearerPrefix|..] == t;
  }

  /** Only one prefix is removed: "Bearer Bearer t" yields "Bearer t". */
  lemma StripBearerOnce(t: string)
    ensures StripBearer(BearerPrefix + (BearerPrefix + t)) == BearerPrefix + t
  {
    StripBearerPrefixed(BearerPrefix + t);
  }

  /** A header that does not start with "Bearer " is the token as it is. */
  lemma StripBearerUnprefixed(header: string)
    requires forall t :: header != BearerPrefix + t
    ensures StripBearer(header) == header
  {
    if |BearerPrefix| <= |header| && header[..|BearerPrefix|] == BearerPrefix {
      assert header == BearerPrefix + header[|BearerPrefix|..];
    }
  }

  // ---------------------------------------------------------------------------
  // ParamsCheck

  /**
   * `ParamsCheck`: an admin passes; anyone else passes iff the path's
   * `user_id` is the caller's id. A role local that is not an `int` makes
   * the single-value type assertion panic.
   */
  function ParamsCheck(c: Ctx): (r: Response)
    ensures r == Next || r == Panic || r == Failure(StatusUnauthorized, ParamsCheckErr, NoPermission)
    ensures r == Panic <==> c.userRoleId.None?
  {
    match c.userRoleId
    case None => Panic
    case Some(role) =>
      if role == AdminRole then Next
      else if Some(Param(c, "user_id")) != c.userId then Failure(StatusUnauthorized, ParamsCheckErr, NoPermission)
      else Next
  }

  /** The ownership rule, both ways. */
  lemma ParamsCheckRule(c: Ctx)
    requires c.userRoleId.Some?
    ensures ParamsCheck(c) == Next <==> c.userRoleId.value == AdminRole || c.userId == Some(Param(c, "user_id"))
    ensures ParamsCheck(c) != Next ==> ParamsCheck(c) == Failure(StatusUnauthorized, ParamsCheckErr, NoPermission)
  {
  }

  /** A caller who is not an admin cannot reach another user's resources. */
  lemma ParamsCheckOthers(c: Ctx, other: string)
    requires c.userRoleId.Some? && c.userRoleId.value != AdminRole
    requires c.userId.Some? && c.userId.value != other && "user_id" in c.params && c.params["user_id"] == other
    ensures ParamsCheck(c) == Failure(StatusUnauthorized, ParamsCheckErr, NoPermission)
  {
  }

  // ---------------------------------------------------------------------------
  // Authorize

  function Pow2(i: nat): (r: nat)
    ensures r >= 1
  {
    if i == 0 then 1 else 2 * Pow2(i - 1)
  }

  /** Bit `i` of the two's-complement value `x` (Dafny's `/` rounds toward minus infinity here). */
  function Bit(x: int, i: nat): (b: int)
    ensures b == 0 || b == 1
  {
    (x / Pow2(i)) % 2
  }

  /**
   * `utils.BinaryConverter(x, n)`, which is not part of this model. It is
   * assumed to give bits 0..n-1 of `x`; only the position of each bit
   * matters here, since both operands are converted alike.
   */
  function BinaryConverter(x: int, n: nat): (r: seq<int>)
    ensures |r| == n && forall i :: 0 <= i < n ==> r[i] == Bit(x, i)
  {
    seq(n, i requires 0 <= i < n => Bit(x, i))
  }

  /** The sum of the accepted role ids. */
  function Sum(xs: seq<int>): int
  {
    if xs == [] then 0 else Sum(xs[..|xs| - 1]) + xs[|xs| - 1]
  }

  /** The mask of accepted roles, in Go's wrapping `int` arithmetic. */
  function ExpectedMask(expectRoleId: seq<int>): int
  {
    Wrap64(Sum(expectRoleId))
  }

  /** Some bit below `n` is set in both values. */
  predicate ShareBit(x: int, y: int, n: nat)
  {
    exists i :: 0 <= i < n && Bit(x, i) == 1 && Bit(y, i) == 1
  }

  /** What `FindRole` reports: its error text, or the number of roles in the system. */
  datatype RoleLookup = RoleError(message: string) | Roles(count: nat)

  /** The decision of `Authorize`. */
  function AuthorizeDecision(expectRoleId: seq<int>, userRoleId: Option<int>, roles: RoleLookup): Response
  {
    if userRoleId.None? then Failure(StatusUnauthorized, AuthorizeErr, "user role id is not int")
    else if roles.RoleError? then Failure(StatusInternalServerError, AuthorizeErr, roles.message)
    else if ShareBit(userRoleId.value, ExpectedMask(expectRoleId), roles.count) then Next
    else Failure(StatusUnauthorized, AuthorizeErr, NoPermission)
  }

  /** Adding to a wrapped value and wrapping again is wrapping the exact sum. */
  lemma Wrap64Add(a: int, b: int)
    ensures Wrap64(Wrap64(a) + b) == Wrap64(a + b)
  {
    var r := (a - Int64Min) % Two64;
    var q := (a - Int64Min) / Two64;
    assert a - Int64Min == q * Two64 + r;
    assert a + b - Int64Min == (r + b) + q * Two64;
    ModShift(r + b, q);
  }

  lemma ModShift(x: int, q: int)
    ensures (x + q * Two64) % Two64 == x % Two64
  {
  }

  /**
   * `Authorize(expectRoleId...)`: the two loops of the Go code, the first
   * summing the accepted ids, the second scanning the bit arrays.
   */
  method Authorize(expectRoleId: seq<int>, userRoleId: Option<int>, roles: RoleLookup) returns (r: Response)
    ensures r == AuthorizeDecision(expectRoleId, userRoleId, roles)
  {
    if userRoleId.None? {
      return Failure(StatusUnauthorized, AuthorizeErr, "user role id is not int");
    }
    if roles.RoleError? {
      return Failure(StatusInternalServerError, AuthorizeErr, roles.message);
    }
    var sum := 0;
    for k := 0 to |expectRoleId|
      invariant sum == Wrap64(Sum(expectRoleId[..k]))
    {
      assert expectRoleId[..k + 1][..k] == expectRoleId[..k];
      Wrap64Add(Sum(expectRoleId[..k]), expectRoleId[k]);
      sum := Wrap64(sum + expectRoleId[k]);
    }
    assert expectRoleId[..|expectRoleId|] == expectRoleId;
    var expectedValueBinary := BinaryConverter(sum, roles.count);
    var userValueBinary := BinaryConverter(userRoleId.value, roles.count);
    for i := 0 to |userValueBinary|
      invariant forall j :: 0 <= j < i ==> !(Bit(userRoleId.value, j) == 1 && Bit(sum, j) == 1)
    {
      if userValueBinary[i] == 1 && expectedValueBinary[i] == 1 {
        return Next;
      }
    }
    return Failure(StatusUnauthorized, AuthorizeErr, NoPermission);
  }

  lemma SmallBits()
    ensures Bit(1, 0) == 1 && Bit(1, 1) == 0
    ensures Bit(2, 0) == 0 && Bit(2, 1) == 1
    ensures Bit(3, 0) == 1 && Bit(3, 1) == 1
  {
    assert Pow2(1) == 2;
  }

  /** With the two roles of the system, a customer (1) is refused where only admins (2) are accepted. */
  lemma CustomerRefusedByAdminRoute()
    ensures AuthorizeDecision([2], Some(1), Roles(2)) == Failure(StatusUnauthorized, AuthorizeErr, NoPermission)
  {
    SmallBits();
    assert Sum([2]) == 2 by { assert [2][..0] == []; }
    assert !ShareBit(1, 2, 2) by {
      forall i | 0 <= i < 2
        ensures !(Bit(1, i) == 1 && Bit(2, i) == 1)
      {
      }
    }
  }

  /** An admin (2) is refused where only customers (1) are accepted. */
  lemma AdminRefusedByCustomerRoute()
    ensures AuthorizeDecision([1], Some(2), Roles(2)) == Failure(StatusUnauthorized, AuthorizeErr, NoPermission)
  {
    SmallBits();
    assert Sum([1]) == 1 by { assert [1][..0] == []; }
    assert !ShareBit(2, 1, 2) by {
      forall i | 0 <= i < 2
        ensures !(Bit(2, i) == 1 && Bit(1, i) == 1)
      {
      }
    }
  }

  /** A route accepting both roles (1, 2: mask 3) lets either role through, and each role passes its own route. */
  lemma BothRolesAccepted()
    ensures AuthorizeDecision([1, 2], Some(1), Roles(2)) == Next
    ensures AuthorizeDecision([1, 2], Some(2), Roles(2)) == Next
    ensures AuthorizeDecision([1], Some(1), Roles(2)) == Next
    ensures AuthorizeDecision([2], Some(2), Roles(2)) == Next
  {
    SmallBits();
    assert Sum([1, 2]) == 3 by {
      assert [1, 2][..1] == [1];
      assert [1][..0] == [];
    }
    assert Sum([1]) == 1 by { assert [1][..0] == []; }
    assert Sum([2]) == 2 by { assert [2][..0] == []; }
    assert Bit(1, 0) == 1 && Bit(3, 0) == 1;
    assert Bit(2, 1) == 1 && Bit(3, 1) == 1;
  }

  /** The caller is refused before any bit is compared when the role local is not an int or the roles cannot be read. */
  lemma AuthorizeErrorsFirst(expectRoleId: seq<int>, userRoleId: Option<int>, message: string)
    ensures AuthorizeDecision(expectRoleId, None, Roles(2)) == Failure(StatusUnauthorized, AuthorizeErr, "user role id is not int")
    ensures userRoleId.Some? ==>
      AuthorizeDecision(expectRoleId, userRoleId, RoleError(message)) == Failure(StatusInternalServerError, AuthorizeErr, message)
  {
  }
}
