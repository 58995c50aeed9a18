/** Values shared by every component: nullable references, the exceptions the
    Java services throw (as values), Bean Validation violations, and the JAX-RS
    responses the REST layer builds. */
module Common {

  /** A Java reference that may be null. */
  datatype Option<+T> = None | Some(value: T)

  /** One Bean Validation constraint violation: its property path and message. */
  datatype Violation = Violation(path: string, message: string)

  /** The exceptions the services raise. */
  datatype Exc =
    | ConstraintViolation(violations: seq<Violation>)  // javax.validation.ConstraintViolationException
    | Validation(message: string)                       // javax.validation.ValidationException
    | WebApplication(status: int)                       // javax.ws.rs.WebApplicationException
    | Other(message: string)                            // any other Exception

  /** A call that returns a value or throws. */
  datatype Result<+T> = Ok(value: T) | Err(error: Exc)

  /** A call that returns nothing or throws. */
  datatype Outcome = Pass | Fail(error: Exc)

  // HTTP status codes used by the REST services.
  const OK := 200
  const CREATED := 201
  const NO_CONTENT := 204
  const BAD_REQUEST := 400
  const NOT_FOUND := 404
  const CONFLICT := 409
  const INTERNAL_SERVER_ERROR := 500

  /** Default messages of the Bean Validation provider. */
  const NOT_NULL_MESSAGE := "may not be null"

  /** What Hibernate's persist raises for an entity that already carries an id. */
  const DETACHED_MESSAGE := "detached entity passed to persist"

  /** What getSingleResult raises when a query matches more than one row. */
  const NON_UNIQUE_MESSAGE := "query did not return a unique result"

  /** What getSingleResult raises when a query matches no row. */
  const NO_RESULT_MESSAGE := "No entity found for query"

  /** getMessage() of the NullPointerException raised when a null field is
      dereferenced: null, which the JSON error map writes as null. */
  const NULL_POINTER_MESSAGE := "null"

  /** The message of a WebApplicationException built from a status alone. */
  function StatusMessage(status: int): string {
    if status == NOT_FOUND then "HTTP 404 Not Found"
    else if status == BAD_REQUEST then "HTTP 400 Bad Request"
    else "HTTP error"
  }

  /** Throwable.getMessage() of each exception kind. */
  function Message(e: Exc): string {
    match e
    case ConstraintViolation(_) => ""
    case Validation(m) => m
    case WebApplication(s) => StatusMessage(s)
    case Other(m) => m
  }

  /** getSingleResult on a query, where the caller only asks whether a row
      came back: no match is a NoResultException, which the callers catch and
      read as null; more than one match escapes as NonUniqueResultException. */
  function SingleMatch(matches: set<int>): (r: Result<bool>)
    ensures r == Ok(false) <==> matches == {}
    ensures r == Ok(true) <==> |matches| == 1
    ensures r.Err? <==> |matches| > 1
    ensures r.Err? ==> r.error == Other(NON_UNIQUE_MESSAGE)
  {
    if matches == {} then Ok(false)
    else if |matches| == 1 then Ok(true)
    else Err(Other(NON_UNIQUE_MESSAGE))
  }

  /** A set with one element holds nothing else. */
  lemma SingletonMembers(s: set<int>, x: int, y: int)
    requires |s| == 1 && x in s && y in s
    ensures x == y
  {
    var rest := s - {x};
    assert s == rest + {x};
    assert |rest| == 0;
  }

  /** A non-empty set has a member. */
  lemma NonEmptyHasMember(s: set<int>)
    requires s != {}
    ensures exists k :: k in s
  {
    if forall k :: k !in s { assert false; }
  }

  /** Appending a log in two steps is appending the joined log once. */
  lemma AppendTwice<T>(log: seq<T>, first: seq<T>, second: seq<T>)
    ensures (log + first) + second == log + (first + second)
  {
  }

  /** A set whose members are all equal has at most one. */
  lemma AtMostOne(s: set<int>)
    requires forall j, k :: j in s && k in s ==> j == k
    ensures |s| <= 1
  {
    if s != {} {
      NonEmptyHasMember(s);
      var x :| x in s;
      forall y | y in s ensures y == x { }
      assert s == {x};
    }
  }

  /** The keys of the rows whose nullable `field` holds exactly `value`: a
      query with one equality criterion, where a null column never matches. */
  function Matching<R>(table: map<int, R>, field: R -> Option<string>, value: string): set<int> {
    set k | k in table && field(table[k]) == Some(value)
  }

  /** getSingleResult returning the row: no match raises NoResultException
      and several matches NonUniqueResultException, both escaping to the
      caller; otherwise the one matching row comes back. */
  method SingleResult<R>(table: map<int, R>, matches: set<int>) returns (r: Result<R>)
    requires matches <= table.Keys
    ensures matches == {} ==> r == Err(Other(NO_RESULT_MESSAGE))
    ensures |matches| > 1 ==> r == Err(Other(NON_UNIQUE_MESSAGE))
    ensures r.Ok? <==> |matches| == 1
    ensures r.Ok? ==> exists k :: k in matches && r.value == table[k]
  {
    if matches == {} {
      r := Err(Other(NO_RESULT_MESSAGE));
    } else if |matches| > 1 {
      r := Err(Other(NON_UNIQUE_MESSAGE));
    } else {
      NonEmptyHasMember(matches);
      var k :| k in matches;
      r := Ok(table[k]);
    }
  }

  /** The entity carried by a response. */
  datatype Entity<+T> =
    | NoEntity
    | Body(value: T)
    | Fields(fields: map<string, string>)
    | Text(text: string)

  datatype Response<+T> = Response(status: int, entity: Entity<T>)

  /** `s` starts with `prefix` (String.startsWith). */
  predicate StartsWith(s: string, prefix: string) {
    |prefix| <= |s| && s[..|prefix|] == prefix
  }

  /** The map createViolationResponse builds: one put per violation, in
      iteration order, so a later violation on the same path overwrites. */
  function ViolationFields(vs: seq<Violation>): map<string, string> {
    if vs == [] then map[]
    else ViolationFields(vs[..|vs| - 1])[vs[|vs| - 1].path := vs[|vs| - 1].message]
  }

  /** The property paths that occur among the violations. */
  function Paths(vs: seq<Violation>): set<string> {
    set i | 0 <= i < |vs| :: vs[i].path
  }

  lemma PathsSnoc(vs: seq<Violation>, v: Violation)
    ensures Paths(vs + [v]) == Paths(vs) + {v.path}
  {
    var ws := vs + [v];
    forall p | p in Paths(ws) ensures p in Paths(vs) + {v.path} {
      var i :| 0 <= i < |ws| && ws[i].path == p;
      if i < |vs| { assert ws[i] == vs[i]; }
    }
    forall p | p in Paths(vs) ensures p in Paths(ws) {
      var i :| 0 <= i < |vs| && vs[i].path == p;
      assert ws[i] == vs[i];
    }
    assert ws[|vs|] == v;
  }

  /** The violation map has exactly one entry per violated property path, so
      no more entries than there are violations. */
  lemma {:induction false} ViolationFieldsKeys(vs: seq<Violation>)
    ensures ViolationFields(vs).Keys == Paths(vs)
    ensures |ViolationFields(vs)| <= |vs|
  {
    if vs != [] {
      var init, last := vs[..|vs| - 1], vs[|vs| - 1];
      assert vs == init + [last];
      ViolationFieldsKeys(init);
      PathsSnoc(init, last);
    }
  }

  /** Each entry holds the message of the last violation on its path. */
  lemma {:induction false} ViolationFieldsLastWins(vs: seq<Violation>, p: string)
    requires p in ViolationFields(vs)
    ensures exists i :: 0 <= i < |vs| && vs[i].path == p && vs[i].message == ViolationFields(vs)[p] &&
                        forall j :: i < j < |vs| ==> vs[j].path != p
  {
    var init, last := vs[..|vs| - 1], vs[|vs| - 1];
    if p == last.path {
      assert vs[|vs| - 1].path == p && vs[|vs| - 1].message == ViolationFields(vs)[p];
    } else {
      ViolationFieldsLastWins(init, p);
      var i :| 0 <= i < |init| && init[i].path == p && init[i].message == ViolationFields(init)[p] &&
               forall j :: i < j < |init| ==> init[j].path != p;
      assert vs[i] == init[i];
      forall j | i < j < |vs| ensures vs[j].path != p {
        if j < |vs| - 1 { assert vs[j] == init[j]; }
      }
    }
  }

  /** createViolationResponse: a 400 response holding, for each violation in
      iteration order, its property path mapped to its message. */
  method CreateViolationResponse<T>(vs: seq<Violation>) returns (r: Response<T>)
    ensures r == Response(BAD_REQUEST, Fields(ViolationFields(vs)))
  {
    var fields: map<string, string> := map[];
    for i := 0 to |vs|
      invariant fields == ViolationFields(vs[..i])
    {
      assert vs[..i + 1][..i] == vs[..i];
      fields := fields[vs[i].path := vs[i].message];
    }
    assert vs[..|vs|] == vs;
    r := Response(BAD_REQUEST, Fields(fields));
  }
}
