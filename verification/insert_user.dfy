/**
 * The user insert of insertUser.go and its caller in usersRepository.go:
 * the repository picks the admin insert or the customer insert by the
 * route, the insert writes `role_id` 2 or 1 and scans the generated id,
 * duplicate-key errors are reported by name, and `Result` reads back the
 * row with the scanned id.
 */
module UsersPattern {
  import opened Entities
  import opened Db

  const CustomerRoleId: int := 1
  const AdminRoleId: int := 2

  /** The head of the INSERT, up to the role id written as a literal. */
  const InsertHead: string :=
    "\n\tINSERT INTO \"User\" (" + "\n\t\temail," + "\n\t\tpassword," + "\n\t\tfname," + "\n\t\tlname,"
    + "\n\t\tphone," + "\n\t\trole_id" + "\n\t\t)" + "\n\tVALUES ($1, $2, $3, $4, $5, "

  const InsertTail: string := ")" + "\n\tRETURNING \"id\";" + "\n\t"

  /** The statement of `Customer` (role "1") or `Admin` (role "2"). */
  function InsertSql(role: string): string
  {
    InsertHead + role + InsertTail
  }

  const CustomerInsertSql: string := InsertSql("1")
  const AdminInsertSql: string := InsertSql("2")

  /** The five values bound to `$1..$5`; the date of birth is not among them. */
  function InsertArgs(req: UserRegisterReq): (r: seq<Value>)
    ensures |r| == 5
  {
    [Str(req.email), Str(req.password), Str(req.firstName), Str(req.lastName), Str(req.phone)]
  }

  /** The date of birth never reaches the statement: requests that differ only in it bind the same values. */
  lemma DobNotBound(req: UserRegisterReq, dob: string)
    ensures InsertArgs(req.(dob := dob)) == InsertArgs(req)
    ensures NewUser("", req.(dob := dob), 0) == NewUser("", req, 0)
  {
  }

  const ResultSql: string :=
    "\n\tSELECT" + "\n\t\t\"u\".\"id\"," + "\n\t\t\"u\".\"email\"," + "\n\t\t\"u\".\"fname\"," + "\n\t\t\"u\".\"lname\","
    + "\n\t\t\"u\".\"phone\"," + "\n\t\t\"u\".\"role_id\"" + "\n\tFROM \"User\" \"u\"" + "\n\tWHERE \"u\".\"id\" = $1;"

  // ---------------------------------------------------------------------------
  // Driver errors

  const DuplicateHead: string := "ERROR: duplicate key value violates unique constraint \""
  const DuplicateTail: string := "\" (SQLSTATE 23505)"

  /** The driver's text for a violated unique constraint. */
  function Duplicate(constraint: string): string
  {
    DuplicateHead + constraint + DuplicateTail
  }

  const EmailTaken: string := "email has been used"
  const PhoneTaken: string := "phone number has been used"
  const InsertFailedPrefix: string := "insert user failed: "

  /** The error `Customer` and `Admin` return for a driver error. */
  function ClassifyInsertError(err: string): string
  {
    if err == Duplicate("User_email_key") then EmailTaken
    else if err == Duplicate("User_phone_key") then PhoneTaken
    else InsertFailedPrefix + err
  }

  /** The two constraint texts differ. */
  lemma DuplicatesDiffer()
    ensures Duplicate("User_email_key") != Duplicate("User_phone_key")
  {
    var k := |DuplicateHead| + 5;
    assert Duplicate("User_email_key")[k] == 'e';
    assert Duplicate("User_phone_key")[k] == 'p';
  }

  /**
   * A duplicate e-mail and a duplicate phone are named; every other driver
   * error is wrapped, and the wrapped text is neither of the two names.
   */
  lemma ClassifyInsertErrorCases(err: string)
    ensures err == Duplicate("User_email_key") ==> ClassifyInsertError(err) == EmailTaken
    ensures err == Duplicate("User_phone_key") ==> ClassifyInsertError(err) == PhoneTaken
    ensures ClassifyInsertError(err) == EmailTaken || ClassifyInsertError(err) == PhoneTaken
      <==> err == Duplicate("User_email_key") || err == Duplicate("User_phone_key")
  {
    DuplicatesDiffer();
    var w := InsertFailedPrefix + err;
    assert w[0] == 'i';
    assert EmailTaken[0] == 'e' && PhoneTaken[0] == 'p';
  }

  /** What `QueryRowContext(...).Scan(&f.id)` reports: the driver's error, or the generated id. */
  datatype ScanOutcome = ScanError(err: string) | ScanId(id: string)

  /** The user row the insert creates: the request's fields and the role; no avatar or date of birth yet. */
  function NewUser(id: string, req: UserRegisterReq, roleId: int): User
  {
    User(id, req.email, req.firstName, req.lastName, req.phone, roleId, "", "")
  }

  // ---------------------------------------------------------------------------
  // The insert object

  /** `userReq`: the request, the database, and the id scanned by the insert. */
  class UserReq {
    var id: string
    const req: UserRegisterReq
    const db: Database

    constructor (db: Database, req: UserRegisterReq)
      ensures this.db == db && this.req == req && id == ""
    {
      this.db := db;
      this.req := req;
      id := "";
    }

    /** The INSERT with `role_id` `roleId`; on success the id is scanned and the row exists. */
    method Insert(sql: string, roleId: int, outcome: ScanOutcome) returns (sent: Statement, err: Option<string>)
      modifies this, db
      ensures sent == Statement(sql, InsertArgs(req))
      ensures outcome.ScanError? ==> (err == Some(ClassifyInsertError(outcome.err))
        && id == old(id) && db.tables == old(db.tables))
      ensures outcome.ScanId? ==> (err == None && id == outcome.id
        && db.tables == old(db.tables).(users := old(db.tables).users[outcome.id := NewUser(outcome.id, req, roleId)]))
    {
      sent := Statement(sql, [Str(req.email), Str(req.password), Str(req.firstName), Str(req.lastName), Str(req.phone)]);
      match outcome
      case ScanError(e) =>
        err := Some(ClassifyInsertError(e));
      case ScanId(newId) =>
        db.tables := db.tables.(users := db.tables.users[newId := NewUser(newId, req, roleId)]);
        id := newId;
        err := None;
    }

    /** `Customer`: the insert with role 1. */
    method Customer(outcome: ScanOutcome) returns (sent: Statement, err: Option<string>)
      modifies this, db
      ensures sent == Statement(CustomerInsertSql, InsertArgs(req))
      ensures outcome.ScanError? ==> (err == Some(ClassifyInsertError(outcome.err))
        && id == old(id) && db.tables == old(db.tables))
      ensures outcome.ScanId? ==> (err == None && id == outcome.id
        && db.tables == old(db.tables).(users := old(db.tables).users[outcome.id := NewUser(outcome.id, req, CustomerRoleId)]))
    {
      sent, err := Insert(CustomerInsertSql, CustomerRoleId, outcome);
    }

    /** `Admin`: the insert with role 2. */
    method Admin(outcome: ScanOutcome) returns (sent: Statement, err: Option<string>)
      modifies this, db
      ensures sent == Statement(AdminInsertSql, InsertArgs(req))
      ensures outcome.ScanError? ==> (err == Some(ClassifyInsertError(outcome.err))
        && id == old(id) && db.tables == old(db.tables))
      ensures outcome.ScanId? ==> (err == None && id == outcome.id
        && db.tables == old(db.tables).(users := old(db.tables).users[outcome.id := NewUser(outcome.id, req, AdminRoleId)]))
    {
      sent, err := Insert(AdminInsertSql, AdminRoleId, outcome);
    }

    /**
     * `Result`: selects the row with the scanned id. `fails` is a driver
     * error other than a missing row; a missing row gives the driver's
     * no-rows error. The query selects six columns, so avatar and dob come
     * back empty whatever the row holds.
     */
    method Result(fails: bool, dbErr: string) returns (user: Option<User>, err: Option<string>)
      ensures !fails && id in db.tables.users ==>
        user == Some(db.tables.users[id].(avatar := "", dob := "")) && err == None
      ensures user.Some? ==> user.value.avatar == "" && user.value.dob == ""
      ensures fails ==> user == None && err == Some("get user failed: " + dbErr)
      ensures !fails && id !in db.tables.users ==> user == None && err == Some("get user failed: " + NoRows)
    {
      if fails {
        return None, Some("get user failed: " + dbErr);
      }
      if id !in db.tables.users {
        return None, Some("get user failed: " + NoRows);
      }
      return Some(db.tables.users[id].(avatar := "", dob := "")), None;
    }
  }

  /** The text of `sql.ErrNoRows`. */
  const NoRows: string := "sql: no rows in result set"

  /** Which insert `InsertUser` prepares: the customer unless the route is the admin one. */
  datatype Kind = CustomerKind | AdminKind

  function KindFor(isAdmin: bool): (k: Kind)
    ensures k == AdminKind <==> isAdmin
  {
    if !isAdmin then CustomerKind else AdminKind
  }

  /**
   * `usersRepository.InsertUser`: the admin insert when `isAdmin`, else the
   * customer insert, then `Result`. The driver's answers are inputs.
   */
  method InsertUser(db: Database, req: UserRegisterReq, isAdmin: bool, outcome: ScanOutcome, resultFails: bool, dbErr: string)
    returns (user: Option<User>, err: Option<string>, sent: Statement)
    modifies db
    ensures sent == Statement(if isAdmin then AdminInsertSql else CustomerInsertSql, InsertArgs(req))
    ensures outcome.ScanError? ==> user == None && err == Some(ClassifyInsertError(outcome.err)) && db.tables == old(db.tables)
    ensures outcome.ScanId? ==> (db.tables
      == old(db.tables).(users := old(db.tables).users[outcome.id := NewUser(outcome.id, req, if isAdmin then AdminRoleId else CustomerRoleId)]))
    ensures outcome.ScanId? && !resultFails ==> (err == None
      && user == Some(NewUser(outcome.id, req, if isAdmin then AdminRoleId else CustomerRoleId)))
    ensures outcome.ScanId? && resultFails ==> user == None && err == Some("get user failed: " + dbErr)
  {
    var u := new UserReq(db, req);
    var kind := KindFor(isAdmin);
    if kind == AdminKind {
      sent, err := u.Admin(outcome);
    } else {
      sent, err := u.Customer(outcome);
    }
    if err.Some? {
      return None, err, sent;
    }
    user, err := u.Result(resultFails, dbErr);
  }

  /** The two inserts differ only in the role literal. */
  lemma InsertSqlRoles()
    ensures CustomerInsertSql == InsertHead + "1" + InsertTail && AdminInsertSql == InsertHead + "2" + InsertTail
    ensures CustomerInsertSql != AdminInsertSql
  {
    assert CustomerInsertSql[|InsertHead|] == '1';
    assert AdminInsertSql[|InsertHead|] == '2';
  }
}
