/**
 * The backend: the User, Report and AuditLog schemas with their defaults, and
 * the handlers that create users, create reports, update a report and list
 * the reports, over an in-memory stand-in for the three collections.
 */
module Server {
  import opened Common

  /** A document identifier; the database assigns fresh ones. */
  type Id = nat

  /** A `Date` value, in milliseconds; the clock is a parameter of the handlers. */
  type Time = int

  /** The `role` enum of the User schema. */
  datatype Role = Community | NGO | Admin

  const RoleNames: set<string> := {"community", "NGO", "admin"}

  function RoleName(r: Role): (s: string)
    ensures s in RoleNames
  {
    match r
    case Community => "community"
    case NGO => "NGO"
    case Admin => "admin"
  }

  /** Casting a string to the `role` enum: defined exactly on the three enum values. */
  function ParseRole(s: string): (r: Option<Role>)
    ensures r.Some? <==> s in RoleNames
    ensures r.Some? ==> RoleName(r.value) == s
  {
    match s
    case "community" => Some(Community)
    case "NGO" => Some(NGO)
    case "admin" => Some(Admin)
    case _ => None
  }

  /** Every role survives printing and parsing back. */
  lemma ParseRoleName(r: Role)
    ensures ParseRole(RoleName(r)) == Some(r)
  {
  }

  /** A stored user. */
  datatype User = User(
    name: Option<string>,
    email: Option<string>,
    phone: Option<string>,
    role: Role,
    points: real,
    badges: seq<string>)

  /** The JSON body of `POST /api/users`: every key may be missing. */
  datatype UserBody = UserBody(
    name: Option<string>,
    email: Option<string>,
    phone: Option<string>,
    role: Option<string>,
    points: Option<real>,
    badges: Option<seq<string>>)

  /** Why a handler answered 400. */
  datatype Error =
    | InvalidEnum(path: string, value: string)  // a schema validator rejected a value
    | DatabaseError(message: string)            // the database call threw

  function GetOr<T>(o: Option<T>, default: T): T
  {
    if o.Some? then o.value else default
  }

  /**
   * `new User(body)` followed by validation: a missing role becomes "community",
   * missing points 0 and missing badges the empty list; a role outside the enum
   * fails validation.
   */
  function NewUser(body: UserBody): (r: Result<User, Error>)
    ensures r.Ok? <==> body.role.None? || body.role.value in RoleNames
    ensures r.Err? ==> r.error == InvalidEnum("role", body.role.value)
    ensures r.Ok? ==> RoleName(r.value.role) == GetOr(body.role, "community")
    ensures r.Ok? ==> r.value.points == GetOr(body.points, 0.0) && r.value.badges == GetOr(body.badges, [])
    ensures r.Ok? ==> r.value.name == body.name && r.value.email == body.email && r.value.phone == body.phone
  {
    var role := if body.role.None? then Some(Community) else ParseRole(body.role.value);
    if role.None? then Err(InvalidEnum("role", body.role.value))
    else Ok(User(body.name, body.email, body.phone, role.value, GetOr(body.points, 0.0), GetOr(body.badges, [])))
  }

  /** A stored report. */
  datatype Report = Report(
    userId: Option<Id>,
    lat: Option<real>,
    lng: Option<real>,
    photoUrl: Option<string>,
    category: Option<string>,
    description: Option<string>,
    timestamp: Time,
    status: string)

  /** The report keys of a request body (`POST /api/reports`, `PUT /api/reports/:id`): every key may be missing. */
  datatype ReportFields = ReportFields(
    userId: Option<Id>,
    lat: Option<real>,
    lng: Option<real>,
    photoUrl: Option<string>,
    category: Option<string>,
    description: Option<string>,
    timestamp: Option<Time>,
    status: Option<string>)

  const NoFields := ReportFields(None, None, None, None, None, None, None, None)

  /** The default status of the Report schema. */
  const Pending := "pending"

  /** Overwrites the keys present in `fields` and keeps every other key. */
  function Apply(r: Report, fields: ReportFields): (u: Report)
    ensures fields == NoFields ==> u == r
  {
    Report(
      if fields.userId.Some? then fields.userId else r.userId,
      if fields.lat.Some? then fields.lat else r.lat,
      if fields.lng.Some? then fields.lng else r.lng,
      if fields.photoUrl.Some? then fields.photoUrl else r.photoUrl,
      if fields.category.Some? then fields.category else r.category,
      if fields.description.Some? then fields.description else r.description,
      GetOr(fields.timestamp, r.timestamp),
      GetOr(fields.status, r.status))
  }

  /** The keys the update names take the values it gives. */
  lemma ApplyWritesNamedKeys(r: Report, fields: ReportFields)
    ensures var u := Apply(r, fields);
      && (fields.userId.Some? ==> u.userId == fields.userId)
      && (fields.lat.Some? ==> u.lat == fields.lat)
      && (fields.lng.Some? ==> u.lng == fields.lng)
      && (fields.photoUrl.Some? ==> u.photoUrl == fields.photoUrl)
      && (fields.category.Some? ==> u.category == fields.category)
      && (fields.description.Some? ==> u.description == fields.description)
      && (fields.timestamp.Some? ==> u.timestamp == fields.timestamp.value)
      && (fields.status.Some? ==> u.status == fields.status.value)
  {
  }

  /** Every key the update does not name keeps its stored value. */
  lemma ApplyKeepsOtherKeys(r: Report, fields: ReportFields)
    ensures var u := Apply(r, fields);
      && (fields.userId.None? ==> u.userId == r.userId)
      && (fields.lat.None? ==> u.lat == r.lat)
      && (fields.lng.None? ==> u.lng == r.lng)
      && (fields.photoUrl.None? ==> u.photoUrl == r.photoUrl)
      && (fields.category.None? ==> u.category == r.category)
      && (fields.description.None? ==> u.description == r.description)
      && (fields.timestamp.None? ==> u.timestamp == r.timestamp)
      && (fields.status.None? ==> u.status == r.status)
  {
  }

  /** Sending the same update twice has the effect of sending it once. */
  lemma ApplyIdempotent(r: Report, fields: ReportFields)
    ensures Apply(Apply(r, fields), fields) == Apply(r, fields)
  {
  }

  /** The keys of `later` win over those of `earlier`. */
  function Override(earlier: ReportFields, later: ReportFields): ReportFields
  {
    ReportFields(
      if later.userId.Some? then later.userId else earlier.userId,
      if later.lat.Some? then later.lat else earlier.lat,
      if later.lng.Some? then later.lng else earlier.lng,
      if later.photoUrl.Some? then later.photoUrl else earlier.photoUrl,
      if later.category.Some? then later.category else earlier.category,
      if later.description.Some? then later.description else earlier.description,
      if later.timestamp.Some? then later.timestamp else earlier.timestamp,
      if later.status.Some? then later.status else earlier.status)
  }

  /** Two updates in a row act as one update in which the later keys win: last write wins. */
  lemma LastWriteWins(r: Report, earlier: ReportFields, later: ReportFields)
    ensures Apply(Apply(r, earlier), later) == Apply(r, Override(earlier, later))
  {
  }

  /**
   * `new Report(body)`: the schema defaults (`timestamp` now, `status`
   * "pending") overwritten by the keys the body has.
   */
  function NewReport(body: ReportFields, now: Time): (r: Report)
    ensures r.status == GetOr(body.status, Pending)
    ensures r.timestamp == GetOr(body.timestamp, now)
    ensures r.userId == body.userId && r.lat == body.lat && r.lng == body.lng && r.photoUrl == body.photoUrl
    ensures r.category == body.category && r.description == body.description
  {
    Apply(Report(None, None, None, None, None, None, now, Pending), body)
  }

  /** A created report reads back, through an update with the same body, unchanged. */
  lemma NewReportAbsorbsBody(body: ReportFields, now: Time)
    ensures Apply(NewReport(body, now), body) == NewReport(body, now)
  {
    ApplyIdempotent(Report(None, None, None, None, None, None, now, Pending), body);
  }

  /** The body of `PUT /api/reports/:id`: the report keys, plus `reviewer`, which the Report schema does not have. */
  datatype UpdateBody = UpdateBody(fields: ReportFields, reviewer: Option<string>)

  /** An AuditLog document. `action` is missing when the body had no `status`. */
  datatype AuditEntry = AuditEntry(reportId: Id, action: Option<string>, reviewer: string, timestamp: Time)

  const SystemReviewer := "system"

  /** `body.reviewer || "system"`: a missing or empty reviewer is recorded as "system". */
  function AuditReviewer(reviewer: Option<string>): (r: string)
    ensures r == SystemReviewer <==> reviewer.None? || reviewer.value == "" || reviewer.value == SystemReviewer
    ensures reviewer.Some? && reviewer.value != "" ==> r == reviewer.value
    ensures r != ""
  {
    if reviewer.Some? && reviewer.value != "" then reviewer.value else SystemReviewer
  }

  /** The answer to a successful `PUT`: the updated report (`null` when no report has the id) and the audit entry. */
  datatype Updated = Updated(report: Option<Report>, log: AuditEntry)

  /** A report with its `userId` populated. */
  datatype Listed = Listed(id: Id, report: Report, user: Option<User>)

  /** `populate("userId")`: the referenced user, or `null` when the key is missing or dangles. */
  function Populate(users: map<Id, User>, userId: Option<Id>): (u: Option<User>)
    ensures u.Some? <==> userId.Some? && userId.value in users
    ensures u.Some? ==> u.value == users[userId.value]
  {
    if userId.Some? && userId.value in users then Some(users[userId.value]) else None
  }

  /**
   * `Report.find().populate("userId")` over the identifiers below `n`: the
   * reports in insertion (identifier) order, each once, each with its user.
   */
  function Listing(reports: map<Id, Report>, users: map<Id, User>, n: nat): (l: seq<Listed>)
    ensures |l| <= n
  {
    if n == 0 then []
    else if n - 1 in reports then
      Listing(reports, users, n - 1) + [Listed(n - 1, reports[n - 1], Populate(users, reports[n - 1].userId))]
    else Listing(reports, users, n - 1)
  }

  lemma ListingStep(reports: map<Id, Report>, users: map<Id, User>, n: nat)
    requires n > 0
    ensures var front := Listing(reports, users, n - 1);
      Listing(reports, users, n) ==
        if n - 1 in reports then front + [Listed(n - 1, reports[n - 1], Populate(users, reports[n - 1].userId))]
        else front
  {
  }

  /** Each listed entry is a stored report below `n`, shown with its populated user. */
  lemma {:induction false} ListingSound(reports: map<Id, Report>, users: map<Id, User>, n: nat)
    ensures forall i | 0 <= i < |Listing(reports, users, n)| ::
      var e := Listing(reports, users, n)[i];
      e.id < n && e.id in reports && e.report == reports[e.id] && e.user == Populate(users, e.report.userId)
  {
    if n > 0 {
      ListingSound(reports, users, n - 1);
      var front := Listing(reports, users, n - 1);
      var l := Listing(reports, users, n);
      ListingStep(reports, users, n);
      forall i | 0 <= i < |l|
        ensures l[i].id < n && l[i].id in reports && l[i].report == reports[l[i].id]
        ensures l[i].user == Populate(users, l[i].report.userId)
      {
        if i < |front| {
          assert l[i] == front[i];
        }
      }
    }
  }

  /** The listing is in strictly increasing identifier order, so no report appears twice. */
  lemma {:induction false} ListingOrdered(reports: map<Id, Report>, users: map<Id, User>, n: nat)
    ensures forall i, j | 0 <= i < j < |Listing(reports, users, n)| ::
      Listing(reports, users, n)[i].id < Listing(reports, users, n)[j].id
  {
    if n > 0 {
      ListingSound(reports, users, n - 1);
      ListingOrdered(reports, users, n - 1);
      var front := Listing(reports, users, n - 1);
      var l := Listing(reports, users, n);
      ListingStep(reports, users, n);
      forall i, j | 0 <= i < j < |l|
        ensures l[i].id < l[j].id
      {
        assert l[i] == front[i];
        if j < |front| {
          assert l[j] == front[j];
        }
      }
    }
  }

  /** Every stored report below `n` is listed. */
  lemma {:induction false} ListingComplete(reports: map<Id, Report>, users: map<Id, User>, n: nat)
    ensures forall id | id in reports && id < n ::
      exists i :: 0 <= i < |Listing(reports, users, n)| && Listing(reports, users, n)[i].id == id
  {
    if n > 0 {
      ListingComplete(reports, users, n - 1);
      var front := Listing(reports, users, n - 1);
      var l := Listing(reports, users, n);
      ListingStep(reports, users, n);
      forall id | id in reports && id < n
        ensures exists i :: 0 <= i < |l| && l[i].id == id
      {
        if id == n - 1 {
          assert l[|l| - 1].id == id;
        } else {
          var i :| 0 <= i < |front| && front[i].id == id;
          assert l[i] == front[i];
        }
      }
    }
  }

  /** The three collections. */
  class Store {
    var users: map<Id, User>
    var reports: map<Id, Report>
    var auditLog: seq<AuditEntry>
    var nextId: nat

    /** Every stored identifier was handed out already, so `nextId` is fresh. */
    ghost predicate Valid()
      reads this
    {
      forall id :: id in users || id in reports ==> id < nextId
    }

    constructor ()
      ensures Valid()
      ensures users == map[] && reports == map[] && auditLog == []
    {
      users, reports, auditLog, nextId := map[], map[], [], 0;
    }

    /**
     * `POST /api/users`. A body that fails validation, or a save that throws,
     * stores nothing; otherwise the user is stored under a fresh identifier.
     * `fault` is the exception the database throws, if any.
     */
    method CreateUser(body: UserBody, fault: Option<string>) returns (res: Result<(Id, User), Error>)
      requires Valid()
      modifies this
      ensures Valid()
      ensures reports == old(reports) && auditLog == old(auditLog)
      ensures NewUser(body).Err? ==> res == Err(NewUser(body).error)
      ensures NewUser(body).Ok? && fault.Some? ==> res == Err(DatabaseError(fault.value))
      ensures res.Err? ==> users == old(users)
      ensures NewUser(body).Ok? && fault.None? ==>
        && res.Ok? && res.value.1 == NewUser(body).value
        && res.value.0 !in old(users) && res.value.0 !in old(reports)
        && users == old(users)[res.value.0 := res.value.1]
    {
      var user := NewUser(body);
      if user.Err? {
        return Err(user.error);
      }
      if fault.Some? {
        return Err(DatabaseError(fault.value));
      }
      var id := nextId;
      users := users[id := user.value];
      nextId := nextId + 1;
      res := Ok((id, user.value));
    }

    /**
     * `POST /api/reports`. A save that throws stores nothing; otherwise the
     * report, with the schema defaults applied, is stored under a fresh identifier.
     */
    method CreateReport(body: ReportFields, now: Time, fault: Option<string>) returns (res: Result<(Id, Report), Error>)
      requires Valid()
      modifies this
      ensures Valid()
      ensures users == old(users) && auditLog == old(auditLog)
      ensures fault.Some? ==> res == Err(DatabaseError(fault.value)) && reports == old(reports)
      ensures fault.None? ==>
        && res.Ok? && res.value.1 == NewReport(body, now)
        && res.value.0 !in old(reports) && res.value.0 !in old(users)
        && reports == old(reports)[res.value.0 := res.value.1]
    {
      if fault.Some? {
        return Err(DatabaseError(fault.value));
      }
      var id := nextId;
      var report := NewReport(body, now);
      reports := reports[id := report];
      nextId := nextId + 1;
      res := Ok((id, report));
    }

    /**
     * `PUT /api/reports/:id`. First the report with that identifier, if there
     * is one, has the body's keys written over it; then one audit entry is
     * saved whether or not a report matched. `updateFault` and `saveFault` are
     * what the two database calls throw, if anything: a throwing update stops
     * before the audit entry is built, a throwing save leaves the update done
     * and the log as it was.
     */
    method UpdateReport(id: Id, body: UpdateBody, now: Time, updateFault: Option<string>, saveFault: Option<string>)
      returns (res: Result<Updated, Error>)
      requires Valid()
      modifies this
      ensures Valid()
      ensures users == old(users) && nextId == old(nextId)
      ensures old(auditLog) <= auditLog && |auditLog| <= |old(auditLog)| + 1
      ensures updateFault.Some? ==>
        res == Err(DatabaseError(updateFault.value)) && reports == old(reports) && auditLog == old(auditLog)
      ensures updateFault.None? ==>
        reports == if id in old(reports) then old(reports)[id := Apply(old(reports)[id], body.fields)] else old(reports)
      ensures updateFault.None? && saveFault.Some? ==>
        res == Err(DatabaseError(saveFault.value)) && auditLog == old(auditLog)
      ensures updateFault.None? && saveFault.None? ==>
        && auditLog == old(auditLog) + [AuditEntry(id, body.fields.status, AuditReviewer(body.reviewer), now)]
        && res == Ok(Updated(if id in reports then Some(reports[id]) else None, auditLog[|auditLog| - 1]))
    {
      if updateFault.Some? {
        return Err(DatabaseError(updateFault.value));
      }
      var report: Option<Report> := None;
      if id in reports {
        reports := reports[id := Apply(reports[id], body.fields)];
        report := Some(reports[id]);
      }
      var log := AuditEntry(id, body.fields.status, AuditReviewer(body.reviewer), now);
      if saveFault.Some? {
        return Err(DatabaseError(saveFault.value));
      }
      auditLog := auditLog + [log];
      res := Ok(Updated(report, log));
    }

    /** `GET /api/reports`: every stored report once, in insertion order, with its user. */
    function ListReports(): (l: seq<Listed>)
      reads this
      requires Valid()
      ensures forall i :: 0 <= i < |l| ==> l[i].id in reports && l[i].report == reports[l[i].id]
      ensures forall i :: 0 <= i < |l| ==> l[i].user == Populate(users, l[i].report.userId)
      ensures forall i, j :: 0 <= i < j < |l| ==> l[i].id < l[j].id
      ensures forall id :: id in reports ==> exists i :: 0 <= i < |l| && l[i].id == id
    {
      ListingSound(reports, users, nextId);
      ListingOrdered(reports, users, nextId);
      ListingComplete(reports, users, nextId);
      var l := Listing(reports, users, nextId);
      l
    }
  }

  /**
   * The scenario of a report being resolved by a reviewer: it is created
   * pending, updated to "resolved" by "ngo_alice", and the log then holds
   * exactly that one entry.
   */
  method ResolveScenario(now: Time)
  {
    var store := new Store();
    var created := store.CreateReport(
      ReportFields(None, None, None, None, Some("Illegal Logging"), Some("Trees cut near the estuary"), None, Some(Pending)), now, None);
    var (id, report) := created.value;
    assert report.status == Pending;
    var updated := store.UpdateReport(
      id, UpdateBody(NoFields.(status := Some("resolved")), Some("ngo_alice")), now + 1, None, None);
    assert updated.Ok?;
    assert updated.value.report.Some? && updated.value.report.value.status == "resolved";
    assert updated.value.log.action == Some("resolved") && updated.value.log.reviewer == "ngo_alice";
    assert store.auditLog == [updated.value.log];
  }
}
