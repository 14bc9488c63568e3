/**
 * The `mission_users` collection: one participation record per (user, mission) application and
 * the life cycle APPLIED -> ACCEPTED -> IN_PROGRESS -> COMPLETED, with REJECTED and WITHDRAWN
 * reachable from any status. Starting, completing and rating check the current status;
 * accepting, rejecting and withdrawing only need the record to exist.
 */
module MissionUsers {
  import opened Wrappers
  import opened Store

  datatype Status = Applied | Accepted | InProgress | Completed | Rejected | Withdrawn

  /** The proof a participant hands to `completeMission`. */
  datatype ProofInput = ProofInput(images: Option<seq<string>>, description: Option<string>, location: Option<GeoPoint>)

  /** The stored proof: the submitted one stamped with the time of completion. */
  datatype CompletionProof =
    CompletionProof(images: Option<seq<string>>, description: Option<string>, location: Option<GeoPoint>, timestamp: nat)

  datatype MissionUser = MissionUser(
    userId: string,
    missionId: string,
    status: Status,
    appliedAt: nat,
    acceptedAt: Option<nat>,
    completedAt: Option<nat>,
    rejectedAt: Option<nat>,
    rejectionReason: Option<string>,
    completionProof: Option<CompletionProof>,
    userRating: Option<real>,      // given by the mission proposer
    proposerRating: Option<real>,  // given by the participant
    feedback: Option<string>,
    createdAt: nat,
    updatedAt: nat)

  /** `UpdateMissionUserData`: any field except the id and the two bookkeeping stamps. */
  datatype Patch = Patch(
    userId: Write<string>,
    missionId: Write<string>,
    status: Write<Status>,
    appliedAt: Write<nat>,
    acceptedAt: Write<nat>,
    completedAt: Write<nat>,
    rejectedAt: Write<nat>,
    rejectionReason: Write<string>,
    completionProof: Write<CompletionProof>,
    userRating: Write<real>,
    proposerRating: Write<real>,
    feedback: Write<string>)

  const NoChange := Patch(Keep, Keep, Keep, Keep, Keep, Keep, Keep, Keep, Keep, Keep, Keep, Keep)

  /** Writing a given value into an optional field. */
  function Onto<T>(w: Write<T>, current: Option<T>): Option<T> {
    match w
    case Keep => current
    case Put(v) => Some(v)
  }

  /** `{...m, ...p}`: the given fields replace the stored ones. */
  function Merge(m: MissionUser, p: Patch): MissionUser {
    MissionUser(
      p.userId.Apply(m.userId), p.missionId.Apply(m.missionId), p.status.Apply(m.status),
      p.appliedAt.Apply(m.appliedAt), Onto(p.acceptedAt, m.acceptedAt), Onto(p.completedAt, m.completedAt),
      Onto(p.rejectedAt, m.rejectedAt), Onto(p.rejectionReason, m.rejectionReason),
      Onto(p.completionProof, m.completionProof), Onto(p.userRating, m.userRating),
      Onto(p.proposerRating, m.proposerRating), Onto(p.feedback, m.feedback),
      m.createdAt, m.updatedAt)
  }

  /** `updateMissionUser`'s write: the patch plus a fresh `updatedAt`. */
  function Updated(m: MissionUser, p: Patch, now: nat): (r: MissionUser)
    ensures r.updatedAt == now && r.createdAt == m.createdAt
    ensures p.userId.Keep? ==> r.userId == m.userId
    ensures p.missionId.Keep? ==> r.missionId == m.missionId
    ensures p.status.Keep? ==> r.status == m.status
    ensures p.appliedAt.Keep? ==> r.appliedAt == m.appliedAt
    ensures p.acceptedAt.Keep? ==> r.acceptedAt == m.acceptedAt
    ensures p.completedAt.Keep? ==> r.completedAt == m.completedAt
    ensures p.rejectedAt.Keep? ==> r.rejectedAt == m.rejectedAt
    ensures p.rejectionReason.Keep? ==> r.rejectionReason == m.rejectionReason
    ensures p.completionProof.Keep? ==> r.completionProof == m.completionProof
    ensures p.userRating.Keep? ==> r.userRating == m.userRating
    ensures p.proposerRating.Keep? ==> r.proposerRating == m.proposerRating
    ensures p.feedback.Keep? ==> r.feedback == m.feedback
    ensures p.status.Put? ==> r.status == p.status.value
    ensures p.userId.Put? ==> r.userId == p.userId.value
    ensures p.missionId.Put? ==> r.missionId == p.missionId.value
    ensures p.appliedAt.Put? ==> r.appliedAt == p.appliedAt.value
    ensures p.acceptedAt.Put? ==> r.acceptedAt == Some(p.acceptedAt.value)
    ensures p.completedAt.Put? ==> r.completedAt == Some(p.completedAt.value)
    ensures p.rejectedAt.Put? ==> r.rejectedAt == Some(p.rejectedAt.value)
    ensures p.rejectionReason.Put? ==> r.rejectionReason == Some(p.rejectionReason.value)
    ensures p.completionProof.Put? ==> r.completionProof == Some(p.completionProof.value)
    ensures p.userRating.Put? ==> r.userRating == Some(p.userRating.value)
    ensures p.proposerRating.Put? ==> r.proposerRating == Some(p.proposerRating.value)
    ensures p.feedback.Put? ==> r.feedback == Some(p.feedback.value)
  {
    Merge(m, p).(updatedAt := now)
  }

  /** An empty patch only moves `updatedAt`. */
  lemma UpdatedWithNothing(m: MissionUser, now: nat)
    ensures Updated(m, NoChange, now) == m.(updatedAt := now)
  {
  }

  /** The record `applyForMission` writes: APPLIED, stamped `now`, then `additionalData` on top. */
  function NewMissionUser(userId: string, missionId: string, additional: Patch, now: nat): (r: MissionUser)
    ensures r.createdAt == now && r.updatedAt == now
    ensures r.status == additional.status.Apply(Applied)
    ensures r.appliedAt == additional.appliedAt.Apply(now)
    ensures r.userId == additional.userId.Apply(userId) && r.missionId == additional.missionId.Apply(missionId)
  {
    Merge(MissionUser(userId, missionId, Applied, now, None, None, None, None, None, None, None, None, now, now), additional)
  }

  /** Without additional data the new record is a bare application with three equal stamps. */
  lemma FreshApplication(userId: string, missionId: string, now: nat)
    ensures var r := NewMissionUser(userId, missionId, NoChange, now);
      && r.userId == userId && r.missionId == missionId && r.status == Applied
      && r.appliedAt == r.createdAt == r.updatedAt == now
      && r.acceptedAt.None? && r.completedAt.None? && r.rejectedAt.None? && r.completionProof.None?
      && r.userRating.None? && r.proposerRating.None? && r.feedback.None?
  {
  }

  /** Who gives a rating; `'proposer'` is the default. */
  datatype Rater = ByUser | ByProposer

  /** The state-changing services, with their arguments. */
  datatype Op =
    | Accept
    | Reject(reason: Option<string>)
    | Start
    | Complete(proof: Option<ProofInput>)
    | Withdraw
    | Rate(rating: real, feedback: Option<string>, ratedBy: Rater)

  const ApplicationNotFound := "Mission application not found"
  const ParticipationNotFound := "Mission participation not found"
  const MustBeAccepted := "Mission must be accepted before starting"
  const MustBeInProgress := "Mission must be in progress to complete"
  const MustBeCompleted := "Mission must be completed before rating"

  /** The error each service throws when there is no record for the pair. */
  function NotFound(op: Op): (e: string)
    ensures e == ApplicationNotFound <==> op.Accept? || op.Reject?
  {
    match op
    case Accept => ApplicationNotFound
    case Reject(_) => ApplicationNotFound
    case _ => ParticipationNotFound
  }

  /** The status a service insists on before writing, with the error it throws otherwise. */
  function Requirement(op: Op): Option<(Status, string)> {
    match op
    case Start => Some((Accepted, MustBeAccepted))
    case Complete(_) => Some((InProgress, MustBeInProgress))
    case Rate(_, _, _) => Some((Completed, MustBeCompleted))
    case _ => None
  }

  /** The patch each service passes to `updateMissionUser`. */
  function OpPatch(op: Op, now: nat): Patch {
    match op
    case Accept => NoChange.(status := Put(Accepted), acceptedAt := Put(now))
    case Reject(reason) => NoChange.(status := Put(Rejected), rejectedAt := Put(now), rejectionReason := WriteIfGiven(reason))
    case Start => NoChange.(status := Put(InProgress))
    case Complete(proof) =>
      var stored := match proof
        case None => Keep
        case Some(p) => Put(CompletionProof(p.images, p.description, p.location, now));
      NoChange.(status := Put(Completed), completedAt := Put(now), completionProof := stored)
    case Withdraw => NoChange.(status := Put(Withdrawn))
    case Rate(rating, feedback, ratedBy) =>
      match ratedBy
      case ByProposer => NoChange.(feedback := WriteIfGiven(feedback), userRating := Put(rating))
      case ByUser => NoChange.(feedback := WriteIfGiven(feedback), proposerRating := Put(rating))
  }

  /** What a service does to the record it found: check the status, then write. */
  function Perform(m: MissionUser, op: Op, now: nat): (r: Result<MissionUser, string>)
    ensures r.Err? <==> Requirement(op).Some? && m.status != Requirement(op).value.0
    ensures r.Err? ==> r.error == Requirement(op).value.1
    ensures r.Ok? ==> r.value.updatedAt == now && r.value.createdAt == m.createdAt
    ensures r.Ok? ==> r.value.userId == m.userId && r.value.missionId == m.missionId
  {
    match Requirement(op)
    case Some((required, error)) => if m.status != required then Err(error) else Ok(Updated(m, OpPatch(op, now), now))
    case None => Ok(Updated(m, OpPatch(op, now), now))
  }

  /** Accepting, rejecting and withdrawing succeed from every status. */
  lemma UnguardedTransitions(m: MissionUser, reason: Option<string>, now: nat)
    ensures Perform(m, Accept, now) == Ok(m.(status := Accepted, acceptedAt := Some(now), updatedAt := now))
    ensures Perform(m, Reject(reason), now)
         == Ok(m.(status := Rejected, rejectedAt := Some(now), rejectionReason := Onto(WriteIfGiven(reason), m.rejectionReason), updatedAt := now))
    ensures Perform(m, Withdraw, now) == Ok(m.(status := Withdrawn, updatedAt := now))
  {
  }

  /** Starting needs ACCEPTED and changes nothing but the status (and `updatedAt`). */
  lemma StartTransition(m: MissionUser, now: nat)
    ensures Perform(m, Start, now)
         == if m.status == Accepted then Ok(m.(status := InProgress, updatedAt := now)) else Err(MustBeAccepted)
  {
  }

  /** Completing needs IN_PROGRESS; a proof is stored, stamped, only when one is supplied. */
  lemma CompleteTransition(m: MissionUser, proof: Option<ProofInput>, now: nat)
    ensures m.status != InProgress ==> Perform(m, Complete(proof), now) == Err(MustBeInProgress)
    ensures m.status == InProgress && proof.None? ==>
      Perform(m, Complete(proof), now) == Ok(m.(status := Completed, completedAt := Some(now), updatedAt := now))
    ensures m.status == InProgress && proof.Some? ==>
      Perform(m, Complete(proof), now)
      == Ok(m.(status := Completed, completedAt := Some(now), updatedAt := now,
               completionProof := Some(CompletionProof(proof.value.images, proof.value.description, proof.value.location, now))))
  {
  }

  /** Rating needs COMPLETED; a proposer's rating goes to `userRating`, anyone else's to `proposerRating`. */
  lemma RateTransition(m: MissionUser, rating: real, feedback: Option<string>, ratedBy: Rater, now: nat)
    ensures m.status != Completed ==> Perform(m, Rate(rating, feedback, ratedBy), now) == Err(MustBeCompleted)
    ensures m.status == Completed && ratedBy == ByProposer ==>
      Perform(m, Rate(rating, feedback, ratedBy), now)
      == Ok(m.(userRating := Some(rating), feedback := Onto(WriteIfGiven(feedback), m.feedback), updatedAt := now))
    ensures m.status == Completed && ratedBy == ByUser ==>
      Perform(m, Rate(rating, feedback, ratedBy), now)
      == Ok(m.(proposerRating := Some(rating), feedback := Onto(WriteIfGiven(feedback), m.feedback), updatedAt := now))
  {
  }

  /** The record a (user, mission) lookup finds. */
  function PairFilter(userId: string, missionId: string): MissionUser -> bool {
    (d: MissionUser) => d.userId == userId && d.missionId == missionId
  }

  /** `getMissionUserByUserAndMission`: the matching record with the smallest id, if any. */
  function FindPair(docs: map<nat, MissionUser>, bound: nat, userId: string, missionId: string): (r: Option<Row<MissionUser>>)
    ensures r.None? <==> forall id :: id in docs && id < bound ==> !(docs[id].userId == userId && docs[id].missionId == missionId)
    ensures r.Some? ==> r.value.id in docs && docs[r.value.id] == r.value.doc
    ensures r.Some? ==> r.value.doc.userId == userId && r.value.doc.missionId == missionId
    ensures r.Some? ==> forall id :: id in docs && id < bound && docs[id].userId == userId && docs[id].missionId == missionId
                                ==> r.value.id <= id
  {
    FirstMatchIsSmallest(docs, bound, PairFilter(userId, missionId));
    First(Where(Scan(docs, bound), PairFilter(userId, missionId)))
  }

  /** One service call on the whole collection: the error it throws, or the updated collection. */
  function Step(docs: map<nat, MissionUser>, bound: nat, userId: string, missionId: string, op: Op, now: nat)
    : (r: (Outcome<string>, map<nat, MissionUser>))
    ensures r.0.Fail? ==> r.1 == docs
    ensures r.1.Keys == docs.Keys
  {
    match FindPair(docs, bound, userId, missionId)
    case None => (Fail(NotFound(op)), docs)
    case Some(row) =>
      match Perform(row.doc, op, now)
      case Err(e) => (Fail(e), docs)
      case Ok(m) => (Pass, docs[row.id := m])
  }

  /**
   * A call fails with the not-found error exactly when no record exists for the pair, fails with
   * the status error exactly when the record found has the wrong status, and otherwise rewrites
   * that one record and no other.
   */
  lemma StepOutcome(docs: map<nat, MissionUser>, bound: nat, userId: string, missionId: string, op: Op, now: nat)
    ensures var (out, after) := Step(docs, bound, userId, missionId, op, now);
      match FindPair(docs, bound, userId, missionId)
      case None => out == Fail(NotFound(op))
      case Some(row) =>
        && (out.Fail? <==> Requirement(op).Some? && row.doc.status != Requirement(op).value.0)
        && (out.Pass? ==> after == docs[row.id := Perform(row.doc, op, now).value])
        && (forall id :: id in docs && id != row.id ==> after[id] == docs[id])
  {
  }

  /** The statuses `getUserActiveMissions` collects. */
  predicate Active(s: Status) {
    s == InProgress || s == Accepted
  }

  /** The filters `getMissionUsers` understands; an empty string counts as absent. */
  datatype Filters = Filters(
    userId: Option<string>,
    missionId: Option<string>,
    status: Option<Status>,
    limit: nat,
    orderByField: Option<Field>,
    orderDirection: Option<Direction>)

  /** The numeric fields a query can order by. */
  datatype Field = AppliedAt | AcceptedAt | CompletedAt | RejectedAt | CreatedAt | UpdatedAt

  function Key(f: Field): MissionUser -> Option<int> {
    match f
    case AppliedAt => (d: MissionUser) => Some(d.appliedAt)
    case AcceptedAt => (d: MissionUser) => OptionInt(d.acceptedAt)
    case CompletedAt => (d: MissionUser) => OptionInt(d.completedAt)
    case RejectedAt => (d: MissionUser) => OptionInt(d.rejectedAt)
    case CreatedAt => (d: MissionUser) => Some(d.createdAt)
    case UpdatedAt => (d: MissionUser) => Some(d.updatedAt)
  }

  function OptionInt(o: Option<nat>): Option<int> {
    match o
    case None => None
    case Some(v) => Some(v)
  }

  predicate Truthy(s: Option<string>) {
    s.Some? && s.value != ""
  }

  /** The conjunction of the `where` clauses a filter set adds. */
  predicate Matches(f: Filters, d: MissionUser) {
    && (Truthy(f.userId) ==> d.userId == f.userId.value)
    && (Truthy(f.missionId) ==> d.missionId == f.missionId.value)
    && (f.status.Some? ==> d.status == f.status.value)
  }

  /** The order a filter set asks for: the given field and direction, else `createdAt` descending. */
  function OrderOf(f: Filters): (Field, Direction) {
    match f.orderByField
    case Some(field) => (field, f.orderDirection.GetOr(Desc))
    case None => (CreatedAt, Desc)
  }

  /** Filters that only select by user and status. */
  function UserStatus(userId: string, status: Status): Filters {
    Filters(Some(userId), None, Some(status), 0, None, None)
  }

  /** Filters that only select by mission and status. */
  function MissionStatus(missionId: string, status: Status): Filters {
    Filters(None, Some(missionId), Some(status), 0, None, None)
  }

  /** The statistics `getUserMissionStats` reports. */
  datatype Stats = Stats(totalApplied: nat, totalAccepted: nat, totalCompleted: nat, totalRejected: nat, averageRating: real)

  function CountStatus(rows: seq<Row<MissionUser>>, s: Status): (n: nat)
    ensures n <= |rows|
  {
    if rows == [] then 0 else (if rows[0].doc.status == s then 1 else 0) + CountStatus(rows[1..], s)
  }

  /** A rating counts when it is truthy: present and not zero. */
  predicate Rated(m: MissionUser) {
    m.userRating.Some? && m.userRating.value != 0.0
  }

  function RatingCount(rows: seq<Row<MissionUser>>): (n: nat)
    ensures n <= |rows|
  {
    if rows == [] then 0 else (if Rated(rows[0].doc) then 1 else 0) + RatingCount(rows[1..])
  }

  function RatingSum(rows: seq<Row<MissionUser>>): real {
    if rows == [] then 0.0 else (if Rated(rows[0].doc) then rows[0].doc.userRating.value else 0.0) + RatingSum(rows[1..])
  }

  /** The user a listing asks for; an empty id selects every record. */
  predicate OwnedBy(userId: string, m: MissionUser) {
    userId != "" ==> m.userId == userId
  }

  /** The ids of the user's records, with the given status when one is given. */
  function RecordsOf(docs: map<nat, MissionUser>, userId: string, status: Option<Status>): set<nat> {
    set id | id in docs && OwnedBy(userId, docs[id]) && (status.Some? ==> docs[id].status == status.value)
  }

  /** Below a bound past every id, the records of the user are the ids a filter for them selects. */
  lemma RecordsAreIds(docs: map<nat, MissionUser>, bound: nat, userId: string, status: Option<Status>, p: MissionUser -> bool)
    requires forall id :: id in docs ==> id < bound
    requires forall d :: p(d) == (OwnedBy(userId, d) && (status.Some? ==> d.status == status.value))
    ensures IdsWhere(docs, bound, p) == RecordsOf(docs, userId, status)
  {
  }

  /** Counting a status is filtering by it. */
  lemma {:induction false} CountStatusIsWhere(rows: seq<Row<MissionUser>>, s: Status, q: MissionUser -> bool)
    requires forall d :: q(d) == (d.status == s)
    ensures CountStatus(rows, s) == |Where(rows, q)|
  {
    if rows != [] {
      CountStatusIsWhere(rows[1..], s, q);
    }
  }

  /** Some rating counts exactly when some record carries a truthy rating. */
  lemma {:induction false} RatingCountPositive(rows: seq<Row<MissionUser>>)
    ensures RatingCount(rows) > 0 <==> exists row :: row in rows && Rated(row.doc)
  {
    if rows != [] {
      RatingCountPositive(rows[1..]);
      assert forall row :: row in rows <==> row == rows[0] || row in rows[1..];
    }
  }

  /** The statistics of a user's records. */
  function StatsOf(rows: seq<Row<MissionUser>>): (s: Stats)
    ensures s.totalApplied == |rows|
    ensures s.totalAccepted == CountStatus(rows, Accepted)
    ensures s.totalCompleted == CountStatus(rows, Completed)
    ensures s.totalRejected == CountStatus(rows, Rejected)
    ensures RatingCount(rows) == 0 ==> s.averageRating == 0.0
    ensures RatingCount(rows) > 0 ==> s.averageRating * (RatingCount(rows) as real) == RatingSum(rows)
  {
    var count := RatingCount(rows);
    Stats(|rows|, CountStatus(rows, Accepted), CountStatus(rows, Completed), CountStatus(rows, Rejected),
          if count > 0 then RatingSum(rows) / (count as real) else 0.0)
  }

  /** The per-status counts partition the records. */
  lemma {:induction false} CountsPartition(rows: seq<Row<MissionUser>>)
    ensures CountStatus(rows, Applied) + CountStatus(rows, Accepted) + CountStatus(rows, InProgress)
          + CountStatus(rows, Completed) + CountStatus(rows, Rejected) + CountStatus(rows, Withdrawn) == |rows|
  {
    if rows != [] {
      CountsPartition(rows[1..]);
    }
  }

  /** So the three reported counts never exceed the number of applications. */
  lemma StatsCountsBounded(rows: seq<Row<MissionUser>>)
    ensures var s := StatsOf(rows); s.totalAccepted + s.totalCompleted + s.totalRejected <= s.totalApplied
  {
    CountsPartition(rows);
  }

  /** `n` copies of `x` added up. */
  function Times(n: nat, x: real): real {
    if n == 0 then 0.0 else Times(n - 1, x) + x
  }

  lemma {:induction false} TimesIsProduct(n: nat, x: real)
    ensures Times(n, x) == (n as real) * x
  {
    if n > 0 {
      TimesIsProduct(n - 1, x);
      assert (n as real) * x == ((n - 1) as real) * x + x;
    }
  }

  lemma {:induction false} RatingSumBounds(rows: seq<Row<MissionUser>>, lo: real, hi: real)
    requires forall row :: row in rows && Rated(row.doc) ==> lo <= row.doc.userRating.value <= hi
    ensures Times(RatingCount(rows), lo) <= RatingSum(rows) <= Times(RatingCount(rows), hi)
  {
    if rows != [] {
      var rest := rows[1..];
      assert forall row :: row in rest ==> row in rows;
      RatingSumBounds(rest, lo, hi);
      if Rated(rows[0].doc) {
        assert rows[0] in rows;
      }
    }
  }

  /** The average of ratings that all lie in [lo, hi] lies in [lo, hi] too. */
  lemma AverageWithinBounds(rows: seq<Row<MissionUser>>, lo: real, hi: real)
    requires forall row :: row in rows && Rated(row.doc) ==> lo <= row.doc.userRating.value <= hi
    requires RatingCount(rows) > 0
    ensures lo <= StatsOf(rows).averageRating <= hi
  {
    RatingSumBounds(rows, lo, hi);
    QuotientBounds(RatingCount(rows), RatingSum(rows), lo, hi);
    AverageIsQuotient(rows);
  }

  /** A sum between `n` copies of `lo` and `n` copies of `hi`, divided by `n`. */
  lemma QuotientBounds(n: nat, sum: real, lo: real, hi: real)
    requires n > 0 && Times(n, lo) <= sum <= Times(n, hi)
    ensures lo <= sum / (n as real) <= hi
  {
    ProductBounds(n, sum, lo, hi);
    DivisionBounds(sum, n as real, lo, hi);
  }

  lemma AverageIsQuotient(rows: seq<Row<MissionUser>>)
    requires RatingCount(rows) > 0
    ensures StatsOf(rows).averageRating == RatingSum(rows) / (RatingCount(rows) as real)
  {
  }

  lemma ProductBounds(n: nat, sum: real, lo: real, hi: real)
    requires Times(n, lo) <= sum <= Times(n, hi)
    ensures (n as real) * lo <= sum <= (n as real) * hi
  {
    TimesIsProduct(n, lo);
    TimesIsProduct(n, hi);
  }

  lemma DivisionBounds(sum: real, c: real, lo: real, hi: real)
    requires c > 0.0 && c * lo <= sum <= c * hi
    ensures lo <= sum / c <= hi
  {
    assert sum / c * c == sum;
  }

  /** The facts `getUserActiveMissions` gets from concatenating its two queries. */
  lemma ActiveConcat(inProgress: seq<Row<MissionUser>>, accepted: seq<Row<MissionUser>>, userId: string)
    requires forall row :: row in inProgress ==> row.doc.status == InProgress && (userId != "" ==> row.doc.userId == userId)
    requires forall row :: row in accepted ==> row.doc.status == Accepted && (userId != "" ==> row.doc.userId == userId)
    ensures var r := inProgress + accepted;
      && (forall row :: row in r ==> (row in inProgress || row in accepted) && Active(row.doc.status) && (userId != "" ==> row.doc.userId == userId))
      && (forall i, j :: 0 <= i < j < |r| && r[j].doc.status == InProgress ==> r[i].doc.status == InProgress)
  {
    var r := inProgress + accepted;
    assert forall i :: 0 <= i < |inProgress| ==> r[i] == inProgress[i];
    assert forall i :: |inProgress| <= i < |r| ==> r[i] == accepted[i - |inProgress|];
    assert forall i :: |inProgress| <= i < |r| ==> r[i].doc.status == Accepted;
  }

  class MissionUserService {
    var docs: map<nat, MissionUser>
    var nextId: nat

    /** Every stored id was handed out already. */
    predicate Valid()
      reads this
    {
      forall id :: id in docs ==> id < nextId
    }

    constructor ()
      ensures Valid() && docs == map[] && nextId == 0
    {
      docs := map[];
      nextId := 0;
    }

    /** `applyForMission`: stores a new record under a fresh id and returns that id. */
    method ApplyForMission(userId: string, missionId: string, additional: Patch, now: nat) returns (id: nat)
      requires Valid()
      modifies this
      ensures Valid()
      ensures id == old(nextId) && id !in old(docs) && nextId == old(nextId) + 1
      ensures docs == old(docs)[id := NewMissionUser(userId, missionId, additional, now)]
    {
      id := nextId;
      docs := docs[id := NewMissionUser(userId, missionId, additional, now)];
      nextId := nextId + 1;
    }

    /** `getMissionUserById`. */
    function GetMissionUserById(id: nat): (r: Option<MissionUser>)
      reads this
      ensures r.Some? <==> id in docs
      ensures r.Some? ==> r.value == docs[id]
    {
      if id in docs then Some(docs[id]) else None
    }

    /** `getMissionUserByUserAndMission`. */
    function GetMissionUserByUserAndMission(userId: string, missionId: string): (r: Option<Row<MissionUser>>)
      reads this
      requires Valid()
      ensures r.None? <==> forall id :: id in docs ==> !(docs[id].userId == userId && docs[id].missionId == missionId)
      ensures r.Some? ==> r.value.id in docs && docs[r.value.id] == r.value.doc
      ensures r.Some? ==> r.value.doc.userId == userId && r.value.doc.missionId == missionId
    {
      FindPair(docs, nextId, userId, missionId)
    }

    /**
     * `updateMissionUser`: writes the patch and a fresh `updatedAt`; updating a record that does
     * not exist is an error of the store.
     */
    method UpdateMissionUser(id: nat, patch: Patch, now: nat) returns (r: Outcome<string>)
      requires Valid()
      modifies this
      ensures Valid() && nextId == old(nextId)
      ensures id in old(docs) ==> r == Pass && docs == old(docs)[id := Updated(old(docs)[id], patch, now)]
      ensures id !in old(docs) ==> r == Fail(NoDocumentToUpdate) && docs == old(docs)
    {
      if id !in docs {
        return Fail(NoDocumentToUpdate);
      }
      docs := docs[id := Updated(docs[id], patch, now)];
      r := Pass;
    }

    /** `deleteMissionUser`: removing an absent record is not an error. */
    method DeleteMissionUser(id: nat)
      requires Valid()
      modifies this
      ensures Valid() && nextId == old(nextId)
      ensures docs == old(docs) - {id}
    {
      docs := docs - {id};
    }

    /** The read-check-write shared by the six transition services. */
    method Transition(userId: string, missionId: string, op: Op, now: nat) returns (r: Outcome<string>)
      requires Valid()
      modifies this
      ensures Valid() && nextId == old(nextId)
      ensures (r, docs) == Step(old(docs), old(nextId), userId, missionId, op, now)
    {
      var found := GetMissionUserByUserAndMission(userId, missionId);
      if found.None? {
        return Fail(NotFound(op));
      }
      var row := found.value;
      var result := Perform(row.doc, op, now);
      if result.Err? {
        return Fail(result.error);
      }
      docs := docs[row.id := result.value];
      r := Pass;
    }

    /** `acceptApplication` (the `acceptedBy` argument is unused). */
    method AcceptApplication(userId: string, missionId: string, now: nat) returns (r: Outcome<string>)
      requires Valid()
      modifies this
      ensures Valid() && nextId == old(nextId)
      ensures (r, docs) == Step(old(docs), old(nextId), userId, missionId, Accept, now)
    {
      r := Transition(userId, missionId, Accept, now);
    }

    /** `rejectApplication`. */
    method RejectApplication(userId: string, missionId: string, reason: Option<string>, now: nat) returns (r: Outcome<string>)
      requires Valid()
      modifies this
      ensures Valid() && nextId == old(nextId)
      ensures (r, docs) == Step(old(docs), old(nextId), userId, missionId, Reject(reason), now)
    {
      r := Transition(userId, missionId, Reject(reason), now);
    }

    /** `startMission`. */
    method StartMission(userId: string, missionId: string, now: nat) returns (r: Outcome<string>)
      requires Valid()
      modifies this
      ensures Valid() && nextId == old(nextId)
      ensures (r, docs) == Step(old(docs), old(nextId), userId, missionId, Start, now)
    {
      r := Transition(userId, missionId, Start, now);
    }

    /** `completeMission`. */
    method CompleteMission(userId: string, missionId: string, proof: Option<ProofInput>, now: nat) returns (r: Outcome<string>)
      requires Valid()
      modifies this
      ensures Valid() && nextId == old(nextId)
      ensures (r, docs) == Step(old(docs), old(nextId), userId, missionId, Complete(proof), now)
    {
      r := Transition(userId, missionId, Complete(proof), now);
    }

    /** `withdrawFromMission`. */
    method WithdrawFromMission(userId: string, missionId: string, now: nat) returns (r: Outcome<string>)
      requires Valid()
      modifies this
      ensures Valid() && nextId == old(nextId)
      ensures (r, docs) == Step(old(docs), old(nextId), userId, missionId, Withdraw, now)
    {
      r := Transition(userId, missionId, Withdraw, now);
    }

    /** `rateMissionParticipant`; callers that omit `ratedBy` pass `ByProposer`. */
    method RateMissionParticipant(userId: string, missionId: string, rating: real, feedback: Option<string>, ratedBy: Rater, now: nat)
      returns (r: Outcome<string>)
      requires Valid()
      modifies this
      ensures Valid() && nextId == old(nextId)
      ensures (r, docs) == Step(old(docs), old(nextId), userId, missionId, Rate(rating, feedback, ratedBy), now)
    {
      r := Transition(userId, missionId, Rate(rating, feedback, ratedBy), now);
    }

    /** `hasUserApplied`: whether a record exists for the pair. */
    function HasUserApplied(userId: string, missionId: string): (r: bool)
      reads this
      requires Valid()
      ensures r <==> exists id :: id in docs && docs[id].userId == userId && docs[id].missionId == missionId
    {
      GetMissionUserByUserAndMission(userId, missionId).Some?
    }

    /**
     * `getMissionUsers`: the records matching every given filter, in the requested order (documents
     * lacking the order field drop out), at most `limit` of them when a limit is given.
     */
    function GetMissionUsers(f: Filters): (r: seq<Row<MissionUser>>)
      reads this
      requires Valid()
      ensures forall row :: row in r ==> row.id in docs && docs[row.id] == row.doc && Matches(f, row.doc)
      ensures SortedBy(r, Key(OrderOf(f).0), OrderOf(f).1)
      ensures f.limit > 0 ==> |r| <= f.limit
    {
      Query(Scan(docs, nextId), (d: MissionUser) => Matches(f, d), Key(OrderOf(f).0), OrderOf(f).1, None, f.limit)
    }

    /**
     * With a limit, nothing that should come first is left out: a matching record that carries the
     * order field and is missing means the listing is full and every listed record precedes it.
     */
    lemma GetMissionUsersTopN(f: Filters, id: nat)
      requires Valid()
      requires id in docs && Matches(f, docs[id]) && Key(OrderOf(f).0)(docs[id]).Some?
      requires Row(id, docs[id]) !in GetMissionUsers(f)
      ensures f.limit > 0 && |GetMissionUsers(f)| == f.limit
      ensures forall row :: row in GetMissionUsers(f) ==> Precedes(row, Row(id, docs[id]), Key(OrderOf(f).0), OrderOf(f).1)
    {
      var m := Row(id, docs[id]);
      assert m in Scan(docs, nextId);
      QueryTopN(Scan(docs, nextId), (d: MissionUser) => Matches(f, d), Key(OrderOf(f).0), OrderOf(f).1, None, f.limit, m);
    }

    /** Without a limit, and ordered by a field every record has, nothing that matches is left out. */
    lemma GetMissionUsersComplete(f: Filters, id: nat)
      requires Valid()
      requires f.limit == 0 && OrderOf(f).0 in {AppliedAt, CreatedAt, UpdatedAt}
      requires id in docs && Matches(f, docs[id])
      ensures Row(id, docs[id]) in GetMissionUsers(f)
    {
      var rows := Scan(docs, nextId);
      var m := Row(id, docs[id]);
      assert m in rows;
      QueryComplete(rows, (d: MissionUser) => Matches(f, d), Key(OrderOf(f).0), OrderOf(f).1, m);
    }

    /** `getUserMissionsByStatus`. */
    function GetUserMissionsByStatus(userId: string, status: Status): (r: seq<Row<MissionUser>>)
      reads this
      requires Valid()
      ensures forall row :: row in r ==> row.id in docs && row.doc.status == status && (userId != "" ==> row.doc.userId == userId)
    {
      GetMissionUsers(UserStatus(userId, status))
    }

    /** Every record of the user with that status comes back. */
    lemma UserMissionsByStatusComplete(userId: string, status: Status, id: nat)
      requires Valid()
      requires id in docs && docs[id].status == status && (userId != "" ==> docs[id].userId == userId)
      ensures Row(id, docs[id]) in GetUserMissionsByStatus(userId, status)
    {
      GetMissionUsersComplete(UserStatus(userId, status), id);
    }

    /** `getMissionApplicants`: the APPLIED records of a mission. */
    function GetMissionApplicants(missionId: string): (r: seq<Row<MissionUser>>)
      reads this
      requires Valid()
      ensures forall row :: row in r ==> row.doc.status == Applied && (missionId != "" ==> row.doc.missionId == missionId)
    {
      GetMissionUsers(MissionStatus(missionId, Applied))
    }

    /** `getMissionParticipants`: the ACCEPTED records of a mission. */
    function GetMissionParticipants(missionId: string): (r: seq<Row<MissionUser>>)
      reads this
      requires Valid()
      ensures forall row :: row in r ==> row.doc.status == Accepted && (missionId != "" ==> row.doc.missionId == missionId)
    {
      GetMissionUsers(MissionStatus(missionId, Accepted))
    }

    /** `getCompletedMissionParticipants`: the COMPLETED records of a mission. */
    function GetCompletedMissionParticipants(missionId: string): (r: seq<Row<MissionUser>>)
      reads this
      requires Valid()
      ensures forall row :: row in r ==> row.doc.status == Completed && (missionId != "" ==> row.doc.missionId == missionId)
    {
      GetMissionUsers(MissionStatus(missionId, Completed))
    }

    /** Every record of the mission with the listed status comes back in each of the three listings. */
    lemma MissionListingsComplete(missionId: string, id: nat)
      requires Valid()
      requires id in docs && (missionId != "" ==> docs[id].missionId == missionId)
      ensures docs[id].status == Applied ==> Row(id, docs[id]) in GetMissionApplicants(missionId)
      ensures docs[id].status == Accepted ==> Row(id, docs[id]) in GetMissionParticipants(missionId)
      ensures docs[id].status == Completed ==> Row(id, docs[id]) in GetCompletedMissionParticipants(missionId)
    {
      GetMissionUsersComplete(MissionStatus(missionId, docs[id].status), id);
    }

    /** `getUserMissionHistory`: the user's latest applications, newest first, 20 by default. */
    function GetUserMissionHistory(userId: string, limitResults: nat := 20): (r: seq<Row<MissionUser>>)
      reads this
      requires Valid()
      ensures forall row :: row in r ==> row.id in docs && (userId != "" ==> row.doc.userId == userId)
      ensures SortedBy(r, Key(AppliedAt), Desc)
      ensures limitResults > 0 ==> |r| <= limitResults
    {
      GetMissionUsers(Filters(Some(userId), None, None, limitResults, Some(AppliedAt), Some(Desc)))
    }

    /**
     * The listing keeps the user's latest applications: a record of the user missing from it
     * means the history is full and every listed record was applied for no earlier.
     */
    lemma UserMissionHistoryTopN(userId: string, limitResults: nat, id: nat)
      requires Valid()
      requires id in docs && OwnedBy(userId, docs[id])
      requires Row(id, docs[id]) !in GetUserMissionHistory(userId, limitResults)
      ensures limitResults > 0 && |GetUserMissionHistory(userId, limitResults)| == limitResults
      ensures forall row :: row in GetUserMissionHistory(userId, limitResults) ==> row.doc.appliedAt >= docs[id].appliedAt
    {
      var f := Filters(Some(userId), None, None, limitResults, Some(AppliedAt), Some(Desc));
      GetMissionUsersTopN(f, id);
    }

    /** `getUserActiveMissions`: the IN_PROGRESS records, then the ACCEPTED ones. */
    function GetUserActiveMissions(userId: string): (r: seq<Row<MissionUser>>)
      reads this
      requires Valid()
      ensures forall row :: row in r ==> row.id in docs && Active(row.doc.status) && (userId != "" ==> row.doc.userId == userId)
      ensures forall i, j :: 0 <= i < j < |r| && r[j].doc.status == InProgress ==> r[i].doc.status == InProgress
    {
      var inProgress := GetUserMissionsByStatus(userId, InProgress);
      var accepted := GetUserMissionsByStatus(userId, Accepted);
      ActiveConcat(inProgress, accepted, userId);
      inProgress + accepted
    }

    /** Every active record of the user is among the active missions. */
    lemma ActiveMissionsComplete(userId: string, id: nat)
      requires Valid()
      requires id in docs && Active(docs[id].status) && (userId != "" ==> docs[id].userId == userId)
      ensures Row(id, docs[id]) in GetUserActiveMissions(userId)
    {
      var inProgress := GetUserMissionsByStatus(userId, InProgress);
      var accepted := GetUserMissionsByStatus(userId, Accepted);
      assert GetUserActiveMissions(userId) == inProgress + accepted;
      UserMissionsByStatusComplete(userId, docs[id].status, id);
    }

    /** Every record of the user, in `getMissionUsers`'s default order. */
    function AllOf(userId: string): (r: seq<Row<MissionUser>>)
      reads this
      requires Valid()
      ensures forall row :: row in r ==> row.id in docs && docs[row.id] == row.doc && OwnedBy(userId, row.doc)
      ensures forall id :: id in docs && OwnedBy(userId, docs[id]) ==> Row(id, docs[id]) in r
    {
      var f := Filters(Some(userId), None, None, 0, None, None);
      forall id | id in docs && OwnedBy(userId, docs[id]) ensures Row(id, docs[id]) in GetMissionUsers(f) {
        GetMissionUsersComplete(f, id);
      }
      GetMissionUsers(f)
    }

    /** The user's records are counted once each, in total and per status. */
    lemma AllOfCounts(userId: string, status: Status)
      requires Valid()
      ensures |AllOf(userId)| == |RecordsOf(docs, userId, None)|
      ensures CountStatus(AllOf(userId), status) == |RecordsOf(docs, userId, Some(status))|
    {
      var f := Filters(Some(userId), None, None, 0, None, None);
      var p := (d: MissionUser) => Matches(f, d);
      var q := (d: MissionUser) => d.status == status;
      var both := (d: MissionUser) => OwnedBy(userId, d) && d.status == status;
      QueryCount(docs, nextId, p, Key(CreatedAt), Desc, q, both);
      CountStatusIsWhere(AllOf(userId), status, q);
      RecordsAreIds(docs, nextId, userId, None, p);
      RecordsAreIds(docs, nextId, userId, Some(status), both);
    }

    /**
     * `getUserMissionStats`: the number of the user's records, the number with each of the three
     * reported statuses, and the mean of the truthy ratings (0 when there is none).
     */
    function GetUserMissionStats(userId: string): (s: Stats)
      reads this
      requires Valid()
      ensures s.totalApplied == |RecordsOf(docs, userId, None)|
      ensures s.totalAccepted == |RecordsOf(docs, userId, Some(Accepted))|
      ensures s.totalCompleted == |RecordsOf(docs, userId, Some(Completed))|
      ensures s.totalRejected == |RecordsOf(docs, userId, Some(Rejected))|
      ensures (forall id :: id in docs && OwnedBy(userId, docs[id]) ==> !Rated(docs[id])) ==> s.averageRating == 0.0
      ensures s.totalAccepted + s.totalCompleted + s.totalRejected <= s.totalApplied
      ensures RatingCount(AllOf(userId)) > 0 ==> s.averageRating == RatingSum(AllOf(userId)) / (RatingCount(AllOf(userId)) as real)
    {
      var rows := AllOf(userId);
      AllOfCounts(userId, Accepted);
      AllOfCounts(userId, Completed);
      AllOfCounts(userId, Rejected);
      RatingCountPositive(rows);
      StatsCountsBounded(rows);
      StatsOf(rows)
    }

    /** The reported average lies between the smallest and the largest of the user's truthy ratings. */
    lemma StatsAverageWithinBounds(userId: string, lo: real, hi: real, id: nat)
      requires Valid()
      requires forall k :: k in docs && OwnedBy(userId, docs[k]) && Rated(docs[k]) ==> lo <= docs[k].userRating.value <= hi
      requires id in docs && OwnedBy(userId, docs[id]) && Rated(docs[id])
      ensures lo <= GetUserMissionStats(userId).averageRating <= hi
    {
      var rows := AllOf(userId);
      RatingCountPositive(rows);
      assert Row(id, docs[id]) in rows;
      AverageWithinBounds(rows, lo, hi);
    }
  }
}
