/**
 * The `missions` collection: creation defaults, partial updates, filtered and paged listings,
 * the status update that stamps `validatedAt`, and the sweep that marks overdue missions EXPIRED.
 */
module Missions {
  import opened Wrappers
  import opened Store

  datatype Level = Easy | Medium | High

  datatype Status = Pending | Verified | Rejected | Active | Completed | Expired

  datatype Mission = Mission(
    name: string,
    description: string,
    picture: string,
    position: GeoPoint,
    address: string,
    deadline: nat,
    duration: real,   // hours
    level: Level,
    status: Status,
    proposerId: string,
    isVisible: bool,
    amount: real,     // reward
    validatedAt: Option<nat>,
    maxParticipants: Option<int>,
    currentParticipants: Option<int>,
    tags: Option<seq<string>>,
    requirements: Option<seq<string>>,
    completionCriteria: Option<seq<string>>,
    createdAt: nat,
    updatedAt: nat)

  /**
   * `CreateMissionData`. The type demands `status` and `isVisible`, but the service tolerates
   * their absence, so they are optional here.
   */
  datatype MissionData = MissionData(
    name: string,
    description: string,
    picture: string,
    position: GeoPoint,
    address: string,
    deadline: nat,
    duration: real,
    level: Level,
    status: Option<Status>,
    proposerId: string,
    isVisible: Option<bool>,
    amount: real,
    validatedAt: Option<nat>,
    maxParticipants: Option<int>,
    currentParticipants: Option<int>,
    tags: Option<seq<string>>,
    requirements: Option<seq<string>>,
    completionCriteria: Option<seq<string>>)

  /** `createMission`'s document: the data, PENDING and visible by default, no participants yet. */
  function NewMission(data: MissionData, now: nat): (m: Mission)
    ensures m.status == if data.status.Some? then data.status.value else Pending
    ensures m.isVisible == if data.isVisible.Some? then data.isVisible.value else true
    ensures m.currentParticipants == Some(0)
    ensures m.createdAt == now && m.updatedAt == now
    ensures m.name == data.name && m.description == data.description && m.picture == data.picture
    ensures m.position == data.position && m.address == data.address && m.deadline == data.deadline
    ensures m.duration == data.duration && m.level == data.level && m.proposerId == data.proposerId
    ensures m.amount == data.amount && m.validatedAt == data.validatedAt && m.maxParticipants == data.maxParticipants
    ensures m.tags == data.tags && m.requirements == data.requirements && m.completionCriteria == data.completionCriteria
  {
    Mission(
      data.name, data.description, data.picture, data.position, data.address, data.deadline,
      data.duration, data.level, data.status.GetOr(Pending), data.proposerId, data.isVisible.GetOr(true),
      data.amount, data.validatedAt, data.maxParticipants, Some(0), data.tags, data.requirements,
      data.completionCriteria, now, now)
  }

  /** `UpdateMissionData`: any field except the id and the two stamps. */
  datatype Patch = Patch(
    name: Write<string>,
    description: Write<string>,
    picture: Write<string>,
    position: Write<GeoPoint>,
    address: Write<string>,
    deadline: Write<nat>,
    duration: Write<real>,
    level: Write<Level>,
    status: Write<Status>,
    proposerId: Write<string>,
    isVisible: Write<bool>,
    amount: Write<real>,
    validatedAt: Write<nat>,
    maxParticipants: Write<int>,
    currentParticipants: Write<int>,
    tags: Write<seq<string>>,
    requirements: Write<seq<string>>,
    completionCriteria: Write<seq<string>>)

  const NoChange :=
    Patch(Keep, Keep, Keep, Keep, Keep, Keep, Keep, Keep, Keep, Keep, Keep, Keep, Keep, Keep, Keep, Keep, Keep, Keep)

  function Onto<T>(w: Write<T>, current: Option<T>): Option<T> {
    match w
    case Keep => current
    case Put(v) => Some(v)
  }

  /** `updateMission`'s write: the given fields and a fresh `updatedAt` (a position is re-wrapped as is). */
  function Updated(m: Mission, p: Patch, now: nat): (r: Mission)
    ensures r.updatedAt == now && r.createdAt == m.createdAt
    ensures p.name.Keep? ==> r.name == m.name
    ensures p.description.Keep? ==> r.description == m.description
    ensures p.picture.Keep? ==> r.picture == m.picture
    ensures p.position.Keep? ==> r.position == m.position
    ensures p.address.Keep? ==> r.address == m.address
    ensures p.deadline.Keep? ==> r.deadline == m.deadline
    ensures p.duration.Keep? ==> r.duration == m.duration
    ensures p.level.Keep? ==> r.level == m.level
    ensures p.status.Keep? ==> r.status == m.status
    ensures p.proposerId.Keep? ==> r.proposerId == m.proposerId
    ensures p.isVisible.Keep? ==> r.isVisible == m.isVisible
    ensures p.amount.Keep? ==> r.amount == m.amount
    ensures p.validatedAt.Keep? ==> r.validatedAt == m.validatedAt
    ensures p.maxParticipants.Keep? ==> r.maxParticipants == m.maxParticipants
    ensures p.currentParticipants.Keep? ==> r.currentParticipants == m.currentParticipants
    ensures p.tags.Keep? ==> r.tags == m.tags
    ensures p.requirements.Keep? ==> r.requirements == m.requirements
    ensures p.completionCriteria.Keep? ==> r.completionCriteria == m.completionCriteria
    ensures p.status.Put? ==> r.status == p.status.value
    ensures p.validatedAt.Put? ==> r.validatedAt == Some(p.validatedAt.value)
    ensures p.name.Put? ==> r.name == p.name.value
    ensures p.description.Put? ==> r.description == p.description.value
    ensures p.picture.Put? ==> r.picture == p.picture.value
    ensures p.position.Put? ==> r.position == p.position.value
    ensures p.address.Put? ==> r.address == p.address.value
    ensures p.deadline.Put? ==> r.deadline == p.deadline.value
    ensures p.duration.Put? ==> r.duration == p.duration.value
    ensures p.level.Put? ==> r.level == p.level.value
    ensures p.proposerId.Put? ==> r.proposerId == p.proposerId.value
    ensures p.isVisible.Put? ==> r.isVisible == p.isVisible.value
    ensures p.amount.Put? ==> r.amount == p.amount.value
    ensures p.maxParticipants.Put? ==> r.maxParticipants == Some(p.maxParticipants.value)
    ensures p.currentParticipants.Put? ==> r.currentParticipants == Some(p.currentParticipants.value)
    ensures p.tags.Put? ==> r.tags == Some(p.tags.value)
    ensures p.requirements.Put? ==> r.requirements == Some(p.requirements.value)
    ensures p.completionCriteria.Put? ==> r.completionCriteria == Some(p.completionCriteria.value)
  {
    Mission(
      p.name.Apply(m.name), p.description.Apply(m.description), p.picture.Apply(m.picture),
      p.position.Apply(m.position), p.address.Apply(m.address), p.deadline.Apply(m.deadline),
      p.duration.Apply(m.duration), p.level.Apply(m.level), p.status.Apply(m.status),
      p.proposerId.Apply(m.proposerId), p.isVisible.Apply(m.isVisible), p.amount.Apply(m.amount),
      Onto(p.validatedAt, m.validatedAt), Onto(p.maxParticipants, m.maxParticipants),
      Onto(p.currentParticipants, m.currentParticipants), Onto(p.tags, m.tags),
      Onto(p.requirements, m.requirements), Onto(p.completionCriteria, m.completionCriteria),
      m.createdAt, now)
  }

  predicate Truthy(s: Option<string>) {
    s.Some? && s.value != ""
  }

  /** `updateMissionStatus`'s patch: the status, and `validatedAt` only for a verification by someone. */
  function StatusPatch(status: Status, validatedBy: Option<string>, now: nat): (p: Patch)
    ensures p.status == Put(status)
    ensures p.validatedAt.Put? <==> status == Verified && Truthy(validatedBy)
    ensures p.validatedAt.Put? ==> p.validatedAt.value == now
    ensures p.(status := Keep, validatedAt := Keep) == NoChange
  {
    if status == Verified && Truthy(validatedBy) then NoChange.(status := Put(status), validatedAt := Put(now))
    else NoChange.(status := Put(status))
  }

  /** A status update changes the status and, for a verification by someone, `validatedAt` only. */
  lemma StatusUpdate(m: Mission, status: Status, validatedBy: Option<string>, now: nat)
    ensures Updated(m, StatusPatch(status, validatedBy, now), now)
         == if status == Verified && Truthy(validatedBy)
            then m.(status := status, validatedAt := Some(now), updatedAt := now)
            else m.(status := status, updatedAt := now)
  {
  }

  /**
   * `getExpiredMissions`'s test: the deadline has passed (`deadline <= now`) and the mission is
   * neither completed nor already expired.
   */
  predicate IsExpired(m: Mission, now: nat) {
    m.deadline <= now && m.status != Completed && m.status != Expired
  }

  /** What the sweep writes into one expired mission. */
  function Expire(m: Mission, now: nat): (r: Mission)
    ensures r == m.(status := Expired, updatedAt := now)
  {
    StatusUpdate(m, Expired, None, now);
    Updated(m, StatusPatch(Expired, None, now), now)
  }

  /** The collection after `markExpiredMissions`: every expired mission marked, the rest untouched. */
  function Swept(docs: map<nat, Mission>, now: nat): (r: map<nat, Mission>)
    ensures r.Keys == docs.Keys
  {
    map id | id in docs :: if IsExpired(docs[id], now) then Expire(docs[id], now) else docs[id]
  }

  /** Marking one more mission extends a partial sweep by that mission. */
  lemma SweepStep(docs: map<nat, Mission>, done: set<nat>, id: nat, now: nat)
    requires id in docs && id !in done
    ensures (map k | k in docs :: if k in done then Expire(docs[k], now) else docs[k])[id := Expire(docs[id], now)]
         == map k | k in docs :: if k in done + {id} then Expire(docs[k], now) else docs[k]
  {
  }

  /** After a sweep, nothing is expired any more. */
  lemma SweepLeavesNoneExpired(docs: map<nat, Mission>, now: nat)
    ensures forall id :: id in Swept(docs, now) ==> !IsExpired(Swept(docs, now)[id], now)
  {
  }

  /** A second sweep with the same clock changes nothing. */
  lemma SweepIdempotent(docs: map<nat, Mission>, now: nat)
    ensures Swept(Swept(docs, now), now) == Swept(docs, now)
  {
    var once := Swept(docs, now);
    SweepLeavesNoneExpired(docs, now);
    assert forall id :: id in once ==> Swept(once, now)[id] == once[id];
  }

  /** The sweep marks exactly the expired missions. */
  lemma SweepChangesExactlyExpired(docs: map<nat, Mission>, now: nat, id: nat)
    requires id in docs
    ensures Swept(docs, now)[id].status == Expired <==> docs[id].status == Expired || IsExpired(docs[id], now)
    ensures !IsExpired(docs[id], now) ==> Swept(docs, now)[id] == docs[id]
  {
  }

  /** The numeric fields a listing can order by. */
  datatype Field = Deadline | ValidatedAt | MaxParticipants | CurrentParticipants | CreatedAt | UpdatedAt

  function OptionInt(o: Option<nat>): Option<int> {
    match o
    case None => None
    case Some(v) => Some(v)
  }

  function Key(f: Field): Mission -> Option<int> {
    match f
    case Deadline => (m: Mission) => Some(m.deadline)
    case ValidatedAt => (m: Mission) => OptionInt(m.validatedAt)
    case MaxParticipants => (m: Mission) => m.maxParticipants
    case CurrentParticipants => (m: Mission) => m.currentParticipants
    case CreatedAt => (m: Mission) => Some(m.createdAt)
    case UpdatedAt => (m: Mission) => Some(m.updatedAt)
  }

  /** The filters `getMissions` understands; `lastDoc` is the cursor of the previous page. */
  datatype Filters = Filters(
    status: Option<Status>,
    level: Option<Level>,
    proposerId: Option<string>,
    isVisible: Option<bool>,
    limit: nat,
    orderByField: Option<Field>,
    orderDirection: Option<Direction>,
    lastDoc: Option<Row<Mission>>)

  /** The conjunction of the `where` clauses; `isVisible` is tested whenever it is defined, even when false. */
  predicate Matches(f: Filters, m: Mission) {
    && (f.status.Some? ==> m.status == f.status.value)
    && (f.level.Some? ==> m.level == f.level.value)
    && (Truthy(f.proposerId) ==> m.proposerId == f.proposerId.value)
    && (f.isVisible.Some? ==> m.isVisible == f.isVisible.value)
  }

  function OrderOf(f: Filters): (Field, Direction) {
    match f.orderByField
    case Some(field) => (field, f.orderDirection.GetOr(Desc))
    case None => (CreatedAt, Desc)
  }

  /** A page of missions and the cursor for the next one. */
  datatype Page = Page(missions: seq<Row<Mission>>, lastDoc: Option<Row<Mission>>)

  function LastOf(rows: seq<Row<Mission>>): (r: Option<Row<Mission>>)
    ensures r.None? <==> rows == []
    ensures r.Some? ==> r.value == rows[|rows| - 1]
  {
    if rows == [] then None else Some(rows[|rows| - 1])
  }

  /** Filters with every field absent. */
  const NoFilters := Filters(None, None, None, None, 0, None, None, None)

  /** The filters of `getAvailableMissions`. */
  function Available(limitResults: nat): Filters {
    NoFilters.(status := Some(Active), isVisible := Some(true), limit := limitResults)
  }

  /** The filters of `getMissionsByProposer`. */
  function ByProposer(proposerId: string, limitResults: nat): Filters {
    NoFilters.(proposerId := Some(proposerId), limit := limitResults)
  }

  lemma AvailableFilters(limitResults: nat)
    ensures OrderOf(Available(limitResults)) == (CreatedAt, Desc)
    ensures Available(limitResults).limit == limitResults && Available(limitResults).lastDoc.None?
    ensures forall m :: Matches(Available(limitResults), m) <==> m.status == Active && m.isVisible
  {
  }

  lemma ByProposerFilters(proposerId: string, limitResults: nat)
    ensures OrderOf(ByProposer(proposerId, limitResults)) == (CreatedAt, Desc)
    ensures ByProposer(proposerId, limitResults).limit == limitResults && ByProposer(proposerId, limitResults).lastDoc.None?
    ensures forall m :: Matches(ByProposer(proposerId, limitResults), m) <==> (proposerId != "" ==> m.proposerId == proposerId)
  {
  }

  /** Ordered by `createdAt` descending, the creation stamps never increase along the rows. */
  lemma NewestFirst(rows: seq<Row<Mission>>)
    requires SortedBy(rows, Key(CreatedAt), Desc)
    ensures forall i, j :: 0 <= i < j < |rows| ==> rows[i].doc.createdAt >= rows[j].doc.createdAt
  {
    forall i, j | 0 <= i < j < |rows| ensures rows[i].doc.createdAt >= rows[j].doc.createdAt {
      assert Precedes(rows[i], rows[j], Key(CreatedAt), Desc);
    }
  }

  /** Rows that all precede `m` by `createdAt` descending were created no earlier than `m`. */
  lemma NewerThan(rows: seq<Row<Mission>>, m: Row<Mission>)
    requires forall row :: row in rows ==> Precedes(row, m, Key(CreatedAt), Desc)
    ensures forall row :: row in rows ==> row.doc.createdAt >= m.doc.createdAt
  {
    forall row | row in rows ensures row.doc.createdAt >= m.doc.createdAt {
      assert Precedes(row, m, Key(CreatedAt), Desc);
    }
  }

  class MissionService {
    var docs: map<nat, Mission>
    var nextId: nat

    predicate Valid()
      reads this
    {
      forall id :: id in docs ==> id < nextId
    }

    constructor ()
      ensures Valid() && docs == map[] && nextId == 0
    {
      docs := map[];
      nextId := 0;
    }

    /** `createMission`. */
    method CreateMission(data: MissionData, now: nat) returns (id: nat)
      requires Valid()
      modifies this
      ensures Valid()
      ensures id == old(nextId) && id !in old(docs) && nextId == old(nextId) + 1
      ensures docs == old(docs)[id := NewMission(data, now)]
    {
      id := nextId;
      docs := docs[id := NewMission(data, now)];
      nextId := nextId + 1;
    }

    /** `getMissionById`. */
    function GetMissionById(id: nat): (r: Option<Mission>)
      reads this
      ensures r.Some? <==> id in docs
      ensures r.Some? ==> r.value == docs[id]
    {
      if id in docs then Some(docs[id]) else None
    }

    /** `updateMission`. */
    method UpdateMission(id: nat, patch: Patch, now: nat) returns (r: Outcome<string>)
      requires Valid()
      modifies this
      ensures Valid() && nextId == old(nextId)
      ensures id in old(docs) ==> r == Pass && docs == old(docs)[id := Updated(old(docs)[id], patch, now)]
      ensures id !in old(docs) ==> r == Fail(NoDocumentToUpdate) && docs == old(docs)
    {
      if id !in docs {
        return Fail(NoDocumentToUpdate);
      }
      docs := docs[id := Updated(docs[id], patch, now)];
      r := Pass;
    }

    /** `deleteMission`. */
    method DeleteMission(id: nat)
      requires Valid()
      modifies this
      ensures Valid() && nextId == old(nextId)
      ensures docs == old(docs) - {id}
    {
      docs := docs - {id};
    }

    /** `updateMissionStatus`. */
    method UpdateMissionStatus(id: nat, status: Status, validatedBy: Option<string>, now: nat) returns (r: Outcome<string>)
      requires Valid()
      modifies this
      ensures Valid() && nextId == old(nextId)
      ensures id in old(docs) ==> r == Pass && docs == old(docs)[id := Updated(old(docs)[id], StatusPatch(status, validatedBy, now), now)]
      ensures id !in old(docs) ==> r == Fail(NoDocumentToUpdate) && docs == old(docs)
    {
      r := UpdateMission(id, StatusPatch(status, validatedBy, now), now);
    }

    /**
     * `getMissions`: the missions matching every given filter, in the requested order
     * (`createdAt` descending by default), past the cursor, at most `limit` of them; the new
     * cursor is the last mission of the page.
     */
    function GetMissions(f: Filters): (p: Page)
      reads this
      requires Valid()
      ensures forall row :: row in p.missions ==> row.id in docs && docs[row.id] == row.doc && Matches(f, row.doc)
      ensures SortedBy(p.missions, Key(OrderOf(f).0), OrderOf(f).1)
      ensures f.lastDoc.Some? ==> forall row :: row in p.missions ==> Beyond(f.lastDoc.value, row, Key(OrderOf(f).0), OrderOf(f).1)
      ensures f.limit > 0 ==> |p.missions| <= f.limit
      ensures p.lastDoc == LastOf(p.missions)
    {
      var rows := Query(Scan(docs, nextId), (m: Mission) => Matches(f, m), Key(OrderOf(f).0), OrderOf(f).1, f.lastDoc, f.limit);
      Page(rows, LastOf(rows))
    }

    /**
     * Nothing that belongs on the page is left out: a mission that matches, carries the order
     * field and lies past the cursor, yet is missing, means the page is full and every mission
     * on it comes first in the order.
     */
    lemma GetMissionsTopN(f: Filters, id: nat)
      requires Valid()
      requires id in docs && Matches(f, docs[id]) && Key(OrderOf(f).0)(docs[id]).Some?
      requires f.lastDoc.Some? ==> Beyond(f.lastDoc.value, Row(id, docs[id]), Key(OrderOf(f).0), OrderOf(f).1)
      requires Row(id, docs[id]) !in GetMissions(f).missions
      ensures f.limit > 0 && |GetMissions(f).missions| == f.limit
      ensures forall row :: row in GetMissions(f).missions ==> Precedes(row, Row(id, docs[id]), Key(OrderOf(f).0), OrderOf(f).1)
    {
      var m := Row(id, docs[id]);
      assert m in Scan(docs, nextId);
      QueryTopN(Scan(docs, nextId), (d: Mission) => Matches(f, d), Key(OrderOf(f).0), OrderOf(f).1, f.lastDoc, f.limit, m);
    }

    /** The first page without a limit holds every matching mission that carries the order field. */
    lemma GetMissionsComplete(f: Filters, id: nat)
      requires Valid() && f.limit == 0 && f.lastDoc.None?
      requires id in docs && Matches(f, docs[id]) && Key(OrderOf(f).0)(docs[id]).Some?
      ensures Row(id, docs[id]) in GetMissions(f).missions
    {
      if Row(id, docs[id]) !in GetMissions(f).missions {
        GetMissionsTopN(f, id);
      }
    }

    /** `getAvailableMissions`: ACTIVE and visible, newest first, 20 by default. */
    function GetAvailableMissions(limitResults: nat := 20): (r: seq<Row<Mission>>)
      reads this
      requires Valid()
      ensures forall row :: row in r ==> row.id in docs && docs[row.id] == row.doc && row.doc.status == Active && row.doc.isVisible
      ensures forall i, j :: 0 <= i < j < |r| ==> r[i].doc.createdAt >= r[j].doc.createdAt
      ensures limitResults > 0 ==> |r| <= limitResults
    {
      AvailableFilters(limitResults);
      var rows := GetMissions(Available(limitResults)).missions;
      NewestFirst(rows);
      rows
    }

    /**
     * The newest available missions: one that is missing means the listing is full and every
     * listed mission was created no earlier.
     */
    lemma AvailableMissionsTopN(limitResults: nat, id: nat)
      requires Valid()
      requires id in docs && docs[id].status == Active && docs[id].isVisible
      requires Row(id, docs[id]) !in GetAvailableMissions(limitResults)
      ensures limitResults > 0 && |GetAvailableMissions(limitResults)| == limitResults
      ensures forall row :: row in GetAvailableMissions(limitResults) ==> row.doc.createdAt >= docs[id].createdAt
    {
      var f := Available(limitResults);
      var rows := GetAvailableMissions(limitResults);
      assert rows == GetMissions(f).missions;
      AvailableFilters(limitResults);
      assert Matches(f, docs[id]);
      GetMissionsTopN(f, id);
      NewerThan(rows, Row(id, docs[id]));
    }

    /** `getMissionsByProposer`: newest first, 20 by default. */
    function GetMissionsByProposer(proposerId: string, limitResults: nat := 20): (r: seq<Row<Mission>>)
      reads this
      requires Valid()
      ensures forall row :: row in r ==> row.id in docs && docs[row.id] == row.doc && (proposerId != "" ==> row.doc.proposerId == proposerId)
      ensures forall i, j :: 0 <= i < j < |r| ==> r[i].doc.createdAt >= r[j].doc.createdAt
      ensures limitResults > 0 ==> |r| <= limitResults
    {
      ByProposerFilters(proposerId, limitResults);
      var rows := GetMissions(ByProposer(proposerId, limitResults)).missions;
      NewestFirst(rows);
      rows
    }

    /**
     * The proposer's newest missions: one of theirs that is missing means the listing is full and
     * every listed mission was created no earlier.
     */
    lemma MissionsByProposerTopN(proposerId: string, limitResults: nat, id: nat)
      requires Valid()
      requires id in docs && (proposerId != "" ==> docs[id].proposerId == proposerId)
      requires Row(id, docs[id]) !in GetMissionsByProposer(proposerId, limitResults)
      ensures limitResults > 0 && |GetMissionsByProposer(proposerId, limitResults)| == limitResults
      ensures forall row :: row in GetMissionsByProposer(proposerId, limitResults) ==> row.doc.createdAt >= docs[id].createdAt
    {
      var f := ByProposer(proposerId, limitResults);
      var rows := GetMissionsByProposer(proposerId, limitResults);
      assert rows == GetMissions(f).missions;
      ByProposerFilters(proposerId, limitResults);
      assert Matches(f, docs[id]);
      GetMissionsTopN(f, id);
      NewerThan(rows, Row(id, docs[id]));
    }

    /** `getExpiredMissions`: exactly the expired missions, listed in id order (see the README). */
    function GetExpiredMissions(now: nat): (r: seq<Row<Mission>>)
      reads this
      requires Valid()
      ensures forall row :: row in r <==> row.id in docs && docs[row.id] == row.doc && IsExpired(row.doc, now)
      ensures Ascending(r)
    {
      WhereAscending(Scan(docs, nextId), (m: Mission) => IsExpired(m, now));
      Where(Scan(docs, nextId), (m: Mission) => IsExpired(m, now))
    }

    /** `markExpiredMissions`: one status update per expired mission, in turn. */
    method MarkExpiredMissions(now: nat)
      requires Valid()
      modifies this
      ensures Valid() && nextId == old(nextId)
      ensures docs == Swept(old(docs), now)
    {
      var expired := GetExpiredMissions(now);
      ghost var done: set<nat> := {};
      var i := 0;
      while i < |expired|
        invariant 0 <= i <= |expired|
        invariant Valid() && nextId == old(nextId)
        invariant done == set k | 0 <= k < i :: expired[k].id
        invariant docs == map id | id in old(docs) :: if id in done then Expire(old(docs)[id], now) else old(docs)[id]
      {
        var row := expired[i];
        assert row.id !in done by {
          forall k | 0 <= k < i ensures expired[k].id != row.id {
            assert expired[k].id < expired[i].id;
          }
        }
        assert row.id in old(docs) && old(docs)[row.id] == row.doc;
        var _ := UpdateMissionStatus(row.id, Expired, None, now);
        assert Updated(row.doc, StatusPatch(Expired, None, now), now) == Expire(row.doc, now);
        SweepStep(old(docs), done, row.id, now);
        done := done + {row.id};
        i := i + 1;
      }
      assert forall id :: id in done <==> id in old(docs) && IsExpired(old(docs)[id], now) by {
        forall id | id in old(docs) && IsExpired(old(docs)[id], now) ensures id in done {
          assert Row(id, old(docs)[id]) in expired;
        }
      }
    }
  }
}
