/**
 * The resource store: the `/resources` and `/reports` subtrees of the realtime
 * database, held as two maps keyed by record id, and the six operations the
 * application performs on them. Generated ids (`uuid4`) and timestamps
 * (`datetime.now`) are parameters of the operations.
 */
module FirebaseHelper {
  import opened Wrappers
  import Text

  /** One record under `/resources/{id}`. A record written by `add_resource` has
      no `votes` or `voters` entry; every reader defaults them to 0 and to the
      empty mapping, which is what a fresh record holds here. */
  datatype Resource = Resource(
    id: string,
    title: string,
    description: string,
    tags: seq<string>,
    driveLink: string,
    timestamp: string,
    uploaderEmail: string,
    votes: int,
    voters: map<string, bool>)

  /** One record under `/reports/{id}`. */
  datatype Report = Report(
    reportId: string,
    resourceId: string,
    reporterEmail: string,
    reason: string,
    timestamp: string)

  /** The `new_data` dictionary of `update_resource`: a field is written exactly when it is present. */
  datatype Patch = Patch(
    id: Option<string>,
    title: Option<string>,
    description: Option<string>,
    tags: Option<seq<string>>,
    driveLink: Option<string>,
    timestamp: Option<string>,
    uploaderEmail: Option<string>,
    votes: Option<int>,
    voters: Option<map<string, bool>>)

  /** The empty dictionary. */
  const NoChange := Patch(None, None, None, None, None, None, None, None, None)

  /** The reason stored when `report_resource` is called without one. */
  const DefaultReason := "No reason provided"

  /** The record `add_resource` writes. */
  function NewResource(resourceId: string, timestamp: string, title: string, description: string,
                       tags: seq<string>, driveLink: string, uploaderEmail: string): (r: Resource)
    ensures r.id == resourceId && r.timestamp == timestamp && r.uploaderEmail == uploaderEmail
    ensures r.title == title && r.description == description && r.tags == tags && r.driveLink == driveLink
    ensures r.votes == 0 && r.voters == map[]
  {
    Resource(resourceId, title, description, tags, driveLink, timestamp, uploaderEmail, 0, map[])
  }

  /** The record `report_resource` writes; an omitted reason becomes the default one. */
  function NewReport(reportId: string, timestamp: string, resourceId: string,
                     reporterEmail: string, reason: Option<string>): (rep: Report)
    ensures rep.reportId == reportId && rep.resourceId == resourceId
    ensures rep.reporterEmail == reporterEmail && rep.timestamp == timestamp
    ensures reason.Some? ==> rep.reason == reason.value
    ensures reason.None? ==> rep.reason == DefaultReason && rep.reason != []
  {
    Report(reportId, resourceId, reporterEmail, reason.GetOr(DefaultReason), timestamp)
  }

  /** Firebase's shallow `update`: every field present in `p` replaces the stored one,
      and every field absent from `p` keeps its stored value. */
  function Merge(r: Resource, p: Patch): (m: Resource)
    ensures p.id.Some? ==> m.id == p.id.value
    ensures p.id.None? ==> m.id == r.id
    ensures p.title.Some? ==> m.title == p.title.value
    ensures p.title.None? ==> m.title == r.title
    ensures p.description.Some? ==> m.description == p.description.value
    ensures p.description.None? ==> m.description == r.description
    ensures p.tags.Some? ==> m.tags == p.tags.value
    ensures p.tags.None? ==> m.tags == r.tags
    ensures p.driveLink.Some? ==> m.driveLink == p.driveLink.value
    ensures p.driveLink.None? ==> m.driveLink == r.driveLink
    ensures p.timestamp.Some? ==> m.timestamp == p.timestamp.value
    ensures p.timestamp.None? ==> m.timestamp == r.timestamp
    ensures p.uploaderEmail.Some? ==> m.uploaderEmail == p.uploaderEmail.value
    ensures p.uploaderEmail.None? ==> m.uploaderEmail == r.uploaderEmail
    ensures p.votes.Some? ==> m.votes == p.votes.value
    ensures p.votes.None? ==> m.votes == r.votes
    ensures p.voters.Some? ==> m.voters == p.voters.value
    ensures p.voters.None? ==> m.voters == r.voters
  {
    Resource(
      p.id.GetOr(r.id),
      p.title.GetOr(r.title),
      p.description.GetOr(r.description),
      p.tags.GetOr(r.tags),
      p.driveLink.GetOr(r.driveLink),
      p.timestamp.GetOr(r.timestamp),
      p.uploaderEmail.GetOr(r.uploaderEmail),
      p.votes.GetOr(r.votes),
      p.voters.GetOr(r.voters))
  }

  /** The fields written by a merge of `p` followed by a merge of `q`: those of `q` win. */
  function Then(p: Patch, q: Patch): Patch {
    Patch(
      if q.id.Some? then q.id else p.id,
      if q.title.Some? then q.title else p.title,
      if q.description.Some? then q.description else p.description,
      if q.tags.Some? then q.tags else p.tags,
      if q.driveLink.Some? then q.driveLink else p.driveLink,
      if q.timestamp.Some? then q.timestamp else p.timestamp,
      if q.uploaderEmail.Some? then q.uploaderEmail else p.uploaderEmail,
      if q.votes.Some? then q.votes else p.votes,
      if q.voters.Some? then q.voters else p.voters)
  }

  /** Merging the empty dictionary changes nothing. */
  lemma MergeNoChange(r: Resource)
    ensures Merge(r, NoChange) == r
  {
  }

  /** Repeating an update changes nothing more. */
  lemma MergeIdempotent(r: Resource, p: Patch)
    ensures Merge(Merge(r, p), p) == Merge(r, p)
  {
  }

  /** Two updates in a row act as one update with the later values winning. */
  lemma MergeThen(r: Resource, p: Patch, q: Patch)
    ensures Merge(Merge(r, p), q) == Merge(r, Then(p, q))
  {
  }

  /** The storage-safe voter key: the email with every `.` replaced by `,`. */
  function SafeKey(email: string): (key: string)
    ensures |key| == |email|
    ensures '.' !in key
    ensures forall i :: 0 <= i < |email| && email[i] != '.' ==> key[i] == email[i]
    ensures forall i :: 0 <= i < |email| && email[i] == '.' ==> key[i] == ','
  {
    Text.ReplaceChar(email, '.', ',')
  }

  /** A key is already safe: sanitising twice is sanitising once. */
  lemma SafeKeyIdempotent(email: string)
    ensures SafeKey(SafeKey(email)) == SafeKey(email)
  {
  }

  /** Two emails without commas share a voter key only if they are equal. */
  lemma SafeKeyInjective(e1: string, e2: string)
    requires ',' !in e1 && ',' !in e2
    requires SafeKey(e1) == SafeKey(e2)
    ensures e1 == e2
  {
    forall i | 0 <= i < |e1| ensures e1[i] == e2[i] {
      assert SafeKey(e1)[i] == SafeKey(e2)[i];
      assert e1[i] in e1 && e2[i] in e2;
    }
  }

  /** With commas allowed the key is not injective: two different emails share a key. */
  lemma SafeKeyCollision()
    ensures "a.b@x.com" != "a,b@x,com" && SafeKey("a.b@x.com") == SafeKey("a,b@x,com")
  {
    assert SafeKey("a.b@x.com") == "a,b@x,com";
    assert SafeKey("a,b@x,com") == "a,b@x,com";
  }

  /** The yes/no answer of `upvote_resource` and the record it leaves behind. */
  datatype UpvoteResult = UpvoteResult(accepted: bool, record: Resource)

  /** What `upvote_resource` does to one record. */
  function Upvote(r: Resource, email: string): (u: UpvoteResult)
    ensures u.accepted <==> SafeKey(email) !in r.voters
    ensures !u.accepted ==> u.record == r
    ensures u.accepted ==> u.record.votes == r.votes + 1
    ensures u.accepted ==> u.record.voters == r.voters[SafeKey(email) := true]
    ensures u.record == Merge(r, NoChange.(votes := Some(u.record.votes), voters := Some(u.record.voters)))
  {
    var key := SafeKey(email);
    if key in r.voters then
      UpvoteResult(false, r)
    else
      UpvoteResult(true, r.(votes := r.votes + 1, voters := r.voters[key := true]))
  }

  /** A second upvote by the same email is refused, so two calls add exactly one vote. */
  lemma UpvoteTwice(r: Resource, email: string)
    ensures var first := Upvote(r, email);
            var second := Upvote(first.record, email);
            !second.accepted &&
            second.record == first.record &&
            second.record.votes == r.votes + (if SafeKey(email) in r.voters then 0 else 1)
  {
  }

  /** Emails with the same key count as one voter. */
  lemma UpvoteSameKey(r: Resource, e1: string, e2: string)
    requires SafeKey(e1) == SafeKey(e2)
    ensures Upvote(Upvote(r, e1).record, e2).record == Upvote(r, e1).record
  {
  }

  /** Upvotes by different keys commute. */
  lemma UpvoteCommutes(r: Resource, e1: string, e2: string)
    requires SafeKey(e1) != SafeKey(e2)
    ensures Upvote(Upvote(r, e1).record, e2).record == Upvote(Upvote(r, e2).record, e1).record
  {
  }

  /** Every voter entry is `True` and `votes` counts them. */
  ghost predicate VotesConsistent(r: Resource) {
    (forall k :: k in r.voters ==> r.voters[k]) && r.votes == |r.voters|
  }

  /** Every record sits under its own id and keeps its vote count. */
  ghost predicate Consistent(m: map<string, Resource>) {
    forall id :: id in m ==> m[id].id == id && VotesConsistent(m[id])
  }

  lemma NewResourceConsistent(resourceId: string, timestamp: string, title: string, description: string,
                              tags: seq<string>, driveLink: string, uploaderEmail: string)
    ensures var r := NewResource(resourceId, timestamp, title, description, tags, driveLink, uploaderEmail);
            r.id == resourceId && VotesConsistent(r) && r.votes == 0
  {
  }

  /** An upvote keeps `votes` equal to the number of voters. */
  lemma UpvoteConsistent(r: Resource, email: string)
    requires VotesConsistent(r)
    ensures VotesConsistent(Upvote(r, email).record)
    ensures Upvote(r, email).record.id == r.id
  {
  }

  /** A patch that leaves id, votes and voters alone keeps a record consistent. */
  lemma MergeConsistent(r: Resource, p: Patch)
    requires VotesConsistent(r)
    requires p.id.None? && p.votes.None? && p.voters.None?
    ensures VotesConsistent(Merge(r, p)) && Merge(r, p).id == r.id
  {
  }

  /** The database: `/resources` and `/reports`. */
  class Database {
    var resources: map<string, Resource>
    var reports: map<string, Report>

    constructor ()
      ensures resources == map[] && reports == map[]
    {
      resources := map[];
      reports := map[];
    }

    /** `add_resource`: write a new record under `resourceId`. */
    method AddResource(resourceId: string, timestamp: string, title: string, description: string,
                       tags: seq<string>, driveLink: string, uploaderEmail: string)
      modifies this
      ensures resources == old(resources)[resourceId := NewResource(resourceId, timestamp, title, description, tags, driveLink, uploaderEmail)]
      ensures resources.Keys == old(resources).Keys + {resourceId}
      ensures resourceId !in old(resources) ==> |resources| == |old(resources)| + 1
      ensures reports == old(reports)
      ensures old(Consistent(resources)) ==> Consistent(resources)
    {
      var data := NewResource(resourceId, timestamp, title, description, tags, driveLink, uploaderEmail);
      resources := resources[resourceId := data];
    }

    /** `get_all_resources`: every record, keyed by id (empty when there are none). */
    method GetAllResources() returns (all: map<string, Resource>)
      ensures all == resources
    {
      all := resources;
    }

    /** `delete_resource`: remove the record; nothing happens when it is absent. */
    method DeleteResource(resourceId: string)
      modifies this
      ensures resources == old(resources) - {resourceId}
      ensures resourceId !in resources
      ensures resourceId !in old(resources) ==> resources == old(resources)
      ensures reports == old(reports)
      ensures old(Consistent(resources)) ==> Consistent(resources)
    {
      resources := resources - {resourceId};
    }

    /** `update_resource`: shallow merge of `newData` into an existing record. */
    method UpdateResource(resourceId: string, newData: Patch)
      requires resourceId in resources
      modifies this
      ensures resources == old(resources)[resourceId := Merge(old(resources)[resourceId], newData)]
      ensures resources.Keys == old(resources).Keys
      ensures reports == old(reports)
      ensures old(Consistent(resources)) && newData.id.None? && newData.votes.None? && newData.voters.None?
              ==> Consistent(resources)
    {
      var current := resources[resourceId];
      resources := resources[resourceId := Merge(current, newData)];
      if old(Consistent(resources)) && newData.id.None? && newData.votes.None? && newData.voters.None? {
        MergeConsistent(current, newData);
      }
    }

    /** `report_resource`: write a report; the resource id is not checked. */
    method ReportResource(reportId: string, timestamp: string, resourceId: string,
                          reporterEmail: string, reason: Option<string>)
      modifies this
      ensures reports == old(reports)[reportId := NewReport(reportId, timestamp, resourceId, reporterEmail, reason)]
      ensures reports[reportId].reason == if reason.Some? then reason.value else DefaultReason
      ensures resources == old(resources)
    {
      reports := reports[reportId := NewReport(reportId, timestamp, resourceId, reporterEmail, reason)];
    }

    /** `upvote_resource`: read the record, refuse a known voter key, otherwise
        write back `votes + 1` and the voters mapping with the new key. */
    method UpvoteResource(resourceId: string, userEmail: string) returns (accepted: bool)
      requires resourceId in resources
      modifies this
      ensures accepted <==> SafeKey(userEmail) !in old(resources)[resourceId].voters
      ensures resources == old(resources)[resourceId := Upvote(old(resources)[resourceId], userEmail).record]
      ensures !accepted ==> resources == old(resources)
      ensures reports == old(reports)
      ensures old(Consistent(resources)) ==> Consistent(resources)
    {
      var current := resources[resourceId];
      var voters := current.voters;
      var safeEmail := SafeKey(userEmail);
      if safeEmail in voters {
        return false;
      }
      var newVotes := current.votes + 1;
      voters := voters[safeEmail := true];
      UpdateResource(resourceId, NoChange.(votes := Some(newVotes), voters := Some(voters)));
      if old(Consistent(resources)) {
        UpvoteConsistent(current, userEmail);
      }
      return true;
    }
  }
}
