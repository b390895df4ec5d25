/**
 * The decisions the page takes around the store: which screen to show, the
 * upload/edit form's checks, who may edit, delete, upvote and report, the
 * search over the listing, and the Drive file id behind the preview frame.
 * The widgets themselves are not modelled.
 */
module App {
  import opened Wrappers
  import Text
  import opened FirebaseHelper

  /** The uploader recorded for resources added in guest mode. */
  const GuestEmail := "guest"

  /** The email suffix that marks an administrator. */
  const AdminSuffix := "@admin.com"

  // ---------------------------------------------------------------- screens

  /** The three sidebars: signed in, guest, and the login / sign-up form. */
  datatype Screen = SignedIn(email: string) | GuestMode | LoginForm

  /** The part of the page's session state the screens depend on. */
  class Session {
    /** The email of `st.session_state.user`, or None when nobody is signed in. */
    var user: Option<string>
    /** `'guest' in st.session_state and st.session_state.guest`. */
    var guest: bool

    /** Nobody is both signed in and a guest. */
    ghost predicate Valid()
      reads this
    {
      user.Some? ==> !guest
    }

    /** A fresh page: no user, no guest flag. */
    constructor ()
      ensures user == None && !guest && Valid()
    {
      user := None;
      guest := false;
    }

    /** The signed-in branch wins over guest mode, which wins over the login form. */
    function CurrentScreen(): (s: Screen)
      reads this
      ensures s.SignedIn? <==> user.Some?
      ensures s.SignedIn? ==> s.email == user.value
      ensures s == GuestMode <==> user.None? && guest
      ensures s == LoginForm <==> user.None? && !guest
    {
      if user.Some? then SignedIn(user.value) else if guest then GuestMode else LoginForm
    }

    /** The identity the page acts as: the user's email, the guest marker, or none. */
    function ActingEmail(): (e: Option<string>)
      reads this
      ensures CurrentScreen() == LoginForm <==> e.None?
      ensures CurrentScreen() == GuestMode ==> e == Some(GuestEmail)
      ensures user.Some? ==> e == user
    {
      match CurrentScreen()
      case SignedIn(email) => Some(email)
      case GuestMode => Some(GuestEmail)
      case LoginForm => None
    }

    /** The Login button. `credentialsAccepted`, `emailVerified` and
        `accountEmail` are the identity provider's answers: whether it accepted
        the typed credentials, and the verification flag and email of the account
        record it returns. Only a verified account is signed in, and the session
        keeps the account's email, not the typed one. */
    method Login(credentialsAccepted: bool, emailVerified: bool, accountEmail: string)
      requires Valid() && CurrentScreen() == LoginForm
      modifies this
      ensures Valid()
      ensures credentialsAccepted && emailVerified ==>
                user == Some(accountEmail) && CurrentScreen() == SignedIn(accountEmail)
      ensures !(credentialsAccepted && emailVerified) ==> user == old(user) && CurrentScreen() == LoginForm
      ensures guest == old(guest)
    {
      if credentialsAccepted && emailVerified {
        user := Some(accountEmail);
      }
    }

    /** The Logout button. */
    method Logout()
      requires Valid() && CurrentScreen().SignedIn?
      modifies this
      ensures Valid()
      ensures user == None && guest == old(guest) && CurrentScreen() == LoginForm
    {
      user := None;
    }

    /** The Continue-as-Guest button. */
    method ContinueAsGuest()
      requires Valid() && CurrentScreen() == LoginForm
      modifies this
      ensures Valid()
      ensures guest && user == old(user) && CurrentScreen() == GuestMode
    {
      guest := true;
    }

    /** The Return-to-Login button: the guest flag is deleted. */
    method ReturnToLogin()
      requires Valid() && CurrentScreen() == GuestMode
      modifies this
      ensures Valid()
      ensures !guest && user == old(user) && CurrentScreen() == LoginForm
    {
      guest := false;
    }
  }

  // ------------------------------------------------------------ permissions

  /** `user_email.endswith("@admin.com")`. */
  predicate IsAdmin(email: string)
    ensures IsAdmin(email) <==> exists name :: email == name + AdminSuffix
  {
    Text.EndsWith(email, AdminSuffix)
  }

  /** The guest marker is never an administrator. */
  lemma GuestIsNotAdmin()
    ensures !IsAdmin(GuestEmail)
  {
  }

  /** Edit and Delete are shown to a signed-in user who uploaded the resource or is an administrator. */
  predicate MayEditOrDelete(user: Option<string>, r: Resource)
    ensures MayEditOrDelete(user, r) ==> user.Some?
    ensures user.Some? && IsAdmin(user.value) ==> MayEditOrDelete(user, r)
    ensures user.Some? && !IsAdmin(user.value) ==> (MayEditOrDelete(user, r) <==> r.uploaderEmail == user.value)
  {
    user.Some? && (r.uploaderEmail == user.value || IsAdmin(user.value))
  }

  /** A resource uploaded in guest mode can be edited only by administrators. */
  lemma GuestUploadsAdminOnly(user: Option<string>, r: Resource)
    requires r.uploaderEmail == GuestEmail
    requires user != Some(GuestEmail)
    ensures MayEditOrDelete(user, r) <==> user.Some? && IsAdmin(user.value)
  {
  }

  /** `res.get("voters", {}).get(safe_email, False)`: the voter key is marked True. */
  predicate HasVoted(r: Resource, email: string)
    ensures HasVoted(r, email) ==> SafeKey(email) in r.voters
    ensures VotesConsistent(r) ==> (HasVoted(r, email) <==> SafeKey(email) in r.voters)
  {
    var key := SafeKey(email);
    key in r.voters && r.voters[key]
  }

  /** The Upvote button is shown to a signed-in user whose key is not marked in `voters`. */
  predicate MayUpvote(user: Option<string>, r: Resource)
    ensures MayUpvote(user, r) <==> user.Some? && !HasVoted(r, user.value)
  {
    match user
    case None => false
    case Some(email) => !HasVoted(r, email)
  }

  /** On a consistent record the button is shown exactly when the store would accept the vote. */
  lemma MayUpvoteIffAccepted(email: string, r: Resource)
    requires VotesConsistent(r)
    ensures MayUpvote(Some(email), r) <==> Upvote(r, email).accepted
  {
  }

  /** After an accepted vote the button is no longer shown to that user. */
  lemma NoUpvoteAfterVoting(email: string, r: Resource)
    requires VotesConsistent(r)
    ensures !MayUpvote(Some(email), Upvote(r, email).record)
  {
  }

  /** The report box is shown to signed-in users only. */
  predicate MayReport(user: Option<string>) {
    user.Some?
  }

  /** Reporting is offered on the signed-in screen only, and in guest mode or
      on the login form neither editing, deleting nor upvoting is offered. */
  lemma ActionsByScreen(s: Session, r: Resource)
    ensures MayReport(s.user) <==> s.CurrentScreen().SignedIn?
    ensures !s.CurrentScreen().SignedIn? ==> !MayEditOrDelete(s.user, r) && !MayUpvote(s.user, r)
  {
  }

  // ------------------------------------------------------------ the form

  /** Title, description and Drive link must all be non-empty. */
  predicate RequiredFieldsPresent(title: string, description: string, driveLink: string) {
    !(title == [] || description == [] || driveLink == [])
  }

  /** The tags a submission carries: the selection, then the custom tag stripped, when one was typed. */
  ghost function WithCustomTag(selected: seq<string>, customTag: string): (tags: seq<string>)
    ensures customTag == [] ==> tags == selected
    ensures customTag != [] ==> |tags| == |selected| + 1 && tags[..|selected|] == selected
    ensures customTag != [] ==> Text.IsTrimmed(tags[|selected|])
    ensures customTag != [] ==> exists i :: Text.StrippedAt(customTag, tags[|selected|], i)
  {
    if customTag == [] then selected else selected + [Text.Strip(customTag)]
  }

  /** `tags.append(custom_tag.strip())` when a custom tag was typed. The list
      is a value here: the in-place append becomes the reassignment of `tags`,
      and `WithCustomTag` is the value it ends up holding. */
  method AppendCustomTag(selected: seq<string>, customTag: string) returns (tags: seq<string>)
    ensures tags == WithCustomTag(selected, customTag)
  {
    tags := selected;
    if customTag != [] {
      tags := tags + [Text.Strip(customTag)];
    }
  }

  /** A custom tag of whitespace only is still appended, as the empty tag. */
  lemma BlankCustomTag(customTag: string)
    requires customTag != [] && Text.SpaceBetween(customTag, 0, |customTag|)
    ensures Text.Strip(customTag) == []
  {
    var i :| Text.StrippedAt(customTag, Text.Strip(customTag), i);
  }

  /** The dictionary the edit form sends to `update_resource`: the four form fields and nothing else. */
  function EditPatch(title: string, description: string, tags: seq<string>, driveLink: string): (p: Patch)
    ensures p.title == Some(title) && p.description == Some(description)
    ensures p.tags == Some(tags) && p.driveLink == Some(driveLink)
    ensures p.id.None? && p.timestamp.None? && p.uploaderEmail.None? && p.votes.None? && p.voters.None?
  {
    NoChange.(title := Some(title), description := Some(description), tags := Some(tags), driveLink := Some(driveLink))
  }

  /** An edit replaces exactly the four form fields and keeps the record consistent. */
  lemma EditKeepsOtherFields(r: Resource, title: string, description: string, tags: seq<string>, driveLink: string)
    ensures var e := Merge(r, EditPatch(title, description, tags, driveLink));
            e == r.(title := title, description := description, tags := tags, driveLink := driveLink)
    ensures VotesConsistent(r) ==> VotesConsistent(Merge(r, EditPatch(title, description, tags, driveLink)))
  {
  }

  datatype SubmitOutcome = MissingFields | Updated(resourceId: string) | Uploaded(resourceId: string)

  /** The signed-in Submit button. An empty `updateId` uploads a new resource
      under `freshId`; otherwise the four form fields of `updateId` are replaced. */
  method Submit(db: Database, userEmail: string, title: string, description: string,
                selectedTags: seq<string>, customTag: string, driveLink: string,
                updateId: string, freshId: string, timestamp: string) returns (outcome: SubmitOutcome)
    requires RequiredFieldsPresent(title, description, driveLink) && updateId != [] ==> updateId in db.resources
    modifies db
    ensures !RequiredFieldsPresent(title, description, driveLink) ==>
              outcome == MissingFields && db.resources == old(db.resources)
    ensures RequiredFieldsPresent(title, description, driveLink) && updateId != [] ==>
              outcome == Updated(updateId) &&
              db.resources == old(db.resources)[updateId := Merge(old(db.resources)[updateId],
                EditPatch(title, description, WithCustomTag(selectedTags, customTag), driveLink))]
    ensures RequiredFieldsPresent(title, description, driveLink) && updateId == [] ==>
              outcome == Uploaded(freshId) &&
              db.resources == old(db.resources)[freshId := NewResource(freshId, timestamp, title, description,
                WithCustomTag(selectedTags, customTag), driveLink, userEmail)]
    ensures db.reports == old(db.reports)
    ensures old(Consistent(db.resources)) ==> Consistent(db.resources)
  {
    var tags := AppendCustomTag(selectedTags, customTag);
    if !RequiredFieldsPresent(title, description, driveLink) {
      return MissingFields;
    }
    if updateId != [] {
      db.UpdateResource(updateId, EditPatch(title, description, tags, driveLink));
      outcome := Updated(updateId);
    } else {
      db.AddResource(freshId, timestamp, title, description, tags, driveLink, userEmail);
      outcome := Uploaded(freshId);
    }
  }

  /** The guest Upload button: always a new resource, owned by the guest marker. */
  method GuestSubmit(db: Database, title: string, description: string,
                     selectedTags: seq<string>, customTag: string, driveLink: string,
                     freshId: string, timestamp: string) returns (outcome: SubmitOutcome)
    modifies db
    ensures !RequiredFieldsPresent(title, description, driveLink) ==>
              outcome == MissingFields && db.resources == old(db.resources)
    ensures RequiredFieldsPresent(title, description, driveLink) ==>
              outcome == Uploaded(freshId) &&
              db.resources == old(db.resources)[freshId := NewResource(freshId, timestamp, title, description,
                WithCustomTag(selectedTags, customTag), driveLink, GuestEmail)]
    ensures db.reports == old(db.reports)
    ensures old(Consistent(db.resources)) ==> Consistent(db.resources)
  {
    outcome := Submit(db, GuestEmail, title, description, selectedTags, customTag, driveLink, [], freshId, timestamp);
  }

  /** The Report button of a signed-in user; the reason box may be left empty. */
  method SubmitReport(db: Database, session: Session, resourceId: string, reason: string,
                      reportId: string, timestamp: string) returns (reported: bool)
    modifies db
    ensures reported <==> MayReport(session.user)
    ensures reported ==> db.reports == old(db.reports)[reportId := Report(reportId, resourceId, session.user.value, reason, timestamp)]
    ensures !reported ==> db.reports == old(db.reports)
    ensures db.resources == old(db.resources)
  {
    if !MayReport(session.user) {
      return false;
    }
    db.ReportResource(reportId, timestamp, resourceId, session.user.value, Some(reason));
    return true;
  }

  // ------------------------------------------------------------ search

  /** The query, lower-cased, occurs in the lower-cased title or in some lower-cased tag. */
  predicate MatchesQuery(r: Resource, query: string)
    ensures query == [] ==> MatchesQuery(r, query)
    ensures Text.Contains(r.title, query) ==> MatchesQuery(r, query)
    ensures (exists i :: 0 <= i < |r.tags| && Text.Contains(r.tags[i], query)) ==> MatchesQuery(r, query)
  {
    Text.ContainsEmpty(Text.Lower(r.title));
    Text.ContainsLower(r.title, query);
    ContainsLowerTags(r.tags, query);
    var q := Text.Lower(query);
    Text.Contains(Text.Lower(r.title), q) ||
    exists i :: 0 <= i < |r.tags| && Text.Contains(Text.Lower(r.tags[i]), q)
  }

  /** A tag that contains the query as typed also contains it case-insensitively. */
  lemma ContainsLowerTags(tags: seq<string>, query: string)
    ensures (exists i :: 0 <= i < |tags| && Text.Contains(tags[i], query)) ==>
            exists i :: 0 <= i < |tags| && Text.Contains(Text.Lower(tags[i]), Text.Lower(query))
  {
    if i :| 0 <= i < |tags| && Text.Contains(tags[i], query) {
      Text.ContainsLower(tags[i], query);
    }
  }

  /** The listing filter: every resource for an empty query, otherwise those that match it. */
  function FilterResources(resources: map<string, Resource>, query: string): (shown: map<string, Resource>)
    ensures query == [] ==> shown == resources
    ensures shown.Keys <= resources.Keys
    ensures forall rid :: rid in shown ==> shown[rid] == resources[rid]
    ensures query != [] ==> forall rid :: rid in resources ==> (rid in shown <==> MatchesQuery(resources[rid], query))
  {
    if query == [] then resources
    else map rid | rid in resources && MatchesQuery(resources[rid], query) :: resources[rid]
  }

  /** The empty query matches every resource, so showing everything for it agrees with filtering. */
  lemma EmptyQueryMatchesAll(r: Resource)
    ensures MatchesQuery(r, [])
  {
    Text.ContainsEmpty(Text.Lower(r.title));
  }

  /** The filter ignores the case of the query. */
  lemma {:induction false} FilterIgnoresQueryCase(resources: map<string, Resource>, query: string)
    ensures FilterResources(resources, Text.Lower(query)) == FilterResources(resources, query)
  {
    Text.LowerIdempotent(query);
    forall r: Resource ensures MatchesQuery(r, Text.Lower(query)) == MatchesQuery(r, query) {
    }
  }

  /** Typing more of a query can only narrow the listing. */
  lemma {:induction false} FilterNarrows(resources: map<string, Resource>, query: string, more: string)
    ensures FilterResources(resources, query + more).Keys <= FilterResources(resources, query).Keys
  {
    if query != [] {
      Text.LowerConcat(query, more);
      forall rid | rid in FilterResources(resources, query + more)
        ensures MatchesQuery(resources[rid], query)
      {
        var r := resources[rid];
        var q, m := Text.Lower(query), Text.Lower(more);
        if Text.Contains(Text.Lower(r.title), q + m) {
          Text.ContainsPrefix(Text.Lower(r.title), q, m);
        } else {
          var i :| 0 <= i < |r.tags| && Text.Contains(Text.Lower(r.tags[i]), q + m);
          Text.ContainsPrefix(Text.Lower(r.tags[i]), q, m);
        }
      }
    }
  }

  // ------------------------------------------------------------ Drive preview

  /** `[a-zA-Z0-9_-]`. */
  predicate IsIdChar(c: char) {
    'a' <= c <= 'z' || 'A' <= c <= 'Z' || '0' <= c <= '9' || c == '_' || c == '-'
  }

  /** `/d/` followed by at least one id character starts at `i`. */
  predicate MarkerAt(link: string, i: int) {
    0 <= i && i + 3 < |link| && link[i..i + 3] == "/d/" && IsIdChar(link[i + 3])
  }

  /** `id` is what `re.search(r"/d/([a-zA-Z0-9_-]+)", link).group(1)` captures at
      `i`: the leftmost marker, followed by the longest run of id characters. */
  ghost predicate CapturedAt(link: string, i: int, id: string) {
    MarkerAt(link, i) &&
    (forall q :: 0 <= q < i ==> !MarkerAt(link, q)) &&
    i + 3 + |id| <= |link| && link[i + 3..i + 3 + |id|] == id &&
    (forall k :: 0 <= k < |id| ==> IsIdChar(id[k])) &&
    (i + 3 + |id| == |link| || !IsIdChar(link[i + 3 + |id|]))
  }

  /** The first marker at or after `from`. */
  function FindMarker(link: string, from: nat): (p: Option<nat>)
    requires from <= |link|
    ensures p.Some? ==> from <= p.value && MarkerAt(link, p.value)
    ensures p.Some? ==> forall q :: from <= q < p.value ==> !MarkerAt(link, q)
    ensures p.None? ==> forall q :: from <= q ==> !MarkerAt(link, q)
    decreases |link| - from
  {
    if from + 3 >= |link| then None
    else if MarkerAt(link, from) then Some(from)
    else FindMarker(link, from + 1)
  }

  /** The end of the run of id characters that starts at `from`. */
  function IdRunEnd(link: string, from: nat): (k: nat)
    requires from <= |link|
    ensures from <= k <= |link|
    ensures forall t :: from <= t < k ==> IsIdChar(link[t])
    ensures k == |link| || !IsIdChar(link[k])
    decreases |link| - from
  {
    if from < |link| && IsIdChar(link[from]) then IdRunEnd(link, from + 1) else from
  }

  /** The Drive file id embedded in the preview frame, if the link has one. */
  function DriveFileId(link: string): (id: Option<string>)
    ensures id.None? <==> forall q :: !MarkerAt(link, q)
    ensures id.Some? ==> id.value != [] && exists i :: CapturedAt(link, i, id.value)
  {
    match FindMarker(link, 0)
    case None => None
    case Some(i) =>
      var k := IdRunEnd(link, i + 3);
      assert CapturedAt(link, i, link[i + 3..k]);
      Some(link[i + 3..k])
  }

  /** There is at most one capture: the leftmost marker and the longest run fix it. */
  lemma {:induction false} CaptureUnique(link: string, i: int, a: string, j: int, b: string)
    requires CapturedAt(link, i, a) && CapturedAt(link, j, b)
    ensures i == j && a == b
  {
    assert i == j;
    assert link[i + 3..i + 3 + |a|] == a && link[i + 3..i + 3 + |b|] == b;
  }

  /** A capture at some position is exactly what the extraction returns. */
  lemma DriveFileIdComplete(link: string, i: int, id: string)
    requires CapturedAt(link, i, id)
    ensures DriveFileId(link) == Some(id)
  {
    var got := DriveFileId(link);
    assert MarkerAt(link, i);
    var j :| CapturedAt(link, j, got.value);
    CaptureUnique(link, i, id, j, got.value);
  }
}
