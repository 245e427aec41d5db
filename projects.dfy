/** The project write path: creating a project (with the tracked-project name
    normalisation, payload defaults, the connection and user checks, the
    retry-once policy on an id collision and the best-effort link fan-out),
    and the owner-scoped update and delete. The database is an abstract store;
    id generation and the outcome of every database call are parameters. */
module Projects {
  import opened JsValues

  /** A stored project row. */
  datatype Project = Project(
    projectID: string,
    name: string,
    description: string,
    codeUrl: string,
    playableUrl: string,
    screenshot: string,
    submitted: bool,
    userId: string,
    shipped: bool,
    viral: bool,
    in_review: bool)

  /** The caller's `hackatimeProjects` array. Creation appends to it in place, so
      the caller sees the merged list afterwards. */
  class TrackedNames {
    var names: seq<string>

    constructor (names: seq<string>)
      ensures this.names == names
    {
      this.names := names;
    }

    method Push(name: string)
      modifies this
      ensures names == old(names) + [name]
    {
      names := names + [name];
    }
  }

  /** The creation input. Text fields and flags may be missing at run time, which
      the defaults below account for. */
  datatype ProjectInput = ProjectInput(
    name: Option<string>,
    description: Option<string>,
    codeUrl: Option<string>,
    playableUrl: Option<string>,
    screenshot: Option<string>,
    userId: string,
    shipped: Option<bool>,
    viral: Option<bool>,
    in_review: Option<bool>,
    hackatimeName: Option<string>,
    hackatimeProjects: TrackedNames?)

  /** A partial update: every field except `projectID`, `userId` and `submitted`,
      each of which may be left out. */
  datatype ProjectUpdate = ProjectUpdate(
    name: Option<string>,
    description: Option<string>,
    codeUrl: Option<string>,
    playableUrl: Option<string>,
    screenshot: Option<string>,
    shipped: Option<bool>,
    viral: Option<bool>,
    in_review: Option<bool>)

  /** The compound unique key `projectID_userId`. */
  datatype Key = Key(projectID: string, userId: string)

  /** A link between a project and one tracked (Hackatime) project name. */
  datatype Link = Link(projectID: string, hackatimeName: string)

  /** What one `prisma.project.create` call does: store the row, resolve to
      nothing, or throw an error with a message. */
  datatype InsertResult = Stored | NullResult | Threw(message: string)

  datatype CreateError =
    | ConnectionFailed
    | UserLookupFailed
    | UserNotFound(userId: string)
    | CreationFailed(message: string)
    | RetryFailed(message: string)

  datatype StoreError = NotFound

  const UnnamedProject := "Unnamed Project"
  // The messages below are written in pieces so that proofs can see their parts.
  /** The message of the error thrown when the first insert resolves to nothing. */
  const NullResultMessage := "Project creation" + " failed - " + "database" + " returned" + " null result"
  /** The message of the error raised by reading `projectID` of a retry that resolved to nothing. */
  const NullRetryMessage := "Cannot read properties of null (reading 'projectID')"
  /** The message the database gives when a generated `projectID` is already taken. */
  const CollisionMessage := "Unique constraint" + " failed on the fields: (`" + "projectID" + "`)"

  // ---------------------------------------------------------------------------
  // Normalisation of the tracked-project names

  /** `data.hackatimeName || ""` */
  function LegacyName(data: ProjectInput): (r: string)
    ensures r == "" <==> !Truthy(data.hackatimeName)
    ensures Truthy(data.hackatimeName) ==> r == data.hackatimeName.value
  {
    OrElse(data.hackatimeName, "")
  }

  /** The list as the caller passed it; a missing list is empty. */
  function InputNames(data: ProjectInput): seq<string>
    reads data.hackatimeProjects
  {
    if data.hackatimeProjects == null then [] else data.hackatimeProjects.names
  }

  /** The list with the legacy name appended when it is non-empty and not already
      listed (exact string match). Entries already in the list, duplicates
      included, keep their order and number. */
  function MergeTracked(names: seq<string>, legacy: string): (r: seq<string>)
    ensures names <= r
    ensures forall n :: n in r <==> n in names || (n == legacy && legacy != "")
    ensures forall n :: n != legacy ==> multiset(r)[n] == multiset(names)[n]
    ensures legacy != "" ==> multiset(r)[legacy] == if legacy in names then multiset(names)[legacy] else 1
    ensures legacy == "" ==> r == names
  {
    if legacy != "" && legacy !in names then names + [legacy] else names
  }

  predicate NoDuplicates(s: seq<string>)
  {
    forall i, j :: 0 <= i < j < |s| ==> s[i] != s[j]
  }

  lemma MergeTrackedIdempotent(names: seq<string>, legacy: string)
    ensures MergeTracked(MergeTracked(names, legacy), legacy) == MergeTracked(names, legacy)
  {
  }

  lemma MergeTrackedKeepsNoDuplicates(names: seq<string>, legacy: string)
    requires NoDuplicates(names)
    ensures NoDuplicates(MergeTracked(names, legacy))
  {
  }

  /** The legacy name is pushed onto the caller's own array when it is non-empty
      and not yet listed; a missing array is replaced by a fresh one. */
  method NormaliseTracked(data: ProjectInput) returns (names: seq<string>)
    modifies data.hackatimeProjects
    ensures names == MergeTracked(old(InputNames(data)), LegacyName(data))
    ensures data.hackatimeProjects != null ==> data.hackatimeProjects.names == names
  {
    var legacy := LegacyName(data);
    var tracked: TrackedNames;
    if data.hackatimeProjects != null {
      tracked := data.hackatimeProjects;
    } else {
      tracked := new TrackedNames([]);
    }
    if legacy != "" && legacy !in tracked.names {
      tracked.Push(legacy);
    }
    names := tracked.names;
  }

  // ---------------------------------------------------------------------------
  // The payload

  /** `!!b` */
  function Coerce(b: Option<bool>): (r: bool)
    ensures r <==> b == Some(true)
  {
    b.Some? && b.value
  }

  /** The record sent to the database, before any retry. */
  function BuildPayload(data: ProjectInput, id: string): (p: Project)
    ensures p.projectID == id && p.userId == data.userId
    ensures !p.submitted
    ensures p.name != ""
    ensures p.name == if Truthy(data.name) then data.name.value else UnnamedProject
    ensures p.description == if data.description.Some? then data.description.value else ""
    ensures p.codeUrl == if data.codeUrl.Some? then data.codeUrl.value else ""
    ensures p.playableUrl == if data.playableUrl.Some? then data.playableUrl.value else ""
    ensures p.screenshot == if data.screenshot.Some? then data.screenshot.value else ""
    ensures p.shipped == (data.shipped == Some(true))
    ensures p.viral == (data.viral == Some(true))
    ensures p.in_review == (data.in_review == Some(true))
  {
    Project(
      projectID := id,
      name := OrElse(data.name, UnnamedProject),
      description := OrElse(data.description, ""),
      codeUrl := OrElse(data.codeUrl, ""),
      playableUrl := OrElse(data.playableUrl, ""),
      screenshot := OrElse(data.screenshot, ""),
      userId := data.userId,
      submitted := false,
      shipped := Coerce(data.shipped),
      viral := Coerce(data.viral),
      in_review := Coerce(data.in_review))
  }

  /** Two payloads built from the same input differ at most in their `projectID`:
      the retry sends the first payload with only a new id. */
  lemma RetryPayloadChangesOnlyId(data: ProjectInput, firstId: string, retryId: string)
    ensures BuildPayload(data, firstId).(projectID := retryId) == BuildPayload(data, retryId)
  {
  }

  // ---------------------------------------------------------------------------
  // Classifying an insert failure

  /** The message of the error the first insert produces, as the catch block sees it. */
  function FailureMessage(o: InsertResult): (m: string)
    ensures o.Threw? ==> m == o.message
    ensures o.NullResult? ==> m == NullResultMessage
  {
    match o
    case Threw(m) => m
    case _ => NullResultMessage
  }

  /** The message the retry's failure carries. */
  function RetryFailureMessage(o: InsertResult): (m: string)
    ensures o.Threw? ==> m == o.message
    ensures o.NullResult? ==> m == NullRetryMessage
  {
    match o
    case Threw(m) => m
    case _ => NullRetryMessage
  }

  /** A failure is treated as an id collision iff its message mentions both the
      unique constraint and `projectID`. */
  function IsIdCollision(message: string): (b: bool)
    ensures b <==> (exists i :: OccursAt(message, "Unique constraint", i))
                   && (exists j :: OccursAt(message, "projectID", j))
  {
    Includes(message, "Unique constraint") && Includes(message, "projectID")
  }

  lemma CollisionMentionsConstraint()
    ensures Includes(CollisionMessage, "Unique constraint")
  {
    var m := CollisionMessage;
    IncludesWhenOccurs(m, "Unique constraint", 0);
  }

  lemma CollisionMentionsId()
    ensures Includes(CollisionMessage, "projectID")
  {
    var m := CollisionMessage;
    IncludesWhenOccurs(m, "projectID", 42);
  }

  /** The database's error for a taken `projectID` leads to the retry. */
  lemma CollisionIsRetried()
    ensures Retries(Threw(CollisionMessage))
  {
    CollisionMentionsConstraint();
    CollisionMentionsId();
  }

  const NameCollisionMessage := "Unique constraint" + " failed on the " + "fields: (`name`)"

  lemma NameCollisionOmitsId()
    ensures !Includes(NameCollisionMessage, "projectID")
  {
    var m := NameCollisionMessage;
    NotIncludedWithoutFirstChar(m, "projectID");
  }

  /** A failure whose message does not mention `projectID` is not retried. */
  lemma OtherUniqueFailureIsNotRetried(m: string)
    requires !Includes(m, "projectID")
    ensures !Retries(Threw(m))
  {
  }

  /** For example, a unique-constraint failure on `name`. */
  lemma NameCollisionIsNotRetried()
    ensures !Retries(Threw(NameCollisionMessage))
  {
    NameCollisionOmitsId();
    OtherUniqueFailureIsNotRetried(NameCollisionMessage);
  }

  lemma NullResultOmitsConstraint()
    ensures !Includes(NullResultMessage, "Unique constraint")
  {
    var m := NullResultMessage;
    assert 'U' !in "Project creation" && 'U' !in " failed - " && 'U' !in "database";
    assert 'U' !in " returned" && 'U' !in " null result";
    NotIncludedWithoutFirstChar(m, "Unique constraint");
  }

  /** Whether a first insert outcome leads to the one retry: only a thrown error
      whose message names both the unique constraint and `projectID`. A database
      that resolves to nothing is never retried, as the error raised for it does
      not mention the unique constraint. */
  function Retries(o: InsertResult): (b: bool)
    ensures b ==> o.Threw?
    ensures o.Threw? ==> (b <==> IsIdCollision(o.message))
  {
    NullResultOmitsConstraint();
    !o.Stored? && IsIdCollision(FailureMessage(o))
  }

  /** The result for each outcome of the one or two inserts, `o1` and `o2` being
      what the database does with them; the log of sent payloads grows from
      `before` to `after`. */
  predicate InsertPolicy(p1: Project, retryId: string, o1: InsertResult, o2: InsertResult,
                         r: Result<Project, CreateError>, before: seq<Project>, after: seq<Project>)
  {
    var p2 := p1.(projectID := retryId);
    && after == before + (if Retries(o1) then [p1, p2] else [p1])
    && (o1.Stored? ==> r == Ok(p1))
    && (!o1.Stored? && !Retries(o1) ==> r == Err(CreationFailed(FailureMessage(o1))))
    && (Retries(o1) && o2.Stored? ==> r == Ok(p2))
    && (Retries(o1) && !o2.Stored? ==> r == Err(RetryFailed(RetryFailureMessage(o2))))
  }

  // ---------------------------------------------------------------------------
  // Link fan-out

  /** Link attempt `i` succeeds iff the oracle says so; missing entries fail. */
  predicate Succeeds(ok: seq<bool>, i: int)
  {
    0 <= i < |ok| && ok[i]
  }

  /** One attempt per name, in order, all keyed by the stored `projectID`. */
  function LinkAttempts(pid: string, names: seq<string>): (r: seq<Link>)
    ensures |r| == |names|
    ensures forall i :: 0 <= i < |names| ==> r[i] == Link(pid, names[i])
  {
    seq(|names|, i requires 0 <= i < |names| => Link(pid, names[i]))
  }

  /** The links that exist after the attempts, given which of them succeeded. */
  function LinksCreated(pid: string, names: seq<string>, ok: seq<bool>): multiset<Link>
  {
    if names == [] then multiset{}
    else
      var n := |names| - 1;
      LinksCreated(pid, names[..n], ok) + if Succeeds(ok, n) then multiset{Link(pid, names[n])} else multiset{}
  }

  /** Every created link belongs to the stored project and names a tracked name. */
  lemma {:induction false} LinksCreatedAreAttempts(pid: string, names: seq<string>, ok: seq<bool>)
    ensures forall l :: l in LinksCreated(pid, names, ok) ==> l.projectID == pid && l.hackatimeName in names
    ensures LinksCreated(pid, names, ok) <= multiset(LinkAttempts(pid, names))
  {
    if names != [] {
      var n := |names| - 1;
      LinksCreatedAreAttempts(pid, names[..n], ok);
      assert names == names[..n] + [names[n]];
      assert LinkAttempts(pid, names) == LinkAttempts(pid, names[..n]) + [Link(pid, names[n])];
    }
  }

  /** A failed attempt does not stop the others: every attempt that succeeds
      leaves its link. */
  lemma {:induction false} SucceededLinksExist(pid: string, names: seq<string>, ok: seq<bool>, i: int)
    requires 0 <= i < |names| && Succeeds(ok, i)
    ensures Link(pid, names[i]) in LinksCreated(pid, names, ok)
  {
    var n := |names| - 1;
    if i < n {
      SucceededLinksExist(pid, names[..n], ok, i);
    }
  }

  /** When every attempt succeeds the links are exactly the attempts. */
  lemma {:induction false} AllLinksSucceed(pid: string, names: seq<string>, ok: seq<bool>)
    requires forall i :: 0 <= i < |names| ==> Succeeds(ok, i)
    ensures LinksCreated(pid, names, ok) == multiset(LinkAttempts(pid, names))
  {
    if names != [] {
      var n := |names| - 1;
      AllLinksSucceed(pid, names[..n], ok);
      assert LinkAttempts(pid, names) == LinkAttempts(pid, names[..n]) + [Link(pid, names[n])];
    }
  }

  /** Each name gets as many link attempts as it has entries in the list. */
  lemma {:induction false} LinkAttemptsCount(pid: string, names: seq<string>, x: string)
    ensures multiset(LinkAttempts(pid, names))[Link(pid, x)] == multiset(names)[x]
  {
    if names != [] {
      var n := |names| - 1;
      LinkAttemptsCount(pid, names[..n], x);
      assert names == names[..n] + [names[n]];
      assert LinkAttempts(pid, names) == LinkAttempts(pid, names[..n]) + [Link(pid, names[n])];
    }
  }

  /** The legacy name is linked once when it is new, and no more often than the
      list already names it otherwise. */
  lemma LegacyNameNotDuplicated(pid: string, names: seq<string>, legacy: string)
    requires legacy != ""
    ensures multiset(LinkAttempts(pid, MergeTracked(names, legacy)))[Link(pid, legacy)]
            == if legacy in names then multiset(names)[legacy] else 1
  {
    LinkAttemptsCount(pid, MergeTracked(names, legacy), legacy);
  }

  // ---------------------------------------------------------------------------
  // Update

  /** The new value of one field: the update's, when it has one. */
  function Pick<T>(o: Option<T>, current: T): T
  {
    if o.Some? then o.value else current
  }

  /** The row after a partial update: fields present in `u` replace the row's,
      absent ones are kept. */
  function ApplyUpdate(p: Project, u: ProjectUpdate): (q: Project)
    ensures q.projectID == p.projectID && q.userId == p.userId && q.submitted == p.submitted
    // a field left out of the update keeps its stored value
    ensures u.name.None? ==> q.name == p.name
    ensures u.description.None? ==> q.description == p.description
    ensures u.codeUrl.None? ==> q.codeUrl == p.codeUrl
    ensures u.playableUrl.None? ==> q.playableUrl == p.playableUrl
    ensures u.screenshot.None? ==> q.screenshot == p.screenshot
    ensures u.shipped.None? ==> q.shipped == p.shipped
    ensures u.viral.None? ==> q.viral == p.viral
    ensures u.in_review.None? ==> q.in_review == p.in_review
    // a field given in the update takes the given value
    ensures u.name.Some? ==> q.name == u.name.value
    ensures u.description.Some? ==> q.description == u.description.value
    ensures u.codeUrl.Some? ==> q.codeUrl == u.codeUrl.value
    ensures u.playableUrl.Some? ==> q.playableUrl == u.playableUrl.value
    ensures u.screenshot.Some? ==> q.screenshot == u.screenshot.value
    ensures u.shipped.Some? ==> q.shipped == u.shipped.value
    ensures u.viral.Some? ==> q.viral == u.viral.value
    ensures u.in_review.Some? ==> q.in_review == u.in_review.value
  {
    Project(
      p.projectID,
      Pick(u.name, p.name),
      Pick(u.description, p.description),
      Pick(u.codeUrl, p.codeUrl),
      Pick(u.playableUrl, p.playableUrl),
      Pick(u.screenshot, p.screenshot),
      p.submitted,
      p.userId,
      Pick(u.shipped, p.shipped),
      Pick(u.viral, p.viral),
      Pick(u.in_review, p.in_review))
  }

  /** The later of two partial updates wins field by field. */
  function Overlay(u: ProjectUpdate, v: ProjectUpdate): ProjectUpdate
  {
    ProjectUpdate(
      if v.name.Some? then v.name else u.name,
      if v.description.Some? then v.description else u.description,
      if v.codeUrl.Some? then v.codeUrl else u.codeUrl,
      if v.playableUrl.Some? then v.playableUrl else u.playableUrl,
      if v.screenshot.Some? then v.screenshot else u.screenshot,
      if v.shipped.Some? then v.shipped else u.shipped,
      if v.viral.Some? then v.viral else u.viral,
      if v.in_review.Some? then v.in_review else u.in_review)
  }

  const NoChange := ProjectUpdate(None, None, None, None, None, None, None, None)

  lemma UpdateLaws(p: Project, u: ProjectUpdate, v: ProjectUpdate)
    ensures ApplyUpdate(p, NoChange) == p
    ensures ApplyUpdate(ApplyUpdate(p, u), u) == ApplyUpdate(p, u)
    ensures ApplyUpdate(ApplyUpdate(p, u), v) == ApplyUpdate(p, Overlay(u, v))
  {
  }

  // ---------------------------------------------------------------------------
  // The store

  /** Every row sits under its own `(projectID, userId)` key and belongs to a
      known user, and no two rows share a `projectID`. */
  ghost predicate WellKeyed(projects: map<Key, Project>, users: set<string>)
  {
    && (forall k :: k in projects ==>
          projects[k].projectID == k.projectID && projects[k].userId == k.userId && k.userId in users)
    && (forall k, k' :: k in projects && k' in projects && k.projectID == k'.projectID ==> k == k')
  }

  /** A project is reachable only under its owner's id: the same `projectID`
      with any other user id is not found. */
  lemma OwnerMismatchIsNotFound(projects: map<Key, Project>, users: set<string>, pid: string, owner: string, other: string)
    requires WellKeyed(projects, users)
    requires Key(pid, owner) in projects && other != owner
    ensures Key(pid, other) !in projects
  {
  }

  class ProjectStore {
    var projects: map<Key, Project>
    var users: set<string>
    var links: multiset<Link>
    /** Every payload sent to `prisma.project.create`, in order. */
    ghost var insertAttempts: seq<Project>
    /** Every link creation attempted, in order. */
    ghost var linkAttempts: seq<Link>

    ghost predicate Valid()
      reads this
    {
      WellKeyed(projects, users)
    }

    constructor (users: set<string>)
      ensures Valid()
      ensures projects == map[] && this.users == users && links == multiset{}
      ensures insertAttempts == [] && linkAttempts == []
    {
      projects := map[];
      this.users := users;
      links := multiset{};
      insertAttempts := [];
      linkAttempts := [];
    }

    predicate IdTaken(id: string)
      reads this
    {
      exists k :: k in projects && k.projectID == id
    }

    /** What an insert of a row with id `id` does: an id already taken fails
        with the unique-constraint error, otherwise the oracle decides. */
    function InsertOutcome(id: string, oracle: InsertResult): InsertResult
      reads this
    {
      if IdTaken(id) then Threw(CollisionMessage) else oracle
    }

    /** `prisma.project.create({ data: p })` */
    method Insert(p: Project, oracle: InsertResult) returns (r: InsertResult)
      requires Valid() && p.userId in users
      modifies this
      ensures Valid()
      ensures r == old(InsertOutcome(p.projectID, oracle))
      ensures projects == if r.Stored? then old(projects)[Key(p.projectID, p.userId) := p] else old(projects)
      ensures insertAttempts == old(insertAttempts) + [p]
      ensures users == old(users) && links == old(links) && linkAttempts == old(linkAttempts)
    {
      r := InsertOutcome(p.projectID, oracle);
      insertAttempts := insertAttempts + [p];
      if r.Stored? {
        projects := projects[Key(p.projectID, p.userId) := p];
      }
    }

    /** `addHackatimeProjectLink(pid, name)`, whose failure is swallowed. */
    method TryLink(pid: string, name: string, ok: bool)
      modifies this
      ensures links == old(links) + if ok then multiset{Link(pid, name)} else multiset{}
      ensures linkAttempts == old(linkAttempts) + [Link(pid, name)]
      ensures projects == old(projects) && users == old(users) && insertAttempts == old(insertAttempts)
    {
      linkAttempts := linkAttempts + [Link(pid, name)];
      if ok {
        links := links + multiset{Link(pid, name)};
      }
    }

    /** One link attempt per name; attempt `i` succeeds iff `Succeeds(ok, i)`. */
    method LinkAll(pid: string, names: seq<string>, ok: seq<bool>)
      modifies this
      ensures links == old(links) + LinksCreated(pid, names, ok)
      ensures linkAttempts == old(linkAttempts) + LinkAttempts(pid, names)
      ensures projects == old(projects) && users == old(users) && insertAttempts == old(insertAttempts)
    {
      for i := 0 to |names|
        invariant links == old(links) + LinksCreated(pid, names[..i], ok)
        invariant linkAttempts == old(linkAttempts) + LinkAttempts(pid, names[..i])
        invariant projects == old(projects) && users == old(users) && insertAttempts == old(insertAttempts)
      {
        TryLink(pid, names[i], Succeeds(ok, i));
        assert names[..i + 1][..i] == names[..i];
        assert LinkAttempts(pid, names[..i + 1]) == LinkAttempts(pid, names[..i]) + [Link(pid, names[i])];
      }
      assert names[..|names|] == names;
    }

    /** The inserts of `createProject`: one insert of `p1`; when it fails with an
        id-collision message, exactly one more with only the id replaced by `retryId`. */
    method InsertWithRetry(p1: Project, first: InsertResult, retryId: string, retry: InsertResult)
      returns (r: Result<Project, CreateError>)
      requires Valid() && p1.userId in users
      modifies this
      ensures Valid()
      ensures users == old(users) && links == old(links) && linkAttempts == old(linkAttempts)
      ensures InsertPolicy(p1, retryId, old(InsertOutcome(p1.projectID, first)), old(InsertOutcome(retryId, retry)),
                           r, old(insertAttempts), insertAttempts)
      ensures r.Ok? ==>
                && !old(IdTaken(r.value.projectID))
                && projects == old(projects)[Key(r.value.projectID, r.value.userId) := r.value]
      ensures r.Err? ==> projects == old(projects)
    {
      var outcome := Insert(p1, first);
      if outcome.Stored? {
        return Ok(p1);
      }
      var message := FailureMessage(outcome);
      if !IsIdCollision(message) {
        return Err(CreationFailed(message));
      }
      var p2 := p1.(projectID := retryId);
      outcome := Insert(p2, retry);
      if outcome.Stored? {
        return Ok(p2);
      }
      return Err(RetryFailed(RetryFailureMessage(outcome)));
    }

    /** `createProject(data)`. `probeOk` and `lookupOk` say whether the connection
        probe and the user lookup succeed; `firstId` and `retryId` are the ids the
        generator yields; `first` and `retry` are what the database does with the
        two inserts (an id already taken always fails); `linkOk` says which link
        attempts succeed. */
    method CreateProject(data: ProjectInput, probeOk: bool, lookupOk: bool,
                         firstId: string, first: InsertResult,
                         retryId: string, retry: InsertResult,
                         linkOk: seq<bool>)
      returns (r: Result<Project, CreateError>)
      requires Valid()
      modifies this, data.hackatimeProjects
      ensures Valid() && users == old(users)
      // the caller's list is normalised in place, whatever happens next
      ensures data.hackatimeProjects != null ==>
                data.hackatimeProjects.names == MergeTracked(old(data.hackatimeProjects.names), LegacyName(data))
      // checks before any insert
      ensures !probeOk ==> r == Err(ConnectionFailed)
      ensures probeOk && !lookupOk ==> r == Err(UserLookupFailed)
      ensures probeOk && lookupOk && data.userId !in users ==> r == Err(UserNotFound(data.userId))
      ensures !(probeOk && lookupOk && data.userId in users) ==> insertAttempts == old(insertAttempts)
      // at most two inserts, the second only after an id collision, with only a new id
      ensures probeOk && lookupOk && data.userId in users ==>
                InsertPolicy(BuildPayload(data, firstId), retryId, old(InsertOutcome(firstId, first)),
                             old(InsertOutcome(retryId, retry)), r, old(insertAttempts), insertAttempts)
      // success: one new row, one link attempt per merged name keyed by the stored id
      ensures r.Ok? ==>
                && !old(IdTaken(r.value.projectID))
                && projects == old(projects)[Key(r.value.projectID, r.value.userId) := r.value]
                && var merged := MergeTracked(old(InputNames(data)), LegacyName(data));
                   && links == old(links) + LinksCreated(r.value.projectID, merged, linkOk)
                   && linkAttempts == old(linkAttempts) + LinkAttempts(r.value.projectID, merged)
      // failure: no row and no link
      ensures r.Err? ==> projects == old(projects) && links == old(links) && linkAttempts == old(linkAttempts)
    {
      var names := NormaliseTracked(data);
      var payload := BuildPayload(data, firstId);
      if !probeOk {
        return Err(ConnectionFailed);
      }
      if !lookupOk {
        return Err(UserLookupFailed);
      }
      if data.userId !in users {
        return Err(UserNotFound(data.userId));
      }
      r := InsertWithRetry(payload, first, retryId, retry);
      if r.Ok? {
        LinkAll(r.value.projectID, names, linkOk);
      }
    }

    /** `updateProject(projectID, userId, data)`: only the row under that key
        changes; a missing row (or another user's) is not found. */
    method UpdateProject(projectID: string, userId: string, data: ProjectUpdate)
      returns (r: Result<Project, StoreError>)
      requires Valid()
      modifies this
      ensures Valid()
      ensures users == old(users) && links == old(links)
      ensures insertAttempts == old(insertAttempts) && linkAttempts == old(linkAttempts)
      ensures var k := Key(projectID, userId);
              if k in old(projects) then
                r == Ok(ApplyUpdate(old(projects)[k], data)) && projects == old(projects)[k := r.value]
              else
                r == Err(NotFound) && projects == old(projects)
      ensures forall k :: k != Key(projectID, userId) ==>
                (k in projects <==> k in old(projects)) && (k in projects ==> projects[k] == old(projects)[k])
    {
      var k := Key(projectID, userId);
      if k in projects {
        var updated := ApplyUpdate(projects[k], data);
        projects := projects[k := updated];
        r := Ok(updated);
      } else {
        r := Err(NotFound);
      }
    }

    /** `deleteProject(projectID, userId)`: removes only the row under that key
        and returns it; a missing row (or another user's) is not found. */
    method DeleteProject(projectID: string, userId: string) returns (r: Result<Project, StoreError>)
      requires Valid()
      modifies this
      ensures Valid()
      ensures users == old(users) && links == old(links)
      ensures insertAttempts == old(insertAttempts) && linkAttempts == old(linkAttempts)
      ensures var k := Key(projectID, userId);
              if k in old(projects) then
                r == Ok(old(projects)[k]) && projects == old(projects) - {k}
              else
                r == Err(NotFound) && projects == old(projects)
      ensures forall k :: k != Key(projectID, userId) ==>
                (k in projects <==> k in old(projects)) && (k in projects ==> projects[k] == old(projects)[k])
    {
      var k := Key(projectID, userId);
      if k in projects {
        r := Ok(projects[k]);
        projects := projects - {k};
      } else {
        r := Err(NotFound);
      }
    }
  }
}
