/** The jobs controller: create, list, update and delete a user's job
    applications, and the statistics over them. The job collection is a map
    from id to job held by a store object; the authenticated user is the
    `userId` the authentication middleware attached to the request. */
module Jobs {
  import opened Errors
  import opened Aggregation
  import opened JobStats

  type JobId = nat

  datatype JobType = FullTime | PartTime | Remote | Internship

  /** A creation instant, to the day. */
  datatype Date = Date(year: int, month: int, day: int)

  /** A stored job application. `jobType` and `jobLocation` are None when
      the client gave none (the collection's schema then applies its
      default). */
  datatype Job = Job(
    position: string,
    company: string,
    status: Status,
    jobType: Option<JobType>,
    jobLocation: Option<string>,
    createdBy: UserId,
    createdAt: Date)

  /** A job and its id, as the store returns it. */
  datatype StoredJob = StoredJob(id: JobId, job: Job)

  /** The fields a client may send in the body of a create or update
      request, each possibly absent. Nothing stops a client from sending
      `createdBy`. */
  datatype JobBody = JobBody(
    position: Option<string>,
    company: Option<string>,
    status: Option<Status>,
    jobType: Option<JobType>,
    jobLocation: Option<string>,
    createdBy: Option<UserId>)

  /** The reply of `getAllJobs`. */
  datatype JobList = JobList(jobs: seq<StoredJob>, totalJobs: nat, numOfPages: nat)

  /** The reply of `showStats`. */
  datatype StatsReply = StatsReply(defaultStats: StatusStats, monthlyApplications: seq<Bucket<MonthKey>>)

  const JobRemoved := "Success! Job removed."

  function NoJobWithId(id: JobId): string
  {
    "No job with id: " + DecimalText(id)
  }

  function MonthOf(d: Date): MonthKey
  {
    MonthKey(d.year, d.month)
  }

  /** The job `Job.create` builds from a body that has a position, a company
      and an owner; the status defaults to pending. */
  function NewJob(body: JobBody, now: Date): (job: Job)
    requires Present(body.position) && Present(body.company) && body.createdBy.Some?
    ensures job.position == body.position.value && job.company == body.company.value
    ensures job.status == (if body.status.Some? then body.status.value else Pending)
    ensures job.jobType == body.jobType && job.jobLocation == body.jobLocation
    ensures job.createdBy == body.createdBy.value && job.createdAt == now
  {
    Job(body.position.value, body.company.value, body.status.GetOr(Pending),
        body.jobType, body.jobLocation, body.createdBy.value, now)
  }

  /** `findOneAndUpdate` with the body as the update: every field the body
      has overwrites the stored one, `createdBy` included. */
  function Patch(job: Job, body: JobBody): (r: Job)
    ensures body.position.Some? ==> r.position == body.position.value
    ensures body.position.None? ==> r.position == job.position
    ensures body.company.Some? ==> r.company == body.company.value
    ensures body.company.None? ==> r.company == job.company
    ensures body.status.Some? ==> r.status == body.status.value
    ensures body.status.None? ==> r.status == job.status
    ensures body.jobType.Some? ==> r.jobType == body.jobType
    ensures body.jobType.None? ==> r.jobType == job.jobType
    ensures body.jobLocation.Some? ==> r.jobLocation == body.jobLocation
    ensures body.jobLocation.None? ==> r.jobLocation == job.jobLocation
    ensures body.createdBy.Some? ==> r.createdBy == body.createdBy.value
    ensures body.createdBy.None? ==> r.createdBy == job.createdBy
    ensures r.createdAt == job.createdAt
  {
    Job(body.position.GetOr(job.position),
        body.company.GetOr(job.company),
        body.status.GetOr(job.status),
        if body.jobType.Some? then body.jobType else job.jobType,
        if body.jobLocation.Some? then body.jobLocation else job.jobLocation,
        body.createdBy.GetOr(job.createdBy),
        job.createdAt)
  }

  /** A sanity fact about the update model: applying the same body twice
      changes nothing more. */
  lemma PatchIdempotent(job: Job, body: JobBody)
    ensures Patch(Patch(job, body), body) == Patch(job, body)
  {
  }

  /** `Job.find({ createdBy: userId })` over the ids below `n`, in ascending
      id order: exactly the jobs of that user, each once. */
  function Owned(jobs: map<JobId, Job>, userId: UserId, n: nat): (r: seq<StoredJob>)
    ensures forall k :: 0 <= k < |r| ==>
              r[k].id < n && r[k].id in jobs && jobs[r[k].id] == r[k].job && r[k].job.createdBy == userId
    ensures forall k, l :: 0 <= k < l < |r| ==> r[k].id < r[l].id
    ensures forall id :: id < n && id in jobs && jobs[id].createdBy == userId ==>
              exists k :: 0 <= k < |r| && r[k].id == id
  {
    if n == 0 then []
    else
      var before := Owned(jobs, userId, n - 1);
      var id := n - 1;
      if id in jobs && jobs[id].createdBy == userId then
        var r := before + [StoredJob(id, jobs[id])];
        assert r[|before|].id == id;
        assert forall k :: 0 <= k < |before| ==> r[k] == before[k];
        r
      else before
  }

  function StatusesOf(mine: seq<StoredJob>): seq<Status>
  {
    seq(|mine|, k requires 0 <= k < |mine| => mine[k].job.status)
  }

  function MonthsOf(mine: seq<StoredJob>): seq<MonthKey>
  {
    seq(|mine|, k requires 0 <= k < |mine| => MonthOf(mine[k].job.createdAt))
  }

  /** The number of the given jobs that have status `s`. */
  function CountStatus(mine: seq<StoredJob>, s: Status): nat
  {
    |set k | 0 <= k < |mine| && mine[k].job.status == s|
  }

  class JobStore {
    var jobs: map<JobId, Job>
    var nextId: JobId

    /** Every id in use was handed out before, so `nextId` is fresh. */
    ghost predicate Valid()
      reads this
    {
      forall id :: id in jobs ==> id < nextId
    }

    constructor ()
      ensures Valid() && jobs == map[] && nextId == 0
    {
      jobs := map[];
      nextId := 0;
    }

    /** The user's jobs, in the store's natural (creation) order. */
    function Mine(userId: UserId): seq<StoredJob>
      reads this
    {
      Owned(jobs, userId, nextId)
    }

    /** `createJob`: both position and company are required; the owner is
        always the authenticated user, whatever the body says. */
    method CreateJob(userId: UserId, body: JobBody, now: Date) returns (r: Result<StoredJob>)
      requires Valid()
      modifies this
      ensures Valid()
      ensures !Present(body.position) || !Present(body.company) ==>
                r == Failure(BadRequest(ValuesMissing)) && jobs == old(jobs) && nextId == old(nextId)
      ensures Present(body.position) && Present(body.company) ==>
                && r.Success?
                && r.value.id == old(nextId) && nextId == old(nextId) + 1
                && r.value.id !in old(jobs)
                && r.value.job == NewJob(body.(createdBy := Some(userId)), now)
                && r.value.job.createdBy == userId
                && jobs == old(jobs)[r.value.id := r.value.job]
    {
      if !Present(body.position) || !Present(body.company) {
        return Failure(BadRequest(ValuesMissing));
      }
      var owned := body.(createdBy := Some(userId));
      var job := NewJob(owned, now);
      var id := nextId;
      jobs := jobs[id := job];
      nextId := nextId + 1;
      r := Success(StoredJob(id, job));
    }

    /** `getAllJobs`: exactly the caller's jobs, their number, one page. */
    function GetAllJobs(userId: UserId): (r: JobList)
      reads this
      requires Valid()
      ensures forall k :: 0 <= k < |r.jobs| ==>
                var j := r.jobs[k]; j.id in jobs && jobs[j.id] == j.job && j.job.createdBy == userId
      ensures forall id :: id in jobs && jobs[id].createdBy == userId ==>
                exists k :: 0 <= k < |r.jobs| && r.jobs[k].id == id
      ensures forall k, l :: 0 <= k < l < |r.jobs| ==> r.jobs[k].id != r.jobs[l].id
      ensures r.totalJobs == |r.jobs| && r.numOfPages == 1
    {
      var mine := Mine(userId);
      JobList(mine, |mine|, 1)
    }

    /** `updateJob`: the body is checked before the lookup, the lookup before
        the permission check, and the permission check before the write. */
    method UpdateJob(userId: UserId, id: JobId, body: JobBody,
                     checkPermissions: (UserId, UserId) -> Option<ApiError>)
      returns (r: Result<StoredJob>)
      requires Valid()
      modifies this
      ensures Valid() && nextId == old(nextId)
      ensures !Present(body.company) || !Present(body.position) ==>
                r == Failure(BadRequest(ValuesMissing)) && jobs == old(jobs)
      ensures Present(body.company) && Present(body.position) && id !in old(jobs) ==>
                r == Failure(NotFound(NoJobWithId(id))) && jobs == old(jobs)
      ensures Present(body.company) && Present(body.position) && id in old(jobs) ==>
                match checkPermissions(userId, old(jobs)[id].createdBy)
                case Some(e) => r == Failure(e) && jobs == old(jobs)
                case None =>
                  r == Success(StoredJob(id, Patch(old(jobs)[id], body)))
                  && jobs == old(jobs)[id := Patch(old(jobs)[id], body)]
    {
      if !Present(body.company) || !Present(body.position) {
        return Failure(BadRequest(ValuesMissing));
      }
      if id !in jobs {
        return Failure(NotFound(NoJobWithId(id)));
      }
      var job := jobs[id];
      var denied := checkPermissions(userId, job.createdBy);
      if denied.Some? {
        return Failure(denied.value);
      }
      var updated := Patch(job, body);
      jobs := jobs[id := updated];
      r := Success(StoredJob(id, updated));
    }

    /** `deleteJob`: lookup, then permission check, then removal of exactly
        that job. */
    method DeleteJob(userId: UserId, id: JobId,
                     checkPermissions: (UserId, UserId) -> Option<ApiError>)
      returns (r: Result<string>)
      requires Valid()
      modifies this
      ensures Valid() && nextId == old(nextId)
      ensures id !in old(jobs) ==> r == Failure(NotFound(NoJobWithId(id))) && jobs == old(jobs)
      ensures id in old(jobs) ==>
                match checkPermissions(userId, old(jobs)[id].createdBy)
                case Some(e) => r == Failure(e) && jobs == old(jobs)
                case None =>
                  && r == Success(JobRemoved)
                  && id !in jobs
                  && forall other :: other != id ==>
                       (other in jobs <==> other in old(jobs))
                       && (other in jobs ==> jobs[other] == old(jobs)[other])
    {
      if id !in jobs {
        return Failure(NotFound(NoJobWithId(id)));
      }
      var job := jobs[id];
      var denied := checkPermissions(userId, job.createdBy);
      if denied.Some? {
        return Failure(denied.value);
      }
      jobs := jobs - {id};
      r := Success(JobRemoved);
    }

    /** `showStats` over the caller's jobs; the status counts add up to the
        `totalJobs` that `getAllJobs` reports to the same caller. */
    function ShowStats(userId: UserId): (r: StatsReply)
      reads this
      requires Valid()
      ensures r.defaultStats.pending + r.defaultStats.interview + r.defaultStats.declined
                == GetAllJobs(userId).totalJobs
    {
      StatsOf(Mine(userId))
    }
  }

  /** The statistics of a user's jobs `mine`: per-status counts, with 0 for
      a status without jobs, and the monthly series of the six most recent
      months with jobs, oldest first, each with the number of jobs created
      in it. */
  function StatsOf(mine: seq<StoredJob>): (r: StatsReply)
    ensures r.defaultStats.pending == CountStatus(mine, Pending)
    ensures r.defaultStats.interview == CountStatus(mine, Interview)
    ensures r.defaultStats.declined == CountStatus(mine, Declined)
    ensures r.defaultStats.pending + r.defaultStats.interview + r.defaultStats.declined == |mine|
    ensures |r.monthlyApplications| <= MonthsShown
    ensures StrictlyAscending(r.monthlyApplications)
    ensures CountsMonths(r.monthlyApplications, mine)
    ensures KeepsRecentMonths(r.monthlyApplications, mine)
  {
    var statuses, months := StatusesOf(mine), MonthsOf(mine);
    StatusCountsOfJobs(mine);
    MonthlyOfJobs(mine);
    StatsReply(StatusCounts(statuses), MonthlyApplications(months))
  }

  /** Each status count is the number of the jobs with that status, and
      the three together account for every job. */
  lemma StatusCountsOfJobs(mine: seq<StoredJob>)
    ensures var r := StatusCounts(StatusesOf(mine));
            && r.pending == CountStatus(mine, Pending)
            && r.interview == CountStatus(mine, Interview)
            && r.declined == CountStatus(mine, Declined)
            && r.pending + r.interview + r.declined == |mine|
  {
    var statuses := StatusesOf(mine);
    StatusCountsExact(statuses);
    StatusCountsTotal(statuses);
    CountStatusIsMultiplicity(mine, Pending);
    CountStatusIsMultiplicity(mine, Interview);
    CountStatusIsMultiplicity(mine, Declined);
  }

  /** Each month of the series comes with the number of the jobs created
      in it, and that number is positive. */
  ghost predicate CountsMonths(series: seq<Bucket<MonthKey>>, mine: seq<StoredJob>)
  {
    forall i :: 0 <= i < |series| ==>
      series[i].count > 0 && series[i].count == multiset(MonthsOf(mine))[series[i].key]
  }

  /** No job is left out of the series except for a month older than all
      of a full series. */
  ghost predicate KeepsRecentMonths(series: seq<Bucket<MonthKey>>, mine: seq<StoredJob>)
  {
    forall k :: 0 <= k < |mine| ==>
      var m := MonthOf(mine[k].job.createdAt);
      (exists i :: 0 <= i < |series| && series[i].key == m)
      || (|series| == MonthsShown && forall i :: 0 <= i < |series| ==> Before(m, series[i].key))
  }

  /** The monthly series of the jobs: at most six months, oldest first, each
      with its number of jobs, and none of the jobs left out for a month
      that is not among the six most recent. */
  lemma MonthlyOfJobs(mine: seq<StoredJob>)
    ensures var r := MonthlyApplications(MonthsOf(mine));
            && |r| <= MonthsShown
            && StrictlyAscending(r)
            && CountsMonths(r, mine)
            && KeepsRecentMonths(r, mine)
  {
    MonthlyOrdered(MonthsOf(mine));
    MonthlyCounts(MonthsOf(mine));
    MonthlyKeepsRecentJobs(mine);
  }

  /** Every job of the user falls in a month of the series, or in a month
      older than all six in it. */
  lemma MonthlyKeepsRecentJobs(mine: seq<StoredJob>)
    ensures var r := MonthlyApplications(MonthsOf(mine));
            forall k :: 0 <= k < |mine| ==>
              var m := MonthOf(mine[k].job.createdAt);
              (exists i :: 0 <= i < |r| && r[i].key == m)
              || (|r| == MonthsShown && forall i :: 0 <= i < |r| ==> Before(m, r[i].key))
  {
    var months := MonthsOf(mine);
    forall k | 0 <= k < |mine|
      ensures var r := MonthlyApplications(months);
              var m := MonthOf(mine[k].job.createdAt);
              (exists i :: 0 <= i < |r| && r[i].key == m)
              || (|r| == MonthsShown && forall i :: 0 <= i < |r| ==> Before(m, r[i].key))
    {
      assert months[k] == MonthOf(mine[k].job.createdAt);
      MonthlyMostRecent(months, months[k]);
    }
  }

  /** Counting jobs by status is the multiplicity of that status among the
      jobs' statuses. */
  lemma {:induction false} CountStatusIsMultiplicity(mine: seq<StoredJob>, s: Status)
    ensures CountStatus(mine, s) == multiset(StatusesOf(mine))[s]
  {
    if mine != [] {
      var front := mine[..|mine| - 1];
      CountStatusIsMultiplicity(front, s);
      CountStatusSnoc(mine, s);
      StatusesOfSnoc(mine);
    }
  }

  /** The last job adds one to the count of its own status only. */
  lemma CountStatusSnoc(mine: seq<StoredJob>, s: Status)
    requires mine != []
    ensures CountStatus(mine, s) ==
              CountStatus(mine[..|mine| - 1], s) + (if mine[|mine| - 1].job.status == s then 1 else 0)
  {
    var front := mine[..|mine| - 1];
    var all := set k | 0 <= k < |mine| && mine[k].job.status == s;
    var before := set k | 0 <= k < |front| && front[k].job.status == s;
    if mine[|mine| - 1].job.status == s {
      assert all == before + {|mine| - 1};
    } else {
      assert all == before;
    }
  }

  lemma StatusesOfSnoc(mine: seq<StoredJob>)
    requires mine != []
    ensures StatusesOf(mine) == StatusesOf(mine[..|mine| - 1]) + [mine[|mine| - 1].job.status]
  {
  }

  /** Nothing in `updateJob` protects the owner: an update that passes the
      body check and the permission check, and whose body names a user in
      `createdBy`, hands the job to that user. */
  method UpdateCanReassignOwner(store: JobStore, userId: UserId, id: JobId, body: JobBody,
                                checkPermissions: (UserId, UserId) -> Option<ApiError>)
    returns (r: Result<StoredJob>)
    requires store.Valid() && id in store.jobs
    requires Present(body.company) && Present(body.position) && body.createdBy.Some?
    requires checkPermissions(userId, store.jobs[id].createdBy).None?
    modifies store
    ensures r.Success? && r.value.id == id
    ensures id in store.jobs && store.jobs[id].createdBy == body.createdBy.value
    ensures store.jobs[id].createdAt == old(store.jobs[id].createdAt)
  {
    r := store.UpdateJob(userId, id, body, checkPermissions);
  }

  /** Two users share the store; the first creates two pending jobs and one
      interview, the third claiming in its body to belong to the second
      user. The first user's statistics count 2, 1 and 0, and the second
      user sees no job. */
  method TwoUsers(today: Date)
  {
    var store := new JobStore();
    var a, b := 1, 2;
    var r1 := store.CreateJob(a, JobBody(Some("Engineer"), Some("Acme"), None, None, None, None), today);
    var r2 := store.CreateJob(a, JobBody(Some("Analyst"), Some("Hooli"), Some(Interview), None, None, None), today);
    var r3 := store.CreateJob(a, JobBody(Some("Designer"), Some("Initech"), Some(Pending), None, None, Some(b)), today);
    var j0, j1, j2 := StoredJob(0, r1.value.job), StoredJob(1, r2.value.job), StoredJob(2, r3.value.job);
    assert store.jobs == map[0 := j0.job, 1 := j1.job, 2 := j2.job] && store.nextId == 3;
    OwnedThree(store.jobs, a, j0, j1, j2);
    TwoPendingOneInterview(j0, j1, j2);
    assert store.ShowStats(a).defaultStats == StatusStats(2, 1, 0);
    OwnedNoneOfThree(store.jobs, b, j0, j1, j2);
    assert store.GetAllJobs(b).jobs == [];
  }

  lemma OwnedThree(jobs: map<JobId, Job>, u: UserId, j0: StoredJob, j1: StoredJob, j2: StoredJob)
    requires jobs == map[0 := j0.job, 1 := j1.job, 2 := j2.job]
    requires j0.id == 0 && j1.id == 1 && j2.id == 2
    requires j0.job.createdBy == u && j1.job.createdBy == u && j2.job.createdBy == u
    ensures Owned(jobs, u, 3) == [j0, j1, j2]
  {
    assert 0 in jobs && jobs[0] == j0.job;
    assert 1 in jobs && jobs[1] == j1.job;
    assert 2 in jobs && jobs[2] == j2.job;
    assert Owned(jobs, u, 0) == [];
    assert Owned(jobs, u, 1) == Owned(jobs, u, 0) + [StoredJob(0, jobs[0])];
    assert Owned(jobs, u, 2) == Owned(jobs, u, 1) + [StoredJob(1, jobs[1])];
    assert Owned(jobs, u, 3) == Owned(jobs, u, 2) + [StoredJob(2, jobs[2])];
  }

  lemma OwnedNoneOfThree(jobs: map<JobId, Job>, u: UserId, j0: StoredJob, j1: StoredJob, j2: StoredJob)
    requires jobs == map[0 := j0.job, 1 := j1.job, 2 := j2.job]
    requires j0.job.createdBy != u && j1.job.createdBy != u && j2.job.createdBy != u
    ensures Owned(jobs, u, 3) == []
  {
    assert 0 in jobs && jobs[0] == j0.job;
    assert 1 in jobs && jobs[1] == j1.job;
    assert 2 in jobs && jobs[2] == j2.job;
    assert Owned(jobs, u, 0) == [];
    assert Owned(jobs, u, 1) == [];
    assert Owned(jobs, u, 2) == [];
  }

  lemma TwoPendingOneInterview(j0: StoredJob, j1: StoredJob, j2: StoredJob)
    requires j0.job.status == Pending && j1.job.status == Interview && j2.job.status == Pending
    ensures StatsOf([j0, j1, j2]).defaultStats == StatusStats(2, 1, 0)
  {
    var mine := [j0, j1, j2];
    assert (set k | 0 <= k < |mine| && mine[k].job.status == Pending) == {0, 2};
    assert (set k | 0 <= k < |mine| && mine[k].job.status == Interview) == {1};
    assert (set k | 0 <= k < |mine| && mine[k].job.status == Declined) == {};
  }
}
