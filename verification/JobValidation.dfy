/** The consistency check of a collector job. */
module JobValidation {
  import opened Wrappers
  import opened ReportingJobs

  /** References to jobs that do not exist, by the job that holds them. */
  datatype InvalidCollectorJob = InvalidCollectorJob(specs: map<Uuid, seq<Uuid>>, notifiers: map<Uuid, seq<Uuid>>)

  predicate IsListed(refs: map<Uuid, seq<Uuid>>, u: Uuid, ref: Uuid) {
    u in refs && ref in refs[u]
  }

  function AddRef(refs: map<Uuid, seq<Uuid>>, u: Uuid, ref: Uuid): map<Uuid, seq<Uuid>> {
    refs[u := (if u in refs then refs[u] else []) + [ref]]
  }

  /** A child of some job with this uuid is missing. */
  ghost predicate MissesChild(jobs: map<Uuid, ReportingJob>, checked: set<Uuid>, u: Uuid, ref: Uuid)
    reads jobs.Values
  {
    ref !in jobs && exists k :: k in checked && k in jobs && jobs[k].uuid == u && ref in jobs[k].childJobs
  }

  ghost predicate MissesNotified(jobs: map<Uuid, ReportingJob>, checked: set<Uuid>, u: Uuid, ref: Uuid)
    reads jobs.Values
  {
    ref !in jobs && exists k :: k in checked && k in jobs && jobs[k].uuid == u && ref in jobs[k].notify
  }

  ghost predicate KnowsAll(jobs: map<Uuid, ReportingJob>, k: Uuid)
    requires k in jobs
    reads jobs.Values
  {
    (forall ref :: ref in jobs[k].childJobs ==> ref in jobs) && (forall ref :: ref in jobs[k].notify ==> ref in jobs)
  }

  /** All jobs that a job refers to exist. */
  ghost predicate WellWired(jobs: map<Uuid, ReportingJob>)
    reads jobs.Values
  {
    forall k :: k in jobs ==> KnowsAll(jobs, k)
  }

  /** Lists those references of a job that are not known. */
  method CheckRefs(u: Uuid, refs: set<Uuid>, known: set<Uuid>, listed: map<Uuid, seq<Uuid>>)
    returns (invalid: bool, listed': map<Uuid, seq<Uuid>>)
    ensures !invalid <==> refs <= known
    ensures forall v, ref :: IsListed(listed', v, ref) <==>
      IsListed(listed, v, ref) || (v == u && ref in refs && ref !in known)
  {
    invalid, listed' := false, listed;
    var remaining := refs;
    while remaining != {}
      invariant remaining <= refs && (!invalid <==> refs - remaining <= known)
      invariant forall v, ref :: IsListed(listed', v, ref) <==>
        IsListed(listed, v, ref) || (v == u && ref in refs && ref !in remaining && ref !in known)
      decreases |remaining|
    {
      var ref :| ref in remaining;
      if ref !in known {
        invalid := true;
        listed' := AddRef(listed', u, ref);
      }
      remaining := remaining - {ref};
    }
  }

  /** Checks one job after some others. */
  method ValidateJob(
      jobs: map<Uuid, ReportingJob>, k: Uuid, specs: map<Uuid, seq<Uuid>>, notifiers: map<Uuid, seq<Uuid>>,
                     ghost checked: set<Uuid>)
    returns (bad: bool, specs': map<Uuid, seq<Uuid>>, notifiers': map<Uuid, seq<Uuid>>)
    requires k in jobs
    requires forall u, ref :: IsListed(specs, u, ref) <==> MissesChild(jobs, checked, u, ref)
    requires forall u, ref :: IsListed(notifiers, u, ref) <==> MissesNotified(jobs, checked, u, ref)
    ensures !bad <==> KnowsAll(jobs, k)
    ensures forall u, ref :: IsListed(specs', u, ref) <==> MissesChild(jobs, checked + {k}, u, ref)
    ensures forall u, ref :: IsListed(notifiers', u, ref) <==> MissesNotified(jobs, checked + {k}, u, ref)
  {
    var job := jobs[k];
    var badSpec, badNotifier;
    badSpec, specs' := CheckRefs(job.uuid, job.childJobs.Keys, jobs.Keys, specs);
    badNotifier, notifiers' := CheckRefs(job.uuid, (set n | n in job.notify), jobs.Keys, notifiers);
    OneMoreChecked(jobs, checked, k);
    bad := badSpec || badNotifier;
  }

  /** Returns nil exactly for a well-wired job, and otherwise just the missing references. */
  method Validate(jobs: map<Uuid, ReportingJob>) returns (err: Option<InvalidCollectorJob>)
    ensures err.None? <==> WellWired(jobs)
    ensures err.Some? ==> forall u, ref :: IsListed(err.value.specs, u, ref) <==> MissesChild(jobs, jobs.Keys, u, ref)
    ensures err.Some? ==> forall u, ref :: IsListed(err.value.notifiers, u, ref) <==>
      MissesNotified(jobs, jobs.Keys, u, ref)
  {
    var invalid := false;
    var specs, notifiers: map<Uuid, seq<Uuid>> := map[], map[];
    var remaining := jobs.Keys;
    ghost var checked: set<Uuid> := {};
    while remaining != {}
      invariant remaining <= jobs.Keys && checked == jobs.Keys - remaining
      invariant !invalid <==> forall k :: k in checked ==> KnowsAll(jobs, k)
      invariant forall u, ref :: IsListed(specs, u, ref) <==> MissesChild(jobs, checked, u, ref)
      invariant forall u, ref :: IsListed(notifiers, u, ref) <==> MissesNotified(jobs, checked, u, ref)
      decreases |remaining|
    {
      var k :| k in remaining;
      var bad;
      bad, specs, notifiers := ValidateJob(jobs, k, specs, notifiers, checked);
      invalid := invalid || bad;
      checked := checked + {k};
      remaining := remaining - {k};
    }
    assert checked == jobs.Keys;
    if !invalid {
      return None;
    }
    return Some(InvalidCollectorJob(specs, notifiers));
  }

  lemma OneMoreChecked(jobs: map<Uuid, ReportingJob>, checked: set<Uuid>, k: Uuid)
    requires k in jobs
    ensures forall u, ref :: MissesChild(jobs, checked + {k}, u, ref) <==>
      MissesChild(jobs, checked, u, ref) || (u == jobs[k].uuid && ref in jobs[k].childJobs && ref !in jobs)
    ensures forall u, ref :: MissesNotified(jobs, checked + {k}, u, ref) <==>
      MissesNotified(jobs, checked, u, ref) || (u == jobs[k].uuid && ref in jobs[k].notify && ref !in jobs)
    ensures KnowsAll(jobs, k) <==> jobs[k].childJobs.Keys <= jobs.Keys && (set n | n in jobs[k].notify) <= jobs.Keys
  {
  }
}
