/** The job service's de-duplicator: a job, identified by its name and
    parameters, may be enqueued uniquely only while no equal job holds a
    unique sign. Only the set semantics is modelled: the sign is the
    (name, parameters) pair itself. */
module DeDup {
  import opened Wrappers

  datatype Sign = Sign(jobName: string, jobParams: map<string, string>)

  class DeDuplicator {
    var signs: set<Sign>

    /** A de-duplicator over a fresh namespace holds no sign. */
    constructor ()
      ensures signs == {}
    {
      signs := {};
    }

    /** Records the sign of the job, or fails when it is already recorded,
        leaving the recorded signs as they are. */
    method Unique(jobName: string, jobParams: map<string, string>) returns (err: Option<string>)
      modifies this
      ensures Sign(jobName, jobParams) in old(signs) ==> err.Some? && signs == old(signs)
      ensures Sign(jobName, jobParams) !in old(signs) ==>
                err.None? && signs == old(signs) + {Sign(jobName, jobParams)}
    {
      var sign := Sign(jobName, jobParams);
      if sign in signs {
        return Some("the job is duplicated");
      }
      signs := signs + {sign};
      return None;
    }

    /** Removes the sign of the job. */
    method DelUniqueSign(jobName: string, jobParams: map<string, string>) returns (err: Option<string>)
      modifies this
      ensures err.None? && signs == old(signs) - {Sign(jobName, jobParams)}
    {
      signs := signs - {Sign(jobName, jobParams)};
      return None;
    }
  }

  /** The de-duplicator's own scenario: in a fresh namespace the first
      Unique succeeds, an identical second one fails, and the sign can
      still be deleted afterwards, leaving nothing recorded. */
  method DuplicateScenario(jobName: string, jobParams: map<string, string>)
    returns (first: Option<string>, second: Option<string>, deleted: Option<string>, left: set<Sign>)
    ensures first.None? && second.Some? && deleted.None? && left == {}
  {
    var rdd := new DeDuplicator();
    first := rdd.Unique(jobName, jobParams);
    second := rdd.Unique(jobName, jobParams);
    assert rdd.signs == {Sign(jobName, jobParams)};
    deleted := rdd.DelUniqueSign(jobName, jobParams);
    left := rdd.signs;
  }
}
