/** The government-scheme and job directories and their filter panels. An
    empty criterion (an unset select or text box reads as "") places no
    constraint; the others are combined with "and". */
module Directory {
  import opened Text
  import opened Seqs

  datatype Scheme = Scheme(id: int, title: string, category: string, eligibility: string, state: string)

  datatype Job = Job(
    id: int,
    title: string,
    department: string,
    location: string,
    experience: string,
    education: string)

  datatype SchemeCriteria = SchemeCriteria(category: string, eligibility: string, state: string)

  datatype JobCriteria = JobCriteria(department: string, experience: string, education: string, location: string)

  /** The predicate inside the scheme panel's `applyFilters`: exact category,
      case-insensitive substring for eligibility and state. */
  function SchemeMatches(c: SchemeCriteria, s: Scheme): (matches: bool)
    ensures c == SchemeCriteria("", "", "") ==> matches
    ensures c.category != "" && s.category != c.category ==> !matches
  {
    && (c.category == "" || s.category == c.category)
    && (c.eligibility == "" || ContainsIgnoringCase(s.eligibility, c.eligibility))
    && (c.state == "" || ContainsIgnoringCase(s.state, c.state))
  }

  /** The predicate inside the job panel's `applyFilters`: exact department,
      experience and education, case-insensitive substring for location. */
  function JobMatches(c: JobCriteria, j: Job): (matches: bool)
    ensures c == JobCriteria("", "", "", "") ==> matches
    ensures c.department != "" && j.department != c.department ==> !matches
    ensures c.experience != "" && j.experience != c.experience ==> !matches
    ensures c.education != "" && j.education != c.education ==> !matches
  {
    && (c.department == "" || j.department == c.department)
    && (c.experience == "" || j.experience == c.experience)
    && (c.education == "" || j.education == c.education)
    && (c.location == "" || ContainsIgnoringCase(j.location, c.location))
  }

  /** The schemes the panel shows: an order-preserving subsequence of the
      directory holding exactly the schemes that meet every set criterion. */
  function FilterSchemes(schemes: seq<Scheme>, c: SchemeCriteria): (r: seq<Scheme>)
    ensures IsSubsequence(r, schemes)
    ensures forall s :: s in r ==>
      && (c.category != "" ==> s.category == c.category)
      && (c.eligibility != "" ==> ContainsIgnoringCase(s.eligibility, c.eligibility))
      && (c.state != "" ==> ContainsIgnoringCase(s.state, c.state))
    ensures forall i :: 0 <= i < |schemes| && SchemeMatches(c, schemes[i]) ==> schemes[i] in r
    ensures multiset(r) <= multiset(schemes)
    ensures forall s :: s in schemes ==> multiset(r)[s] == if SchemeMatches(c, s) then multiset(schemes)[s] else 0
  {
    FilterIsSubsequence(schemes, s => SchemeMatches(c, s));
    Filter(schemes, s => SchemeMatches(c, s))
  }

  /** The jobs the panel shows. */
  function FilterJobs(jobs: seq<Job>, c: JobCriteria): (r: seq<Job>)
    ensures IsSubsequence(r, jobs)
    ensures forall j :: j in r ==>
      && (c.department != "" ==> j.department == c.department)
      && (c.experience != "" ==> j.experience == c.experience)
      && (c.education != "" ==> j.education == c.education)
      && (c.location != "" ==> ContainsIgnoringCase(j.location, c.location))
    ensures forall i :: 0 <= i < |jobs| && JobMatches(c, jobs[i]) ==> jobs[i] in r
    ensures multiset(r) <= multiset(jobs)
    ensures forall j :: j in jobs ==> multiset(r)[j] == if JobMatches(c, j) then multiset(jobs)[j] else 0
  {
    FilterIsSubsequence(jobs, j => JobMatches(c, j));
    Filter(jobs, j => JobMatches(c, j))
  }

  /** With every criterion empty the whole directory is shown, in order. */
  lemma SchemesUnfiltered(schemes: seq<Scheme>)
    ensures FilterSchemes(schemes, SchemeCriteria("", "", "")) == schemes
  {
    FilterKeepsAll(schemes, s => SchemeMatches(SchemeCriteria("", "", ""), s));
  }

  lemma JobsUnfiltered(jobs: seq<Job>)
    ensures FilterJobs(jobs, JobCriteria("", "", "", "")) == jobs
  {
    FilterKeepsAll(jobs, j => JobMatches(JobCriteria("", "", "", ""), j));
  }

  /** The substring criteria ignore the case of what is typed. */
  lemma StateCriterionIgnoresCase(s: Scheme, state: string)
    ensures ContainsIgnoringCase(s.state, state) == ContainsIgnoringCase(s.state, Lower(state))
  {
    assert Lower(Lower(state)) == Lower(state);
  }
}
