/** The digest e-mail: grouping by company, the cap per company, seen and unseen jobs. */
module Digests {
  import opened Common
  import opened Jobs

  /** A piece of the e-mail's body. */
  datatype Part =
    | SearchedAt
    | CompanyHeading(name: string) | NewlyIdentified | AlreadyIdentified
    | ListStart | Item(job: Job) | ListEnd | Placeholder(text: string)
    | NotShown(count: nat, linked: bool)
    | FailuresStart | Failure(name: string) | FailuresEnd
    | AllJobsLink

  datatype Digest =
    | Report(jobCount: nat, failedCount: nat, parts: seq<Part>)
    | CheckIn(sourceCount: nat)

  /** `job.company or "Unknown"`. */
  function Company(j: Job): string {
    if j.company.Some? && j.company.value != "" then j.company.value else "Unknown"
  }

  datatype Group = Group(company: string, jobs: seq<Job>)

  // ---- by_company ------------------------------------------------------------------

  /** The position of a company's group, or the number of groups. */
  function IndexOf(groups: seq<Group>, company: string): (i: nat)
    ensures i <= |groups|
    ensures i < |groups| ==> groups[i].company == company
    ensures forall k :: 0 <= k < i ==> groups[k].company != company
  {
    if groups == [] || groups[0].company == company then 0 else 1 + IndexOf(groups[1..], company)
  }

  /** `by_company.setdefault(company, []).append(job)` on a dict in insertion order. */
  function Add(groups: seq<Group>, j: Job): seq<Group> {
    var i := IndexOf(groups, Company(j));
    if i < |groups| then groups[i := Group(groups[i].company, groups[i].jobs + [j])]
    else groups + [Group(Company(j), [j])]
  }

  function GroupsOf(jobs: seq<Job>): seq<Group> {
    if jobs == [] then [] else Add(GroupsOf(jobs[..|jobs| - 1]), jobs[|jobs| - 1])
  }

  function OfCompany(jobs: seq<Job>, company: string): seq<Job> {
    Filter(jobs, (j: Job) => Company(j) == company)
  }

  /** Where a company first appears, or the number of jobs. */
  function FirstOf(jobs: seq<Job>, company: string): (i: nat)
    ensures i <= |jobs|
  {
    if jobs == [] || Company(jobs[0]) == company then 0 else 1 + FirstOf(jobs[1..], company)
  }

  lemma {:induction false} FirstOfSnoc(jobs: seq<Job>, j: Job, company: string)
    ensures FirstOf(jobs + [j], company)
         == if FirstOf(jobs, company) < |jobs| then FirstOf(jobs, company)
            else if Company(j) == company then |jobs| else |jobs| + 1
  {
    if jobs == [] {
      assert [] + [j] == [j];
    } else {
      assert (jobs + [j])[1..] == jobs[1..] + [j];
      FirstOfSnoc(jobs[1..], j, company);
    }
  }

  /** The groups are a stable partition of the jobs: distinct companies, in the order in
      which they first appear, each with exactly its jobs in their order. */
  ghost predicate StablePartition(groups: seq<Group>, jobs: seq<Job>) {
    && (forall a :: 0 <= a < |groups| ==> IsGroup(groups[a], jobs))
    && (forall a, b :: 0 <= a < b < |groups| ==> FirstOf(jobs, groups[a].company) < FirstOf(jobs, groups[b].company))
    && (forall j :: j in jobs ==> Covers(groups, j))
  }

  ghost predicate Covers(groups: seq<Group>, j: Job) {
    exists a :: 0 <= a < |groups| && groups[a].company == Company(j)
  }

  ghost predicate IsGroup(g: Group, jobs: seq<Job>) {
    g.jobs == OfCompany(jobs, g.company) && g.jobs != [] && FirstOf(jobs, g.company) < |jobs|
  }

  lemma GroupGrows(g: Group, jobs: seq<Job>, j: Job)
    requires IsGroup(g, jobs)
    ensures FirstOf(jobs + [j], g.company) == FirstOf(jobs, g.company)
    ensures IsGroup(if Company(j) == g.company then Group(g.company, g.jobs + [j]) else g, jobs + [j])
  {
    FirstOfSnoc(jobs, j, g.company);
    FilterSnoc(jobs, j, (k: Job) => Company(k) == g.company);
  }

  lemma {:induction false} NoneYet(jobs: seq<Job>, company: string)
    requires forall j :: j in jobs ==> Company(j) != company
    ensures OfCompany(jobs, company) == [] && FirstOf(jobs, company) == |jobs|
  {
    if jobs != [] {
      var n := |jobs| - 1;
      NoneYet(jobs[..n], company);
      assert jobs == jobs[..n] + [jobs[n]];
      FirstOfSnoc(jobs[..n], jobs[n], company);
      FilterSnoc(jobs[..n], jobs[n], (k: Job) => Company(k) == company);
    }
  }

  lemma GroupStarts(jobs: seq<Job>, j: Job)
    requires forall k :: k in jobs ==> Company(k) != Company(j)
    ensures FirstOf(jobs + [j], Company(j)) == |jobs|
    ensures IsGroup(Group(Company(j), [j]), jobs + [j])
  {
    NoneYet(jobs, Company(j));
    FirstOfSnoc(jobs, j, Company(j));
    FilterSnoc(jobs, j, (k: Job) => Company(k) == Company(j));
  }

  lemma AddAt(groups: seq<Group>, j: Job, a: nat)
    requires a < |groups| && (forall b :: 0 <= b < |groups| && b != a ==> groups[b].company != groups[a].company)
    ensures |Add(groups, j)| >= |groups|
    ensures Add(groups, j)[a]
         == if Company(j) == groups[a].company then Group(groups[a].company, groups[a].jobs + [j]) else groups[a]
  {
  }

  /** A group that is already there keeps its place and its right to it. */
  lemma OldGroup(groups: seq<Group>, jobs: seq<Job>, j: Job, a: nat)
    requires StablePartition(groups, jobs) && a < |groups|
    ensures |Add(groups, j)| >= |groups| && Add(groups, j)[a].company == groups[a].company
    ensures IsGroup(Add(groups, j)[a], jobs + [j])
    ensures FirstOf(jobs + [j], groups[a].company) == FirstOf(jobs, groups[a].company) < |jobs|
  {
    GroupGrows(groups[a], jobs, j);
    forall b | 0 <= b < |groups| && b != a ensures groups[b].company != groups[a].company {
      assert FirstOf(jobs, groups[b].company) != FirstOf(jobs, groups[a].company);
    }
    AddAt(groups, j, a);
  }

  lemma NewGroup(groups: seq<Group>, jobs: seq<Job>, j: Job)
    requires StablePartition(groups, jobs) && IndexOf(groups, Company(j)) == |groups|
    ensures Add(groups, j) == groups + [Group(Company(j), [j])]
    ensures FirstOf(jobs + [j], Company(j)) == |jobs| && IsGroup(Group(Company(j), [j]), jobs + [j])
  {
    forall k | k in jobs ensures Company(k) != Company(j) {
      assert Covers(groups, k);
    }
    GroupStarts(jobs, j);
  }

  lemma AddCovers(groups: seq<Group>, j: Job, k: Job)
    requires k == j || Covers(groups, k)
    ensures Covers(Add(groups, j), k)
  {
    var after, i := Add(groups, j), IndexOf(groups, Company(j));
    assert after[i].company == Company(j);
    if k != j {
      var a :| 0 <= a < |groups| && groups[a].company == Company(k);
      assert after[a].company == groups[a].company;
    }
  }

  lemma AddKeepsGroups(groups: seq<Group>, jobs: seq<Job>, j: Job, a: nat)
    requires StablePartition(groups, jobs) && a < |Add(groups, j)|
    ensures IsGroup(Add(groups, j)[a], jobs + [j])
    ensures FirstOf(jobs + [j], Add(groups, j)[a].company)
         == if a < |groups| then FirstOf(jobs, groups[a].company) else |jobs|
  {
    if a < |groups| {
      OldGroup(groups, jobs, j, a);
    } else {
      NewGroup(groups, jobs, j);
    }
  }

  lemma AddKeepsOrder(groups: seq<Group>, jobs: seq<Job>, j: Job, a: nat, b: nat)
    requires StablePartition(groups, jobs) && a < b < |Add(groups, j)|
    ensures FirstOf(jobs + [j], Add(groups, j)[a].company) < FirstOf(jobs + [j], Add(groups, j)[b].company)
  {
    AddKeepsGroups(groups, jobs, j, a);
    AddKeepsGroups(groups, jobs, j, b);
    assert IsGroup(groups[a], jobs);
  }

  lemma AddKeepsPartition(groups: seq<Group>, jobs: seq<Job>, j: Job)
    requires StablePartition(groups, jobs)
    ensures StablePartition(Add(groups, j), jobs + [j])
  {
    var after := Add(groups, j);
    forall k | k in jobs + [j] ensures Covers(after, k) {
      AddCovers(groups, j, k);
    }
    forall a | 0 <= a < |after| ensures IsGroup(after[a], jobs + [j]) {
      AddKeepsGroups(groups, jobs, j, a);
    }
    forall a, b | 0 <= a < b < |after|
      ensures FirstOf(jobs + [j], after[a].company) < FirstOf(jobs + [j], after[b].company)
    {
      AddKeepsOrder(groups, jobs, j, a, b);
    }
  }

  lemma {:induction false} GroupsPartition(jobs: seq<Job>)
    ensures StablePartition(GroupsOf(jobs), jobs)
  {
    if jobs != [] {
      var n := |jobs| - 1;
      GroupsPartition(jobs[..n]);
      AddKeepsPartition(GroupsOf(jobs[..n]), jobs[..n], jobs[n]);
      assert jobs == jobs[..n] + [jobs[n]];
    }
  }

  // ---- one company's section ---------------------------------------------------------

  /** The jobs of a group that the cap leaves; no cap when it is not positive. */
  function Shown(g: Group, maxPerCompany: int): (r: seq<Job>)
    ensures r <= g.jobs
    ensures |r| == if 0 < maxPerCompany <= |g.jobs| then maxPerCompany else |g.jobs|
  {
    if maxPerCompany > 0 && |g.jobs| > maxPerCompany then g.jobs[..maxPerCompany] else g.jobs
  }

  function Unseen(jobs: seq<Job>, emailed: set<Key>): seq<Job> {
    Filter(jobs, (j: Job) => j.key !in emailed)
  }

  function Seen(jobs: seq<Job>, emailed: set<Key>): seq<Job> {
    Filter(jobs, (j: Job) => j.key in emailed)
  }

  /** The jobs of a section in the order in which they are listed. */
  function Listed(g: Group, maxPerCompany: int, emailed: Option<set<Key>>): seq<Job> {
    var jobs := Shown(g, maxPerCompany);
    if emailed.None? then jobs else Unseen(jobs, emailed.value) + Seen(jobs, emailed.value)
  }

  function ItemsFor(jobs: seq<Job>): seq<Part> {
    seq(|jobs|, i requires 0 <= i < |jobs| => Item(jobs[i]))
  }

  function JobList(jobs: seq<Job>, emptyText: string): seq<Part> {
    if jobs == [] then [Placeholder(emptyText)] else [ListStart] + ItemsFor(jobs) + [ListEnd]
  }

  function Overflow(g: Group, maxPerCompany: int): nat {
    |g.jobs| - |Shown(g, maxPerCompany)|
  }

  function Body(jobs: seq<Job>, emailed: Option<set<Key>>): seq<Part> {
    match emailed
    case None => JobList(jobs, "")
    case Some(keys) =>
      [NewlyIdentified] + JobList(Unseen(jobs, keys), "No newly identified jobs.")
      + ([AlreadyIdentified] + JobList(Seen(jobs, keys), "No previously identified jobs."))
  }

  function Section(g: Group, maxPerCompany: int, emailed: Option<set<Key>>, jobsUrl: bool): seq<Part> {
    [CompanyHeading(g.company)] + Body(Shown(g, maxPerCompany), emailed)
    + (if Overflow(g, maxPerCompany) > 0 then [NotShown(Overflow(g, maxPerCompany), jobsUrl)] else [])
  }

  function Sections(groups: seq<Group>, maxPerCompany: int, emailed: Option<set<Key>>, jobsUrl: bool): seq<Part> {
    if groups == [] then []
    else
      var n := |groups| - 1;
      Sections(groups[..n], maxPerCompany, emailed, jobsUrl) + Section(groups[n], maxPerCompany, emailed, jobsUrl)
  }

  // ---- building it -------------------------------------------------------------------

  method AddToGroups(groups: seq<Group>, j: Job) returns (after: seq<Group>)
    ensures after == Add(groups, j)
  {
    var i := 0;
    while i < |groups| && groups[i].company != Company(j)
      invariant i <= IndexOf(groups, Company(j))
    {
      i := i + 1;
    }
    if i == |groups| {
      after := groups + [Group(Company(j), [j])];
    } else {
      after := groups[i := Group(groups[i].company, groups[i].jobs + [j])];
    }
  }

  method GroupByCompany(jobs: seq<Job>) returns (groups: seq<Group>)
    ensures groups == GroupsOf(jobs) && StablePartition(groups, jobs)
  {
    groups := [];
    for n := 0 to |jobs|
      invariant groups == GroupsOf(jobs[..n])
    {
      groups := AddToGroups(groups, jobs[n]);
      assert jobs[..n + 1][..n] == jobs[..n];
    }
    assert jobs[..|jobs|] == jobs;
    GroupsPartition(jobs);
  }

  method RenderJobList(jobs: seq<Job>, emptyText: string) returns (parts: seq<Part>)
    ensures parts == JobList(jobs, emptyText)
  {
    if jobs == [] {
      return [Placeholder(emptyText)];
    }
    parts := [ListStart];
    for i := 0 to |jobs|
      invariant parts == [ListStart] + ItemsFor(jobs[..i])
    {
      parts := parts + [Item(jobs[i])];
    }
    assert jobs[..|jobs|] == jobs;
    parts := parts + [ListEnd];
  }

  method RenderBody(jobs: seq<Job>, emailed: Option<set<Key>>) returns (parts: seq<Part>)
    ensures parts == Body(jobs, emailed)
  {
    if emailed.Some? {
      var unseen := RenderJobList(Unseen(jobs, emailed.value), "No newly identified jobs.");
      var seen := RenderJobList(Seen(jobs, emailed.value), "No previously identified jobs.");
      parts := [NewlyIdentified] + unseen + ([AlreadyIdentified] + seen);
    } else {
      parts := RenderJobList(jobs, "");
    }
  }

  method RenderSection(g: Group, maxPerCompany: int, emailed: Option<set<Key>>, jobsUrl: bool)
    returns (parts: seq<Part>)
    ensures parts == Section(g, maxPerCompany, emailed, jobsUrl)
  {
    var jobs, overflow := g.jobs, 0;
    if maxPerCompany > 0 && |jobs| > maxPerCompany {
      overflow := |jobs| - maxPerCompany;
      jobs := jobs[..maxPerCompany];
    }
    assert jobs == Shown(g, maxPerCompany) && overflow == Overflow(g, maxPerCompany);
    var body := RenderBody(jobs, emailed);
    parts := [CompanyHeading(g.company)] + body;
    if overflow > 0 {
      parts := parts + [NotShown(overflow, jobsUrl)];
    }
  }

  method AppendSection(parts: seq<Part>, ghost before: seq<Group>, g: Group, maxPerCompany: int,
                       emailed: Option<set<Key>>, jobsUrl: bool)
    returns (after: seq<Part>)
    requires parts == Sections(before, maxPerCompany, emailed, jobsUrl)
    ensures after == Sections(before + [g], maxPerCompany, emailed, jobsUrl)
  {
    var section := RenderSection(g, maxPerCompany, emailed, jobsUrl);
    SectionsSnoc(before, g, maxPerCompany, emailed, jobsUrl);
    after := parts + section;
  }

  lemma TakeSnoc(groups: seq<Group>, i: nat)
    requires i < |groups|
    ensures groups[..i + 1] == groups[..i] + [groups[i]]
  {
  }

  method RenderGroups(groups: seq<Group>, maxPerCompany: int, emailed: Option<set<Key>>, jobsUrl: bool)
    returns (parts: seq<Part>)
    ensures parts == Sections(groups, maxPerCompany, emailed, jobsUrl)
  {
    parts := [];
    var i := 0;
    while i < |groups|
      invariant i <= |groups|
      invariant parts == Sections(groups[..i], maxPerCompany, emailed, jobsUrl)
    {
      TakeSnoc(groups, i);
      parts := AppendSection(parts, groups[..i], groups[i], maxPerCompany, emailed, jobsUrl);
      i := i + 1;
    }
    assert groups[..|groups|] == groups;
  }

  lemma SectionsSnoc(groups: seq<Group>, g: Group, maxPerCompany: int, emailed: Option<set<Key>>, jobsUrl: bool)
    ensures Sections(groups + [g], maxPerCompany, emailed, jobsUrl)
         == Sections(groups, maxPerCompany, emailed, jobsUrl) + Section(g, maxPerCompany, emailed, jobsUrl)
  {
    assert (groups + [g])[..|groups|] == groups;
  }

  function Failures(failed: seq<string>): seq<Part> {
    if failed == [] then []
    else [FailuresStart] + seq(|failed|, i requires 0 <= i < |failed| => Failure(failed[i])) + [FailuresEnd]
  }

  method RenderFailures(failed: seq<string>) returns (parts: seq<Part>)
    ensures parts == Failures(failed)
  {
    if failed == [] {
      return [];
    }
    var items := [];
    for i := 0 to |failed|
      invariant items == seq(i, k requires 0 <= k < i => Failure(failed[k]))
    {
      items := items + [Failure(failed[i])];
    }
    return [FailuresStart] + items + [FailuresEnd];
  }

  function Optional(present: bool, p: Part): seq<Part> {
    if present then [p] else []
  }

  /** The body of a report. */
  function Parts(newJobs: seq<Job>, failed: seq<string>, searched: bool, jobsUrl: bool, emailed: Option<set<Key>>,
                 maxPerCompany: int): seq<Part>
  {
    Optional(searched, SearchedAt)
    + Sections(GroupsOf(newJobs), maxPerCompany, emailed, jobsUrl)
    + Failures(failed)
    + Optional(jobsUrl, AllJobsLink)
  }

  method BuildDigest(newJobs: seq<Job>, failed: seq<string>, searched: bool, jobsUrl: bool, emailed: Option<set<Key>>,
                     maxPerCompany: int, forceCheckin: bool, sourceCount: nat)
    returns (digest: Option<Digest>)
    ensures digest.None? <==> newJobs == [] && failed == [] && !forceCheckin
    ensures newJobs == [] && failed == [] && forceCheckin ==> digest == Some(CheckIn(sourceCount))
    ensures newJobs != [] || failed != [] ==>
              digest == Some(Report(|newJobs|, |failed|,
                                    Parts(newJobs, failed, searched, jobsUrl, emailed, maxPerCompany)))
  {
    if newJobs == [] && failed == [] {
      return if forceCheckin then Some(CheckIn(sourceCount)) else None;
    }
    var parts := [];
    if searched {
      parts := parts + [SearchedAt];
    }
    assert parts == Optional(searched, SearchedAt);
    var sections, failures := [], [];
    if newJobs != [] {
      var groups := GroupByCompany(newJobs);
      sections := RenderGroups(groups, maxPerCompany, emailed, jobsUrl);
    }
    if failed != [] {
      failures := RenderFailures(failed);
    }
    parts := parts + sections + failures;
    ghost var body := parts;
    if jobsUrl {
      parts := parts + [AllJobsLink];
    }
    assert parts == body + Optional(jobsUrl, AllJobsLink);
    return Some(Report(|newJobs|, |failed|, parts));
  }

  // ---- what the e-mail shows ---------------------------------------------------------

  /** The jobs that a body lists, in order. */
  function ItemsOf(parts: seq<Part>): seq<Job> {
    Collect(parts, (p: Part) => ItemOf(p))
  }

  function ItemOf(p: Part): Option<Job> {
    if p.Item? then Some(p.job) else None
  }

  /** How many jobs a body says it does not show. */
  function Announced(parts: seq<Part>): nat {
    if parts == [] then 0
    else
      var n := |parts| - 1;
      Announced(parts[..n]) + (if parts[n].NotShown? then parts[n].count else 0)
  }

  lemma {:induction false} AnnouncedConcat(a: seq<Part>, b: seq<Part>)
    ensures Announced(a + b) == Announced(a) + Announced(b)
  {
    if b == [] {
      assert a + b == a;
    } else {
      var n := |b| - 1;
      AnnouncedConcat(a, b[..n]);
      assert (a + b)[..|a + b| - 1] == a + b[..n];
    }
  }

  lemma Concat(a: seq<Part>, b: seq<Part>)
    ensures ItemsOf(a + b) == ItemsOf(a) + ItemsOf(b)
    ensures Announced(a + b) == Announced(a) + Announced(b)
  {
    CollectConcat(a, b, (p: Part) => ItemOf(p));
    AnnouncedConcat(a, b);
  }

  lemma One(p: Part)
    ensures ItemsOf([p]) == if p.Item? then [p.job] else []
    ensures Announced([p]) == if p.NotShown? then p.count else 0
  {
    CollectSnoc([], p, (q: Part) => ItemOf(q));
    assert [] + [p] == [p] && [p][..0] == [];
  }

  lemma {:induction false} ItemsForItems(jobs: seq<Job>)
    ensures ItemsOf(ItemsFor(jobs)) == jobs && Announced(ItemsFor(jobs)) == 0
  {
    if jobs != [] {
      var n := |jobs| - 1;
      ItemsForItems(jobs[..n]);
      assert ItemsFor(jobs) == ItemsFor(jobs[..n]) + [Item(jobs[n])];
      Concat(ItemsFor(jobs[..n]), [Item(jobs[n])]);
      One(Item(jobs[n]));
      assert jobs == jobs[..n] + [jobs[n]];
    }
  }

  lemma JobListItems(jobs: seq<Job>, emptyText: string)
    ensures ItemsOf(JobList(jobs, emptyText)) == jobs && Announced(JobList(jobs, emptyText)) == 0
  {
    if jobs == [] {
      One(Placeholder(emptyText));
    } else {
      ItemsForItems(jobs);
      One(ListStart);
      One(ListEnd);
      Concat([ListStart], ItemsFor(jobs));
      Concat([ListStart] + ItemsFor(jobs), [ListEnd]);
    }
  }

  lemma Subsection(heading: Part, jobs: seq<Job>, emptyText: string)
    requires !heading.Item? && !heading.NotShown?
    ensures ItemsOf([heading] + JobList(jobs, emptyText)) == jobs
    ensures Announced([heading] + JobList(jobs, emptyText)) == 0
  {
    JobListItems(jobs, emptyText);
    One(heading);
    Concat([heading], JobList(jobs, emptyText));
  }

  lemma BodyItems(g: Group, maxPerCompany: int, emailed: Option<set<Key>>)
    ensures ItemsOf(Body(Shown(g, maxPerCompany), emailed)) == Listed(g, maxPerCompany, emailed)
    ensures Announced(Body(Shown(g, maxPerCompany), emailed)) == 0
  {
    var jobs := Shown(g, maxPerCompany);
    if emailed.None? {
      JobListItems(jobs, "");
    } else {
      var unseen, seen := Unseen(jobs, emailed.value), Seen(jobs, emailed.value);
      Subsection(NewlyIdentified, unseen, "No newly identified jobs.");
      Subsection(AlreadyIdentified, seen, "No previously identified jobs.");
      Concat([NewlyIdentified] + JobList(unseen, "No newly identified jobs."),
             [AlreadyIdentified] + JobList(seen, "No previously identified jobs."));
    }
  }

  lemma SectionItems(g: Group, maxPerCompany: int, emailed: Option<set<Key>>, jobsUrl: bool)
    ensures ItemsOf(Section(g, maxPerCompany, emailed, jobsUrl)) == Listed(g, maxPerCompany, emailed)
    ensures Announced(Section(g, maxPerCompany, emailed, jobsUrl)) == Overflow(g, maxPerCompany)
  {
    var body, heading := Body(Shown(g, maxPerCompany), emailed), CompanyHeading(g.company);
    var overflow := Overflow(g, maxPerCompany);
    BodyItems(g, maxPerCompany, emailed);
    One(heading);
    Concat([heading], body);
    RestItems(overflow, jobsUrl);
    Concat([heading] + body, if overflow > 0 then [NotShown(overflow, jobsUrl)] else []);
  }

  lemma RestItems(overflow: nat, jobsUrl: bool)
    ensures var more := if overflow > 0 then [NotShown(overflow, jobsUrl)] else [];
            ItemsOf(more) == [] && Announced(more) == overflow
  {
    if overflow > 0 {
      One(NotShown(overflow, jobsUrl));
    }
  }

  /** Unseen and seen make up what is shown. */
  lemma {:induction false} UnseenPlusSeen(jobs: seq<Job>, emailed: set<Key>)
    ensures multiset(Unseen(jobs, emailed)) + multiset(Seen(jobs, emailed)) == multiset(jobs)
    ensures |Unseen(jobs, emailed)| + |Seen(jobs, emailed)| == |jobs|
  {
    if jobs != [] {
      var n := |jobs| - 1;
      var front, j := jobs[..n], jobs[n];
      assert jobs == front + [j];
      UnseenPlusSeen(front, emailed);
      FilterSnoc(front, j, (k: Job) => k.key !in emailed);
      FilterSnoc(front, j, (k: Job) => k.key in emailed);
      JoinsOne(Unseen(front, emailed), Seen(front, emailed), front, j);
    }
  }

  lemma JoinsOne(unseen: seq<Job>, seen: seq<Job>, jobs: seq<Job>, j: Job)
    requires multiset(unseen) + multiset(seen) == multiset(jobs)
    ensures multiset(unseen + [j]) + multiset(seen) == multiset(jobs + [j])
    ensures multiset(unseen) + multiset(seen + [j]) == multiset(jobs + [j])
  {
  }

  /** A section lists exactly what the cap leaves of its company's jobs. */
  lemma ListedIsShown(g: Group, maxPerCompany: int, emailed: Option<set<Key>>)
    ensures multiset(Listed(g, maxPerCompany, emailed)) == multiset(Shown(g, maxPerCompany))
    ensures |Listed(g, maxPerCompany, emailed)| + Overflow(g, maxPerCompany) == |g.jobs|
  {
    if emailed.Some? {
      UnseenPlusSeen(Shown(g, maxPerCompany), emailed.value);
    }
  }

  /** All jobs of the groups. */
  function AllOf(groups: seq<Group>): multiset<Job> {
    if groups == [] then multiset{} else AllOf(groups[..|groups| - 1]) + multiset(groups[|groups| - 1].jobs)
  }

  lemma {:induction false} AllOfGrows(groups: seq<Group>, i: nat, j: Job)
    requires i < |groups|
    ensures AllOf(groups[i := Group(groups[i].company, groups[i].jobs + [j])]) == AllOf(groups) + multiset{j}
  {
    var n := |groups| - 1;
    var after := groups[i := Group(groups[i].company, groups[i].jobs + [j])];
    if i == n {
      assert after[..n] == groups[..n];
    } else {
      AllOfGrows(groups[..n], i, j);
      assert after[..n] == groups[..n][i := Group(groups[i].company, groups[i].jobs + [j])];
    }
  }

  lemma AllOfSnoc(groups: seq<Group>, g: Group)
    ensures AllOf(groups + [g]) == AllOf(groups) + multiset(g.jobs)
  {
    assert (groups + [g])[..|groups|] == groups;
  }

  /** A posting joins its company's group, or starts it. */
  lemma GroupTakes(jobs: seq<Job>, j: Job)
    requires AllOf(GroupsOf(jobs)) == multiset(jobs)
    ensures AllOf(GroupsOf(jobs + [j])) == multiset(jobs + [j])
  {
    var groups := GroupsOf(jobs);
    assert (jobs + [j])[..|jobs|] == jobs;
    if IndexOf(groups, Company(j)) < |groups| {
      AllOfGrows(groups, IndexOf(groups, Company(j)), j);
    } else {
      AllOfSnoc(groups, Group(Company(j), [j]));
    }
  }

  /** Grouping loses and invents nothing. */
  lemma {:induction false} GroupsConserve(jobs: seq<Job>)
    ensures AllOf(GroupsOf(jobs)) == multiset(jobs)
  {
    if jobs != [] {
      var n := |jobs| - 1;
      var front, j := jobs[..n], jobs[n];
      assert jobs == front + [j];
      GroupsConserve(front);
      GroupTakes(front, j);
    }
  }

  ghost predicate AllFit(groups: seq<Group>, maxPerCompany: int) {
    forall a :: 0 <= a < |groups| ==> Overflow(groups[a], maxPerCompany) == 0
  }

  /** One section lists part of its group and announces the rest. */
  lemma SectionAddsUp(g: Group, maxPerCompany: int, emailed: Option<set<Key>>, jobsUrl: bool)
    ensures var part := Section(g, maxPerCompany, emailed, jobsUrl);
            && |ItemsOf(part)| + Announced(part) == |g.jobs|
            && multiset(ItemsOf(part)) <= multiset(g.jobs)
            && Announced(part) == Overflow(g, maxPerCompany)
  {
    SectionItems(g, maxPerCompany, emailed, jobsUrl);
    ListedIsShown(g, maxPerCompany, emailed);
    ShownIsPart(g, maxPerCompany);
  }

  lemma AllFitSnoc(groups: seq<Group>, maxPerCompany: int)
    requires groups != []
    ensures var n := |groups| - 1;
            AllFit(groups, maxPerCompany) <==>
              AllFit(groups[..n], maxPerCompany) && Overflow(groups[n], maxPerCompany) == 0
  {
    var n := |groups| - 1;
    assert forall a :: 0 <= a < n ==> groups[..n][a] == groups[a];
  }

  /** What the sections list and what they announce add up, group by group. */
  lemma {:induction false} SectionsAddUp(groups: seq<Group>, maxPerCompany: int, emailed: Option<set<Key>>,
                                         jobsUrl: bool)
    ensures var parts := Sections(groups, maxPerCompany, emailed, jobsUrl);
            && |ItemsOf(parts)| + Announced(parts) == |AllOf(groups)|
            && multiset(ItemsOf(parts)) <= AllOf(groups)
            && (Announced(parts) == 0 <==> AllFit(groups, maxPerCompany))
  {
    if groups != [] {
      var n := |groups| - 1;
      var front, last := Sections(groups[..n], maxPerCompany, emailed, jobsUrl),
                         Section(groups[n], maxPerCompany, emailed, jobsUrl);
      SectionsAddUp(groups[..n], maxPerCompany, emailed, jobsUrl);
      Concat(front, last);
      SectionAddsUp(groups[n], maxPerCompany, emailed, jobsUrl);
      AllFitSnoc(groups, maxPerCompany);
    }
  }

  lemma ShownIsPart(g: Group, maxPerCompany: int)
    ensures multiset(Shown(g, maxPerCompany)) <= multiset(g.jobs)
  {
    var k := |Shown(g, maxPerCompany)|;
    assert g.jobs == g.jobs[..k] + g.jobs[k..];
  }

  lemma {:induction false} FailuresHaveNoJobs(failed: seq<string>)
    ensures NoJobsIn(Failures(failed))
  {
    if failed != [] {
      var items := seq(|failed|, i requires 0 <= i < |failed| => Failure(failed[i]));
      NoJobs(items);
      One(FailuresStart);
      One(FailuresEnd);
      Concat([FailuresStart], items);
      Concat([FailuresStart] + items, [FailuresEnd]);
    }
  }

  lemma {:induction false} NoJobs(parts: seq<Part>)
    requires forall i :: 0 <= i < |parts| ==> parts[i].Failure?
    ensures ItemsOf(parts) == [] && Announced(parts) == 0
  {
    if parts != [] {
      var n := |parts| - 1;
      NoJobs(parts[..n]);
      assert parts == parts[..n] + [parts[n]];
      Concat(parts[..n], [parts[n]]);
      One(parts[n]);
    }
  }

  lemma PartsAreSections(newJobs: seq<Job>, failed: seq<string>, searched: bool, jobsUrl: bool,
                         emailed: Option<set<Key>>, maxPerCompany: int)
    ensures var parts, sections := Parts(newJobs, failed, searched, jobsUrl, emailed, maxPerCompany),
                                   Sections(GroupsOf(newJobs), maxPerCompany, emailed, jobsUrl);
            ItemsOf(parts) == ItemsOf(sections) && Announced(parts) == Announced(sections)
  {
    OptionalHasNoJobs(searched, SearchedAt);
    OptionalHasNoJobs(jobsUrl, AllJobsLink);
    FailuresHaveNoJobs(failed);
    OnlyTheSecond(Optional(searched, SearchedAt), Sections(GroupsOf(newJobs), maxPerCompany, emailed, jobsUrl),
                  Failures(failed), Optional(jobsUrl, AllJobsLink));
  }

  predicate NoJobsIn(parts: seq<Part>) {
    ItemsOf(parts) == [] && Announced(parts) == 0
  }

  lemma OnlyTheSecond(a: seq<Part>, b: seq<Part>, c: seq<Part>, d: seq<Part>)
    requires NoJobsIn(a) && NoJobsIn(c) && NoJobsIn(d)
    ensures ItemsOf(a + b + c + d) == ItemsOf(b) && Announced(a + b + c + d) == Announced(b)
  {
    Concat(a, b);
    Concat(a + b, c);
    Concat(a + b + c, d);
  }

  lemma OptionalHasNoJobs(present: bool, p: Part)
    requires !p.Item? && !p.NotShown?
    ensures NoJobsIn(Optional(present, p))
  {
    One(p);
  }

  /** Conservation: the jobs a report lists and the number it says it does not show add up
      to the jobs it was built from; it lists none that it was not given, and lists all of
      them exactly when no company has more than the cap. */
  lemma ReportConserves(newJobs: seq<Job>, failed: seq<string>, searched: bool, jobsUrl: bool,
                        emailed: Option<set<Key>>, maxPerCompany: int)
    ensures var parts := Parts(newJobs, failed, searched, jobsUrl, emailed, maxPerCompany);
            && |ItemsOf(parts)| + Announced(parts) == |newJobs|
            && multiset(ItemsOf(parts)) <= multiset(newJobs)
            && (multiset(ItemsOf(parts)) == multiset(newJobs)
                <==> maxPerCompany <= 0 || forall c :: |OfCompany(newJobs, c)| <= maxPerCompany)
  {
    PartsAreSections(newJobs, failed, searched, jobsUrl, emailed, maxPerCompany);
    SectionsAddUp(GroupsOf(newJobs), maxPerCompany, emailed, jobsUrl);
    GroupsConserve(newJobs);
    FitsMeans(newJobs, maxPerCompany);
    var items := ItemsOf(Parts(newJobs, failed, searched, jobsUrl, emailed, maxPerCompany));
    if |items| == |newJobs| {
      SameSizes(multiset(items), multiset(newJobs));
    } else {
      assert |multiset(items)| != |multiset(newJobs)|;
    }
  }

  lemma FitsMeans(jobs: seq<Job>, maxPerCompany: int)
    ensures AllFit(GroupsOf(jobs), maxPerCompany)
       <==> maxPerCompany <= 0 || forall c :: |OfCompany(jobs, c)| <= maxPerCompany
  {
    var groups := GroupsOf(jobs);
    GroupsPartition(jobs);
    if maxPerCompany > 0 {
      if AllFit(groups, maxPerCompany) {
        forall c ensures |OfCompany(jobs, c)| <= maxPerCompany {
          if exists j :: j in jobs && Company(j) == c {
            var j :| j in jobs && Company(j) == c;
            assert Covers(groups, j);
            var a :| 0 <= a < |groups| && groups[a].company == c;
            assert IsGroup(groups[a], jobs);
          } else {
            NoneYet(jobs, c);
          }
        }
      } else {
        var a :| 0 <= a < |groups| && Overflow(groups[a], maxPerCompany) != 0;
        assert IsGroup(groups[a], jobs);
        assert |OfCompany(jobs, groups[a].company)| > maxPerCompany;
      }
    }
  }

  // ---- under which heading a posting is listed -----------------------------------------

  datatype Half = Whole | New | Old

  /** The company and the half under whose headings a reader of the body is. */
  datatype Under = Under(company: Option<string>, half: Half)

  function Reading(at: Under, parts: seq<Part>): Under {
    if parts == [] then at
    else
      var before := Reading(at, parts[..|parts| - 1]);
      match parts[|parts| - 1]
      case CompanyHeading(name) => Under(Some(name), Whole)
      case NewlyIdentified => before.(half := New)
      case AlreadyIdentified => before.(half := Old)
      case _ => before
  }

  /** The posting belongs under its own company, and among the newly identified exactly if
      it was not mailed before. */
  predicate Belongs(at: Under, j: Job, emailed: Option<set<Key>>) {
    && at.company == Some(if j.company.Some? && j.company.value != "" then j.company.value else "Unknown")
    && at.half == if emailed.None? then Whole else if j.key in emailed.value then Old else New
  }

  predicate WellPlaced(at: Under, parts: seq<Part>, emailed: Option<set<Key>>) {
    forall i :: 0 <= i < |parts| && parts[i].Item? ==> Belongs(Reading(at, parts[..i]), parts[i].job, emailed)
  }

  lemma {:induction false} ReadingConcat(at: Under, a: seq<Part>, b: seq<Part>)
    ensures Reading(at, a + b) == Reading(Reading(at, a), b)
  {
    if b == [] {
      assert a + b == a;
    } else {
      ReadingConcat(at, a, b[..|b| - 1]);
      assert (a + b)[..|a + b| - 1] == a + b[..|b| - 1];
    }
  }

  lemma PlacedConcat(at: Under, a: seq<Part>, b: seq<Part>, emailed: Option<set<Key>>)
    requires WellPlaced(at, a, emailed) && WellPlaced(Reading(at, a), b, emailed)
    ensures WellPlaced(at, a + b, emailed) && Reading(at, a + b) == Reading(Reading(at, a), b)
  {
    ReadingConcat(at, a, b);
    forall i | 0 <= i < |a + b| && (a + b)[i].Item?
      ensures Belongs(Reading(at, (a + b)[..i]), (a + b)[i].job, emailed)
    {
      if i < |a| {
        assert (a + b)[..i] == a[..i];
      } else {
        assert (a + b)[..i] == a + b[..i - |a|];
        ReadingConcat(at, a, b[..i - |a|]);
        assert b[i - |a|].Item?;
      }
    }
  }

  lemma PlacedOne(at: Under, p: Part, emailed: Option<set<Key>>)
    requires p.Item? ==> Belongs(at, p.job, emailed)
    ensures WellPlaced(at, [p], emailed)
    ensures p.Item? || p.ListStart? || p.ListEnd? || p.Placeholder? || p.NotShown? ==> Reading(at, [p]) == at
  {
    assert [p][..0] == [];
  }

  lemma {:induction false} ItemsPlaced(at: Under, jobs: seq<Job>, emailed: Option<set<Key>>)
    requires forall j :: j in jobs ==> Belongs(at, j, emailed)
    ensures WellPlaced(at, ItemsFor(jobs), emailed) && Reading(at, ItemsFor(jobs)) == at
  {
    if jobs != [] {
      var n := |jobs| - 1;
      ItemsPlaced(at, jobs[..n], emailed);
      PlacedOne(at, Item(jobs[n]), emailed);
      PlacedConcat(at, ItemsFor(jobs[..n]), [Item(jobs[n])], emailed);
      assert ItemsFor(jobs) == ItemsFor(jobs[..n]) + [Item(jobs[n])];
    }
  }

  lemma JobListPlaced(at: Under, jobs: seq<Job>, emptyText: string, emailed: Option<set<Key>>)
    requires forall j :: j in jobs ==> Belongs(at, j, emailed)
    ensures WellPlaced(at, JobList(jobs, emptyText), emailed) && Reading(at, JobList(jobs, emptyText)) == at
  {
    if jobs == [] {
      PlacedOne(at, Placeholder(emptyText), emailed);
    } else {
      PlacedOne(at, ListStart, emailed);
      ItemsPlaced(at, jobs, emailed);
      PlacedConcat(at, [ListStart], ItemsFor(jobs), emailed);
      PlacedOne(at, ListEnd, emailed);
      PlacedConcat(at, [ListStart] + ItemsFor(jobs), [ListEnd], emailed);
    }
  }

  /** A half: its heading, then its postings. */
  lemma HalfPlaced(at: Under, heading: Part, half: Half, jobs: seq<Job>, emptyText: string, emailed: Option<set<Key>>)
    requires (heading == NewlyIdentified && half == New) || (heading == AlreadyIdentified && half == Old)
    requires forall j :: j in jobs ==> Belongs(at.(half := half), j, emailed)
    ensures WellPlaced(at, [heading] + JobList(jobs, emptyText), emailed)
    ensures Reading(at, [heading] + JobList(jobs, emptyText)) == at.(half := half)
  {
    PlacedOne(at, heading, emailed);
    assert [heading][..0] == [];
    JobListPlaced(at.(half := half), jobs, emptyText, emailed);
    PlacedConcat(at, [heading], JobList(jobs, emptyText), emailed);
  }

  lemma BodyPlaced(at: Under, jobs: seq<Job>, emailed: Option<set<Key>>)
    requires at.half == Whole
    requires forall j :: j in jobs ==>
               at.company == Some(if j.company.Some? && j.company.value != "" then j.company.value else "Unknown")
    ensures WellPlaced(at, Body(jobs, emailed), emailed)
    ensures Reading(at, Body(jobs, emailed)).company == at.company
  {
    if emailed.None? {
      JobListPlaced(at, jobs, "", emailed);
    } else {
      var unseen, seen := Unseen(jobs, emailed.value), Seen(jobs, emailed.value);
      HalfPlaced(at, NewlyIdentified, New, unseen, "No newly identified jobs.", emailed);
      HalfPlaced(at.(half := New), AlreadyIdentified, Old, seen, "No previously identified jobs.", emailed);
      PlacedConcat(at, [NewlyIdentified] + JobList(unseen, "No newly identified jobs."),
                   [AlreadyIdentified] + JobList(seen, "No previously identified jobs."), emailed);
    }
  }

  lemma SectionPlaced(at: Under, g: Group, maxPerCompany: int, emailed: Option<set<Key>>, jobsUrl: bool)
    requires forall j :: j in g.jobs ==>
               g.company == if j.company.Some? && j.company.value != "" then j.company.value else "Unknown"
    ensures WellPlaced(at, Section(g, maxPerCompany, emailed, jobsUrl), emailed)
  {
    var heading, body := CompanyHeading(g.company), Body(Shown(g, maxPerCompany), emailed);
    PlacedOne(at, heading, emailed);
    assert [heading][..0] == [];
    BodyPlaced(Under(Some(g.company), Whole), Shown(g, maxPerCompany), emailed);
    PlacedConcat(at, [heading], body, emailed);
    if Overflow(g, maxPerCompany) > 0 {
      PlacedOne(Reading(at, [heading] + body), NotShown(Overflow(g, maxPerCompany), jobsUrl), emailed);
      PlacedConcat(at, [heading] + body, [NotShown(Overflow(g, maxPerCompany), jobsUrl)], emailed);
    } else {
      assert [heading] + body + [] == [heading] + body;
    }
  }

  lemma {:induction false} SectionsPlaced(at: Under, groups: seq<Group>, maxPerCompany: int,
                                          emailed: Option<set<Key>>, jobsUrl: bool)
    requires forall g, j :: g in groups && j in g.jobs ==>
               g.company == if j.company.Some? && j.company.value != "" then j.company.value else "Unknown"
    ensures WellPlaced(at, Sections(groups, maxPerCompany, emailed, jobsUrl), emailed)
  {
    if groups != [] {
      var n := |groups| - 1;
      var front := Sections(groups[..n], maxPerCompany, emailed, jobsUrl);
      SectionsPlaced(at, groups[..n], maxPerCompany, emailed, jobsUrl);
      SectionPlaced(Reading(at, front), groups[n], maxPerCompany, emailed, jobsUrl);
      PlacedConcat(at, front, Section(groups[n], maxPerCompany, emailed, jobsUrl), emailed);
    }
  }

  /** Parts without postings may go anywhere. */
  lemma NoItemsPlaced(at: Under, parts: seq<Part>, emailed: Option<set<Key>>)
    requires forall p :: p in parts ==> !p.Item?
    ensures WellPlaced(at, parts, emailed)
  {
  }

  lemma GroupsOwn(jobs: seq<Job>, g: Group, j: Job)
    requires g in GroupsOf(jobs) && j in g.jobs
    ensures g.company == if j.company.Some? && j.company.value != "" then j.company.value else "Unknown"
  {
    GroupsPartition(jobs);
    var a :| 0 <= a < |GroupsOf(jobs)| && GroupsOf(jobs)[a] == g;
    assert IsGroup(g, jobs);
  }

  /** In every report each posting stands under its own company; and when it is known what
      was mailed before, among the newly identified exactly if it was not. */
  lemma ReportWellPlaced(newJobs: seq<Job>, failed: seq<string>, searched: bool, jobsUrl: bool,
                         emailed: Option<set<Key>>, maxPerCompany: int)
    ensures WellPlaced(Under(None, Whole), Parts(newJobs, failed, searched, jobsUrl, emailed, maxPerCompany), emailed)
  {
    var at, groups := Under(None, Whole), GroupsOf(newJobs);
    var head, sections := Optional(searched, SearchedAt), Sections(groups, maxPerCompany, emailed, jobsUrl);
    forall g, j | g in groups && j in g.jobs
      ensures g.company == if j.company.Some? && j.company.value != "" then j.company.value else "Unknown"
    {
      GroupsOwn(newJobs, g, j);
    }
    NoItemsPlaced(at, head, emailed);
    SectionsPlaced(Reading(at, head), groups, maxPerCompany, emailed, jobsUrl);
    PlacedConcat(at, head, sections, emailed);
    FailuresAre(failed);
    PlacedBefore(at, head + sections, Failures(failed), emailed);
    PlacedBefore(at, head + sections + Failures(failed), Optional(jobsUrl, AllJobsLink), emailed);
  }

  lemma PlacedBefore(at: Under, parts: seq<Part>, more: seq<Part>, emailed: Option<set<Key>>)
    requires WellPlaced(at, parts, emailed) && forall p :: p in more ==> !p.Item?
    ensures WellPlaced(at, parts + more, emailed)
  {
    NoItemsPlaced(Reading(at, parts), more, emailed);
    PlacedConcat(at, parts, more, emailed);
  }

  // ---- what stands around the sections -------------------------------------------------

  /** The failed sources that a body names, in order. */
  function FailedOf(parts: seq<Part>): seq<string> {
    Collect(parts, (p: Part) => NameOf(p))
  }

  function NameOf(p: Part): Option<string> {
    if p.Failure? then Some(p.name) else None
  }

  /** What a company's section is made of. */
  predicate OfSection(p: Part, jobsUrl: bool) {
    && !p.SearchedAt? && !p.AllJobsLink? && !p.FailuresStart? && !p.Failure? && !p.FailuresEnd?
    && (p.NotShown? ==> p.count > 0 && p.linked == jobsUrl)
  }

  lemma {:induction false} SectionsAre(groups: seq<Group>, maxPerCompany: int, emailed: Option<set<Key>>, jobsUrl: bool)
    ensures forall p :: p in Sections(groups, maxPerCompany, emailed, jobsUrl) ==> OfSection(p, jobsUrl)
  {
    if groups != [] {
      var n := |groups| - 1;
      SectionsAre(groups[..n], maxPerCompany, emailed, jobsUrl);
      BodyIs(Shown(groups[n], maxPerCompany), emailed, jobsUrl);
    }
  }

  lemma JobListIs(jobs: seq<Job>, emptyText: string, jobsUrl: bool)
    ensures forall p :: p in JobList(jobs, emptyText) ==> OfSection(p, jobsUrl)
  {
  }

  lemma BodyIs(jobs: seq<Job>, emailed: Option<set<Key>>, jobsUrl: bool)
    ensures forall p :: p in Body(jobs, emailed) ==> OfSection(p, jobsUrl)
  {
    match emailed
    case None =>
      JobListIs(jobs, "", jobsUrl);
    case Some(keys) =>
      var first := JobList(Unseen(jobs, keys), "No newly identified jobs.");
      var second := JobList(Seen(jobs, keys), "No previously identified jobs.");
      JobListIs(Unseen(jobs, keys), "No newly identified jobs.", jobsUrl);
      JobListIs(Seen(jobs, keys), "No previously identified jobs.", jobsUrl);
      assert forall p :: p in [NewlyIdentified] + first + ([AlreadyIdentified] + second) ==>
                           p == NewlyIdentified || p in first || p == AlreadyIdentified || p in second;
  }

  lemma NamesConcat(a: seq<Part>, b: seq<Part>)
    ensures FailedOf(a + b) == FailedOf(a) + FailedOf(b)
  {
    CollectConcat(a, b, (p: Part) => NameOf(p));
  }

  lemma {:induction false} NamesNone(parts: seq<Part>)
    requires forall p :: p in parts ==> !p.Failure?
    ensures FailedOf(parts) == []
  {
    if parts != [] {
      var n := |parts| - 1;
      NamesNone(parts[..n]);
      assert parts == parts[..n] + [parts[n]];
      CollectSnoc(parts[..n], parts[n], (p: Part) => NameOf(p));
    }
  }

  function Named(failed: seq<string>): seq<Part> {
    seq(|failed|, i requires 0 <= i < |failed| => Failure(failed[i]))
  }

  lemma {:induction false} NamedNames(failed: seq<string>)
    ensures FailedOf(Named(failed)) == failed
  {
    if failed != [] {
      var n := |failed| - 1;
      NamedNames(failed[..n]);
      assert Named(failed) == Named(failed[..n]) + [Failure(failed[n])];
      CollectSnoc(Named(failed[..n]), Failure(failed[n]), (p: Part) => NameOf(p));
      assert failed == failed[..n] + [failed[n]];
    }
  }

  lemma FailuresName(failed: seq<string>)
    ensures FailedOf(Failures(failed)) == failed
  {
    if failed != [] {
      assert Failures(failed) == [FailuresStart] + Named(failed) + [FailuresEnd];
      NamesNone([FailuresStart]);
      NamesNone([FailuresEnd]);
      NamedNames(failed);
      NamesConcat([FailuresStart], Named(failed));
      NamesConcat([FailuresStart] + Named(failed), [FailuresEnd]);
    }
  }

  /** Every report names the failed sources, all of them in order; says when it searched and
      links to the list exactly if it was told; and announces nothing but what is cut off. */
  lemma ReportFrames(newJobs: seq<Job>, failed: seq<string>, searched: bool, jobsUrl: bool,
                     emailed: Option<set<Key>>, maxPerCompany: int)
    ensures var parts := Parts(newJobs, failed, searched, jobsUrl, emailed, maxPerCompany);
            && FailedOf(parts) == failed
            && (SearchedAt in parts <==> searched) && (AllJobsLink in parts <==> jobsUrl)
            && forall p :: p in parts && p.NotShown? ==> p.count > 0 && p.linked == jobsUrl
  {
    var sections := Sections(GroupsOf(newJobs), maxPerCompany, emailed, jobsUrl);
    SectionsAre(GroupsOf(newJobs), maxPerCompany, emailed, jobsUrl);
    Framed(Optional(searched, SearchedAt), sections, failed, Optional(jobsUrl, AllJobsLink), jobsUrl);
  }

  lemma Framed(head: seq<Part>, sections: seq<Part>, failed: seq<string>, link: seq<Part>, jobsUrl: bool)
    requires forall p :: p in head ==> p == SearchedAt
    requires forall p :: p in link ==> p == AllJobsLink
    requires forall p :: p in sections ==> OfSection(p, jobsUrl)
    ensures var parts := head + sections + Failures(failed) + link;
            && FailedOf(parts) == failed
            && (SearchedAt in parts <==> head != []) && (AllJobsLink in parts <==> link != [])
            && forall p :: p in parts && p.NotShown? ==> p.count > 0 && p.linked == jobsUrl
  {
    FramedNames(head, sections, failed, link, jobsUrl);
    FailuresAre(failed);
    InOneOf(head, sections, Failures(failed), link);
    assert head != [] ==> head[0] in head;
    assert link != [] ==> link[0] in link;
  }

  lemma InOneOf(a: seq<Part>, b: seq<Part>, c: seq<Part>, d: seq<Part>)
    ensures forall p :: p in a + b + c + d <==> p in a || p in b || p in c || p in d
  {
  }

  lemma FramedNames(head: seq<Part>, sections: seq<Part>, failed: seq<string>, link: seq<Part>, jobsUrl: bool)
    requires forall p :: p in head ==> p == SearchedAt
    requires forall p :: p in link ==> p == AllJobsLink
    requires forall p :: p in sections ==> OfSection(p, jobsUrl)
    ensures FailedOf(head + sections + Failures(failed) + link) == failed
  {
    NamesNone(head + sections);
    FailuresName(failed);
    NamesNone(link);
    NamesConcat(head + sections, Failures(failed));
    NamesConcat(head + sections + Failures(failed), link);
  }

  lemma FailuresAre(failed: seq<string>)
    ensures forall p :: p in Failures(failed) ==> p.FailuresStart? || p.Failure? || p.FailuresEnd?
  {
  }
}
