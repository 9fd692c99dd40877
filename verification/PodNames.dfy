/** The names `buildPod` gives (platform/k8s/reconcilers/agentjob_reconciler.go:192-199), and when they are distinct. */
module PodNames {

  datatype Role = Role(name: string, maxReplicas: int)
  {
    /** MaxReplicas 0 means 1. */
    function Replicas(): int { if maxReplicas == 0 then 1 else maxReplicas }
  }

  function Digit(d: nat): char
    requires d < 10
  {
    '0' + d as char
  }

  /** %d of a non-negative number. */
  function Decimal(n: nat): string {
    if n < 10 then [Digit(n)] else Decimal(n / 10) + [Digit(n % 10)]
  }

  /** What follows the job's name: the role, and the replica if there are several. */
  function Segment(role: Role, index: nat): string {
    if role.Replicas() > 1 then role.name + "-" + Decimal(index) else role.name
  }

  function PodName(job: string, role: Role, index: nat): string {
    job + "-" + Segment(role, index)
  }

  /** The names the inner creation loop goes through for one role, up to `count` replicas. */
  function RolePlan(job: string, role: Role, count: int): seq<string>
    decreases count
  {
    if count <= 0 then [] else RolePlan(job, role, count - 1) + [PodName(job, role, count - 1)]
  }

  /** All pod names of a job, in creation order. */
  function Plan(job: string, roles: seq<Role>): seq<string>
    decreases |roles|
  {
    if roles == [] then []
    else
      var last := roles[|roles| - 1];
      Plan(job, roles[..|roles| - 1]) + RolePlan(job, last, last.Replicas())
  }

  /** What the loop adds up in totalAgents. */
  function Total(roles: seq<Role>): int
    decreases |roles|
  {
    if roles == [] then 0 else Total(roles[..|roles| - 1]) + roles[|roles| - 1].Replicas()
  }

  predicate DashFree(s: string) { '-' !in s }

  predicate Numeric(s: string) {
    forall c | c in s :: '0' <= c <= '9'
  }

  lemma {:induction false} DecimalIsNumeric(n: nat)
    ensures Decimal(n) != "" && Numeric(Decimal(n)) && DashFree(Decimal(n))
  {
    if n >= 10 {
      DecimalIsNumeric(n / 10);
    }
  }

  /** The number a string of digits stands for, read from left to right. */
  function Reads(s: string): nat
    requires Numeric(s)
    decreases |s|
  {
    if s == "" then 0
    else
      var front, last := s[..|s| - 1], s[|s| - 1];
      assert last in s && forall c | c in front :: c in s;
      10 * Reads(front) + (last as int - '0' as int)
  }

  /** A printed number reads as that number, and has no leading zero. */
  lemma {:induction false} DecimalReads(n: nat)
    ensures Numeric(Decimal(n)) && Reads(Decimal(n)) == n
    ensures Decimal(n) != "" && (n > 0 ==> Decimal(n)[0] != '0')
  {
    DecimalIsNumeric(n);
    var s := Decimal(n);
    if n >= 10 {
      DecimalReads(n / 10);
      assert s[..|s| - 1] == Decimal(n / 10);
    } else {
      assert s[..0] == "";
    }
  }

  lemma DecimalInjective(m: nat, n: nat)
    requires Decimal(m) == Decimal(n)
    ensures m == n
  {
    DecimalReads(m);
    DecimalReads(n);
  }

  /** A dash-free last segment can be split off in one way only. */
  lemma LastSplit(a: string, x: string, b: string, y: string)
    requires a + "-" + x == b + "-" + y && DashFree(x) && DashFree(y)
    ensures a == b && x == y
  {
    LastDash(a, x);
    LastDash(b, y);
    var s := a + "-" + x;
    assert s == b + "-" + y;
    assert |a| == |b|;
    assert s[..|a|] == a && s[..|b|] == b;
    assert s[|a| + 1..] == x && s[|b| + 1..] == y;
  }

  lemma LastDash(a: string, x: string)
    requires DashFree(x)
    ensures (a + "-" + x)[|a|] == '-'
    ensures forall k | |a| < k < |a + "-" + x| :: (a + "-" + x)[k] != '-'
  {
    var s := a + "-" + x;
    forall k | |a| < k < |s|
      ensures s[k] != '-'
    {
      assert s[k] == x[k - |a| - 1];
    }
  }

  lemma {:induction false} RolePlanIs(job: string, role: Role, count: int)
    ensures |RolePlan(job, role, count)| == if count <= 0 then 0 else count
    ensures forall i | 0 <= i < count :: RolePlan(job, role, count)[i] == PodName(job, role, i)
    decreases count
  {
    hide PodName;
    if count > 0 {
      RolePlanIs(job, role, count - 1);
    }
  }

  /** Every planned name is the name of some replica of some role. */
  lemma {:induction false} PlanMember(job: string, roles: seq<Role>, name: string) returns (r: nat, i: nat)
    requires name in Plan(job, roles)
    ensures r < |roles| && i < roles[r].Replicas() && name == PodName(job, roles[r], i)
    decreases |roles|
  {
    var last := roles[|roles| - 1];
    if name in Plan(job, roles[..|roles| - 1]) {
      r, i := PlanMember(job, roles[..|roles| - 1], name);
    } else {
      RolePlanIs(job, last, last.Replicas());
      var k :| 0 <= k < |RolePlan(job, last, last.Replicas())| && RolePlan(job, last, last.Replicas())[k] == name;
      r, i := |roles| - 1, k;
    }
  }

  lemma PlanGrows(job: string, roles: seq<Role>, r: nat)
    requires r < |roles|
    ensures Plan(job, roles[..r + 1]) == Plan(job, roles[..r]) + RolePlan(job, roles[r], roles[r].Replicas())
    ensures |Plan(job, roles[..r + 1])| == |Plan(job, roles[..r])| + (if roles[r].Replicas() <= 0 then 0
            else roles[r].Replicas())
    ensures Total(roles[..r + 1]) == Total(roles[..r]) + roles[r].Replicas()
  {
    assert roles[..r + 1][..r] == roles[..r];
    RolePlanIs(job, roles[r], roles[r].Replicas());
  }

  lemma {:induction false} PlanPrefix(job: string, roles: seq<Role>, r: nat)
    requires r <= |roles|
    ensures Plan(job, roles[..r]) <= Plan(job, roles)
    decreases |roles| - r
  {
    if r < |roles| {
      PlanGrows(job, roles, r);
      PlanPrefix(job, roles, r + 1);
    } else {
      assert roles[..r] == roles;
    }
  }

  /** Replica i of role r comes right after the pods of the roles before it and its own first i replicas. */
  lemma PlanAt(job: string, roles: seq<Role>, r: nat, i: nat)
    requires r < |roles| && i < roles[r].Replicas()
    ensures |Plan(job, roles[..r])| + i < |Plan(job, roles)|
    ensures Plan(job, roles)[|Plan(job, roles[..r])| + i] == PodName(job, roles[r], i)
  {
    PlanGrows(job, roles, r);
    PlanPrefix(job, roles, r + 1);
    RolePlanIs(job, roles[r], roles[r].Replicas());
    var k, plan := |Plan(job, roles[..r])|, Plan(job, roles[..r + 1]);
    assert plan[k + i] == RolePlan(job, roles[r], roles[r].Replicas())[i];
  }

  /** The pods of a role with several replicas are numbered from 0; a role with one, or with 0, which means one, has a
      single pod without a number; a role with a negative count has none. */
  predicate NamesPod(job: string, role: Role, name: string) {
    if role.maxReplicas in {0, 1} then name == job + "-" + role.name
    else exists i: nat :: i < role.maxReplicas && name == job + "-" + (role.name + "-" + Decimal(i))
  }

  lemma PlanNames(job: string, roles: seq<Role>, name: string)
    ensures name in Plan(job, roles) <==> exists r :: r in roles && NamesPod(job, r, name)
  {
    if name in Plan(job, roles) {
      var r, i := PlanMember(job, roles, name);
      assert roles[r] in roles && NamesPod(job, roles[r], name);
    }
    if role :| role in roles && NamesPod(job, role, name) {
      var r: nat :| r < |roles| && roles[r] == role;
      if role.maxReplicas in {0, 1} {
        PlanAt(job, roles, r, 0);
      } else {
        var i: nat :| i < role.maxReplicas && name == job + "-" + (role.name + "-" + Decimal(i));
        PlanAt(job, roles, r, i);
      }
    }
  }

  lemma SameSegment(job: string, p: Role, i: nat, q: Role, k: nat)
    ensures PodName(job, p, i) == PodName(job, q, k) <==> Segment(p, i) == Segment(q, k)
  {
    var front := job + "-";
    assert (front + Segment(p, i))[|front|..] == Segment(p, i) && (front + Segment(q, k))[|front|..] == Segment(q, k);
  }

  /** A single role bears the name of a replica of the other. */
  predicate NamedAsReplica(single: Role, replicated: Role) {
    exists k: nat :: k < replicated.Replicas() && single.name == replicated.name + "-" + Decimal(k)
  }

  /** Two roles of a job give some of their pods the same name: both are single or both replicated, and have the same
      name, or one is single and named as a replica of the other. A role with a negative replica count has no pods. */
  predicate Clash(p: Role, q: Role) {
    && p.Replicas() >= 1 && q.Replicas() >= 1
    && if (p.Replicas() > 1) == (q.Replicas() > 1) then p.name == q.name
       else if p.Replicas() > 1 then NamedAsReplica(q, p)
       else NamedAsReplica(p, q)
  }

  /** Which pods share a name: within one job, whatever the names of the roles. */
  lemma NameDetermines(job: string, p: Role, i: nat, q: Role, k: nat)
    requires i < p.Replicas() && k < q.Replicas()
    ensures PodName(job, p, i) == PodName(job, q, k) ==> Clash(p, q)
    ensures PodName(job, p, i) == PodName(job, q, k) && p == q ==> i == k
  {
    SameSegment(job, p, i, q, k);
    if PodName(job, p, i) == PodName(job, q, k) && p.Replicas() > 1 && q.Replicas() > 1 {
      DecimalIsNumeric(i);
      DecimalIsNumeric(k);
      LastSplit(p.name, Decimal(i), q.name, Decimal(k));
      DecimalInjective(i, k);
    }
  }

  /** And the converse: roles that clash do share a name. */
  lemma ClashShares(job: string, p: Role, q: Role) returns (i: nat, k: nat)
    requires Clash(p, q)
    ensures i < p.Replicas() && k < q.Replicas() && PodName(job, p, i) == PodName(job, q, k)
  {
    i, k := 0, 0;
    if p.Replicas() > 1 && q.Replicas() == 1 {
      i :| i < p.Replicas() && q.name == p.name + "-" + Decimal(i);
    } else if p.Replicas() == 1 && q.Replicas() > 1 {
      k :| k < q.Replicas() && p.name == q.name + "-" + Decimal(k);
    }
  }

  ghost predicate NoRepeats(s: seq<string>) {
    forall i, k | 0 <= i < k < |s| :: s[i] != s[k]
  }

  ghost predicate Disjoint(s: seq<string>, t: seq<string>) {
    forall x | x in s :: x !in t
  }

  lemma RepeatsSplit(s: seq<string>, t: seq<string>)
    ensures NoRepeats(s + t) <==> NoRepeats(s) && NoRepeats(t) && Disjoint(s, t)
  {
    var u := s + t;
    if NoRepeats(u) {
      assert forall i | 0 <= i < |s| :: u[i] == s[i];
      forall i, k | 0 <= i < k < |t|
        ensures t[i] != t[k]
      {
        assert u[|s| + i] == t[i] && u[|s| + k] == t[k];
      }
      forall x | x in s
        ensures x !in t
      {
        var i :| 0 <= i < |s| && s[i] == x;
        assert u[i] == x;
        assert forall k | 0 <= k < |t| :: u[|s| + k] == t[k];
      }
    }
    if NoRepeats(s) && NoRepeats(t) && Disjoint(s, t) {
      forall i, k | 0 <= i < k < |u|
        ensures u[i] != u[k]
      {
        assert i < |s| ==> u[i] == s[i] && s[i] in s;
        assert k >= |s| ==> u[k] == t[k - |s|] && t[k - |s|] in t;
      }
    }
  }

  lemma {:induction false} RolePlanDistinct(job: string, role: Role)
    ensures NoRepeats(RolePlan(job, role, role.Replicas()))
  {
    var n := role.Replicas();
    RolePlanIs(job, role, n);
    forall i, k | 0 <= i < k < |RolePlan(job, role, n)|
      ensures RolePlan(job, role, n)[i] != RolePlan(job, role, n)[k]
    {
      NameDetermines(job, role, i, role, k);
    }
  }

  ghost predicate NoClash(roles: seq<Role>) {
    forall i, k | 0 <= i < k < |roles| :: !Clash(roles[i], roles[k])
  }

  /** The pods of the last role meet those of the others exactly if it clashes with one of them. */
  lemma LastMeets(job: string, front: seq<Role>, last: Role)
    ensures Disjoint(Plan(job, front), RolePlan(job, last, last.Replicas())) <==> forall r | r in front ::
            !Clash(r, last)
  {
    var head, tail := Plan(job, front), RolePlan(job, last, last.Replicas());
    RolePlanIs(job, last, last.Replicas());
    if r :| 0 <= r < |front| && Clash(front[r], last) {
      var i, k := ClashShares(job, front[r], last);
      PlanAt(job, front, r, i);
      assert PodName(job, front[r], i) in head && tail[k] in tail;
    }
    if x :| x in head && x in tail {
      var r, i := PlanMember(job, front, x);
      var k :| 0 <= k < |tail| && tail[k] == x;
      NameDetermines(job, front[r], i, last, k);
      assert front[r] in front;
    }
  }

  /** Exactly when all pod names of one job are pairwise distinct, for any role names and replica counts. */
  lemma {:induction false} PlanDistinctIff(job: string, roles: seq<Role>)
    ensures NoRepeats(Plan(job, roles)) <==> NoClash(roles)
    decreases |roles|
  {
    if roles != [] {
      var front, last := roles[..|roles| - 1], roles[|roles| - 1];
      PlanDistinctIff(job, front);
      RolePlanDistinct(job, last);
      RepeatsSplit(Plan(job, front), RolePlan(job, last, last.Replicas()));
      LastMeets(job, front, last);
      hide Clash;
      ClashSplit(front, last);
      assert roles == front + [last];
    }
  }

  lemma ClashSplit(front: seq<Role>, last: Role)
    ensures NoClash(front + [last]) <==> NoClash(front) && forall r | r in front :: !Clash(r, last)
  {
    hide Clash;
    var roles := front + [last];
    assert forall i | 0 <= i < |front| :: roles[i] == front[i];
    assert roles[|front|] == last;
  }

  /** So, unless a replica count is negative, as many pods are created as totalAgents says. */
  lemma {:induction false} PlanLength(job: string, roles: seq<Role>)
    requires forall r | r in roles :: r.maxReplicas >= 0
    ensures |Plan(job, roles)| == Total(roles)
    decreases |roles|
  {
    if roles != [] {
      var front, last := roles[..|roles| - 1], roles[|roles| - 1];
      assert last in roles && forall r | r in front :: r in roles;
      PlanLength(job, front);
      RolePlanIs(job, last, last.Replicas());
    }
  }

  // ------------------------------------------------------------- different jobs

  /** x ends with a dash and y. */
  predicate DashSuffix(x: string, y: string) {
    |x| > |y| && x[|x| - |y|..] == y && x[|x| - |y| - 1] == '-'
  }

  /** Two segments meet, under some two different job names, exactly if one ends with a dash and the other. */
  lemma SegmentsMeetIff(x: string, y: string)
    ensures (exists a: string, b: string :: a != b && a + "-" + x == b + "-" + y) <==>
            DashSuffix(x, y) || DashSuffix(y, x)
  {
    if a: string, b: string :| a != b && a + "-" + x == b + "-" + y {
      if |a| < |b| { LongerJob(a, x, b, y); } else { LongerJob(b, y, a, x); }
    }
    if DashSuffix(x, y) {
      var z := x[..|x| - |y| - 1];
      assert x == z + "-" + y;
      assert "" + "-" + x == ("-" + z) + "-" + y;
      assert "" != "-" + z;
    }
    if DashSuffix(y, x) {
      var z := y[..|y| - |x| - 1];
      assert y == z + "-" + x;
      assert ("-" + z) + "-" + x == "" + "-" + y;
      assert "-" + z != "";
    }
  }

  lemma LongerJob(a: string, x: string, b: string, y: string)
    requires a + "-" + x == b + "-" + y && |a| <= |b| && a != b
    ensures DashSuffix(x, y)
  {
    var s := a + "-" + x;
    assert s == b + "-" + y;
    assert s[..|a|] == a && (b + "-" + y)[..|b|] == b;
    var n := |s| - |y| - 1;
    assert s[n] == '-' && s[n + 1..] == y;
    assert x == s[|a| + 1..];
  }

  /** x is what follows the job's name in some pod of these roles. */
  ghost predicate IsSegment(roles: seq<Role>, x: string) {
    exists r: nat, i: nat :: r < |roles| && i < roles[r].Replicas() && x == Segment(roles[r], i)
  }

  lemma PlanSegments(job: string, roles: seq<Role>, name: string)
    ensures name in Plan(job, roles) <==> exists x :: IsSegment(roles, x) && name == job + "-" + x
  {
    if name in Plan(job, roles) {
      var r, i := PlanMember(job, roles, name);
      assert IsSegment(roles, Segment(roles[r], i));
    }
    if x :| IsSegment(roles, x) && name == job + "-" + x {
      var r: nat, i: nat :| r < |roles| && i < roles[r].Replicas() && x == Segment(roles[r], i);
      PlanAt(job, roles, r, i);
    }
  }

  /** Exactly when two role lists keep the pods of any two different jobs apart: no segment of one list ends with a
      dash and a segment of the other. */
  lemma JobsApartIff(p: seq<Role>, q: seq<Role>)
    ensures (forall a, b, name | a != b && name in Plan(a, p) :: name !in Plan(b, q)) <==>
            (forall x, y | IsSegment(p, x) && IsSegment(q, y) :: !DashSuffix(x, y) && !DashSuffix(y, x))
  {
    hide IsSegment, Plan, DashSuffix;
    if x, y :| IsSegment(p, x) && IsSegment(q, y) && (DashSuffix(x, y) || DashSuffix(y, x)) {
      SegmentsMeetIff(x, y);
      var a: string, b: string :| a != b && a + "-" + x == b + "-" + y;
      PlanSegments(a, p, a + "-" + x);
      PlanSegments(b, q, a + "-" + x);
    }
    if a, b, name :| a != b && name in Plan(a, p) && name in Plan(b, q) {
      PlanSegments(a, p, name);
      PlanSegments(b, q, name);
      var x :| IsSegment(p, x) && name == a + "-" + x;
      var y :| IsSegment(q, y) && name == b + "-" + y;
      SegmentsMeetIff(x, y);
    }
  }

  /** A simple way to meet it: role names without a dash that are no numbers. */
  lemma JobsApart(p: seq<Role>, q: seq<Role>, a: string, b: string, name: string)
    requires forall r | r in p + q :: DashFree(r.name) && !Numeric(r.name)
    requires a != b && name in Plan(a, p)
    ensures name !in Plan(b, q)
  {
    JobsApartIff(p, q);
    forall x, y | IsSegment(p, x) && IsSegment(q, y)
      ensures !DashSuffix(x, y) && !DashSuffix(y, x)
    {
      var r: nat, i: nat :| r < |p| && i < p[r].Replicas() && x == Segment(p[r], i);
      var s: nat, k: nat :| s < |q| && k < q[s].Replicas() && y == Segment(q[s], k);
      assert p[r] in p + q && q[s] in p + q;
      if DashSuffix(x, y) {
        SuffixNeeds(p[r], i, q[s], k);
      }
      if DashSuffix(y, x) {
        SuffixNeeds(q[s], k, p[r], i);
      }
    }
  }

  /** Only a dash in a role name or a numeric one makes a segment end with a dash and another. */
  lemma SuffixNeeds(p: Role, i: nat, q: Role, k: nat)
    requires DashSuffix(Segment(p, i), Segment(q, k))
    ensures !DashFree(p.name) || !DashFree(q.name) || Numeric(q.name)
  {
    var x, y := Segment(p, i), Segment(q, k);
    var z := x[..|x| - |y| - 1];
    assert x == z + "-" + y;
    DecimalIsNumeric(i);
    DecimalIsNumeric(k);
    if p.Replicas() <= 1 {
      assert p.name[|z|] == '-';
    } else if q.Replicas() > 1 {
      assert x == (z + "-" + q.name) + "-" + Decimal(k);
      LastSplit(z + "-" + q.name, Decimal(k), p.name, Decimal(i));
      assert p.name[|z|] == '-';
    } else if DashFree(q.name) {
      LastSplit(z, q.name, p.name, Decimal(i));
    }
  }

  /** Dashed and numeric names can collide, across jobs and within one. */
  lemma RolesCollide(job: string)
    ensures PodName(job, Role("b-c", 1), 0) == PodName(job + "-b", Role("c", 1), 0)
    ensures PodName(job, Role("r", 2), 0) == PodName(job + "-r", Role("0", 1), 0)
    ensures PodName(job, Role("r", 2), 0) == PodName(job, Role("r-0", 1), 0)
  {
    assert job + "-" + "b-c" == job + "-b" + "-" + "c";
    assert Decimal(0) == "0";
  }
}
