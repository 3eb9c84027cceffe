/**
 The admission budget of load tests: `calculate` of sandbox_manager/capacity.py, and
 `check_capacity`, which operations repeats word for word. Quantities are reals.
 */
module Capacity {
  import opened Outcomes

  // ----------------------------------------------------------------- calculate

  datatype Container = Container(
    id: string,
    live: bool,
    sandbox: bool,
    nanoCpus: int,
    cpuQuota: int,
    cpuPeriod: int,
    memoryBytes: int,
    usageMb: real)

  datatype Policy = Policy(reservedCpu: real, reservedMemoryMb: real, reserveFraction: real, maxCpuUsagePercent: real)

  datatype Host = Host(memoryMb: real, availableMb: real, cpuUsagePercent: real)

  datatype Snapshot = Snapshot(
    known: bool,
    sampledAt: real,
    allowed: bool,
    allocatedCpu: real,
    allocatedMemoryMb: real,
    reservedCpu: real,
    reservedMemoryMb: real,
    remainingCpu: real,
    remainingMemoryMb: real,
    unbounded: seq<string>)

  const MIB := 1048576.0

  function Max(a: real, b: real): real
  {
    if a < b then b else a
  }

  function Min(a: real, b: real): real
  {
    if b < a then b else a
  }

  function Abs(a: real): real
  {
    if a < 0.0 then -a else a
  }

  function CpuLimit(c: Container): real
  {
    var nano := c.nanoCpus as real / 1000000000.0;
    if nano == 0.0 && c.cpuQuota > 0 && c.cpuPeriod > 0 then c.cpuQuota as real / c.cpuPeriod as real else nano
  }

  function MemoryLimit(c: Container): real
  {
    c.memoryBytes as real / MIB
  }

  /** Running containers, and sandboxes even when stopped: they can be started again. */
  predicate Charged(c: Container)
  {
    c.live || c.sandbox
  }

  predicate Unbounded(c: Container)
  {
    c.sandbox && (CpuLimit(c) <= 0.0 || MemoryLimit(c) <= 0.0)
  }

  function Growth(c: Container): real
  {
    Max(0.0, MemoryLimit(c) - if c.live then c.usageMb else 0.0)
  }

  /** The sum of a quantity over the charged containers. */
  ghost function Total(cs: seq<Container>, f: Container -> real): real
  {
    if cs == [] then 0.0 else
      var last := cs[|cs| - 1];
      Total(cs[..|cs| - 1], f) + (if Charged(last) then f(last) else 0.0)
  }

  ghost function AllocatedCpu(cs: seq<Container>): real
  {
    Total(cs, c => Max(0.0, CpuLimit(c)))
  }

  ghost function AllocatedMemory(cs: seq<Container>): real
  {
    Total(cs, c => Max(0.0, MemoryLimit(c)))
  }

  ghost function PossibleGrowth(cs: seq<Container>): real
  {
    Total(cs, Growth)
  }

  predicate Agrees(ncpu: int, memoryMb: real, host: Host)
  {
    ncpu > 0 && memoryMb > 0.0 && Abs(memoryMb - host.memoryMb) <= memoryMb * 0.05
  }

  /** What is available and in use, and the shares of the machine to keep in reserve. */
  datatype Load = Load(
    totalCpu: real,
    totalMemory: real,
    cpuShare: real,
    memoryShare: real,
    cpu: real,
    memory: real,
    growth: real,
    bounded: bool)

  /**
   The budget a snapshot promises: the reserve is the larger of a fixed amount and a share; admission is allowed
   exactly when nothing is unbounded, the host is not busy and nothing intrudes on the reserve; and then what remains
   is all that is left, rounded down by less than a thousandth of a core and less than a megabyte.
   */
  predicate Fair(s: Snapshot, l: Load, host: Host, policy: Policy)
  {
    var freeCpu := l.totalCpu - s.reservedCpu - l.cpu;
    var freeMemory := Min(l.totalMemory - l.memory, host.availableMb - l.growth) - s.reservedMemoryMb;
    && s.allocatedCpu == l.cpu && s.allocatedMemoryMb == l.memory
    && s.reservedCpu == Max(policy.reservedCpu, l.cpuShare) &&
       s.reservedMemoryMb == Max(policy.reservedMemoryMb, l.memoryShare)
    && (s.allowed <==>
        l.bounded && host.cpuUsagePercent < policy.maxCpuUsagePercent && freeCpu >= 0.0 && freeMemory >= 0.0)
    && (s.allowed ==> 0.0 <= s.remainingCpu <= freeCpu < s.remainingCpu + 0.001)
    && (s.allowed ==> 0.0 <= s.remainingMemoryMb <= freeMemory < s.remainingMemoryMb + 1.0)
  }

  ghost function LoadOf(ncpu: int, memoryMb: real, policy: Policy, cs: seq<Container>): Load
  {
    Load(ncpu as real, memoryMb, ncpu as real * policy.reserveFraction, memoryMb * policy.reserveFraction,
         AllocatedCpu(cs), AllocatedMemory(cs), PossibleGrowth(cs), forall c | c in cs :: !Unbounded(c))
  }

  /** math.floor(x * 1000) / 1000 */
  function Thousandths(x: real): (r: real)
    ensures r <= x < r + 0.001 && (0.0 <= x ==> 0.0 <= r)
  {
    (x * 1000.0).Floor as real / 1000.0
  }

  function Whole(x: real): (r: real)
    ensures r <= x < r + 1.0 && (0.0 <= x ==> 0.0 <= r)
  {
    x.Floor as real
  }

  method Calculate(ncpu: int, memTotal: int, host: Host, cs: seq<Container>, policy: Policy, now: real)
    returns (r: Result<Snapshot>)
    ensures r.Success? <==> Agrees(ncpu, memTotal as real / MIB, host)
    ensures r.Success? ==>
              && r.value.known && r.value.sampledAt == now
              && Fair(r.value, LoadOf(ncpu, memTotal as real / MIB, policy, cs), host, policy)
  {
    var totalMemory := memTotal as real / MIB;
    if ncpu <= 0 || totalMemory <= 0.0 || Abs(totalMemory - host.memoryMb) > totalMemory * 0.05 { return Failure(500); }
    var cpu, memory, growth, unknown := Sums(cs);
    var load := Load(ncpu as real, totalMemory,
                     ncpu as real * policy.reserveFraction, totalMemory * policy.reserveFraction,
                     cpu, memory, growth, unknown == []);
    var snapshot := Weigh(load, host, policy, unknown, now);
    r := Success(snapshot);
  }

  /** `calculate` after its loop. */
  method Weigh(l: Load, host: Host, policy: Policy, unknown: seq<string>, now: real) returns (s: Snapshot)
    requires l.bounded <==> unknown == []
    ensures s.known && s.sampledAt == now && Fair(s, l, host, policy)
  {
    var reservedCpu, reservedMemory := Max(policy.reservedCpu, l.cpuShare), Max(policy.reservedMemoryMb, l.memoryShare);
    var remainingCpu := l.totalCpu - reservedCpu - l.cpu;
    var remainingMemory := Min(l.totalMemory - reservedMemory - l.memory, host.availableMb - reservedMemory - l.growth);
    var allowed := unknown == [] && host.cpuUsagePercent < policy.maxCpuUsagePercent &&
      !(remainingCpu < 0.0 || remainingMemory < 0.0);
    s := Snapshot(true, now, allowed, l.cpu, l.memory, reservedCpu, reservedMemory,
                  Thousandths(Max(0.0, remainingCpu)), Whole(Max(0.0, remainingMemory)), unknown);
  }

  /** The loop over the containers. */
  method Sums(cs: seq<Container>) returns (cpu: real, memory: real, growth: real, unknown: seq<string>)
    ensures cpu == AllocatedCpu(cs) && memory == AllocatedMemory(cs) && growth == PossibleGrowth(cs)
    ensures unknown == [] <==> forall c | c in cs :: !Unbounded(c)
  {
    cpu, memory, growth, unknown := 0.0, 0.0, 0.0, [];
    for n := 0 to |cs|
      invariant cpu == AllocatedCpu(cs[..n]) && memory == AllocatedMemory(cs[..n]) && growth == PossibleGrowth(cs[..n])
      invariant unknown == [] <==> forall k | 0 <= k < n :: !Unbounded(cs[k])
    {
      var item := cs[n];
      assert cs[..n + 1][..n] == cs[..n];
      if !item.live && !item.sandbox { continue; }
      var limitCpu, limitMemory := CpuLimit(item), MemoryLimit(item);
      var usage := if item.live then item.usageMb else 0.0;
      if item.sandbox && (limitCpu <= 0.0 || limitMemory <= 0.0) { unknown := unknown + [item.id]; }
      cpu, memory, growth := cpu + Max(0.0, limitCpu), memory + Max(0.0, limitMemory),
        growth + Max(0.0, limitMemory - usage);
    }
    assert cs[..|cs|] == cs;
  }

  // ------------------------------------------------------------ check_capacity

  datatype Row = Row(agent: string, users: nat, cpu: real, memoryMb: real)

  datatype Suggestion = Suggestion(agent: string, users: nat)

  datatype Verdict = Accepted | Unavailable | Disallowed | TooMuch(suggestions: seq<Suggestion>) | DividedByZero

  const SLACK := 0.00000001

  /** n times each, as a sum: the product is only needed where something is divided. */
  function Times(each: real, n: nat): real
  {
    if n == 0 then 0.0 else Times(each, n - 1) + each
  }

  lemma {:induction false} TimesIsProduct(each: real, n: nat)
    ensures Times(each, n) == n as real * each
  {
    if n > 0 {
      TimesIsProduct(each, n - 1);
      assert n as real == (n - 1) as real + 1.0;
      assert ((n - 1) as real + 1.0) * each == (n - 1) as real * each + each;
    }
  }

  lemma {:induction false} Distribute(each: real, m: nat, n: nat)
    ensures Times(each, m) + Times(each, n) == Times(each, m + n)
  {
    if n > 0 { Distribute(each, m, n - 1); }
  }

  function CpuSum(rows: seq<Row>): real
  {
    if rows == [] then 0.0 else CpuSum(rows[..|rows| - 1]) + Times(rows[|rows| - 1].cpu, rows[|rows| - 1].users)
  }

  function MemorySum(rows: seq<Row>): real
  {
    if rows == [] then 0.0 else MemorySum(rows[..|rows| - 1]) + Times(rows[|rows| - 1].memoryMb, rows[|rows| - 1].users)
  }

  /** The rows that do not belong to the agent. */
  function Others(rows: seq<Row>, agent: string): seq<Row>
  {
    if rows == [] then [] else
      var last := rows[|rows| - 1];
      Others(rows[..|rows| - 1], agent) + (if last.agent == agent then [] else [last])
  }

  function UsersOf(rows: seq<Row>, agent: string): nat
  {
    if rows == [] then 0 else
      UsersOf(rows[..|rows| - 1], agent) + (if rows[|rows| - 1].agent == agent then rows[|rows| - 1].users else 0)
  }

  /** All rows of an agent ask for the same limits per user. */
  predicate SameLimits(rows: seq<Row>, r: Row)
  {
    forall k | 0 <= k < |rows| && rows[k].agent == r.agent :: rows[k].cpu == r.cpu && rows[k].memoryMb == r.memoryMb
  }

  /** n users of this agent fit beside the other rows. */
  predicate Fits(s: Snapshot, rows: seq<Row>, r: Row, n: nat)
  {
    && CpuSum(Others(rows, r.agent)) + Times(r.cpu, n) <= s.remainingCpu
    && MemorySum(Others(rows, r.agent)) + Times(r.memoryMb, n) <= s.remainingMemoryMb
  }

  lemma OthersSnoc(rows: seq<Row>, last: Row, agent: string)
    ensures Others(rows + [last], agent) == Others(rows, agent) + (if last.agent == agent then [] else [last])
    ensures UsersOf(rows + [last], agent) == UsersOf(rows, agent) + (if last.agent == agent then last.users else 0)
  {
    assert (rows + [last])[..|rows|] == rows;
  }

  lemma SumsSnoc(rows: seq<Row>, last: Row)
    ensures CpuSum(rows + [last]) == CpuSum(rows) + Times(last.cpu, last.users)
    ensures MemorySum(rows + [last]) == MemorySum(rows) + Times(last.memoryMb, last.users)
  {
    assert (rows + [last])[..|rows|] == rows;
  }

  predicate Split(rows: seq<Row>, r: Row)
  {
    && CpuSum(rows) == CpuSum(Others(rows, r.agent)) + Times(r.cpu, UsersOf(rows, r.agent))
    && MemorySum(rows) == MemorySum(Others(rows, r.agent)) + Times(r.memoryMb, UsersOf(rows, r.agent))
  }

  lemma OwnRow(rows: seq<Row>, last: Row, r: Row)
    requires Split(rows, r) && last.agent == r.agent && last.cpu == r.cpu && last.memoryMb == r.memoryMb
    ensures Split(rows + [last], r)
  {
    SumsSnoc(rows, last);
    OthersSnoc(rows, last, r.agent);
    assert Others(rows, r.agent) + [] == Others(rows, r.agent);
    Distribute(r.cpu, UsersOf(rows, r.agent), last.users);
    Distribute(r.memoryMb, UsersOf(rows, r.agent), last.users);
  }

  lemma OtherRow(rows: seq<Row>, last: Row, r: Row)
    requires Split(rows, r) && last.agent != r.agent
    ensures Split(rows + [last], r)
  {
    SumsSnoc(rows, last);
    OthersSnoc(rows, last, r.agent);
    SumsSnoc(Others(rows, r.agent), last);
  }

  /** The demand is that of the other agents' rows and that of this agent's users. */
  lemma {:induction false} SumsSplit(rows: seq<Row>, r: Row)
    requires SameLimits(rows, r)
    ensures Split(rows, r)
    decreases |rows|
  {
    if rows != [] {
      var front, last := rows[..|rows| - 1], rows[|rows| - 1];
      assert rows == front + [last];
      assert SameLimits(front, r) by { forall k | 0 <= k < |front| ensures front[k] == rows[k] {} }
      SumsSplit(front, r);
      if last.agent == r.agent { OwnRow(front, last, r); } else { OtherRow(front, last, r); }
    }
  }

  /** The most users whose demand stays within what is left. */
  function MostUsers(left: real, each: real): int
    requires each != 0.0
  {
    (left / each).Floor
  }

  lemma MostUsersIff(left: real, each: real, n: nat)
    requires each > 0.0
    ensures n <= MostUsers(left, each) <==> Times(each, n) <= left
  {
    TimesIsProduct(each, n);
    QuotientIff(left, each, n as real);
    FloorIff(left / each, n);
  }

  lemma FloorIff(q: real, n: nat)
    ensures n <= q.Floor <==> n as real <= q
  {
  }

  lemma QuotientIff(left: real, each: real, m: real)
    requires each > 0.0
    ensures m <= left / each <==> m * each <= left
  {
    var q := left / each;
    if m <= q { Ordered(m, q, each); } else { StrictlyOrdered(q, m, each); }
  }

  lemma Ordered(a: real, b: real, c: real)
    requires a <= b && c > 0.0
    ensures a * c <= b * c
  {
  }

  lemma StrictlyOrdered(a: real, b: real, c: real)
    requires a < b && c > 0.0
    ensures a * c < b * c
  {
  }

  function Maximum(s: Snapshot, otherCpu: real, otherMemory: real, r: Row): nat
    requires r.cpu != 0.0 && r.memoryMb != 0.0
  {
    var a, b := MostUsers(s.remainingCpu - otherCpu, r.cpu), MostUsers(s.remainingMemoryMb - otherMemory, r.memoryMb);
    var m := if b < a then b else a;
    if m < 0 then 0 else m
  }

  lemma MaximumIff(s: Snapshot, otherCpu: real, otherMemory: real, r: Row, n: nat)
    requires r.cpu > 0.0 && r.memoryMb > 0.0 && n > 0
    ensures n <= Maximum(s, otherCpu, otherMemory, r) <==>
              otherCpu + Times(r.cpu, n) <= s.remainingCpu && otherMemory + Times(r.memoryMb, n) <= s.remainingMemoryMb
  {
    MostUsersIff(s.remainingCpu - otherCpu, r.cpu, n);
    MostUsersIff(s.remainingMemoryMb - otherMemory, r.memoryMb, n);
  }

  /** The suggestion for an agent is the largest count that fits: exactly the counts up to it fit. */
  lemma MaximumFits(s: Snapshot, rows: seq<Row>, r: Row, n: nat)
    requires r.cpu > 0.0 && r.memoryMb > 0.0 && SameLimits(rows, r) && n > 0
    ensures n <= SuggestionFor(s, r.(users := UsersOf(rows, r.agent)), CpuSum(rows), MemorySum(rows)).users <==>
              Fits(s, rows, r, n)
  {
    SumsSplit(rows, r);
    MaximumIff(s, CpuSum(Others(rows, r.agent)), MemorySum(Others(rows, r.agent)), r, n);
  }

  // ------------------------------------------------------- the rows of a request

  /** `LoadRequest` selects each agent once. */
  predicate OneEach(agents: seq<Row>)
  {
    forall i, j | 0 <= i < j < |agents| :: agents[i].agent != agents[j].agent
  }

  /** The users `create` inserts, in order: one row each, with the limits of their agent's selection. */
  function UserRows(agents: seq<Row>): seq<Row>
  {
    if agents == [] then [] else
      UserRows(agents[..|agents| - 1]) + seq(agents[|agents| - 1].users, _ => agents[|agents| - 1].(users := 1))
  }

  lemma {:induction false} UserRowIsCopy(agents: seq<Row>, k: nat) returns (j: nat)
    requires k < |UserRows(agents)|
    ensures j < |agents| && UserRows(agents)[k] == agents[j].(users := 1)
    decreases |agents|
  {
    var front := agents[..|agents| - 1];
    if k < |UserRows(front)| {
      j := UserRowIsCopy(front, k);
      assert front[j] == agents[j];
    } else {
      j := |agents| - 1;
    }
  }

  /** Both what a start is checked for and what is left to prepare ask for the same limits within an agent. */
  lemma RequestsAgree(agents: seq<Row>, offset: nat, r: Row)
    requires OneEach(agents) && offset <= |UserRows(agents)|
    ensures r in agents ==> SameLimits(agents, r)
    ensures r in UserRows(agents)[offset..] ==> SameLimits(UserRows(agents)[offset..], r)
  {
    var rows := UserRows(agents)[offset..];
    if r in rows {
      var i :| 0 <= i < |rows| && rows[i] == r;
      var x := UserRowIsCopy(agents, offset + i);
      forall k | 0 <= k < |rows| && rows[k].agent == r.agent
        ensures rows[k].cpu == r.cpu && rows[k].memoryMb == r.memoryMb
      {
        var y := UserRowIsCopy(agents, offset + k);
      }
    }
  }

  /** The users inserted ask for exactly what the start was checked for. */
  lemma {:induction false} UsersAskTheSame(agents: seq<Row>)
    ensures CpuSum(UserRows(agents)) == CpuSum(agents) && MemorySum(UserRows(agents)) == MemorySum(agents)
    decreases |agents|
  {
    if agents != [] {
      UsersAskTheSame(agents[..|agents| - 1]);
      CopiesSum(UserRows(agents[..|agents| - 1]), agents[|agents| - 1], agents[|agents| - 1].users);
    }
  }

  lemma {:induction false} CopiesSum(rows: seq<Row>, r: Row, n: nat)
    ensures CpuSum(rows + seq(n, _ => r.(users := 1))) == CpuSum(rows) + Times(r.cpu, n)
    ensures MemorySum(rows + seq(n, _ => r.(users := 1))) == MemorySum(rows) + Times(r.memoryMb, n)
  {
    if n == 0 {
      assert rows + seq(n, _ => r.(users := 1)) == rows;
    } else {
      CopiesSum(rows, r, n - 1);
      var fewer := rows + seq(n - 1, _ => r.(users := 1));
      assert rows + seq(n, _ => r.(users := 1)) == fewer + [r.(users := 1)];
      SumsSnoc(fewer, r.(users := 1));
      assert Times(r.cpu, 1) == r.cpu && Times(r.memoryMb, 1) == r.memoryMb by {
        assert Times(r.cpu, 0) == 0.0 && Times(r.memoryMb, 0) == 0.0;
      }
    }
  }

  /** One group for each agent: its first row, with the users of all its rows. */
  ghost predicate Grouping(grouped: seq<Row>, rows: seq<Row>)
  {
    && (forall i, j | 0 <= i < j < |grouped| :: grouped[i].agent != grouped[j].agent)
    && (forall r | r in rows :: Represents(grouped, r.agent))
    && (forall g | g in grouped :: GroupOf(g, rows))
  }

  predicate Represents(grouped: seq<Row>, agent: string)
  {
    exists g :: g in grouped && g.agent == agent
  }

  /** The first row of its agent, whose limits stand for the group. */
  predicate First(rows: seq<Row>, i: int)
  {
    0 <= i < |rows| && forall j | 0 <= j < i :: rows[j].agent != rows[i].agent
  }

  ghost predicate GroupOf(g: Row, rows: seq<Row>)
  {
    g.users == UsersOf(rows, g.agent) && exists i :: First(rows, i) && g == rows[i].(users := g.users)
  }

  /** Some agent's first row has a zero limit. */
  ghost predicate Divides(rows: seq<Row>)
  {
    exists i :: First(rows, i) && (rows[i].cpu == 0.0 || rows[i].memoryMb == 0.0)
  }

  lemma GroupGrows(g: Row, rows: seq<Row>, row: Row)
    requires GroupOf(g, rows)
    ensures GroupOf(g.(users := g.users + if row.agent == g.agent then row.users else 0), rows + [row])
  {
    OthersSnoc(rows, row, g.agent);
    var i :| First(rows, i) && g == rows[i].(users := g.users);
    assert First(rows + [row], i) && (rows + [row])[i] == rows[i];
  }

  lemma GroupStarts(rows: seq<Row>, row: Row)
    requires forall r | r in rows :: r.agent != row.agent
    ensures GroupOf(row, rows + [row])
  {
    NoUsers(rows, row.agent);
    OthersSnoc(rows, row, row.agent);
    assert First(rows + [row], |rows|) && row == (rows + [row])[|rows|].(users := row.users);
  }

  /** The groups in order of first appearance. */
  method Grouped(rows: seq<Row>) returns (grouped: seq<Row>)
    ensures Grouping(grouped, rows)
  {
    grouped := [];
    for n := 0 to |rows|
      invariant Grouping(grouped, rows[..n])
    {
      assert rows[..n + 1] == rows[..n] + [rows[n]];
      grouped := Enter(grouped, rows[n], rows[..n]);
    }
    assert rows[..|rows|] == rows;
  }

  /** setdefault, and the users added. */
  method Enter(grouped: seq<Row>, row: Row, ghost rows: seq<Row>) returns (r: seq<Row>)
    requires Grouping(grouped, rows)
    ensures Grouping(r, rows + [row])
  {
    if i :| 0 <= i < |grouped| && grouped[i].agent == row.agent {
      r := grouped[i := grouped[i].(users := grouped[i].users + row.users)];
      EnterKnown(grouped, row, rows, i);
    } else {
      r := grouped + [row];
      EnterNew(grouped, row, rows);
    }
  }

  lemma EnterKnown(grouped: seq<Row>, row: Row, rows: seq<Row>, i: nat)
    requires Grouping(grouped, rows) && i < |grouped| && grouped[i].agent == row.agent
    ensures Grouping(grouped[i := grouped[i].(users := grouped[i].users + row.users)], rows + [row])
  {
    var r := grouped[i := grouped[i].(users := grouped[i].users + row.users)];
    forall j | 0 <= j < |r| ensures GroupOf(r[j], rows + [row]) { GroupEntered(grouped, row, rows, i, j); }
    forall x | x in rows + [row] ensures Represents(r, x.agent) { Represented(grouped, rows, row, r, i, x); }
  }

  lemma GroupEntered(grouped: seq<Row>, row: Row, rows: seq<Row>, i: nat, j: nat)
    requires Grouping(grouped, rows) && i < |grouped| && j < |grouped| && grouped[i].agent == row.agent
    ensures GroupOf(grouped[i := grouped[i].(users := grouped[i].users + row.users)][j], rows + [row])
  {
    assert grouped[j] in grouped;
    GroupGrows(grouped[j], rows, row);
    if j != i {
      assert grouped[j].agent != row.agent;
      assert grouped[j] == grouped[j].(users := grouped[j].users + 0);
    }
  }

  lemma GroupKept(g: Row, rows: seq<Row>, row: Row)
    requires GroupOf(g, rows) && g.agent != row.agent
    ensures GroupOf(g, rows + [row])
  {
    GroupGrows(g, rows, row);
    assert g == g.(users := g.users + 0);
  }

  lemma NewGroups(grouped: seq<Row>, row: Row, rows: seq<Row>)
    requires (forall g | g in grouped :: GroupOf(g, rows) && g.agent != row.agent) && GroupOf(row, rows + [row])
    ensures forall x | x in grouped + [row] :: GroupOf(x, rows + [row])
  {
    forall x | x in grouped ensures GroupOf(x, rows + [row]) { GroupKept(x, rows, row); }
  }

  lemma EnterNew(grouped: seq<Row>, row: Row, rows: seq<Row>)
    requires Grouping(grouped, rows) && forall g | g in grouped :: g.agent != row.agent
    ensures Grouping(grouped + [row], rows + [row])
  {
    var r := grouped + [row];
    forall x | x in rows ensures x.agent != row.agent { assert Represents(grouped, x.agent); }
    GroupStarts(rows, row);
    NewGroups(grouped, row, rows);
    forall x | x in rows + [row] ensures Represents(r, x.agent) { NewRepresents(grouped, row, rows, x); }
  }

  lemma NewRepresents(grouped: seq<Row>, row: Row, rows: seq<Row>, x: Row)
    requires x in rows + [row] && (x in rows ==> Represents(grouped, x.agent))
    ensures Represents(grouped + [row], x.agent)
  {
    if x in rows {
      var g :| g in grouped && g.agent == x.agent;
      assert g in grouped + [row];
    } else {
      assert row in grouped + [row];
    }
  }

  lemma Represented(grouped: seq<Row>, rows: seq<Row>, row: Row, r: seq<Row>, i: nat, x: Row)
    requires Grouping(grouped, rows) && i < |grouped| && grouped[i].agent == row.agent
    requires |r| == |grouped| && (forall j | 0 <= j < |r| :: r[j].agent == grouped[j].agent) && x in rows + [row]
    ensures Represents(r, x.agent)
  {
    if x in rows {
      assert Represents(grouped, x.agent);
      var g :| g in grouped && g.agent == x.agent;
      var j :| 0 <= j < |grouped| && grouped[j] == g;
      assert r[j] in r;
    } else {
      assert r[i] in r;
    }
  }

  lemma {:induction false} NoUsers(rows: seq<Row>, agent: string)
    requires forall r | r in rows :: r.agent != agent
    ensures UsersOf(rows, agent) == 0
    decreases |rows|
  {
    if rows != [] { NoUsers(rows[..|rows| - 1], agent); }
  }

  /** An agent's rows ask for the same positive limits. */
  predicate Regular(rows: seq<Row>, r: Row)
  {
    SameLimits(rows, r) && r.cpu > 0.0 && r.memoryMb > 0.0
  }

  /** The suggestion is the largest count that fits beside the other agents' rows. */
  ghost predicate Right(s: Snapshot, rows: seq<Row>, x: Suggestion)
  {
    forall r, n: nat | r in rows && r.agent == x.agent && Regular(rows, r) && n > 0 ::
      n <= x.users <==> Fits(s, rows, r, n)
  }

  /** A right suggestion for every agent asked for. */
  ghost predicate Helpful(s: Snapshot, rows: seq<Row>, suggestions: seq<Suggestion>)
  {
    && (forall i, j | 0 <= i < j < |suggestions| :: suggestions[i].agent != suggestions[j].agent)
    && (forall r | r in rows :: exists x :: x in suggestions && x.agent == r.agent)
    && (forall i | 0 <= i < |suggestions| :: Right(s, rows, suggestions[i]))
  }

  method CheckCapacity(s: Snapshot, rows: seq<Row>, now: real) returns (v: Verdict)
    ensures v.Unavailable? <==> !s.known || now - s.sampledAt > 15.0
    ensures v.Disallowed? <==> s.known && now - s.sampledAt <= 15.0 && !s.allowed
    ensures v.Accepted? <==>
              && s.known && now - s.sampledAt <= 15.0 && s.allowed
              && CpuSum(rows) <= s.remainingCpu + SLACK && MemorySum(rows) <= s.remainingMemoryMb
    ensures v.TooMuch? ==> Helpful(s, rows, v.suggestions)
    ensures v.DividedByZero? <==>
              && s.known && now - s.sampledAt <= 15.0 && s.allowed
              && !(CpuSum(rows) <= s.remainingCpu + SLACK && MemorySum(rows) <= s.remainingMemoryMb)
              && Divides(rows)
  {
    if !s.known || now - s.sampledAt > 15.0 { return Unavailable; }
    if !s.allowed { return Disallowed; }
    var cpu, memory := CpuSum(rows), MemorySum(rows);
    if cpu > s.remainingCpu + SLACK || memory > s.remainingMemoryMb {
      var suggestions := Suggest(s, rows, cpu, memory);
      return if suggestions.Some? then TooMuch(suggestions.value) else DividedByZero;
    }
    v := Accepted;
  }

  /** The loop over the groups; nothing when it divides by zero. */
  method Suggest(s: Snapshot, rows: seq<Row>, cpu: real, memory: real) returns (r: Option<seq<Suggestion>>)
    requires cpu == CpuSum(rows) && memory == MemorySum(rows)
    ensures r.Some? ==> Helpful(s, rows, r.value)
    ensures r.None? <==> Divides(rows)
  {
    var grouped := Grouped(rows);
    var suggestions: seq<Suggestion> := [];
    for n := 0 to |grouped|
      invariant |suggestions| == n
      invariant forall i | 0 <= i < n :: suggestions[i].agent == grouped[i].agent && Right(s, rows, suggestions[i])
      invariant forall i | 0 <= i < n :: grouped[i].cpu != 0.0 && grouped[i].memoryMb != 0.0
    {
      assert grouped[n] in grouped;
      var x := SuggestOne(s, rows, grouped[n], cpu, memory);
      if x.None? { return None; }
      suggestions := suggestions + [x.value];
    }
    EveryAgent(rows, grouped, suggestions);
    NoneDivides(rows, grouped);
    r := Some(suggestions);
  }

  method SuggestOne(s: Snapshot, ghost rows: seq<Row>, g: Row, cpu: real, memory: real) returns (x: Option<Suggestion>)
    requires cpu == CpuSum(rows) && memory == MemorySum(rows) && GroupOf(g, rows)
    ensures x.Some? ==> x.value.agent == g.agent && Right(s, rows, x.value)
    ensures x.None? <==> g.cpu == 0.0 || g.memoryMb == 0.0
    ensures x.None? ==> Divides(rows)
  {
    if g.cpu == 0.0 || g.memoryMb == 0.0 { return None; }
    SuggestionRight(s, rows, g);
    x := Some(SuggestionFor(s, g, cpu, memory));
  }

  /** The groups carry the limits of every agent's first row. */
  lemma NoneDivides(rows: seq<Row>, grouped: seq<Row>)
    requires Grouping(grouped, rows)
    requires forall i | 0 <= i < |grouped| :: grouped[i].cpu != 0.0 && grouped[i].memoryMb != 0.0
    ensures !Divides(rows)
  {
    forall i | First(rows, i) ensures rows[i].cpu != 0.0 && rows[i].memoryMb != 0.0 {
      assert Represents(grouped, rows[i].agent);
      var g :| g in grouped && g.agent == rows[i].agent;
      var k :| First(rows, k) && g == rows[k].(users := g.users);
      assert k == i;
      var n :| 0 <= n < |grouped| && grouped[n] == g;
    }
  }

  /** For the rows a request really sends, every suggestion is the largest count that fits. */
  lemma RequestSuggestions(s: Snapshot, agents: seq<Row>, offset: nat, rows: seq<Row>, suggestions: seq<Suggestion>,
                           x: Suggestion, r: Row, n: nat)
    requires OneEach(agents) && forall a | a in agents :: a.cpu > 0.0 && a.memoryMb > 0.0
    requires offset <= |UserRows(agents)| && (rows == agents || rows == UserRows(agents)[offset..])
    requires Helpful(s, rows, suggestions) && x in suggestions && r in rows && x.agent == r.agent && n > 0
    ensures n <= x.users <==> Fits(s, rows, r, n)
  {
    RequestsAgree(agents, offset, r);
    if r !in agents {
      var i :| 0 <= i < |rows| && rows[i] == r;
      var j := UserRowIsCopy(agents, offset + i);
      assert agents[j] in agents;
    }
    var i :| 0 <= i < |suggestions| && suggestions[i] == x;
    assert Right(s, rows, x);
  }

  lemma EveryAgent(rows: seq<Row>, grouped: seq<Row>, suggestions: seq<Suggestion>)
    requires Grouping(grouped, rows) && |suggestions| == |grouped|
    requires forall i | 0 <= i < |grouped| :: suggestions[i].agent == grouped[i].agent
    ensures forall r | r in rows :: exists x :: x in suggestions && x.agent == r.agent
  {
    forall r | r in rows ensures exists x :: x in suggestions && x.agent == r.agent {
      assert Represents(grouped, r.agent);
      var g :| g in grouped && g.agent == r.agent;
      var i :| 0 <= i < |grouped| && grouped[i] == g;
      assert suggestions[i] in suggestions;
    }
  }

  lemma SuggestionRight(s: Snapshot, rows: seq<Row>, g: Row)
    requires GroupOf(g, rows) && g.cpu != 0.0 && g.memoryMb != 0.0
    ensures Right(s, rows, SuggestionFor(s, g, CpuSum(rows), MemorySum(rows)))
  {
    var x := SuggestionFor(s, g, CpuSum(rows), MemorySum(rows));
    forall r, n: nat | r in rows && r.agent == x.agent && Regular(rows, r) && n > 0
      ensures n <= x.users <==> Fits(s, rows, r, n)
    {
      SuggestionHelps(s, rows, g, r, n);
    }
  }

  lemma SuggestionHelps(s: Snapshot, rows: seq<Row>, g: Row, r: Row, n: nat)
    requires GroupOf(g, rows) && r in rows && g.agent == r.agent && SameLimits(rows, r) && n > 0 && r.cpu > 0.0 &&
               r.memoryMb > 0.0
    ensures n <= SuggestionFor(s, g, CpuSum(rows), MemorySum(rows)).users <==> Fits(s, rows, r, n)
  {
    var first :| First(rows, first) && g == rows[first].(users := g.users);
    assert rows[first] in rows && g == r.(users := UsersOf(rows, r.agent));
    MaximumFits(s, rows, r, n);
  }

  function SuggestionFor(s: Snapshot, g: Row, cpu: real, memory: real): Suggestion
  {
    if g.cpu != 0.0 && g.memoryMb != 0.0
    then Suggestion(g.agent, Maximum(s, cpu - Times(g.cpu, g.users), memory - Times(g.memoryMb, g.users), g))
    else Suggestion(g.agent, 0)
  }

  /** What is in use, what is asked for and the reserve fit the machine together, and the growth fits what is free. */
  predicate Within(l: Load, host: Host, policy: Policy, rows: seq<Row>)
  {
    && l.memory + MemorySum(rows) + Max(policy.reservedMemoryMb, l.memoryShare) <= l.totalMemory
    && l.growth + MemorySum(rows) + Max(policy.reservedMemoryMb, l.memoryShare) <= host.availableMb
    && l.cpu + CpuSum(rows) + Max(policy.reservedCpu, l.cpuShare) <= l.totalCpu + SLACK
    && l.bounded && host.cpuUsagePercent < policy.maxCpuUsagePercent
  }

  lemma AcceptedFits(s: Snapshot, l: Load, host: Host, policy: Policy, rows: seq<Row>)
    requires Fair(s, l, host, policy) && s.allowed
    requires CpuSum(rows) <= s.remainingCpu + SLACK && MemorySum(rows) <= s.remainingMemoryMb
    ensures Within(l, host, policy, rows)
  {
    var freeMemory := Min(l.totalMemory - l.memory, host.availableMb - l.growth) - s.reservedMemoryMb;
    assert MemorySum(rows) <= freeMemory;
  }

  /** A snapshot is taken and a request checked against it: what is accepted fits the machine beside the reserve. */
  method Admit(ncpu: int, memTotal: int, host: Host, cs: seq<Container>, policy: Policy, sampled: real, rows: seq<Row>,
               now: real)
    returns (r: Result<Verdict>)
    ensures r.Success? <==> Agrees(ncpu, memTotal as real / MIB, host)
    ensures r == Success(Accepted) ==>
              now - sampled <= 15.0 && Within(LoadOf(ncpu, memTotal as real / MIB, policy, cs), host, policy, rows)
  {
    var s :- Calculate(ncpu, memTotal, host, cs, policy, sampled);
    var v := CheckCapacity(s, rows, now);
    if v.Accepted? { AcceptedFits(s, LoadOf(ncpu, memTotal as real / MIB, policy, cs), host, policy, rows); }
    r := Success(v);
  }
}
