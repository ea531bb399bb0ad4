/**
  * The gate every page fetch passes: a global semaphore, one semaphore per domain kept in a dictionary, and
  * the token bucket. Tasks interleave at every await; each step below is what runs between two of them.
  */
module FetchGate {
  import opened Seqs

  datatype Task = Task(id: int)

  /** A semaphore object: the global one, or the n-th made for a domain. */
  datatype SemId = Whole | Slot(n: nat)

  /** Free permits, and the tasks queued for one in order of arrival. */
  datatype Sem = Sem(value: nat, pending: seq<Task>)

  /**
    * Where a task inside the gate stands. A woken task already owns its permit before it runs again:
    * GrantedWhole and GrantedSlot cover that moment.
    */
  datatype Phase =
    | QueuedWhole(domain: string)
    | GrantedWhole(domain: string)
    | QueuedSlot(domain: string, sem: SemId)
    | GrantedSlot(domain: string, sem: SemId)
    | Filling(domain: string, sem: SemId)
    | Inside(domain: string, sem: SemId)

  datatype Gate = Gate(globalLimit: nat, domainLimit: nat, sems: map<SemId, Sem>, perDomain: map<string, SemId>,
    phases: map<Task, Phase>, made: nat)

  function New(globalLimit: nat, domainLimit: nat): Gate {
    Gate(globalLimit, domainLimit, map[Whole := Sem(globalLimit, [])], map[], map[], 0)
  }

  function Limit(g: Gate, id: SemId): nat {
    if id.Whole? then g.globalLimit else g.domainLimit
  }

  predicate Holds(p: Phase, id: SemId) {
    if id.Whole? then !p.QueuedWhole?
    else (p.GrantedSlot? || p.Filling? || p.Inside?) && p.sem == id
  }

  predicate Waits(p: Phase, id: SemId) {
    if id.Whole? then p.QueuedWhole? else p.QueuedSlot? && p.sem == id
  }

  function Holders(phases: map<Task, Phase>, id: SemId): set<Task> {
    set t | t in phases && Holds(phases[t], id)
  }

  predicate SameLimits(g: Gate, h: Gate) {
    g.globalLimit == h.globalLimit && g.domainLimit == h.domainLimit
  }

  // ---- semaphore moves ----------------------------------------------------------------------------------

  function Granted(p: Phase): Phase
    requires p.QueuedWhole? || p.QueuedSlot?
  {
    if p.QueuedWhole? then GrantedWhole(p.domain) else GrantedSlot(p.domain, p.sem)
  }

  predicate CanWake(g: Gate, id: SemId) {
    && id in g.sems && g.sems[id].value > 0 && g.sems[id].pending != []
    && g.sems[id].pending[0] in g.phases && Waits(g.phases[g.sems[id].pending[0]], id)
  }

  /** The first task in line gets a permit. */
  function Wake(g: Gate, id: SemId): Gate
    requires CanWake(g, id)
  {
    var t := g.sems[id].pending[0];
    g.(sems := g.sems[id := Sem(g.sems[id].value - 1, g.sems[id].pending[1..])],
       phases := g.phases[t := Granted(g.phases[t])])
  }

  function Take(g: Gate, id: SemId): Gate
    requires id in g.sems && g.sems[id].value > 0
  {
    g.(sems := g.sems[id := g.sems[id].(value := g.sems[id].value - 1)])
  }

  function Join(g: Gate, id: SemId, t: Task): Gate
    requires id in g.sems
  {
    g.(sems := g.sems[id := g.sems[id].(pending := g.sems[id].pending + [t])])
  }

  function Return(g: Gate, id: SemId): Gate
    requires id in g.sems
  {
    g.(sems := g.sems[id := g.sems[id].(value := g.sems[id].value + 1)])
  }

  function Put(g: Gate, t: Task, p: Phase): Gate {
    g.(phases := g.phases[t := p])
  }

  function Gone(g: Gate, t: Task): Gate {
    g.(phases := g.phases - {t})
  }

  /** Releasing wakes the first in line in the same breath. */
  function Handed(g: Gate, id: SemId): (h: Gate)
    ensures SameLimits(g, h)
  {
    if CanWake(g, id) then Wake(g, id) else g
  }

  function Quit(g: Gate, id: SemId, t: Task): Gate
    requires id in g.sems
  {
    g.(sems := g.sems[id := g.sems[id].(pending := Without(g.sems[id].pending, t))])
  }

  // ---- the dictionary -----------------------------------------------------------------------------------

  /** Looking a domain's semaphore up makes it when it is missing. */
  function Ensured(g: Gate, d: string): (h: Gate)
    ensures SameLimits(g, h)
  {
    if d in g.perDomain then g
    else g.(sems := g.sems[Slot(g.made) := Sem(g.domainLimit, [])], perDomain := g.perDomain[d := Slot(g.made)],
            made := g.made + 1)
  }

  /** `release_domain`: forget a semaphore nobody holds. */
  function Forget(g: Gate, d: string): (h: Gate)
    ensures SameLimits(g, h)
  {
    if d in g.perDomain && g.perDomain[d] in g.sems && g.sems[g.perDomain[d]].value == g.domainLimit
    then g.(perDomain := g.perDomain - {d}) else g
  }

  // ---- steps --------------------------------------------------------------------------------------------

  datatype Step =
    | Enter(t: Task, domain: string, queue: bool)
    | AskDomain(t: Task, queue: bool)
    | WakeNext(id: SemId)
    | Resume(t: Task)
    | Pass(t: Task)
    | Cancel(t: Task)
    | Fail(t: Task)
    | Exit(t: Task)
    | ReleaseDomain(domain: string)

  predicate Unresumed(g: Gate, id: SemId) {
    exists t | t in g.phases ::
      if id.Whole? then g.phases[t].GrantedWhole? else g.phases[t].GrantedSlot? && g.phases[t].sem == id
  }

  /** Acquiring takes a free permit unless somebody is already in line or was just woken. */
  predicate CanAcquire(g: Gate, id: SemId, queue: bool) {
    && id in g.sems
    && (if queue then g.sems[id].value == 0 || g.sems[id].pending != [] || Unresumed(g, id)
        else g.sems[id].value > 0 && g.sems[id].pending == [])
  }

  predicate Enabled(g: Gate, s: Step) {
    match s
    case Enter(t, d, queue) => t !in g.phases && CanAcquire(g, Whole, queue)
    case AskDomain(t, queue) =>
      t in g.phases && g.phases[t].GrantedWhole? &&
      var e := Ensured(g, g.phases[t].domain); CanAcquire(e, e.perDomain[g.phases[t].domain], queue)
    case WakeNext(id) => CanWake(g, id)
    case Resume(t) => t in g.phases && g.phases[t].GrantedSlot?
    case Pass(t) => t in g.phases && g.phases[t].Filling?
    case Cancel(t) => t in g.phases && !g.phases[t].Filling? && !g.phases[t].Inside?
    case Fail(t) => t in g.phases && g.phases[t].Filling?
    case Exit(t) => t in g.phases && g.phases[t].Inside?
    case ReleaseDomain(_) => true
  }

  /** Give a domain permit back to semaphore `id`, keeping the global one. */
  function LeaveSlot(g: Gate, t: Task, id: SemId): (h: Gate)
    requires t in g.phases && id in g.sems
    ensures SameLimits(g, h)
  {
    Handed(Put(Return(g, id), t, GrantedWhole(g.phases[t].domain)), id)
  }

  function LeaveWhole(g: Gate, t: Task): (h: Gate)
    requires Whole in g.sems
    ensures SameLimits(g, h)
  {
    Handed(Gone(Return(g, Whole), t), Whole)
  }

  /** Give both permits back, the domain's through the dictionary. */
  function Leave(g: Gate, t: Task): Gate
    requires t in g.phases && Whole in g.sems && forall d | d in g.perDomain :: g.perDomain[d] in g.sems
  {
    var d := g.phases[t].domain;
    var e := Ensured(g, d);
    LeaveWhole(LeaveSlot(e, t, e.perDomain[d]), t)
  }

  function Cancelled(g: Gate, t: Task): Gate
    requires t in g.phases && Whole in g.sems
    requires (g.phases[t].QueuedSlot? || g.phases[t].GrantedSlot? ==> g.phases[t].sem in g.sems)
  {
    var p := g.phases[t];
    match p
    case QueuedWhole(_) => Gone(Quit(g, Whole, t), t)
    case QueuedSlot(d, id) => LeaveWhole(Put(Quit(g, id, t), t, GrantedWhole(d)), t)
    case GrantedSlot(_, id) => LeaveWhole(LeaveSlot(g, t, id), t)
    case _ => LeaveWhole(g, t)
  }

  function Asked(g: Gate, t: Task, d: string, queue: bool): Gate
    requires d in g.perDomain && CanAcquire(g, g.perDomain[d], queue)
  {
    var id := g.perDomain[d];
    if queue then Put(Join(g, id, t), t, QueuedSlot(d, id)) else Put(Take(g, id), t, Filling(d, id))
  }

  ghost function Next(g: Gate, s: Step): Gate
    requires Tied(g) && Enabled(g, s)
  {
    match s
    case Enter(t, d, queue) =>
      if queue then Put(Join(g, Whole, t), t, QueuedWhole(d)) else Put(Take(g, Whole), t, GrantedWhole(d))
    case AskDomain(t, queue) => Asked(Ensured(g, g.phases[t].domain), t, g.phases[t].domain, queue)
    case WakeNext(id) => Wake(g, id)
    case Resume(t) => Put(g, t, Filling(g.phases[t].domain, g.phases[t].sem))
    case Pass(t) => Put(g, t, Inside(g.phases[t].domain, g.phases[t].sem))
    case Cancel(t) => Cancelled(g, t)
    case Fail(t) => Leave(g, t)
    case Exit(t) => Leave(g, t)
    case ReleaseDomain(d) => Forget(g, d)
  }

  // ---- what every step keeps ----------------------------------------------------------------------------

  ghost predicate Line(s: seq<Task>, phases: map<Task, Phase>, id: SemId) {
    && Distinct(s)
    && (forall t | t in s :: t in phases && Waits(phases[t], id))
    && (forall t | t in phases && Waits(phases[t], id) :: t in s)
  }

  ghost predicate Counted(g: Gate, id: SemId)
    requires id in g.sems
  {
    && g.sems[id].value + |Holders(g.phases, id)| == Limit(g, id)
    && Line(g.sems[id].pending, g.phases, id)
  }

  /** No permit is lost or made, the line is who waits, and nobody waits for a domain permit nobody holds. */
  ghost predicate Conserved(g: Gate, id: SemId)
    requires id in g.sems
  {
    && Counted(g, id)
    && (id.Slot? && g.domainLimit > 0 && g.sems[id].pending != [] ==> Holders(g.phases, id) != {})
  }

  ghost predicate AllConserved(g: Gate) {
    forall id | id in g.sems :: Conserved(g, id)
  }

  predicate Uses(p: Phase) {
    !p.QueuedWhole? && !p.GrantedWhole?
  }

  ghost predicate TaskTied(g: Gate, t: Task)
    requires t in g.phases
  {
    var p := g.phases[t];
    Uses(p) ==>
      && p.sem in g.sems && p.sem.Slot?
      && ((p.QueuedSlot? && g.domainLimit == 0) || (p.domain in g.perDomain && g.perDomain[p.domain] == p.sem))
  }

  ghost predicate EntryTied(g: Gate, d: string)
    requires d in g.perDomain
  {
    g.perDomain[d] in g.sems && g.perDomain[d].Slot?
  }

  /**
    * A task queues for, holds and gives back the semaphore the dictionary has for its domain. (With a limit of
    * zero a queued task's semaphore may have been forgotten; nobody ever gets it.)
    */
  ghost predicate Tied(g: Gate) {
    && Whole in g.sems
    && (forall d | d in g.perDomain :: EntryTied(g, d))
    && (forall d, d' | d in g.perDomain && d' in g.perDomain && g.perDomain[d] == g.perDomain[d'] :: d == d')
    && (forall id | id in g.sems :: id.Whole? || id.n < g.made)
    && (forall t | t in g.phases :: TaskTied(g, t))
  }

  ghost predicate Inv(g: Gate) {
    Tied(g) && AllConserved(g)
  }

  // ---- one task changes phase ----------------------------------------------------------------------------

  ghost predicate OnlyMoves(a: map<Task, Phase>, b: map<Task, Phase>, t: Task) {
    a - {t} == b - {t}
  }

  lemma Elsewhere(a: map<Task, Phase>, b: map<Task, Phase>, t: Task, u: Task)
    requires OnlyMoves(a, b, t) && u != t
    ensures u in a <==> u in b
    ensures u in a ==> a[u] == b[u]
  {
    assert u in a - {t} <==> u in b - {t};
    if u in a {
      assert (a - {t})[u] == (b - {t})[u];
    }
  }

  predicate HeldBy(phases: map<Task, Phase>, t: Task, id: SemId) {
    t in phases && Holds(phases[t], id)
  }

  predicate InLine(phases: map<Task, Phase>, t: Task, id: SemId) {
    t in phases && Waits(phases[t], id)
  }

  lemma HoldersChange(a: map<Task, Phase>, b: map<Task, Phase>, t: Task, id: SemId)
    requires OnlyMoves(a, b, t)
    ensures HeldBy(a, t, id) == HeldBy(b, t, id) ==> Holders(b, id) == Holders(a, id)
    ensures HeldBy(a, t, id) && !HeldBy(b, t, id) ==> |Holders(b, id)| == |Holders(a, id)| - 1
    ensures !HeldBy(a, t, id) && HeldBy(b, t, id) ==> |Holders(b, id)| == |Holders(a, id)| + 1 && t in Holders(b, id)
  {
    forall u | u != t ensures u in Holders(a, id) <==> u in Holders(b, id) {
      Elsewhere(a, b, t, u);
    }
    assert HeldBy(a, t, id) <==> t in Holders(a, id);
    assert HeldBy(b, t, id) <==> t in Holders(b, id);
    OneDiffers(Holders(a, id), Holders(b, id), t);
  }

  lemma OneDiffers(a: set<Task>, b: set<Task>, t: Task)
    requires forall u | u != t :: u in a <==> u in b
    ensures (t in a) == (t in b) ==> a == b
    ensures t in a && t !in b ==> |b| == |a| - 1
    ensures t !in a && t in b ==> |b| == |a| + 1
  {
    if t in a && t !in b {
      assert b == a - {t};
    } else if t !in a && t in b {
      assert b == a + {t};
    }
  }

  lemma LineStays(s: seq<Task>, a: map<Task, Phase>, b: map<Task, Phase>, t: Task, id: SemId)
    requires Line(s, a, id) && OnlyMoves(a, b, t) && InLine(a, t, id) == InLine(b, t, id)
    ensures Line(s, b, id)
  {
    forall u ensures InLine(a, u, id) <==> InLine(b, u, id) {
      if u != t {
        Elsewhere(a, b, t, u);
      }
    }
    forall u | u in s ensures u in b && Waits(b[u], id) {
      assert InLine(a, u, id);
    }
    forall u | u in b && Waits(b[u], id) ensures u in s {
      assert InLine(b, u, id);
    }
  }

  lemma LineGrows(s: seq<Task>, a: map<Task, Phase>, b: map<Task, Phase>, t: Task, id: SemId)
    requires Line(s, a, id) && OnlyMoves(a, b, t) && !InLine(a, t, id) && InLine(b, t, id)
    ensures Line(s + [t], b, id)
  {
    assert t !in s;
    forall u | u != t ensures InLine(a, u, id) <==> InLine(b, u, id) {
      Elsewhere(a, b, t, u);
    }
    forall u | u in s + [t] ensures u in b && Waits(b[u], id) {
      assert u == t || u in s;
      assert InLine(b, u, id);
    }
    forall u | u in b && Waits(b[u], id) ensures u in s + [t] {
      assert InLine(b, u, id);
      assert u == t || InLine(a, u, id);
    }
  }

  lemma LineShrinks(s: seq<Task>, a: map<Task, Phase>, b: map<Task, Phase>, t: Task, id: SemId)
    requires Line(s, a, id) && OnlyMoves(a, b, t) && InLine(a, t, id) && !InLine(b, t, id)
    ensures Line(Without(s, t), b, id)
  {
    WithoutIs(s, t);
    forall u | u != t ensures InLine(a, u, id) <==> InLine(b, u, id) {
      Elsewhere(a, b, t, u);
    }
    var r := Without(s, t);
    forall u | u in r ensures u in b && Waits(b[u], id) {
      assert u != t && InLine(a, u, id);
      assert InLine(b, u, id);
    }
    forall u | u in b && Waits(b[u], id) ensures u in r {
      assert InLine(b, u, id);
      assert u != t && InLine(a, u, id);
    }
  }

  /** A semaphore that the moving task neither takes, frees, joins nor leaves. */
  lemma Unaffected(g: Gate, h: Gate, t: Task, id: SemId)
    requires id in g.sems && id in h.sems && g.sems[id] == h.sems[id] && SameLimits(g, h)
    requires OnlyMoves(g.phases, h.phases, t)
    requires HeldBy(g.phases, t, id) == HeldBy(h.phases, t, id) && InLine(g.phases, t, id) == InLine(h.phases, t, id)
    requires Counted(g, id)
    ensures Counted(h, id) && (Conserved(g, id) ==> Conserved(h, id))
  {
    HoldersChange(g.phases, h.phases, t, id);
    LineStays(g.sems[id].pending, g.phases, h.phases, t, id);
  }

  lemma TookOne(g: Gate, h: Gate, t: Task, id: SemId)
    requires id in g.sems && g.sems[id].value > 0 && id in h.sems
    requires h.sems[id] == g.sems[id].(value := g.sems[id].value - 1)
    requires SameLimits(g, h) && OnlyMoves(g.phases, h.phases, t)
    requires !HeldBy(g.phases, t, id) && HeldBy(h.phases, t, id) && InLine(g.phases, t, id) == InLine(h.phases, t, id)
    requires Counted(g, id)
    ensures Conserved(h, id)
  {
    HoldersChange(g.phases, h.phases, t, id);
    LineStays(g.sems[id].pending, g.phases, h.phases, t, id);
  }

  lemma FreedOne(g: Gate, h: Gate, t: Task, id: SemId)
    requires id in g.sems && id in h.sems && h.sems[id] == g.sems[id].(value := g.sems[id].value + 1)
    requires SameLimits(g, h) && OnlyMoves(g.phases, h.phases, t)
    requires HeldBy(g.phases, t, id) && !HeldBy(h.phases, t, id) && InLine(g.phases, t, id) == InLine(h.phases, t, id)
    requires Counted(g, id)
    ensures Counted(h, id)
  {
    HoldersChange(g.phases, h.phases, t, id);
    LineStays(g.sems[id].pending, g.phases, h.phases, t, id);
  }

  lemma JoinedLine(g: Gate, h: Gate, t: Task, id: SemId)
    requires id in g.sems && id in h.sems && h.sems[id] == g.sems[id].(pending := g.sems[id].pending + [t])
    requires SameLimits(g, h) && OnlyMoves(g.phases, h.phases, t)
    requires HeldBy(g.phases, t, id) == HeldBy(h.phases, t, id) && !InLine(g.phases, t, id) && InLine(h.phases, t, id)
    requires Counted(g, id) && (id.Slot? && g.domainLimit > 0 ==> Holders(g.phases, id) != {})
    ensures Conserved(h, id)
  {
    HoldersChange(g.phases, h.phases, t, id);
    LineGrows(g.sems[id].pending, g.phases, h.phases, t, id);
  }

  lemma LeftLine(g: Gate, h: Gate, t: Task, id: SemId)
    requires id in g.sems && id in h.sems && h.sems[id] == g.sems[id].(pending := Without(g.sems[id].pending, t))
    requires SameLimits(g, h) && OnlyMoves(g.phases, h.phases, t)
    requires HeldBy(g.phases, t, id) == HeldBy(h.phases, t, id) && InLine(g.phases, t, id) && !InLine(h.phases, t, id)
    requires Conserved(g, id)
    ensures Conserved(h, id)
  {
    HoldersChange(g.phases, h.phases, t, id);
    LineShrinks(g.sems[id].pending, g.phases, h.phases, t, id);
  }

  lemma WokeOne(g: Gate, id: SemId)
    requires CanWake(g, id) && Counted(g, id)
    ensures Conserved(Wake(g, id), id)
  {
    var h, t := Wake(g, id), g.sems[id].pending[0];
    HoldersChange(g.phases, h.phases, t, id);
    LineShrinks(g.sems[id].pending, g.phases, h.phases, t, id);
    WithoutIs(g.sems[id].pending, t);
  }

  // ---- each move keeps the invariant ----------------------------------------------------------------------

  lemma OnlyPut(g: Gate, t: Task, p: Phase)
    ensures OnlyMoves(g.phases, g.phases[t := p], t) && OnlyMoves(g.phases, g.phases - {t}, t)
  {
    assert g.phases - {t} == g.phases[t := p] - {t};
    assert g.phases - {t} == (g.phases - {t}) - {t};
  }

  /** What a task may become without upsetting the dictionary. */
  lemma TiedAfter(g: Gate, h: Gate, t: Task)
    requires Tied(g) && OnlyMoves(g.phases, h.phases, t) && h.perDomain == g.perDomain && h.made == g.made
    requires h.domainLimit == g.domainLimit
    requires h.sems.Keys == g.sems.Keys && (t in h.phases ==> TaskTied(h, t))
    ensures Tied(h)
  {
    forall u | u in h.phases ensures TaskTied(h, u) {
      if u != t {
        Elsewhere(g.phases, h.phases, t, u);
        assert TaskTied(g, u);
      }
    }
    forall d | d in h.perDomain ensures EntryTied(h, d) {
      assert EntryTied(g, d);
    }
  }

  ghost predicate SameUse(a: map<Task, Phase>, b: map<Task, Phase>, t: Task, id: SemId) {
    HeldBy(a, t, id) == HeldBy(b, t, id) && InLine(a, t, id) == InLine(b, t, id)
  }

  ghost predicate SameUseBut(a: map<Task, Phase>, b: map<Task, Phase>, t: Task, id: SemId) {
    forall i | i != id :: SameUse(a, b, t, i)
  }

  ghost predicate OthersConserved(g: Gate, id: SemId) {
    forall i | i in g.sems && i != id :: Conserved(g, i)
  }

  /** A move of one task at one semaphore upsets no other. */
  lemma OthersKept(g: Gate, h: Gate, t: Task, id: SemId)
    requires OthersConserved(g, id) && OnlyMoves(g.phases, h.phases, t) && SameLimits(g, h)
    requires SameUseBut(g.phases, h.phases, t, id)
    requires id in g.sems && id in h.sems && h.sems == g.sems[id := h.sems[id]]
    ensures OthersConserved(h, id)
  {
    forall i | i in h.sems && i != id ensures Conserved(h, i) {
      assert SameUse(g.phases, h.phases, t, i);
      Unaffected(g, h, t, i);
    }
  }

  lemma WakeKeeps(g: Gate, id: SemId)
    requires Tied(g) && CanWake(g, id) && Counted(g, id)
    requires OthersConserved(g, id)
    ensures Tied(Wake(g, id)) && AllConserved(Wake(g, id)) && SameLimits(g, Wake(g, id))
  {
    var h, t := Wake(g, id), g.sems[id].pending[0];
    OnlyPut(g, t, Granted(g.phases[t]));
    assert TaskTied(g, t);
    TiedAfter(g, h, t);
    WokeOne(g, id);
    OthersKept(g, h, t, id);
  }

  /** A permit given back and handed on. */
  lemma HandedKeeps(g: Gate, id: SemId)
    requires Tied(g) && id in g.sems && g.sems[id].value > 0 && Counted(g, id)
    requires OthersConserved(g, id)
    ensures Tied(Handed(g, id)) && AllConserved(Handed(g, id)) && SameLimits(g, Handed(g, id))
  {
    if g.sems[id].pending != [] {
      assert g.sems[id].pending[0] in g.sems[id].pending;
      WakeKeeps(g, id);
    }
  }

  ghost predicate MovesAt(g: Gate, h: Gate, t: Task, id: SemId) {
    && OnlyMoves(g.phases, h.phases, t) && SameUseBut(g.phases, h.phases, t, id)
    && id in g.sems && id in h.sems && h.sems == g.sems[id := h.sems[id]]
    && h.perDomain == g.perDomain && h.made == g.made && SameLimits(g, h)
    && (t in h.phases ==> TaskTied(h, t))
  }

  lemma Settles(g: Gate, h: Gate, t: Task, id: SemId)
    requires Inv(g) && MovesAt(g, h, t, id) && Conserved(h, id)
    ensures Inv(h)
  {
    TiedAfter(g, h, t);
    OthersKept(g, h, t, id);
  }

  lemma EnterKeeps(g: Gate, t: Task, d: string, queue: bool)
    requires Inv(g) && Enabled(g, Enter(t, d, queue))
    ensures Inv(Next(g, Enter(t, d, queue)))
  {
    assert Conserved(g, Whole);
    EnterMoves(g, t, d, queue);
    Settles(g, Next(g, Enter(t, d, queue)), t, Whole);
  }

  lemma EnterMoves(g: Gate, t: Task, d: string, queue: bool)
    requires t !in g.phases && CanAcquire(g, Whole, queue) && Conserved(g, Whole)
    ensures
      var h := if queue then Put(Join(g, Whole, t), t, QueuedWhole(d)) else Put(Take(g, Whole), t, GrantedWhole(d));
      MovesAt(g, h, t, Whole) && Conserved(h, Whole)
  {
    var h := if queue then Put(Join(g, Whole, t), t, QueuedWhole(d)) else Put(Take(g, Whole), t, GrantedWhole(d));
    OnlyPut(g, t, h.phases[t]);
    if queue {
      JoinedLine(g, h, t, Whole);
    } else {
      TookOne(g, h, t, Whole);
    }
  }

  lemma EnsuredKeeps(g: Gate, d: string)
    requires Inv(g)
    ensures Inv(Ensured(g, d)) && d in Ensured(g, d).perDomain && Ensured(g, d).phases == g.phases
  {
    var h := Ensured(g, d);
    if d !in g.perDomain {
      forall t | t in g.phases
        ensures TaskTied(h, t) && !Holds(g.phases[t], Slot(g.made)) && !Waits(g.phases[t], Slot(g.made))
      {
        assert TaskTied(g, t);
      }
      forall e | e in h.perDomain ensures EntryTied(h, e) {
        assert e != d ==> EntryTied(g, e);
      }
      forall e, e' | e in h.perDomain && e' in h.perDomain && h.perDomain[e] == h.perDomain[e'] ensures e == e' {
        assert e != d ==> EntryTied(g, e);
        assert e' != d ==> EntryTied(g, e');
      }
      assert Holders(h.phases, Slot(g.made)) == {};
      forall i | i in h.sems ensures Conserved(h, i) {
        assert i != Slot(g.made) ==> Conserved(g, i);
      }
    }
  }

  lemma SomeoneHolds(g: Gate, id: SemId)
    requires Inv(g) && id in g.sems && id.Slot? && g.domainLimit > 0 && CanAcquire(g, id, true)
    ensures Holders(g.phases, id) != {}
  {
    assert Conserved(g, id);
    if g.sems[id].value > 0 && g.sems[id].pending == [] {
      var t :| t in g.phases && g.phases[t].GrantedSlot? && g.phases[t].sem == id;
      assert t in Holders(g.phases, id);
    }
  }

  lemma AskedKeeps(g: Gate, t: Task, d: string, queue: bool)
    requires Inv(g) && t in g.phases && g.phases[t] == GrantedWhole(d) && d in g.perDomain
    requires CanAcquire(g, g.perDomain[d], queue)
    ensures Inv(Asked(g, t, d, queue))
  {
    var id := g.perDomain[d];
    assert EntryTied(g, d) && Conserved(g, id);
    if queue && g.domainLimit > 0 {
      SomeoneHolds(g, id);
    }
    AskedMoves(g, t, d, queue);
    Settles(g, Asked(g, t, d, queue), t, id);
  }

  lemma AskedMoves(g: Gate, t: Task, d: string, queue: bool)
    requires t in g.phases && g.phases[t] == GrantedWhole(d) && d in g.perDomain && CanAcquire(g, g.perDomain[d], queue)
    requires var id := g.perDomain[d];
      id.Slot? && Conserved(g, id) && (queue && g.domainLimit > 0 ==> Holders(g.phases, id) != {})
    ensures var h, id := Asked(g, t, d, queue), g.perDomain[d]; MovesAt(g, h, t, id) && Conserved(h, id)
  {
    var h, id := Asked(g, t, d, queue), g.perDomain[d];
    OnlyPut(g, t, h.phases[t]);
    if queue {
      JoinedLine(g, h, t, id);
    } else {
      TookOne(g, h, t, id);
    }
  }

  lemma PutKeeps(g: Gate, t: Task, p: Phase)
    requires Inv(g) && t in g.phases && Uses(g.phases[t]) && Uses(p) && !p.QueuedSlot? && !g.phases[t].QueuedSlot?
    requires p.domain == g.phases[t].domain && p.sem == g.phases[t].sem
    ensures Inv(Put(g, t, p))
  {
    var h := Put(g, t, p);
    OnlyPut(g, t, p);
    assert TaskTied(g, t);
    TiedAfter(g, h, t);
    forall i | i in h.sems ensures Conserved(h, i) {
      Unaffected(g, h, t, i);
    }
  }

  lemma LeaveSlotKeeps(g: Gate, t: Task, id: SemId)
    requires Inv(g) && t in g.phases && id in g.sems && id.Slot? && Holds(g.phases[t], id)
    ensures Inv(LeaveSlot(g, t, id))
    ensures t in LeaveSlot(g, t, id).phases && LeaveSlot(g, t, id).phases[t].GrantedWhole?
  {
    var p := GrantedWhole(g.phases[t].domain);
    var h := Put(Return(g, id), t, p);
    OnlyPut(g, t, p);
    TiedAfter(g, h, t);
    assert Conserved(g, id);
    FreedOne(g, h, t, id);
    OthersKept(g, h, t, id);
    HandedKeeps(h, id);
  }

  lemma LeaveWholeKeeps(g: Gate, t: Task)
    requires Inv(g) && t in g.phases && g.phases[t].GrantedWhole?
    ensures Inv(LeaveWhole(g, t))
  {
    var h := Gone(Return(g, Whole), t);
    OnlyPut(g, t, g.phases[t]);
    TiedAfter(g, h, t);
    assert Conserved(g, Whole);
    FreedOne(g, h, t, Whole);
    OthersKept(g, h, t, Whole);
    HandedKeeps(h, Whole);
  }

  lemma LeaveKeeps(g: Gate, t: Task)
    requires Inv(g) && t in g.phases && (g.phases[t].Filling? || g.phases[t].Inside?)
    ensures Tied(g) && Inv(Leave(g, t))
  {
    var d := g.phases[t].domain;
    assert TaskTied(g, t) && EntryTied(g, d);
    LeaveSlotKeeps(g, t, g.perDomain[d]);
    LeaveWholeKeeps(LeaveSlot(g, t, g.perDomain[d]), t);
  }

  lemma QuitWholeKeeps(g: Gate, t: Task)
    requires Inv(g) && t in g.phases && g.phases[t].QueuedWhole?
    ensures Inv(Gone(Quit(g, Whole, t), t))
  {
    var h := Gone(Quit(g, Whole, t), t);
    OnlyPut(g, t, g.phases[t]);
    assert Conserved(g, Whole);
    LeftLine(g, h, t, Whole);
    Settles(g, h, t, Whole);
  }

  lemma QuitSlotKeeps(g: Gate, t: Task, d: string, id: SemId)
    requires Inv(g) && t in g.phases && g.phases[t] == QueuedSlot(d, id) && id in g.sems && id.Slot?
    ensures Inv(Put(Quit(g, id, t), t, GrantedWhole(d)))
  {
    QuitSlotMoves(g, t, d, id);
    Settles(g, Put(Quit(g, id, t), t, GrantedWhole(d)), t, id);
  }

  lemma QuitSlotMoves(g: Gate, t: Task, d: string, id: SemId)
    requires t in g.phases && g.phases[t] == QueuedSlot(d, id) && id in g.sems && id.Slot? && Conserved(g, id)
    ensures var h := Put(Quit(g, id, t), t, GrantedWhole(d)); MovesAt(g, h, t, id) && Conserved(h, id)
  {
    var h := Put(Quit(g, id, t), t, GrantedWhole(d));
    OnlyPut(g, t, GrantedWhole(d));
    LeftLine(g, h, t, id);
  }

  lemma CancelKeeps(g: Gate, t: Task)
    requires Inv(g) && Enabled(g, Cancel(t))
    ensures Inv(Next(g, Cancel(t)))
  {
    var p := g.phases[t];
    assert TaskTied(g, t);
    match p
    case QueuedWhole(_) => QuitWholeKeeps(g, t);
    case QueuedSlot(d, id) =>
      QuitSlotKeeps(g, t, d, id);
      LeaveWholeKeeps(Put(Quit(g, id, t), t, GrantedWhole(d)), t);
    case GrantedSlot(d, id) =>
      assert EntryTied(g, d);
      LeaveSlotKeeps(g, t, id);
      LeaveWholeKeeps(LeaveSlot(g, t, id), t);
    case GrantedWhole(_) => LeaveWholeKeeps(g, t);
  }

  /** A semaphore is only forgotten when no task holds or awaits it. */
  lemma ForgetKeeps(g: Gate, d: string)
    requires Inv(g)
    ensures Inv(Forget(g, d))
  {
    var h := Forget(g, d);
    if d in g.perDomain && h != g {
      var id := g.perDomain[d];
      assert EntryTied(g, d) && Conserved(g, id);
      assert Holders(g.phases, id) == {};
      forall t | t in h.phases ensures TaskTied(h, t) {
        assert TaskTied(g, t);
        assert t !in Holders(g.phases, id);
      }
      forall e | e in h.perDomain ensures EntryTied(h, e) {
        assert EntryTied(g, e);
      }
      forall i | i in h.sems ensures Conserved(h, i) {
        assert Conserved(g, i);
      }
    }
  }

  lemma StepKeeps(g: Gate, s: Step)
    requires Inv(g) && Enabled(g, s)
    ensures Inv(Next(g, s))
  {
    match s
    case Enter(t, d, queue) => EnterKeeps(g, t, d, queue);
    case AskDomain(t, queue) =>
      EnsuredKeeps(g, g.phases[t].domain);
      AskedKeeps(Ensured(g, g.phases[t].domain), t, g.phases[t].domain, queue);
    case WakeNext(id) => WakeKeeps(g, id);
    case Resume(t) => PutKeeps(g, t, Filling(g.phases[t].domain, g.phases[t].sem));
    case Pass(t) => PutKeeps(g, t, Inside(g.phases[t].domain, g.phases[t].sem));
    case Cancel(t) => CancelKeeps(g, t);
    case Fail(t) => LeaveKeeps(g, t);
    case Exit(t) => LeaveKeeps(g, t);
    case ReleaseDomain(d) => ForgetKeeps(g, d);
  }

  // ---- whole runs -----------------------------------------------------------------------------------------

  /** `Next` is defined for a tied gate; `RunKeeps` proves that every gate of a run is tied. */
  ghost predicate StepAt(gs: seq<Gate>, ss: seq<Step>, i: nat)
    requires |gs| == |ss| + 1 && i < |ss|
  {
    Enabled(gs[i], ss[i]) && (Tied(gs[i]) ==> gs[i + 1] == Next(gs[i], ss[i]))
  }

  ghost predicate Run(gs: seq<Gate>, ss: seq<Step>, globalLimit: nat, domainLimit: nat) {
    && |gs| == |ss| + 1 && gs[0] == New(globalLimit, domainLimit)
    && forall i | 0 <= i < |ss| :: StepAt(gs, ss, i)
  }

  ghost predicate Begun(g: Gate, globalLimit: nat, domainLimit: nat) {
    Inv(g) && g.globalLimit == globalLimit && g.domainLimit == domainLimit
  }

  lemma LimitsStay(g: Gate, s: Step)
    requires Tied(g) && Enabled(g, s)
    ensures SameLimits(g, Next(g, s))
  {
  }

  lemma {:induction false} RunKeeps(gs: seq<Gate>, ss: seq<Step>, globalLimit: nat, domainLimit: nat, n: nat)
    requires Run(gs, ss, globalLimit, domainLimit) && n <= |ss|
    ensures Begun(gs[n], globalLimit, domainLimit)
  {
    if n == 0 {
      assert Holders(gs[0].phases, Whole) == {};
    } else {
      RunKeeps(gs, ss, globalLimit, domainLimit, n - 1);
      assert StepAt(gs, ss, n - 1);
      StepKeeps(gs[n - 1], ss[n - 1]);
      LimitsStay(gs[n - 1], ss[n - 1]);
    }
  }

  ghost function Users(g: Gate, d: string): set<Task> {
    set t | t in g.phases && g.phases[t].domain == d &&
      (g.phases[t].GrantedSlot? || g.phases[t].Filling? || g.phases[t].Inside?)
  }

  lemma UsersAreHolders(g: Gate, d: string)
    requires Inv(g)
    ensures d in g.perDomain ==> Users(g, d) == Holders(g.phases, g.perDomain[d])
    ensures d !in g.perDomain ==> Users(g, d) == {}
  {
    forall t | t in g.phases ensures TaskTied(g, t) {
    }
    if d in g.perDomain {
      assert EntryTied(g, d);
    }
  }

  /**
    * In every run, free and held permits add up to the limit, for the global semaphore and for each domain's;
    * a domain without a semaphore has no task in it. So no more than the limits are ever inside.
    */
  lemma PermitsConserved(gs: seq<Gate>, ss: seq<Step>, globalLimit: nat, domainLimit: nat, n: nat, d: string)
    requires Run(gs, ss, globalLimit, domainLimit) && n <= |ss|
    ensures Whole in gs[n].sems && gs[n].sems[Whole].value + |Holders(gs[n].phases, Whole)| == globalLimit
    ensures if d in gs[n].perDomain then
        gs[n].perDomain[d] in gs[n].sems && gs[n].sems[gs[n].perDomain[d]].value + |Users(gs[n], d)| == domainLimit
      else Users(gs[n], d) == {}
    ensures |Users(gs[n], d)| <= domainLimit
  {
    RunKeeps(gs, ss, globalLimit, domainLimit, n);
    UsersAreHolders(gs[n], d);
    assert Conserved(gs[n], Whole);
    if d in gs[n].perDomain {
      assert EntryTied(gs[n], d);
      assert Conserved(gs[n], gs[n].perDomain[d]);
    }
  }

  /** Whoever leaves gives back the very semaphore it took, and a permit is missing there: no release overfills. */
  lemma ReleaseNeverOverfills(gs: seq<Gate>, ss: seq<Step>, globalLimit: nat, domainLimit: nat, n: nat, t: Task)
    requires Run(gs, ss, globalLimit, domainLimit) && n <= |ss| && t in gs[n].phases
    ensures var g, p := gs[n], gs[n].phases[t];
      && (!p.QueuedWhole? ==> Whole in g.sems && g.sems[Whole].value < globalLimit)
      && (Uses(p) ==> p.sem in g.sems)
      && (Uses(p) && (domainLimit > 0 || !p.QueuedSlot?) ==> p.domain in g.perDomain && g.perDomain[p.domain] == p.sem)
      && (p.GrantedSlot? || p.Filling? || p.Inside? ==> g.sems[p.sem].value < domainLimit)
  {
    var g, p := gs[n], gs[n].phases[t];
    RunKeeps(gs, ss, globalLimit, domainLimit, n);
    assert TaskTied(g, t) && Conserved(g, Whole);
    assert !p.QueuedWhole? ==> t in Holders(g.phases, Whole);
    if Uses(p) {
      assert Conserved(g, p.sem);
      assert !p.QueuedSlot? ==> t in Holders(g.phases, p.sem);
    }
  }

  lemma SomeoneFirst(s: seq<Task>)
    ensures s != [] ==> exists t :: t in s
  {
    if s != [] {
      assert s[0] in s;
    }
  }

  /** When every task has left, by whatever way, every permit is back and every domain can be forgotten. */
  lemma EmptyGateIsWhole(gs: seq<Gate>, ss: seq<Step>, globalLimit: nat, domainLimit: nat, n: nat, d: string)
    requires Run(gs, ss, globalLimit, domainLimit) && n <= |ss| && gs[n].phases == map[]
    ensures Whole in gs[n].sems && gs[n].sems[Whole] == Sem(globalLimit, [])
    ensures d !in Forget(gs[n], d).perDomain
  {
    var g := gs[n];
    RunKeeps(gs, ss, globalLimit, domainLimit, n);
    assert Conserved(g, Whole);
    assert Holders(g.phases, Whole) == {};
    SomeoneFirst(g.sems[Whole].pending);
    if d in g.perDomain {
      assert EntryTied(g, d);
      assert Conserved(g, g.perDomain[d]);
      assert Holders(g.phases, g.perDomain[d]) == {};
    }
  }

  /** A free permit somebody waits for can be handed to the first in line, who then holds it. */
  lemma NobodyForgotten(gs: seq<Gate>, ss: seq<Step>, globalLimit: nat, domainLimit: nat, n: nat, t: Task, id: SemId)
    requires Run(gs, ss, globalLimit, domainLimit) && n <= |ss|
    requires id in gs[n].sems && gs[n].sems[id].value > 0 && t in gs[n].phases && Waits(gs[n].phases[t], id)
    ensures t in gs[n].sems[id].pending && Enabled(gs[n], WakeNext(id)) && Tied(gs[n])
    ensures var h := Next(gs[n], WakeNext(id));
      && gs[n].sems[id].pending[0] in Holders(h.phases, id)
      && h.sems[id] == Sem(gs[n].sems[id].value - 1, gs[n].sems[id].pending[1..])
  {
    RunKeeps(gs, ss, globalLimit, domainLimit, n);
    assert Conserved(gs[n], id);
    assert gs[n].sems[id].pending[0] in gs[n].sems[id].pending;
  }

  /** Nobody takes a free permit ahead of a task that waits for one. */
  lemma NobodyOvertakes(gs: seq<Gate>, ss: seq<Step>, globalLimit: nat, domainLimit: nat, n: nat, s: Step, u: Task)
    requires Run(gs, ss, globalLimit, domainLimit) && n <= |ss| && Enabled(gs[n], s) && u in gs[n].phases
    requires s.Enter? || s.AskDomain?
    ensures s.Enter? && !s.queue ==> !gs[n].phases[u].QueuedWhole?
    ensures s.AskDomain? && !s.queue && domainLimit > 0 && gs[n].phases[u].domain == gs[n].phases[s.t].domain ==>
      !gs[n].phases[u].QueuedSlot?
  {
    var g := gs[n];
    RunKeeps(gs, ss, globalLimit, domainLimit, n);
    assert Conserved(g, Whole) && TaskTied(g, u);
    if s.AskDomain? && !s.queue && g.phases[u].QueuedSlot? && domainLimit > 0 {
      assert Conserved(g, g.phases[u].sem);
    }
  }

  lemma SlotHandedOn(g: Gate, t: Task, id: SemId)
    requires Inv(g) && t in g.phases && id in g.sems && id.Slot? && Holds(g.phases[t], id) && g.sems[id].pending != []
    ensures var u, h := g.sems[id].pending[0], LeaveSlot(g, t, id);
      u != t && u in h.phases && h.phases[u].GrantedSlot? && h.phases[u].sem == id
  {
    assert Conserved(g, id);
    var u := g.sems[id].pending[0];
    assert u in g.sems[id].pending;
  }

  lemma LetInStays(g: Gate, t: Task, u: Task)
    requires Whole in g.sems && u != t && u in g.phases && g.phases[u].GrantedSlot?
    ensures u in LeaveWhole(g, t).phases && LeaveWhole(g, t).phases[u] == g.phases[u]
  {
  }

  /** Whoever leaves lets the first in line for its domain in. */
  lemma ExitLetsNextIn(gs: seq<Gate>, ss: seq<Step>, globalLimit: nat, domainLimit: nat, n: nat, t: Task)
    requires Run(gs, ss, globalLimit, domainLimit) && n < |ss| && ss[n] == Exit(t) && t in gs[n].phases
    requires Uses(gs[n].phases[t]) && gs[n].phases[t].sem in gs[n].sems
    requires gs[n].sems[gs[n].phases[t].sem].pending != []
    ensures var id := gs[n].phases[t].sem;
      var u := gs[n].sems[id].pending[0];
      u in gs[n + 1].phases && gs[n + 1].phases[u].GrantedSlot? && gs[n + 1].phases[u].sem == id
  {
    var g, id := gs[n], gs[n].phases[t].sem;
    RunKeeps(gs, ss, globalLimit, domainLimit, n);
    assert StepAt(gs, ss, n) && TaskTied(g, t);
    SlotHandedOn(g, t, id);
    LetInStays(LeaveSlot(g, t, id), t, g.sems[id].pending[0]);
    assert Next(g, Exit(t)) == Leave(g, t) == LeaveWhole(LeaveSlot(g, t, id), t);
  }

  /** A step that takes a task further through the gate, or lets one out. */
  predicate Advances(s: Step) {
    s.AskDomain? || s.WakeNext? || s.Resume? || s.Pass? || s.Exit?
  }

  lemma RunnerAdvances(g: Gate, t: Task) returns (s: Step)
    requires Inv(g) && t in g.phases && !g.phases[t].QueuedWhole? && !g.phases[t].QueuedSlot?
    ensures Enabled(g, s) && Advances(s)
  {
    match g.phases[t]
    case GrantedWhole(d) =>
      EnsuredKeeps(g, d);
      var e := Ensured(g, d);
      assert EntryTied(e, d);
      var m := e.sems[e.perDomain[d]];
      s := AskDomain(t, m.value == 0 || m.pending != []);
    case GrantedSlot(_, _) => s := Resume(t);
    case Filling(_, _) => s := Pass(t);
    case Inside(_, _) => s := Exit(t);
  }

  /** With any permits at all the gate never locks up: while a task is in it, one can go on. */
  lemma GateNeverStuck(gs: seq<Gate>, ss: seq<Step>, globalLimit: nat, domainLimit: nat, n: nat) returns (s: Step)
    requires Run(gs, ss, globalLimit, domainLimit) && n <= |ss| && gs[n].phases != map[]
    requires globalLimit > 0 && domainLimit > 0
    ensures Enabled(gs[n], s) && Advances(s)
  {
    var g := gs[n];
    RunKeeps(gs, ss, globalLimit, domainLimit, n);
    var t :| t in g.phases;
    if u :| u in g.phases && !g.phases[u].QueuedWhole? && !g.phases[u].QueuedSlot? {
      s := RunnerAdvances(g, u);
    } else if u :| u in g.phases && g.phases[u].QueuedSlot? {
      s := HolderAdvances(g, u);
    } else {
      assert Conserved(g, Whole) && Holders(g.phases, Whole) == {};
      NobodyForgotten(gs, ss, globalLimit, domainLimit, n, t, Whole);
      s := WakeNext(Whole);
    }
  }

  /** Whoever waits for a domain's permit waits for somebody who can go on. */
  lemma HolderAdvances(g: Gate, u: Task) returns (s: Step)
    requires Inv(g) && g.domainLimit > 0 && u in g.phases && g.phases[u].QueuedSlot?
    ensures Enabled(g, s) && Advances(s)
  {
    assert TaskTied(g, u);
    var id := g.phases[u].sem;
    assert Conserved(g, id);
    var h :| h in Holders(g.phases, id);
    s := RunnerAdvances(g, h);
  }

  // ---- waiting out an open breaker ------------------------------------------------------------------------

  const MAX_BREAKER_WAIT_S := 30.0

  /** What the breaker says to a check: pass, or come back in so many seconds. */
  datatype Answer = Open | Retry(seconds: real)

  function Nap(retry: real, random: real): real {
    (if retry < 0.5 then 0.5 else if retry > 5.0 then 5.0 else retry) * (1.0 + random * 0.5)
  }

  lemma NapBounds(retry: real, random: real)
    requires 0.0 <= random < 1.0
    ensures 0.5 <= Nap(retry, random) < 7.5
  {
    var base := if retry < 0.5 then 0.5 else if retry > 5.0 then 5.0 else retry;
    assert 0.0 <= base * (random * 0.5) < base * 0.5;
  }

  /** Time slept by the first n naps. */
  ghost function Slept(answers: nat -> Answer, random: nat -> real, n: nat): real {
    if n == 0 then 0.0
    else
      var nap := if answers(n - 1).Retry? then Nap(answers(n - 1).seconds, random(n - 1)) else 0.0;
      Slept(answers, random, n - 1) + nap
  }

  /**
    * The loop before the semaphores. It never waits more than 30 seconds nor naps more than 60 times, passes
    * on the first positive answer, and gives up only when the next nap would go over, after more than 22.5 seconds.
    */
  method AwaitBreaker(answers: nat -> Answer, random: nat -> real) returns (passed: bool, naps: nat, waited: real)
    requires forall i :: 0.0 <= random(i) < 1.0
    ensures waited == Slept(answers, random, naps) <= MAX_BREAKER_WAIT_S && naps <= 60
    ensures forall i: nat | i < naps :: answers(i).Retry?
    ensures passed <==> answers(naps).Open?
    ensures !passed ==> waited > 22.5 && waited + Nap(answers(naps).seconds, random(naps)) > MAX_BREAKER_WAIT_S
  {
    naps, waited := 0, 0.0;
    while true
      invariant waited == Slept(answers, random, naps) <= MAX_BREAKER_WAIT_S
      invariant 0.5 * naps as real <= waited
      invariant forall i: nat | i < naps :: answers(i).Retry?
      decreases 60 - naps
    {
      if answers(naps).Open? {
        return true, naps, waited;
      }
      var nap := Nap(answers(naps).seconds, random(naps));
      NapBounds(answers(naps).seconds, random(naps));
      if waited + nap > MAX_BREAKER_WAIT_S {
        return false, naps, waited;
      }
      waited, naps := waited + nap, naps + 1;
    }
  }
}
