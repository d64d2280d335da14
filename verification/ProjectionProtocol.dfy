/** Two projection slots, an activation pointer in another database, and a crash between any two commits. */
module ProjectionProtocol {
  import opened Options
  import opened CanonicalModel
  import opened EntityMerge
  import opened CoverageModel
  import opened CanonicalRun
  import opened ProjectionTables
  import opened ProjectionFrames
  import opened ProjectionBuild

  datatype IntentState = Pending | Activated | Replaced
  datatype Intent = Intent(state: IntentState, generation: Option<nat>, activatedView: Option<nat>)

  /** One committed slot: the account row and the slot's tables. */
  datatype Slot = Slot(generation: nat, projected: nat, read: nat, tables: Tables)

  /** What a catch-up decides from its canonical read snapshot. `start` is the slot whose tables the build
      begins from: its own, the active one (a clone), or none. */
  datatype Plan = Plan(target: nat, view: nat, slot: int, base: nat, start: Option<int>)
  datatype Decision = Nothing | Recover(slot: int) | Build(plan: Plan)

  /** Where the account's single catch-up stands; a crash loses it. */
  datatype Run = Idle | Decided(decision: Decision) | Intended(plan: Plan) | Committed(plan: Plan, generation: nat)

  /** `history` (content by revision), `nextGeneration` (fresh identifiers), `active` (the slot activated
      last) and `run` are model variables; the rest is stored. */
  datatype System = System(canon: Canon, work: seq<WorkRow>, view: nat, intents: map<nat, Intent>,
                           slots: map<int, Slot>,
                           history: seq<Content>, nextGeneration: nat, active: Option<int>, run: Run)
  {
    function Head(): int { |history| - 1 }
  }

  // ----- the decision of a catch-up -----

  /** MAX(canonical_revision) of the uncompleted work. */
  function LatestOpen(work: seq<WorkRow>): Option<nat> {
    if work == [] then None
    else
      var last := work[|work| - 1];
      var rest := LatestOpen(work[..|work| - 1]);
      if last.completed then rest
      else if rest.Some? && rest.value > last.revision then rest
      else Some(last.revision)
  }

  ghost predicate IsLatestPending(intents: map<nat, Intent>, t: nat) {
    t in intents && intents[t].state.Pending?
    && forall u :: u in intents && intents[u].state.Pending? ==> u <= t
  }

  ghost function LatestPending(intents: map<nat, Intent>): Option<nat> {
    if t :| IsLatestPending(intents, t) then Some(t) else None
  }

  /** The activated intent of the current view revision, the one with the greatest target. */
  ghost predicate IsAuthority(s: System, t: nat) {
    && t in s.intents && s.intents[t].state.Activated? && s.intents[t].activatedView == Some(s.view)
    && forall u :: u in s.intents && s.intents[u].state.Activated? && s.intents[u].activatedView == Some(s.view) ==> u <= t
  }

  ghost function AuthorityTarget(s: System): Option<nat> {
    if t :| IsAuthority(s, t) then Some(t) else None
  }

  ghost function ActiveGeneration(s: System): Option<nat> {
    var t := AuthorityTarget(s);
    if t.Some? then s.intents[t.value].generation else None
  }

  ghost predicate IsActiveSlot(s: System, i: int) {
    i in s.slots && ActiveGeneration(s) == Some(s.slots[i].generation) && s.slots[i].read == s.view
  }

  ghost function ActiveSlot(s: System): Option<int> {
    if IsActiveSlot(s, 0) then Some(0) else if IsActiveSlot(s, 1) then Some(1) else None
  }

  predicate Recoverable(s: System, i: int, target: nat) {
    i in s.slots && s.slots[i].projected >= target && s.slots[i].read >= s.view
  }

  /** The recoverable slot with the greatest (projected, read), the first one on a tie. */
  function BestRecoverable(s: System, target: nat): Option<int> {
    if Recoverable(s, 0, target) then
      if Recoverable(s, 1, target)
         && (s.slots[1].projected > s.slots[0].projected
             || (s.slots[1].projected == s.slots[0].projected && s.slots[1].read > s.slots[0].read))
      then Some(1) else Some(0)
    else if Recoverable(s, 1, target) then Some(1)
    else None
  }

  function MostAdvanced(s: System): int {
    if 0 in s.slots && (1 in s.slots ==> s.slots[1].projected <= s.slots[0].projected) then 0
    else if 1 in s.slots then 1 else 0
  }

  ghost function PlanBuild(s: System, target: nat): Plan {
    var active := ActiveSlot(s);
    var slot := if active.Some? then 1 - active.value else MostAdvanced(s);
    var start := if slot in s.slots then Some(slot) else active;
    Plan(target, s.view, slot,
         if start.Some? && start.value in s.slots then s.slots[start.value].projected else 0, start)
  }

  ghost function Decide(s: System): Decision {
    var target := LatestOpen(s.work);
    var recovery := if target.Some? then target else LatestPending(s.intents);
    var best := if recovery.Some? then BestRecoverable(s, recovery.value) else None;
    var active := ActiveSlot(s);
    if best.Some? && best.value in s.slots
       && (s.slots[best.value].read > s.view
           || (active.Some? && active.value in s.slots && s.slots[active.value].projected >= recovery.value))
    then Recover(best.value)
    else if target.None? then Nothing
    else Build(PlanBuild(s, target.value))
  }

  /** Work rows after the base revision, up to the target. */
  function WorkBetween(work: seq<WorkRow>, base: nat, target: nat): seq<WorkRow> {
    if work == [] then []
    else
      var rest := WorkBetween(work[..|work| - 1], base, target);
      var last := work[|work| - 1];
      if base < last.revision <= target then rest + [last] else rest
  }

  // ----- transactions -----

  /** A canonical commit. A change raises the revision and writes exactly one work row with it. */
  ghost function Ingest(s: System, op: CanonOp): System {
    var r := Attempt(s.canon, op);
    if r.Raised? then s
    else if r.changed && (op.Delta? || op.Snapshot?) then
      s.(canon := r.state,
         history := s.history + [View(r.state)],
         work := s.work + [WorkFor(op, s.Head() + 1)])
    else s.(canon := r.state)
  }

  ghost function Begin(s: System): System {
    if !s.run.Idle? || Decide(s).Nothing? then s else s.(run := Decided(Decide(s)))
  }

  function EnsureIntent(s: System): System {
    if s.run.Decided? && s.run.decision.Build? then
      var t := s.run.decision.plan.target;
      s.(intents := if t in s.intents then s.intents else s.intents[t := Intent(Pending, None, None)],
         run := Intended(s.run.decision.plan))
    else s
  }

  ghost function BuildTables(s: System, plan: Plan): Tables
    requires plan.target < |s.history|
  {
    Built(if plan.start.Some? && plan.start.value in s.slots then Some(s.slots[plan.start.value].tables) else None,
          s.history[plan.target], WorkBetween(s.work, plan.base, plan.target))
  }

  function StoreSlot(s: System, plan: Plan, tables: Tables): System {
    s.(slots := s.slots[plan.slot := Slot(s.nextGeneration, plan.target, plan.view + 1, tables)],
       nextGeneration := s.nextGeneration + 1,
       run := Committed(plan, s.nextGeneration))
  }

  /** One transaction of the projection database: the account row and the whole slot. */
  ghost function CommitProjection(s: System): System {
    if s.run.Intended? && s.run.plan.target < |s.history| then
      StoreSlot(s, s.run.plan, BuildTables(s, s.run.plan))
    else s
  }

  /** The canonical activation transaction; it raises, and changes nothing, if the view would regress. */
  function Activate(s: System, slot: int, target: nat, generation: nat, read: nat): System {
    if s.view > read then s.(run := Idle)
    else
      var replaced := map t | t in s.intents ::
                        if s.intents[t].state.Pending? && t < target then s.intents[t].(state := Replaced)
                        else s.intents[t];
      s.(view := read,
         work := seq(|s.work|, i requires 0 <= i < |s.work| =>
                   if s.work[i].revision <= target then s.work[i].(completed := true) else s.work[i]),
         intents := replaced[target := Intent(Activated, Some(generation), Some(read))],
         active := Some(slot),
         run := Idle)
  }

  function ActivateStep(s: System): System {
    match s.run
    case Decided(Recover(i)) =>
      if i in s.slots then Activate(s, i, s.slots[i].projected, s.slots[i].generation, s.slots[i].read) else s
    case Committed(plan, generation) => Activate(s, plan.slot, plan.target, generation, plan.view + 1)
    case _ => s
  }

  datatype Action = DoIngest(op: CanonOp) | DoBegin | DoEnsureIntent | DoCommitProjection | DoActivate | Crash

  ghost function Next(s: System, a: Action): System {
    match a
    case DoIngest(op) => Ingest(s, op)
    case DoBegin => Begin(s)
    case DoEnsureIntent => EnsureIntent(s)
    case DoCommitProjection => CommitProjection(s)
    case DoActivate => ActivateStep(s)
    case Crash => s.(run := Idle)
  }

  ghost function RunAll(s: System, actions: seq<Action>): System
    decreases actions
  {
    if actions == [] then s else RunAll(Next(s, actions[0]), actions[1..])
  }

  ghost const INITIAL: System :=
    System(EMPTY_ACCOUNT, [], 0, map[], map[], [View(EMPTY_ACCOUNT)], 0, None, Idle)

  // ----- readers -----

  datatype Authority = Authority(generation: nat, projected: nat, read: nat)

  /** First read of a reader, in the canonical database. */
  ghost function ReadAuthority(s: System): Option<Authority> {
    var t := AuthorityTarget(s);
    if t.None? || s.intents[t.value].generation.None? || s.intents[t.value].activatedView.None? then None
    else Some(Authority(s.intents[t.value].generation.value, t.value, s.intents[t.value].activatedView.value))
  }

  predicate Readable(s: System, i: int, a: Authority) {
    i in s.slots && s.slots[i].generation == a.generation
    && s.slots[i].projected == a.projected && s.slots[i].read == a.read
  }

  /** Second read, in the projection database: the slot of exactly the authorised generation. */
  function ReadSlot(s: System, a: Option<Authority>): Option<Slot> {
    if a.None? then None
    else if Readable(s, 0, a.value) then Some(s.slots[0])
    else if Readable(s, 1, a.value) then Some(s.slots[1])
    else None
  }

  // ----- invariant -----

  /** The revision up to which work is completed: what the active slot covers. */
  function Covered(s: System): nat {
    if s.active.Some? && s.active.value in s.slots then s.slots[s.active.value].projected else 0
  }

  /** A message that any revision showed is still on record with the content it had. */
  ghost predicate Remembered(h: seq<Content>, e: Entities) {
    forall i, m :: 0 <= i < |h| && m in h[i].messages ==> m in e.messages && e.messages[m].record == h[i].messages[m]
  }

  ghost predicate CanonicalPart(s: System) {
    && CanonInvariant(s.canon)
    && Framed(s.history, s.work)
    && View(s.canon) == s.history[s.Head()]
    && (forall i :: 0 <= i < |s.work| ==> (s.work[i].completed <==> i + 1 <= Covered(s)))
  }

  /** Every committed slot holds exactly the full projection of the revision it claims. */
  ghost predicate SlotsPart(s: System) {
    && s.slots.Keys <= {0, 1}
    && (forall i :: i in s.slots ==>
          && 1 <= s.slots[i].projected <= s.Head()
          && s.slots[i].generation < s.nextGeneration
          && s.slots[i].tables == Full(s.history[s.slots[i].projected]))
    && (0 in s.slots && 1 in s.slots ==> s.slots[0].generation != s.slots[1].generation)
  }

  ghost predicate ActivePart(s: System) {
    match s.active
    case None =>
      && s.view == 0 && 1 !in s.slots && (0 in s.slots ==> s.slots[0].read == 1)
      && (forall t :: t in s.intents ==> !s.intents[t].state.Activated?)
    case Some(a) =>
      && (a == 0 || a == 1) && a in s.slots && s.slots[a].read == s.view && s.view > 0
      && s.slots[a].projected in s.intents
      && s.intents[s.slots[a].projected] == Intent(Activated, Some(s.slots[a].generation), Some(s.view))
      && (forall t :: t in s.intents && s.intents[t].state.Activated? && t != s.slots[a].projected ==>
            s.intents[t].activatedView.Some? && s.intents[t].activatedView.value < s.view)
      && (1 - a in s.slots ==>
            s.slots[1 - a].read < s.view
            || (s.slots[1 - a].read == s.view + 1 && s.slots[1 - a].projected > s.slots[a].projected))
  }

  ghost predicate IntentsPart(s: System) {
    forall t :: t in s.intents ==> 1 <= t <= s.Head() && (s.intents[t].state.Pending? <==> t > Covered(s))
  }

  ghost predicate PlanPart(s: System, p: Plan) {
    && p.view == s.view && Covered(s) < p.target <= s.Head()
    && (p.slot == 0 || p.slot == 1) && s.active != Some(p.slot)
    && (s.active.None? ==> p.slot == 0)
    && p.base <= p.target
    && (match p.start
        case None => p.slot !in s.slots && p.base == 0
        case Some(f) => f in s.slots && p.base == s.slots[f].projected)
  }

  ghost predicate RunPart(s: System) {
    match s.run
    case Idle => true
    case Decided(Nothing) => false
    case Decided(Recover(i)) =>
      i in s.slots && s.active != Some(i) && s.slots[i].read == s.view + 1 && s.slots[i].projected > Covered(s)
    case Decided(Build(p)) => PlanPart(s, p)
    case Intended(p) => PlanPart(s, p) && p.target in s.intents
    case Committed(p, g) =>
      && p.slot in s.slots && s.active != Some(p.slot) && p.target > Covered(s) && p.view == s.view
      && s.slots[p.slot].projected == p.target && s.slots[p.slot].generation == g
      && s.slots[p.slot].read == s.view + 1
  }

  ghost predicate Inv(s: System) {
    && CanonicalPart(s) && Remembered(s.history, s.canon.entities)
    && SlotsPart(s) && ActivePart(s) && IntentsPart(s) && RunPart(s)
  }

  // ----- proof -----

  lemma InitiallyInv()
    ensures Inv(INITIAL)
  {
  }

  lemma AuthorityIsActive(s: System)
    requires ActivePart(s)
    ensures s.active.None? ==> ActiveSlot(s) == None && ReadAuthority(s) == None
    ensures s.active.Some? ==>
              var row := s.slots[s.active.value];
              && ReadAuthority(s) == Some(Authority(row.generation, row.projected, s.view))
              && ActiveGeneration(s) == Some(row.generation)
  {
    if s.active.Some? {
      assert IsAuthority(s, s.slots[s.active.value].projected);
    }
  }

  lemma ActiveSlotIsActive(s: System)
    requires ActivePart(s) && SlotsPart(s)
    ensures ActiveSlot(s) == s.active
  {
    AuthorityIsActive(s);
  }

  lemma {:induction false} LatestOpenIsHead(work: seq<WorkRow>, covered: nat)
    requires forall i :: 0 <= i < |work| ==> work[i].revision == i + 1 && (work[i].completed <==> i + 1 <= covered)
    ensures LatestOpen(work) == if covered < |work| then Some(|work|) else None
  {
    if work != [] {
      LatestOpenIsHead(work[..|work| - 1], covered);
    }
  }

  lemma {:induction false} WorkBetweenIsSlice(work: seq<WorkRow>, base: nat, target: nat)
    requires forall i :: 0 <= i < |work| ==> work[i].revision == i + 1
    requires base <= target <= |work|
    ensures WorkBetween(work, base, target) == work[base..target]
    decreases |work|
  {
    if work != [] {
      var n := |work| - 1;
      if target <= n {
        WorkBetweenIsSlice(work[..n], base, target);
        assert work[..n][base..target] == work[base..target];
      } else if base <= n {
        WorkBetweenIsSlice(work[..n], base, n);
        NothingBeyond(work[..n], base, target);
        assert work[base..target] == work[..n][base..n] + [work[n]];
      } else {
        NothingBetween(work, base, target);
      }
    }
  }

  lemma {:induction false} NothingBeyond(work: seq<WorkRow>, base: nat, target: nat)
    requires forall i :: 0 <= i < |work| ==> work[i].revision == i + 1
    requires |work| <= target
    ensures WorkBetween(work, base, target) == WorkBetween(work, base, |work|)
  {
    SameBetween(work, base, target, |work|);
  }

  lemma {:induction false} SameBetween(work: seq<WorkRow>, base: nat, t: nat, u: nat)
    requires forall i :: 0 <= i < |work| ==> work[i].revision <= t && work[i].revision <= u
    ensures WorkBetween(work, base, t) == WorkBetween(work, base, u)
  {
    if work != [] {
      SameBetween(work[..|work| - 1], base, t, u);
    }
  }

  lemma {:induction false} NothingBetween(work: seq<WorkRow>, base: nat, target: nat)
    requires forall i :: 0 <= i < |work| ==> work[i].revision <= base
    ensures WorkBetween(work, base, target) == []
  {
    if work != [] {
      NothingBetween(work[..|work| - 1], base, target);
    }
  }

  /** No uncompleted work: nothing is open, and nothing can be pending. */
  lemma NothingOpen(s: System)
    requires CanonicalPart(s) && IntentsPart(s) && Covered(s) >= s.Head()
    ensures LatestOpen(s.work) == None && LatestPending(s.intents) == None
  {
    LatestOpenIsHead(s.work, Covered(s));
    forall t ensures !IsLatestPending(s.intents, t) {
    }
  }

  lemma SomethingOpen(s: System)
    requires CanonicalPart(s) && Covered(s) < s.Head()
    ensures LatestOpen(s.work) == Some(s.Head())
  {
    LatestOpenIsHead(s.work, Covered(s));
  }

  lemma BestIsCommitted(s: System)
    requires SlotsPart(s) && ActivePart(s) && Covered(s) < s.Head()
    ensures match BestRecoverable(s, s.Head())
            case None => true
            case Some(i) => i in s.slots && s.active != Some(i) && s.slots[i].read == s.view + 1
                            && s.slots[i].projected == s.Head()
  {
  }

  lemma PlanIsSound(s: System)
    requires SlotsPart(s) && ActivePart(s) && ActiveSlot(s) == s.active && Covered(s) < s.Head()
    ensures PlanPart(s, PlanBuild(s, s.Head()))
  {
  }

  lemma DecideIsSound(s: System)
    requires CanonicalPart(s) && SlotsPart(s) && ActivePart(s) && IntentsPart(s)
    ensures match Decide(s)
            case Nothing => Covered(s) == s.Head()
            case Recover(i) => i in s.slots && s.active != Some(i) && s.slots[i].read == s.view + 1
                               && s.slots[i].projected == s.Head() && s.Head() > Covered(s)
            case Build(p) => PlanPart(s, p) && p.target == s.Head() && s.Head() > Covered(s)
  {
    CoveredBelowHead(s);
    if Covered(s) == s.Head() {
      NothingOpen(s);
      DecideWhenCovered(s);
    } else {
      SomethingOpen(s);
      DecideWhenOpen(s);
    }
  }

  lemma DecideWhenCovered(s: System)
    requires LatestOpen(s.work) == None && LatestPending(s.intents) == None
    ensures Decide(s) == Nothing
  {
  }

  lemma DecideWhenOpen(s: System)
    requires SlotsPart(s) && ActivePart(s) && Covered(s) < s.Head() && LatestOpen(s.work) == Some(s.Head())
    ensures match Decide(s)
            case Nothing => false
            case Recover(i) => i in s.slots && s.active != Some(i) && s.slots[i].read == s.view + 1
                               && s.slots[i].projected == s.Head()
            case Build(p) => PlanPart(s, p) && p.target == s.Head()
  {
    ActiveSlotIsActive(s);
    BestIsCommitted(s);
    PlanIsSound(s);
  }

  /** Only canonical data was added. */
  ghost predicate Grown(s: System, s': System) {
    && |s'.history| >= |s.history| > 0 && s'.history[..|s.history|] == s.history
    && s' == s.(canon := s'.canon, history := s'.history, work := s'.work)
  }

  lemma GrowKeepsSlots(s: System, s': System)
    requires SlotsPart(s) && Grown(s, s')
    ensures SlotsPart(s') && Covered(s') == Covered(s)
  {
  }

  lemma GrowKeepsActive(s: System, s': System)
    requires ActivePart(s) && IntentsPart(s) && Grown(s, s')
    ensures ActivePart(s') && IntentsPart(s')
  {
    assert Covered(s') == Covered(s);
  }

  lemma GrowKeepsPlan(s: System, s': System, p: Plan)
    requires PlanPart(s, p) && Grown(s, s')
    ensures PlanPart(s', p)
  {
    assert Covered(s') == Covered(s);
  }

  lemma GrowKeepsRun(s: System, s': System)
    requires RunPart(s) && Grown(s, s')
    ensures RunPart(s')
  {
    assert Covered(s') == Covered(s);
    match s.run
    case Decided(Build(p)) => GrowKeepsPlan(s, s', p);
    case Intended(p) => GrowKeepsPlan(s, s', p);
    case _ =>
  }

  lemma CoveredBelowHead(s: System)
    requires SlotsPart(s) && s.Head() >= 0
    ensures Covered(s) <= s.Head()
  {
  }

  lemma RememberedOnward(h: seq<Content>, c: Canon, c': Canon)
    requires Remembered(h, c.entities) && Permanent(c.entities, c'.entities)
    ensures Remembered(h, c'.entities) && Remembered(h + [View(c')], c'.entities)
  {
  }

  lemma IngestRemembers(s: System, op: CanonOp)
    requires CanonInvariant(s.canon) && Remembered(s.history, s.canon.entities)
    ensures Remembered(Ingest(s, op).history, Ingest(s, op).canon.entities)
  {
    if Attempt(s.canon, op).Done? {
      OpStep(s.canon, op);
      RememberedOnward(s.history, s.canon, Attempt(s.canon, op).state);
    }
  }

  lemma NewRevisionKeepsCanonical(s: System, c: Canon, row: WorkRow)
    requires CanonicalPart(s) && Covered(s) <= s.Head() && CanonInvariant(c) && ContentInvariant(View(c))
    requires row.revision == |s.work| + 1 && Names(row, s.history[s.Head()], View(c)) && !row.completed
    ensures CanonicalPart(s.(canon := c, history := s.history + [View(c)], work := s.work + [row]))
  {
  }

  lemma SameViewKeepsCanonical(s: System, c: Canon)
    requires CanonicalPart(s) && CanonInvariant(c) && View(c) == View(s.canon)
    ensures CanonicalPart(s.(canon := c))
  {
  }

  lemma IngestCanonical(s: System, op: CanonOp)
    requires CanonicalPart(s) && Covered(s) <= s.Head()
    ensures CanonicalPart(Ingest(s, op))
  {
    var r := Attempt(s.canon, op);
    if r.Done? {
      OpStep(s.canon, op);
      if op.Delta? || op.Snapshot? {
        CommitIsNamed(s.canon, op, s.Head() + 1);
        if r.changed {
          NewRevisionKeepsCanonical(s, r.state, WorkFor(op, s.Head() + 1));
        } else {
          SameViewKeepsCanonical(s, r.state);
        }
      } else {
        SameViewKeepsCanonical(s, r.state);
      }
    }
  }

  lemma IngestOnlyGrows(s: System, op: CanonOp)
    requires |s.history| > 0
    ensures Grown(s, Ingest(s, op))
  {
  }

  lemma IngestKeepsInv(s: System, op: CanonOp)
    requires Inv(s)
    ensures Inv(Ingest(s, op))
  {
    CoveredBelowHead(s);
    IngestCanonical(s, op);
    IngestRemembers(s, op);
    IngestOnlyGrows(s, op);
    GrowKeepsSlots(s, Ingest(s, op));
    GrowKeepsActive(s, Ingest(s, op));
    GrowKeepsRun(s, Ingest(s, op));
  }

  lemma BuildIsFull(s: System, p: Plan)
    requires Framed(s.history, s.work) && SlotsPart(s) && PlanPart(s, p)
    ensures BuildTables(s, p) == Full(s.history[p.target])
  {
    WorkBetweenIsSlice(s.work, p.base, p.target);
    var start := if p.start.Some? then Some(s.slots[p.start.value].tables) else None;
    BuildIsExact(s.history, s.work, p.base, p.target, start);
  }

  lemma StoreKeepsSlots(s: System, p: Plan, tables: Tables)
    requires SlotsPart(s) && PlanPart(s, p) && tables == Full(s.history[p.target])
    ensures SlotsPart(StoreSlot(s, p, tables))
  {
    var s' := StoreSlot(s, p, tables);
    forall i | i in s'.slots
      ensures 1 <= s'.slots[i].projected <= s'.Head() && s'.slots[i].generation < s'.nextGeneration
              && s'.slots[i].tables == Full(s'.history[s'.slots[i].projected])
    {
      assert i == p.slot || (i in s.slots && s'.slots[i] == s.slots[i]);
    }
  }

  lemma StoreLeavesCovered(s: System, p: Plan, tables: Tables)
    requires PlanPart(s, p)
    ensures Covered(StoreSlot(s, p, tables)) == Covered(s)
  {
  }

  lemma StoreKeepsActive(s: System, p: Plan, tables: Tables)
    requires ActivePart(s) && PlanPart(s, p)
    ensures ActivePart(StoreSlot(s, p, tables))
  {
  }

  lemma StoreKeepsRest(s: System, p: Plan, tables: Tables)
    requires IntentsPart(s) && PlanPart(s, p)
    ensures IntentsPart(StoreSlot(s, p, tables)) && RunPart(StoreSlot(s, p, tables))
  {
    StoreLeavesCovered(s, p, tables);
  }

  lemma SameCanonical(s: System, s': System)
    requires CanonicalPart(s) && s'.canon == s.canon && s'.history == s.history && s'.work == s.work
    requires Covered(s') == Covered(s)
    ensures CanonicalPart(s')
  {
  }

  /** The rows a build starts from never collide with the messages it inserts. */
  lemma StartIsAligned(s: System, p: Plan)
    requires Remembered(s.history, s.canon.entities) && SlotsPart(s) && PlanPart(s, p)
    ensures p.start.Some? ==> Aligned(s.slots[p.start.value].tables, s.history[p.target])
  {
    if p.start.Some? {
      FullIsAligned(s.history, s.canon.entities, s.slots[p.start.value].projected, p.target);
    }
  }

  lemma FullIsAligned(h: seq<Content>, e: Entities, i: nat, j: nat)
    requires Remembered(h, e) && i < |h| && j < |h|
    ensures Aligned(Full(h[i]), h[j])
  {
    var (b, c) := (h[i], h[j]);
    forall m | m in b.messages && m in c.messages
      ensures b.messages[m].chat == c.messages[m].chat
    {
      assert e.messages[m].record == h[i].messages[m];
      assert e.messages[m].record == h[j].messages[m];
    }
    forall m | m in AllMessages(b) ensures AllMessages(b)[m].conversation == b.messages[m].chat {
      assert AllMessages(b)[m] == TextRow(b.messages[m]);
    }
    forall m | m in AllAnalyses(b) ensures AllAnalyses(b)[m].conversation == b.messages[m].chat {
      assert AllAnalyses(b)[m] == AnalysisRow(b.messages[m]);
    }
  }

  lemma StoreKeepsInv(s: System, p: Plan)
    requires Inv(s) && PlanPart(s, p)
    ensures Inv(StoreSlot(s, p, BuildTables(s, p)))
  {
    var tables := BuildTables(s, p);
    BuildIsFull(s, p);
    StoreLeavesCovered(s, p, tables);
    SameCanonical(s, StoreSlot(s, p, tables));
    StoreKeepsSlots(s, p, tables);
    StoreKeepsActive(s, p, tables);
    StoreKeepsRest(s, p, tables);
  }

  lemma CommitKeepsInv(s: System)
    requires Inv(s)
    ensures Inv(CommitProjection(s))
  {
    if s.run.Intended? {
      StoreKeepsInv(s, s.run.plan);
    }
  }

  /** A slot that has been committed with the next view revision but is not active yet. */
  ghost predicate Waiting(s: System, i: int) {
    i in s.slots && s.active != Some(i) && s.slots[i].read == s.view + 1 && s.slots[i].projected > Covered(s)
  }

  function Switched(s: System, i: int): System
    requires i in s.slots
  {
    Activate(s, i, s.slots[i].projected, s.slots[i].generation, s.slots[i].read)
  }

  lemma ActivateMovesOn(s: System, i: int)
    requires SlotsPart(s) && Waiting(s, i)
    ensures SlotsPart(Switched(s, i)) && Covered(Switched(s, i)) == s.slots[i].projected
    ensures Switched(s, i).view == s.view + 1 && Switched(s, i).run == Idle
  {
  }

  lemma ActivateIntents(s: System, i: int)
    requires SlotsPart(s) && IntentsPart(s) && Waiting(s, i)
    ensures IntentsPart(Switched(s, i))
  {
    ActivateMovesOn(s, i);
  }

  /** Every intent was activated at the current view or before. */
  ghost predicate ViewsBehind(intents: map<nat, Intent>, view: nat) {
    forall t :: t in intents && intents[t].state.Activated? ==>
      intents[t].activatedView.Some? && intents[t].activatedView.value <= view
  }

  lemma ActiveIsNewest(s: System, i: int)
    requires SlotsPart(s) && ActivePart(s) && Waiting(s, i)
    ensures ViewsBehind(s.intents, s.view) && (i == 0 || i == 1)
    ensures 1 - i in s.slots ==> s.slots[1 - i].read <= s.view
  {
    assert i in {0, 1};
    match s.active
    case None =>
    case Some(a) => assert i == 1 - a;
  }

  lemma ActivateActive(s: System, i: int)
    requires SlotsPart(s) && ActivePart(s) && Waiting(s, i)
    ensures ActivePart(Switched(s, i))
  {
    ActiveIsNewest(s, i);
    NewestIsActive(s, i);
  }

  lemma NewestIsActive(s: System, i: int)
    requires Waiting(s, i) && ViewsBehind(s.intents, s.view) && (i == 0 || i == 1)
    requires 1 - i in s.slots ==> s.slots[1 - i].read <= s.view
    ensures ActivePart(Switched(s, i))
  {
  }

  lemma ActivateCanonical(s: System, i: int)
    requires CanonicalPart(s) && Waiting(s, i)
    ensures CanonicalPart(Switched(s, i))
  {
  }

  lemma WaitingKeepsInv(s: System, i: int)
    requires Inv(s) && Waiting(s, i)
    ensures Inv(Switched(s, i))
  {
    ActivateMovesOn(s, i);
    ActivateIntents(s, i);
    ActivateActive(s, i);
    ActivateCanonical(s, i);
  }

  /** What is activated has been committed and waits for it. */
  lemma ActivateIsOfWaiting(s: System)
    requires RunPart(s)
    ensures ActivateStep(s) == s || exists i :: Waiting(s, i) && ActivateStep(s) == Switched(s, i)
  {
    match s.run
    case Committed(p, g) => assert Waiting(s, p.slot) && ActivateStep(s) == Switched(s, p.slot);
    case Decided(Recover(i)) => assert Waiting(s, i) && ActivateStep(s) == Switched(s, i);
    case _ =>
  }

  lemma ActivateKeepsInv(s: System)
    requires Inv(s)
    ensures Inv(ActivateStep(s))
  {
    ActivateIsOfWaiting(s);
    if i :| Waiting(s, i) && ActivateStep(s) == Switched(s, i) {
      WaitingKeepsInv(s, i);
    }
  }

  lemma EnsureIntentKeepsRest(s: System)
    requires ActivePart(s) && IntentsPart(s) && RunPart(s)
    ensures var s' := EnsureIntent(s);
            ActivePart(s') && IntentsPart(s') && RunPart(s')
  {
  }

  lemma EnsureIntentLeaves(s: System)
    requires CanonicalPart(s) && SlotsPart(s)
    ensures CanonicalPart(EnsureIntent(s)) && SlotsPart(EnsureIntent(s))
  {
    SameCanonical(s, EnsureIntent(s));
  }

  lemma EnsureIntentKeepsInv(s: System)
    requires Inv(s)
    ensures Inv(EnsureIntent(s))
  {
    EnsureIntentLeaves(s);
    EnsureIntentKeepsRest(s);
  }

  lemma RunLeavesCanonical(s: System, r: Run)
    requires CanonicalPart(s)
    ensures CanonicalPart(s.(run := r))
  {
  }

  lemma RunLeavesIntents(s: System, r: Run)
    requires IntentsPart(s)
    ensures IntentsPart(s.(run := r))
  {
    assert Covered(s.(run := r)) == Covered(s);
  }

  lemma RunLeavesActive(s: System, r: Run)
    requires ActivePart(s)
    ensures ActivePart(s.(run := r))
  {
  }

  lemma RunLeavesSlots(s: System, r: Run)
    requires SlotsPart(s)
    ensures SlotsPart(s.(run := r))
  {
  }

  lemma OnlyRunChanges(s: System, r: Run)
    requires CanonicalPart(s) && SlotsPart(s) && ActivePart(s) && IntentsPart(s)
    ensures CanonicalPart(s.(run := r)) && SlotsPart(s.(run := r)) && ActivePart(s.(run := r)) && IntentsPart(s.(run := r))
  {
    RunLeavesCanonical(s, r);
    RunLeavesIntents(s, r);
    RunLeavesActive(s, r);
    RunLeavesSlots(s, r);
  }

  lemma CrashKeepsInv(s: System)
    requires Inv(s)
    ensures Inv(s.(run := Idle))
  {
    OnlyRunChanges(s, Idle);
  }

  lemma BeginKeepsInv(s: System)
    requires Inv(s)
    ensures Inv(Begin(s))
  {
    if s.run.Idle? {
      DecideIsSound(s);
      OnlyRunChanges(s, Decided(Decide(s)));
    }
  }

  lemma NextKeepsInv(s: System, a: Action)
    requires Inv(s)
    ensures Inv(Next(s, a))
  {
    match a
    case DoIngest(op) => IngestKeepsInv(s, op);
    case DoBegin => BeginKeepsInv(s);
    case DoEnsureIntent => EnsureIntentKeepsInv(s);
    case DoCommitProjection => CommitKeepsInv(s);
    case DoActivate => ActivateKeepsInv(s);
    case Crash => CrashKeepsInv(s);
  }
}
