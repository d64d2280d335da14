/** Publishing analytics generations: compare-and-swap over the graph repository, fenced by publication epochs. */
module Publication {
  import opened Options
  import opened Graph
  import opened GraphGenerations
  import G = GraphGenerations

  type Account = int
  type Epoch = int

  /** The canonical state an analysis was made from. */
  datatype Identity = Identity(revision: nat, content: int)

  /** Content digests are injective, so a digest is modelled as the content it covers. */
  datatype Digest = Digest(nodes: set<(NodeId, Node)>, edges: set<(EdgeId, Edge)>)

  datatype Projection = Projection(account: Account, revision: nat, content: int, number: int, pipeline: int, config: int,
                                   graph: Digest, body: int)

  datatype Artifact = Artifact(projection: Projection, nodes: seq<(NodeId, Node)>, edges: seq<(EdgeId, Edge)>)

  /** How far the activation ledger has come with a generation. */
  datatype Intent = NoIntent | Reserved | Completed

  /** A generation that waits to be published, was published, or is done with. */
  datatype Candidate = Candidate(artifact: Artifact, identity: Identity, epoch: Epoch, expected: Option<GenerationId>,
                                 owner: Owner, account: Account, capability: int, ordinal: nat, status: Status, intent: Intent)

  datatype EpochState = EpochState(scheduler: int, capability: int, open: bool)

  const DIRECT: EpochState := EpochState(0, 0, true)

  /** One successful publication, as it is remembered by the history variable `log`. */
  datatype Activation = Activation(generation: GenerationId, expected: Option<GenerationId>, epoch: Epoch, projection: Projection)

  datatype Store = Store(repo: Repo, candidates: map<GenerationId, Candidate>, active: map<Account, GenerationId>,
                         epochs: map<Epoch, EpochState>, fenced: set<Epoch>, ordinal: nat, authority: map<Account, Identity>,
                         log: map<Account, seq<Activation>>)

  datatype StoreError = ArtifactInvalid | AccountInvalid | CanonicalChanged | RevisionBackwards | IdentityUnchanged
                      | NumberNotAdvanced | EpochUnavailable | EpochRevoked | CandidateMissing | AccountMismatched
                      | CandidateUnavailable | PointerChanged | CandidateActive | LedgerFailed | GraphRefused(error: Error)

  datatype Reply = Ok | NoChange | Refused(error: StoreError)
  datatype Outcome = Outcome(store: Store, reply: Reply)

  // ----- what the outside contributes to a call -----

  /** Without an identity reader the store is its own authority; with one, this is what it answered. */
  datatype Reading = Direct | Observed(identity: Option<Identity>)

  datatype StageWorld = StageWorld(id: GenerationId, owner: Owner, lease: int, freshEpoch: Epoch, registered: bool,
                                   reading: Reading, begin: int, replace: Clock, validate: Clock, discard: int)

  datatype PublishWorld = PublishWorld(enter: int, before: Reading, reserved: bool, completed: bool, epochOpen: bool,
                                       after: Reading, again: int, last: Reading, swap: int, reconciled: bool, discard: int)

  // ----- checks -----

  function RequireAuthority(s: Store, account: Account, expected: Identity, reading: Reading): Option<Store> {
    match reading
    case Direct =>
      if account in s.authority && expected.revision < s.authority[account].revision then None
      else Some(s.(authority := s.authority[account := expected]))
    case Observed(identity) => if identity == Some(expected) then Some(s) else None
  }

  function RecordsDigest(nodes: seq<(NodeId, Node)>, edges: seq<(EdgeId, Edge)>): Digest {
    Digest(set i | 0 <= i < |nodes| :: nodes[i], set i | 0 <= i < |edges| :: edges[i])
  }

  function GenerationDigest(g: Generation): Digest {
    Digest(set n | n in g.nodes :: (n, g.nodes[n]), set e | e in g.edges :: (e, g.edges[e]))
  }

  predicate ArtifactOk(a: Artifact, identity: Identity) {
    && a.projection.revision == identity.revision && a.projection.content == identity.content
    && a.projection.graph == RecordsDigest(a.nodes, a.edges)
    && (forall i :: 0 <= i < |a.nodes| ==> a.nodes[i].1.partition == a.projection.account)
    && (forall i :: 0 <= i < |a.edges| ==>
          && a.edges[i].1.partition == a.projection.account
          && (exists j :: 0 <= j < |a.nodes| && a.nodes[j].0 == a.edges[i].1.source)
          && (exists j :: 0 <= j < |a.nodes| && a.nodes[j].0 == a.edges[i].1.target))
  }

  function Current(s: Store, account: Account): Option<Candidate> {
    if account in s.active && s.active[account] in s.candidates then Some(s.candidates[s.active[account]]) else None
  }

  /** What keeps a projection from replacing the current one. */
  function ReplacementError(p: Projection, current: Option<Candidate>): Option<StoreError> {
    if current.None? then None
    else
      var existing := current.value.artifact.projection;
      if p.revision < existing.revision then Some(RevisionBackwards)
      else if p == existing then None
      else if p.revision == existing.revision && p.pipeline == existing.pipeline && p.config == existing.config then
        Some(IdentityUnchanged)
      else if p.number <= existing.number then Some(NumberNotAdvanced)
      else None
  }

  function OwnerError(repo: Repo, id: GenerationId, owner: Owner, now: int): Option<Error> {
    if id !in repo.generations then Some(GenerationMissing)
    else
      var g := repo.generations[id];
      if g.status != Validated || g.owner != owner || g.leaseUntil <= now then Some(OwnershipLost) else None
  }

  // ----- staging -----

  /** What building a graph left behind: the repository, and why there is no validated generation, if so. */
  datatype Build = Build(repo: Repo, error: Option<StoreError>)

  /** A build that failed is given back to the repository, if its lease still allows it. */
  function Abandon(repo: Repo, w: StageWorld, keep: Retention, error: StoreError): Build {
    Build(G.Discard(repo, w.id, w.owner, w.discard, keep).repo, Some(error))
  }

  /** Validate the filled generation and compare its digest with the projection's. */
  function BuildFrozen(filled: Repo, a: Artifact, handle: Handle, w: StageWorld, keep: Retention): Build {
    var frozen := Validate(filled, handle, w.validate);
    if frozen.answer.Raised? then Abandon(frozen.repo, w, keep, GraphRefused(frozen.answer.error))
    else if w.id in frozen.repo.generations && GenerationDigest(frozen.repo.generations[w.id]) != a.projection.graph then
      Abandon(frozen.repo, w, keep, ArtifactInvalid)
    else Build(frozen.repo, None)
  }

  function BuildFilled(begun: Repo, a: Artifact, handle: Handle, w: StageWorld, keep: Retention): Build {
    var filled := Replace(begun, handle, a.nodes, a.edges, w.replace);
    if filled.answer.Raised? then Abandon(filled.repo, w, keep, GraphRefused(filled.answer.error))
    else BuildFrozen(filled.repo, a, handle, w, keep)
  }

  /** Begin a generation, fill it and validate it. */
  function BuildGraph(repo: Repo, a: Artifact, account: Account, revision: nat, w: StageWorld, keep: Retention): Build {
    var begun := Begin(repo, w.id, account, revision, w.owner, w.begin, w.lease);
    if begun.answer.Raised? then Build(begun.repo, Some(GraphRefused(begun.answer.error)))
    else BuildFilled(begun.repo, a, Handle(w.id, w.owner, w.lease, true), w, keep)
  }

  /** Record a successful build as a candidate that expects the pointer to stay where it is. */
  function EnterBuild(s: Store, build: Build, a: Artifact, identity: Identity, epoch: Epoch, w: StageWorld): Outcome
    requires epoch in s.epochs
  {
    if build.error.Some? then Outcome(s.(repo := build.repo), Refused(build.error.value))
    else
      var account := a.projection.account;
      var c := Candidate(a, identity, epoch, ActiveOf(s.repo, account), w.owner, account, s.epochs[epoch].capability,
                         s.ordinal + 1, Validated, NoIntent);
      Outcome(s.(repo := build.repo, ordinal := s.ordinal + 1, candidates := s.candidates[w.id := c]), Ok)
  }

  function StageBuild(s: Store, a: Artifact, identity: Identity, epoch: Epoch, w: StageWorld, keep: Retention): Outcome
    requires epoch in s.epochs
  {
    var expected := ActiveOf(s.repo, a.projection.account);
    if expected.Some? && expected.value !in s.repo.generations then Outcome(s, Refused(GraphRefused(GenerationMissing)))
    else EnterBuild(s, BuildGraph(s.repo, a, a.projection.account, identity.revision, w, keep), a, identity, epoch, w)
  }

  /** The part of staging that follows the authority check. */
  function StageAdmitted(s: Store, a: Artifact, identity: Identity, epoch: Option<Epoch>, w: StageWorld, keep: Retention): Outcome {
    var bad := ReplacementError(a.projection, Current(s, a.projection.account));
    if bad.Some? then Outcome(s, Refused(bad.value))
    else if epoch.None? && !w.registered then Outcome(s, Refused(LedgerFailed))
    else
      var s1 := if epoch.Some? then s else s.(epochs := s.epochs[w.freshEpoch := DIRECT]);
      var e := if epoch.Some? then epoch.value else w.freshEpoch;
      if e !in s1.epochs || !s1.epochs[e].open then Outcome(s1, Refused(EpochUnavailable))
      else StageBuild(s1, a, identity, e, w, keep)
  }

  function Stage(s: Store, a: Artifact, account: Account, identity: Identity, epoch: Option<Epoch>, w: StageWorld,
                 keep: Retention): Outcome
  {
    if !ArtifactOk(a, identity) then Outcome(s, Refused(ArtifactInvalid))
    else if a.projection.account != account then Outcome(s, Refused(AccountInvalid))
    else
      match RequireAuthority(s, account, identity, w.reading)
      case None => Outcome(s, Refused(CanonicalChanged))
      case Some(s1) => StageAdmitted(s1, a, identity, epoch, w, keep)
  }

  // ----- publishing -----

  function SetIntent(s: Store, id: GenerationId, intent: Intent): Store
    requires id in s.candidates
  {
    s.(candidates := s.candidates[id := s.candidates[id].(intent := intent)])
  }

  predicate EpochUsable(s: Store, epoch: Epoch, ledgerSaysOpen: bool) {
    epoch in s.epochs && s.epochs[epoch].open && epoch !in s.fenced && ledgerSaysOpen
  }

  function LogOf(s: Store, account: Account): seq<Activation> {
    if account in s.log then s.log[account] else []
  }

  function RetiredOrdinals(candidates: map<GenerationId, Candidate>, account: Account): set<int> {
    set id | id in candidates && candidates[id].account == account && candidates[id].status == Retired ::
      candidates[id].ordinal as int
  }

  /** Drop the candidates of an account that are retired and beyond the newest ones kept. */
  function CollectCandidates(candidates: map<GenerationId, Candidate>, account: Account, keep: Retention):
      map<GenerationId, Candidate>
  {
    var doomed := Band(RetiredOrdinals(candidates, account), keep);
    map id | id in candidates
             && !(candidates[id].account == account && candidates[id].status == Retired
                  && candidates[id].ordinal as int in doomed) :: candidates[id]
  }

  /** The pointer moves: the former candidate is retired, this one becomes active. */
  function Promote(s: Store, id: GenerationId, repo: Repo, keep: Retention): Store
    requires id in s.candidates
  {
    var c := s.candidates[id];
    var former := Current(s, c.account);
    var retired := if former.Some? then s.candidates[s.active[c.account] := former.value.(status := Retired)] else s.candidates;
    var promoted := retired[id := c.(status := Active)];
    s.(repo := repo, candidates := CollectCandidates(promoted, c.account, keep), active := s.active[c.account := id],
       log := s.log[c.account := LogOf(s, c.account) + [Activation(id, c.expected, c.epoch, c.artifact.projection)]])
  }

  /** The last check of authority, and the swap itself. */
  function SwapPointers(s: Store, id: GenerationId, identity: Identity, w: PublishWorld, keep: Retention): Outcome
    requires id in s.candidates
  {
    var c := s.candidates[id];
    match RequireAuthority(s, c.account, identity, w.last)
    case None => Outcome(s, Refused(CanonicalChanged))
    case Some(s1) =>
      var swapped := Activate(s1.repo, id, c.expected, Some(c.owner), w.swap, keep);
      if swapped.answer.Raised? then Outcome(s1.(repo := swapped.repo), Refused(GraphRefused(swapped.answer.error)))
      else Outcome(Promote(s1, id, swapped.repo, keep), Ok)
  }

  /** The guarded part of a publication: everything is checked once more, then the pointers are swapped. */
  function TryActivate(s: Store, id: GenerationId, identity: Identity, w: PublishWorld, keep: Retention): Outcome
    requires id in s.candidates
  {
    var c := s.candidates[id];
    if !EpochUsable(s, c.epoch, w.epochOpen) then Outcome(s, Refused(EpochRevoked))
    else
      match RequireAuthority(s, c.account, identity, w.after)
      case None => Outcome(s, Refused(CanonicalChanged))
      case Some(s1) =>
        var lost := OwnerError(s1.repo, id, c.owner, w.again);
        var bad := ReplacementError(c.artifact.projection, Current(s1, c.account));
        if lost.Some? then Outcome(s1, Refused(GraphRefused(lost.value)))
        else if ActiveOf(s1.repo, c.account) != c.expected then Outcome(s1, Refused(PointerChanged))
        else if bad.Some? then Outcome(s1, Refused(bad.value))
        else SwapPointers(s1, id, identity, w, keep)
  }

  /** A publication that failed after its ledger entry was completed retires its candidate. */
  function Withdraw(s: Store, id: GenerationId, w: PublishWorld, keep: Retention, error: StoreError): Outcome
    requires id in s.candidates
  {
    var c := s.candidates[id];
    var r := G.Discard(s.repo, id, c.owner, w.discard, keep);
    Outcome(s.(repo := r.repo, candidates := s.candidates[id := c.(status := Retired)]),
            Refused(if r.answer.Raised? then GraphRefused(r.answer.error)
                    else if !w.reconciled then LedgerFailed else error))
  }

  function PublishCompleted(s: Store, id: GenerationId, identity: Identity, w: PublishWorld, keep: Retention): Outcome
    requires id in s.candidates
  {
    var attempt := TryActivate(s, id, identity, w, keep);
    if attempt.reply.Refused? then
      assert attempt.store.candidates == s.candidates;
      Withdraw(attempt.store, id, w, keep, attempt.reply.error)
    else attempt
  }

  /** Reserve and complete the ledger entry; either may fail, and then the candidate stays where it is. */
  function PublishReserved(s: Store, id: GenerationId, identity: Identity, w: PublishWorld, keep: Retention): Outcome
    requires id in s.candidates
  {
    if !w.reserved then Outcome(s, Refused(LedgerFailed))
    else if !w.completed then Outcome(SetIntent(s, id, Reserved), Refused(LedgerFailed))
    else PublishCompleted(SetIntent(s, id, Completed), id, identity, w, keep)
  }

  function Publish(s: Store, id: GenerationId, account: Account, identity: Identity, w: PublishWorld, keep: Retention): Outcome {
    if id !in s.candidates then Outcome(s, Refused(CandidateMissing))
    else
      var c := s.candidates[id];
      if c.account != account then Outcome(s, Refused(AccountMismatched))
      else if c.status == Active then Outcome(s, NoChange)
      else if c.status != Validated then Outcome(s, Refused(CandidateUnavailable))
      else
        var lost := OwnerError(s.repo, id, c.owner, w.enter);
        if lost.Some? then Outcome(s, Refused(GraphRefused(lost.value)))
        else if c.identity != identity then Outcome(s, Refused(CanonicalChanged))
        else
          match RequireAuthority(s, account, identity, w.before)
          case None => Outcome(s, Refused(CanonicalChanged))
          case Some(s1) => PublishReserved(s1, id, identity, w, keep)
  }

  // ----- discarding and epochs -----

  function DiscardCandidate(s: Store, id: GenerationId, ledger: bool, now: int, keep: Retention): Outcome {
    if id !in s.candidates then Outcome(s, Refused(CandidateMissing))
    else
      var c := s.candidates[id];
      if c.status == Retired then Outcome(s, NoChange)
      else if c.status == Active then Outcome(s, Refused(CandidateActive))
      else if c.intent != NoIntent && !ledger then Outcome(s, Refused(LedgerFailed))
      else
        var r := G.Discard(s.repo, id, c.owner, now, keep);
        if r.answer.Raised? then Outcome(s, Refused(GraphRefused(r.answer.error)))
        else
          var retired := s.candidates[id := c.(status := Retired)];
          Outcome(s.(repo := r.repo, candidates := CollectCandidates(retired, c.account, keep)), Ok)
  }

  function OpenEpoch(s: Store, epoch: Epoch, scheduler: int, capability: int, registered: bool): Outcome {
    if !registered then Outcome(s, Refused(LedgerFailed))
    else Outcome(s.(epochs := s.epochs[epoch := EpochState(scheduler, capability, true)]), Ok)
  }

  function RevokeEpoch(s: Store, epoch: Epoch, scheduler: int, capability: int, ledger: bool): Outcome {
    if epoch !in s.epochs || s.epochs[epoch].scheduler != scheduler || s.epochs[epoch].capability != capability then
      Outcome(s, Refused(EpochUnavailable))
    else if !ledger then Outcome(s, Refused(LedgerFailed))
    else Outcome(s.(fenced := s.fenced + {epoch}, epochs := s.epochs[epoch := EpochState(scheduler, capability, false)]), Ok)
  }

  function Fence(s: Store, epoch: Epoch): Outcome { Outcome(s.(fenced := s.fenced + {epoch}), Ok) }

  /** The repository's own clean-up of a generation whose lease ran out. */
  function ReclaimExpired(s: Store, id: GenerationId, now: int, keep: Retention): Outcome {
    var r := G.Reclaim(s.repo, id, now, keep);
    Outcome(s.(repo := r.repo), if r.answer.Raised? then Refused(GraphRefused(r.answer.error)) else Ok)
  }

  // ----- reading -----

  /** What a reader gets: the active candidate, if the canonical state is still the one it was made from
      and the ledger's completed entry is its own. */
  function Visible(s: Store, account: Account, required: Option<Identity>, observed: Option<Identity>,
                   ledger: Option<Intent>): Option<Candidate>
  {
    var current := Current(s, account);
    var wanted := if required.Some? then required else observed;
    if current.None? || wanted.None? || observed != wanted || Some(current.value.identity) != wanted
       || current.value.intent == NoIntent || ledger.None? || ledger.value != Completed || ledger.value != current.value.intent
    then None
    else current
  }
}
