/**
  The invariant of the kernel. `MemoryOk` is about what the kernel holds in memory;
  `DiskOk` ties the store to it.
 */
module KernelInvariant {
  import opened Domain
  import opened Ledger
  import opened Broker
  import opened ActionLog
  import opened KernelState
  import opened ActionPath
  import opened Provenance

  type Handlers = map<AppId, set<CapName>>

  /** Handlers are bound for exactly the declared capabilities of installed apps. */
  predicate HandlersOk(registry: Registry, handlers: Handlers) {
    forall a | a in handlers :: a in registry && handlers[a] == registry[a].caps.Keys
  }

  /** The run is active and the acting app's, both apps are installed, the handler is bound, the grant covers. */
  predicate EntryOk(registry: Registry, handlers: Handlers, runs: RunIndex, grants: seq<Grant>, p: Pending) {
    && Active(runs, p.run) && runs[p.run].app == p.app
    && p.app in registry && p.slot.cap.provider in registry
    && Bound(handlers, p.slot.cap)
    && p.grant in grants && CoversFor(p.grant, p.app, p.slot)
  }

  type PendingTable = map<InvId, Pending>

  predicate PendingOk(registry: Registry, handlers: Handlers, runs: RunIndex, grants: seq<Grant>, pending: PendingTable) {
    forall id | id in pending :: EntryOk(registry, handlers, runs, grants, pending[id])
  }

  predicate EntryMatches(b: Book, id: InvId, p: Pending) {
    && id in b && b[id].run == p.run && b[id].key == p.Key()
    && (b[id].prompted ==> p.grant.condition == RequiresApproval)
    && if p.authorized || !b[id].prompted then b[id].phase == Executing else b[id].phase in {Requested, Granted}
  }

  /** A token that waits for approval knows whether there was a prompt, and no approval is recorded yet. */
  predicate TokenMatches(b: Book, id: InvId, t: Token) {
    id in b ==>
      && (t.Prepared? ==> t.prompted == b[id].prompted && b[id].phase != Granted)
      && (t.Answered? ==> t.decision.Some? == b[id].prompted && b[id].phase != Granted)
  }

  /** The ids in the book are those handed out so far. */
  ghost predicate Numbered(b: Book, nextInv: InvId) {
    forall id :: id in b <==> 1 <= id < nextInv
  }

  predicate TableMatches(b: Book, pending: PendingTable) {
    forall id | id in pending :: EntryMatches(b, id, pending[id])
  }

  ghost predicate OpenIsPending(b: Book, pending: PendingTable) {
    forall id | IsOpen(b, id) :: id in pending
  }

  predicate TokensMatch(b: Book, tokens: map<InvId, Token>, nextInv: InvId) {
    forall id | id in tokens :: 1 <= id < nextInv && TokenMatches(b, id, tokens[id])
  }

  /** The ledger's record of each invocation agrees with the table of pending ones. */
  ghost predicate BookMatches(b: Book, pending: PendingTable, tokens: map<InvId, Token>, nextInv: InvId, recovery: bool) {
    && 1 <= nextInv && Numbered(b, nextInv)
    && TableMatches(b, pending)
    && (!recovery ==> OpenIsPending(b, pending))
    && TokensMatch(b, tokens, nextInv)
  }

  ghost predicate BookOk(s: Kernel) {
    && Track(s.ledger.records, false).Some?
    && BookMatches(Track(s.ledger.records, false).value, s.pending, s.tokens, s.nextInv, s.recovery)
  }

  predicate StateOk(l: RunLedger, d: Durable, nextId: nat) {
    Sound(l) && Restorable(d) && Below(d, nextId)
  }

  ghost predicate MemoryOk(s: Kernel) {
    && StateOk(s.ledger, Projection(s), s.nextId)
    && HandlersOk(s.registry, s.handlers)
    && PendingOk(s.registry, s.handlers, s.ledger.runs, s.broker.grants, s.pending)
    && BookOk(s)
  }

  /** The store holds what memory shows, or recovery is required and it holds the last candidate. */
  predicate DiskOk(s: Kernel) {
    && Restorable(s.disk) && Below(s.disk, s.nextId) && Track(s.disk.records, false).Some?
    && (s.disk == Projection(s) || (s.recovery && s.disk == s.offered))
  }

  ghost predicate Inv(s: Kernel) {
    MemoryOk(s) && DiskOk(s)
  }

  lemma InitInv(script: seq<CommitOutcome>)
    ensures Inv(Init(script))
  {
    assert ProducedIds([]) == {};
  }

  // ----- Adopting a candidate -----

  /** Same memory, whatever the store did. */
  predicate SameMemory(s: Kernel, s': Kernel) {
    s' == s.(disk := s'.disk, offered := s'.offered, script := s'.script, recovery := s'.recovery)
  }

  /** A refused or doubtful commit leaves the kernel as it was, up to the recovery flag and the store. */
  lemma OfferFailed(s: Kernel, d: Durable)
    requires Inv(s) && Restorable(d) && Below(d, s.nextId) && !Offer(s, d).1
    requires !s.recovery ==> Track(d.records, false).Some?
    ensures Inv(Offer(s, d).0)
  {
  }

  /** A definite commit may be adopted by the memory it describes. */
  lemma OfferAdopted(s: Kernel, m: Kernel, s': Kernel)
    requires Offer(s, Projection(m)).1 && MemoryOk(m) && !m.recovery
    requires SameMemory(m, s') && s'.disk == Projection(m) && !s'.recovery
    ensures Inv(s')
  {
  }

  lemma MoreIds(s: Kernel, n: nat)
    requires Inv(s) && s.nextId <= n
    ensures Inv(s.(nextId := n))
  {
  }

  /** Forgetting a reservation is safe once recovery is required. */
  lemma ConsumeInv(s: Kernel, id: InvId)
    requires Inv(s)
    ensures Inv(Consume(s, id, false))
  {
  }

  /** Cancellation flags may be raised at any time. */
  lemma FlagsInv(s: Kernel, flags: set<InvId>)
    requires Inv(s)
    ensures Inv(s.(flags := flags))
  {
  }

  lemma SpendTokenInv(s: Kernel, id: InvId)
    requires Inv(s)
    ensures Inv(s.(tokens := s.tokens - {id})) && Inv(SpendToken(s, id))
  {
  }

  /** A token moves on: an answered one remembers whether it was prompted. */
  lemma TokenMoves(s: Kernel, id: InvId, t: Token)
    requires Inv(s) && id in s.tokens
    requires t.Authorized? || t.Executed?
          || (t.Answered? && s.tokens[id].Prepared? && t.decision.Some? == s.tokens[id].prompted)
    ensures Inv(s.(tokens := s.tokens[id := t]))
  {
    var b, tokens' := Track(s.ledger.records, false).value, s.tokens[id := t];
    assert TokenMatches(b, id, s.tokens[id]);
    assert TokensMatch(b, tokens', s.nextInv);
  }

  /** What the invariant says of one pending invocation. */
  lemma EntryFacts(s: Kernel, id: InvId)
    requires Inv(s) && id in s.pending
    ensures Track(s.ledger.records, false).Some? && 1 <= id < s.nextInv
    ensures EntryMatches(Track(s.ledger.records, false).value, id, s.pending[id])
    ensures EntryOk(s.registry, s.handlers, s.ledger.runs, s.broker.grants, s.pending[id])
    ensures id in s.tokens ==> TokenMatches(Track(s.ledger.records, false).value, id, s.tokens[id])
  {
  }
}
