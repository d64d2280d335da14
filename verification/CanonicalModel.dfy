/** Values stored in the canonical history database, one account at a time.

    Text identifiers are represented by their rank in SQLite's text order, timestamps by integers.
    A content hash is injective, so a row keeps the hashed record itself and hash comparison is
    record equality. */
module CanonicalModel {
  import opened Options

  type ChatId = int
  type MessageId = int
  type GenerationId = int
  type Timestamp = int

  /** Why a transaction raised; the transaction is then rolled back. */
  datatype Violation =
    | PlatformIdentityConflict
    | ChatVersionConflict
    | OrphanMessage
    | ImmutableMessageConflict
    | TombstoneConflict
    | GenerationReused
    | NotAuthorized
    | UnknownGeneration
    | GenerationNotOpen
    | InventoryFrozen
    | InventoryNotFrozen
    | UnknownConversation
    | ConflictingEvidence
    | NotAMember
    | HeadBeforeAsOf
    | DuplicateEntity
    | SettingsConflict
    | FrameTooLarge

  /** Result of a write that runs inside a transaction: the new state and the `changed` flag. */
  datatype Outcome<+S> = Done(state: S, changed: bool) | Raised(why: Violation)

  // ----- entities -----

  datatype RawChat = RawChat(id: ChatId, full: bool, platformUser: Option<string>,
                             displayName: Option<string>, updatedAt: Option<Timestamp>)

  /** The protocol model rejects a full chat without platform user or update time. */
  type ChatRecord = c: RawChat | c.full ==> c.platformUser.Some? && c.updatedAt.Some?
    witness RawChat(0, false, None, None, None)

  datatype Direction = Inbound | Outbound

  datatype MessageRecord = MessageRecord(id: MessageId, chat: ChatId, sender: string, text: string,
                                         sentAt: Timestamp, direction: Direction)

  /** Which stream epoch, sequence and event a stored row comes from. */
  datatype Provenance = Provenance(epoch: nat, sourceSeq: nat, event: Option<int>)

  datatype ChatRow = ChatRow(record: ChatRecord, winner: Provenance, deleted: bool)
  datatype MessageRow = MessageRow(record: MessageRecord, winner: Provenance, deleted: bool)
  datatype Tombstone = Tombstone(chat: ChatId, origin: Provenance)

  datatype Entities = Entities(chats: map<ChatId, ChatRow>,
                               messages: map<MessageId, MessageRow>,
                               chatTombstones: map<ChatId, Tombstone>,
                               messageTombstones: map<MessageId, Tombstone>)

  // ----- coverage -----

  datatype GenerationState = Discovering | Backfilling | Complete | Partial | Superseded

  datatype Generation = Generation(authorization: string, asOf: Timestamp, state: GenerationState,
                                   inventoryEnded: Option<Timestamp>, closedAt: Option<Timestamp>)
  {
    predicate InProgress() { state.Discovering? || state.Backfilling? }
  }

  datatype Member = Member(historyStarted: Option<Timestamp>, earliest: Option<Timestamp>,
                           headReconciled: Option<Timestamp>)

  datatype Coverage = Coverage(generations: map<GenerationId, Generation>,
                               members: map<(GenerationId, ChatId), Member>,
                               active: Option<GenerationId>,
                               lastComplete: Option<GenerationId>,
                               revision: nat)

  datatype Evidence =
    | GenerationStarted(generation: GenerationId, asOf: Timestamp, authorization: string)
    | InventoryMember(generation: GenerationId, conversation: ChatId)
    | InventoryEnded(generation: GenerationId, observedAt: Timestamp)
    | HistoryStarted(generation: GenerationId, conversation: ChatId,
                     earliestObserved: Option<Timestamp>, observedAt: Timestamp)
    | HeadReconciled(generation: GenerationId, conversation: ChatId, reconciledThrough: Timestamp)
    | GenerationClosed(generation: GenerationId, closedAt: Timestamp)

  // ----- settings -----

  datatype DesiredState = DesiredNotStarted | DesiredRunning | DesiredPaused | DesiredRevoked
  datatype EffectiveState = NotApplied | EffectiveRunning | EffectivePaused | EffectiveRevoked

  datatype Settings = Settings(revision: nat,
                               consent: Option<string>,
                               authorizedCreator: Option<string>,
                               desired: DesiredState,
                               effective: EffectiveState,
                               requiredConfig: Option<string>,
                               effectiveConfig: Option<string>,
                               effectiveRevision: Option<nat>)

  /** The values an update of the settings carries (pacing values are not modelled). */
  datatype SettingsValues = SettingsValues(consent: Option<string>, authorizedCreator: Option<string>,
                                           desired: DesiredState)

  // ----- one account -----

  datatype Canon = Canon(entities: Entities, coverage: Coverage, settings: Settings)

  datatype Change =
    | ChatUpsert(chat: ChatRecord)
    | ChatDelete(chatId: ChatId)
    | MessageUpsert(message: MessageRecord)
    | MessageDelete(messageId: MessageId, inChat: ChatId)
    | CoverageObserved(evidence: Evidence)

  const NO_ENTITIES: Entities := Entities(map[], map[], map[], map[])
  const NO_COVERAGE: Coverage := Coverage(map[], map[], None, None, 0)
  const INITIAL_SETTINGS: Settings :=
    Settings(0, None, None, DesiredNotStarted, NotApplied, None, None, None)
  const EMPTY_ACCOUNT: Canon := Canon(NO_ENTITIES, NO_COVERAGE, INITIAL_SETTINGS)
}
