/** Slack events matched to handlers, directly from the stored texts and through the cache of compiled patterns. */
module SlackMatching {
  import opened Wrappers
  import opened ConfigEntities
  import opened ExecutionTargets
  import opened NameIndex
  import opened LocalConfigStore
  import opened ReactionNames

  /** The regex engine; a compiled pattern is known by its text. */
  datatype Engine = Engine(compiles: string -> bool, matches: (string, string) -> bool)

  datatype Operation = ReactionWasAdded | ReactionWasRemoved

  datatype SlackEvent =
    | AppMention(text: string)
    | Message(text: string)
    | Reaction(operation: Operation, reaction: string, user: string)
    | Unsupported

  /** The three maps of the cache; a compiled pattern stands for itself. */
  datatype Cache = Cache(
    messagePatterns: map<EntityId, string>,
    userFilters: map<EntityId, string>,
    reactionNames: map<EntityId, set<string>>)

  /** What the cache holds for one handler. */
  datatype Entry = Entry(messagePattern: Option<string>, userFilter: Option<string>, reactionNames: Option<set<string>>)

  function Lookup<V>(m: map<EntityId, V>, id: EntityId): Option<V> {
    if id in m then Some(m[id]) else None
  }

  function EntryOf(cache: Cache, id: EntityId): Entry {
    Entry(Lookup(cache.messagePatterns, id), Lookup(cache.userFilters, id), Lookup(cache.reactionNames, id))
  }

  /** A part that is not configured is not written. */
  function Stored(m: map<EntityId, string>, id: EntityId, text: Option<string>): map<EntityId, string> {
    if text.Some? then m[id := text.value] else m
  }

  const NO_ENTRY := Entry(None, None, None)

  /** A handler without an id has no entry. */
  function EntryFor(cache: Cache, id: Option<EntityId>): Entry {
    if id.Some? then EntryOf(cache, id.value) else NO_ENTRY
  }

  predicate CompilesIfSet(engine: Engine, pattern: Option<string>) {
    pattern.Some? ==> engine.compiles(pattern.value)
  }

  predicate AllCompile(engine: Engine, f: SlackFields) {
    CompilesIfSet(engine, f.messagePattern) && CompilesIfSet(engine, f.reactionUserFilter)
  }

  /** What compiling a handler leaves behind: the work stops at the first pattern that fails. */
  function CompiledEntry(engine: Engine, f: SlackFields): Entry {
    if !CompilesIfSet(engine, f.messagePattern) then NO_ENTRY
    else if !CompilesIfSet(engine, f.reactionUserFilter) then Entry(f.messagePattern, None, None)
    else Entry(f.messagePattern, f.reactionUserFilter,
               if f.reactionNames.Some? then Some(ParseReactionNames(f.reactionNames.value)) else None)
  }

  // ---------------------------------------------------------------- the two matchers

  predicate MatchesRegex(engine: Engine, pattern: Option<string>, text: string) {
    pattern.Some? && engine.matches(pattern.value, text)
  }

  predicate OperationFits(wanted: int, actual: Operation) {
    || (wanted == REACTION_ADDED && actual.ReactionWasAdded?)
    || (wanted == REACTION_REMOVED && actual.ReactionWasRemoved?)
    || wanted == REACTION_BOTH || wanted == REACTION_UNSPECIFIED
  }

  /** In the terms of the database column: an operation fits unless the column names the other one; an unknown code fits nothing. */
  lemma OperationFitsItsColumn(wanted: int, actual: Operation)
    ensures OperationFits(wanted, actual) <==>
            && REACTION_UNSPECIFIED <= wanted <= REACTION_BOTH
            && ReactionOperationToDb(wanted) in {None, Some("both"), Some(if actual.ReactionWasAdded? then "added" else "removed")}
  {
  }

  /** The message and reaction conditions, read through a cache entry. */
  predicate CachedMessage(engine: Engine, f: SlackFields, entry: Entry, text: string) {
    f.messagePattern.Some? ==> MatchesRegex(engine, entry.messagePattern, text)
  }

  predicate CachedReaction(engine: Engine, f: SlackFields, entry: Entry, e: SlackEvent)
    requires e.Reaction?
  {
    && OperationFits(f.reactionOperation, e.operation)
    && (f.reactionNames.Some? ==> entry.reactionNames.Some? && e.reaction in entry.reactionNames.value)
    && (f.reactionUserFilter.Some? ==> MatchesRegex(engine, entry.userFilter, e.user))
  }

  predicate ChannelFits(f: SlackFields, channel: string) {
    f.slackChannelId.Some? ==> f.slackChannelId.value == channel
  }

  /** The decision of `match_event_to_handlers` on one handler. */
  predicate CachedAccepts(engine: Engine, f: SlackFields, entry: Entry, e: SlackEvent, channel: string) {
    f.enabled && ChannelFits(f, channel) &&
    match e
    case AppMention(text) => f.mentionRequired && CachedMessage(engine, f, entry, text)
    case Message(text) => !f.mentionRequired && CachedMessage(engine, f, entry, text)
    case Reaction(_, _, _) => CachedReaction(engine, f, entry, e)
    case Unsupported => false
  }

  /** A pattern compiled on the spot. */
  predicate DirectRegex(engine: Engine, pattern: Option<string>, text: string) {
    pattern.Some? ==> engine.compiles(pattern.value) && engine.matches(pattern.value, text)
  }

  /** What a handler means, without any cache: each stored text is compiled or split when it is needed. */
  predicate DirectAccepts(engine: Engine, f: SlackFields, e: SlackEvent, channel: string) {
    f.enabled && ChannelFits(f, channel) &&
    match e
    case AppMention(text) => f.mentionRequired && DirectRegex(engine, f.messagePattern, text)
    case Message(text) => !f.mentionRequired && DirectRegex(engine, f.messagePattern, text)
    case Reaction(operation, reaction, user) =>
      && OperationFits(f.reactionOperation, operation)
      && (f.reactionNames.Some? ==> reaction in ParseReactionNames(f.reactionNames.value))
      && DirectRegex(engine, f.reactionUserFilter, user)
    case Unsupported => false
  }

  /** The conditions of a handler that need no stored text: a channel, when one is set, has to be that of the event. */
  predicate Admits(f: SlackFields, e: SlackEvent, channel: string) {
    f.enabled && f.slackChannelId in {None, Some(channel)} &&
    match e
    case AppMention(_) => f.mentionRequired
    case Message(_) => !f.mentionRequired
    case Reaction(operation, _, _) => f.reactionOperation in {0, 3, if operation.ReactionWasAdded? then 1 else 2}
    case Unsupported => false
  }

  /** A handler that sets no pattern, no filter and no reaction names. */
  predicate Unconditional(f: SlackFields) {
    f.messagePattern.None? && f.reactionUserFilter.None? && f.reactionNames.None?
  }

  /** What a handler means, condition by condition: each pattern that is set has to compile and to match. */
  lemma AcceptsExactly(engine: Engine, f: SlackFields, e: SlackEvent, channel: string)
    ensures DirectAccepts(engine, f, e, channel) <==>
            && Admits(f, e, channel)
            && (e.AppMention? || e.Message? ==>
                  f.messagePattern.None? || (engine.compiles(f.messagePattern.value) && engine.matches(f.messagePattern.value, e.text)))
            && (e.Reaction? ==>
                  && (f.reactionNames.None? || e.reaction in ParseReactionNames(f.reactionNames.value))
                  && (f.reactionUserFilter.None? ||
                        (engine.compiles(f.reactionUserFilter.value) && engine.matches(f.reactionUserFilter.value, e.user))))
  {
  }

  /** Whatever the cache holds, only an admitted event is accepted, and an unconditional handler accepts each of those. */
  lemma AcceptedAreAdmitted(engine: Engine, f: SlackFields, entry: Entry, e: SlackEvent, channel: string)
    ensures CachedAccepts(engine, f, entry, e, channel) ==> Admits(f, e, channel)
    ensures Unconditional(f) ==> (CachedAccepts(engine, f, entry, e, channel) <==> Admits(f, e, channel))
  {
  }

  /** The one family of events on which the cache is stricter than the stored texts. */
  predicate Starved(engine: Engine, f: SlackFields, e: SlackEvent) {
    && e.Reaction? && !CompilesIfSet(engine, f.messagePattern)
    && (f.reactionNames.Some? || f.reactionUserFilter.Some?)
  }

  /**
   * With the entry compiling leaves behind, failures part-way included, the cached matcher never
   * accepts what the direct one rejects, and rejects what it accepts exactly in the starved family:
   * a reaction for a handler whose message pattern does not compile.
   */
  lemma CachedExactly(engine: Engine, f: SlackFields, e: SlackEvent, channel: string)
    ensures CachedAccepts(engine, f, CompiledEntry(engine, f), e, channel)
       <==> DirectAccepts(engine, f, e, channel) && !Starved(engine, f, e)
  {
  }

  lemma AgreeWhenAllCompile(engine: Engine, f: SlackFields, e: SlackEvent, channel: string)
    requires AllCompile(engine, f)
    ensures CachedAccepts(engine, f, CompiledEntry(engine, f), e, channel) <==> DirectAccepts(engine, f, e, channel)
  {
  }

  /** The pair of events Slack sends for one mention never fires a handler twice. */
  lemma NeverBothMentionAndMessage(engine: Engine, f: SlackFields, entry: Entry, text: string, channel: string)
    ensures !(CachedAccepts(engine, f, entry, AppMention(text), channel) && CachedAccepts(engine, f, entry, Message(text), channel))
    ensures CachedAccepts(engine, f, entry, AppMention(text), channel) || CachedAccepts(engine, f, entry, Message(text), channel)
       <==> f.enabled && ChannelFits(f, channel) && CachedMessage(engine, f, entry, text)
  {
  }

  // ---------------------------------------------------------------- the cache

  class SlackHandlerCache {
    const engine: Engine
    var messagePatterns: map<EntityId, string>
    var userFilters: map<EntityId, string>
    var reactionNames: map<EntityId, set<string>>
    var version: nat

    function Contents(): Cache
      reads this
    {
      Cache(messagePatterns, userFilters, reactionNames)
    }

    constructor (engine: Engine)
      ensures this.engine == engine && Contents() == Cache(map[], map[], map[]) && version == 0
    {
      this.engine := engine;
      messagePatterns, userFilters, reactionNames, version := map[], map[], map[], 0;
    }

    /** Compiles in the order message pattern, user filter, names; what precedes a failure stays. */
    method CompileAndCachePatterns(handler: SlackEventHandler) returns (ok: bool)
      modifies this
      ensures !Complete(handler) ==> !ok && Contents() == old(Contents())
      ensures Complete(handler) ==> ok == AllCompile(engine, handler.data.value.fields)
      ensures Complete(handler) ==>
                var id := handler.id.value;
                EntryOf(Contents(), id) == Overlaid(old(EntryOf(Contents(), id)), CompiledEntry(engine, handler.data.value.fields))
      ensures forall id :: handler.id != Some(id) ==> EntryOf(Contents(), id) == old(EntryOf(Contents(), id))
      ensures version == if ok then old(version) + 1 else old(version)
      ensures Complete(handler) && !ok ==> userFilters == old(userFilters) && reactionNames == old(reactionNames)
      ensures ok ==>
                var id, f := handler.id.value, handler.data.value.fields;
                && messagePatterns == Stored(old(messagePatterns), id, f.messagePattern)
                && userFilters == Stored(old(userFilters), id, f.reactionUserFilter)
                && (f.reactionNames.None? ==> reactionNames == old(reactionNames))
                && (f.reactionNames.Some? ==> reactionNames == old(reactionNames)[id := ParseReactionNames(f.reactionNames.value)])
    {
      if handler.id.None? || handler.data.None? {
        return false;
      }
      var id, f := handler.id.value, handler.data.value.fields;
      if f.messagePattern.Some? {
        if !engine.compiles(f.messagePattern.value) {
          return false;
        }
        messagePatterns := messagePatterns[id := f.messagePattern.value];
      }
      if f.reactionUserFilter.Some? {
        if !engine.compiles(f.reactionUserFilter.value) {
          return false;
        }
        userFilters := userFilters[id := f.reactionUserFilter.value];
      }
      if f.reactionNames.Some? {
        reactionNames := reactionNames[id := ParseReactionNames(f.reactionNames.value)];
      }
      version := version + 1;
      ok := true;
    }

    method InvalidateHandler(id: EntityId)
      modifies this
      ensures EntryOf(Contents(), id) == NO_ENTRY
      ensures forall other :: other != id ==> EntryOf(Contents(), other) == old(EntryOf(Contents(), other))
      ensures version == if old(EntryOf(Contents(), id)) == NO_ENTRY then old(version) else old(version) + 1
    {
      var removedCount := 0;
      if id in messagePatterns {
        removedCount := removedCount + 1;
      }
      if id in userFilters {
        removedCount := removedCount + 1;
      }
      if id in reactionNames {
        removedCount := removedCount + 1;
      }
      messagePatterns, userFilters, reactionNames := messagePatterns - {id}, userFilters - {id}, reactionNames - {id};
      if removedCount > 0 {
        version := version + 1;
      }
    }

    method Clear()
      modifies this
      ensures Contents() == Cache(map[], map[], map[]) && version == old(version) + 1
    {
      messagePatterns, userFilters, reactionNames, version := map[], map[], map[], version + 1;
    }
  }

  /** What one handler's entry becomes when a compilation writes over it: parts not written stay. */
  function Overlaid(before: Entry, written: Entry): Entry {
    Entry(if written.messagePattern.Some? then written.messagePattern else before.messagePattern,
          if written.userFilter.Some? then written.userFilter else before.userFilter,
          if written.reactionNames.Some? then written.reactionNames else before.reactionNames)
  }

  // ---------------------------------------------------------------- the manager and the matcher

  class DynamicSlackHandlerManager {
    const store: LocalConfigStore
    const cache: SlackHandlerCache
    var isRunning: bool

    constructor (store: LocalConfigStore, engine: Engine)
      ensures this.store == store && fresh(cache) && cache.engine == engine && !isRunning
      ensures cache.Contents() == Cache(map[], map[], map[])
    {
      this.store, isRunning := store, false;
      cache := new SlackHandlerCache(engine);
    }

    /** The entry of a stored handler is what compiling it leaves behind; other ids have none. */
    ghost predicate Fits(id: EntityId)
      reads store`slacks, cache
    {
      EntryOf(cache.Contents(), id) ==
        if id in store.slacks.entities && store.slacks.entities[id].data.Some?
        then CompiledEntry(cache.engine, store.slacks.entities[id].data.value.fields)
        else NO_ENTRY
    }

    ghost predicate SyncedExcept(pending: set<EntityId>)
      reads store`slacks, cache
    {
      forall id :: id !in pending ==> Fits(id)
    }

    /** Compiles every stored handler, in the arbitrary order of the map; one that fails is skipped. */
    method Start()
      requires !isRunning ==> cache.Contents() == Cache(map[], map[], map[])
      requires forall id :: id in store.slacks.entities ==> store.slacks.entities[id].id == Some(id)
      modifies this, cache
      ensures isRunning
      ensures if old(isRunning) then unchanged(this, cache) else SyncedExcept({})
    {
      if isRunning {
        return;
      }
      var todo := store.slacks.entities.Keys;
      while todo != {}
        invariant todo <= store.slacks.entities.Keys
        invariant forall id :: id in todo ==> EntryOf(cache.Contents(), id) == NO_ENTRY
        invariant forall id :: id !in todo ==> Fits(id)
        decreases |todo|
      {
        var key := AnyOf(todo);
        todo := todo - {key};
        label Before:
        var _ := cache.CompileAndCachePatterns(store.slacks.entities[key]);
        forall id | id !in todo && id != key
          ensures Fits(id)
        {
          assert old@Before(Fits(id));
        }
      }
      isRunning := true;
    }

    method UpdateHandlerCacheFromEvent(change: Change<SlackFields>) returns (ok: bool)
      requires change.action.Created? || change.action.Updated? ==>
                 if change.id.Some? && change.data.Some?
                 then SyncedExcept({change.id.value}) && change.id.value in store.slacks.entities
                      && store.slacks.entities[change.id.value].data == change.data
                 else SyncedExcept({})
      requires change.action.Deleted? ==>
                 if change.id.Some? then SyncedExcept({change.id.value}) && change.id.value !in store.slacks.entities
                 else SyncedExcept({})
      requires change.action !in {Created, Updated, Deleted} ==> SyncedExcept({})
      modifies cache
      ensures SyncedExcept({})
      ensures !ok <==> change.action in {Created, Updated} && change.id.Some? && change.data.Some? && !AllCompile(cache.engine, change.data.value.fields)
    {
      ok := true;
      if change.action.Created? || change.action.Updated? {
        if change.id.Some? && change.data.Some? {
          var id := change.id.value;
          cache.InvalidateHandler(id);
          ok := cache.CompileAndCachePatterns(Entity(change.id, change.data));
          forall other | other != id
            ensures Fits(other)
          {
            assert old(Fits(other));
          }
        }
      } else if change.action.Deleted? {
        if change.id.Some? {
          cache.InvalidateHandler(change.id.value);
          forall other | other != change.id.value
            ensures Fits(other)
          {
            assert old(Fits(other));
          }
        }
      }
    }

    /** `check_message_conditions`. */
    method CheckMessageConditions(handler: SlackEventHandler, text: string) returns (ok: bool)
      ensures ok == (handler.data.Some? &&
                     CachedMessage(cache.engine, handler.data.value.fields, EntryFor(cache.Contents(), handler.id), text))
    {
      if handler.data.None? {
        return false;
      }
      if handler.data.value.fields.messagePattern.Some? {
        if handler.id.None? {
          return false;
        }
        var id := handler.id.value;
        if id !in cache.messagePatterns || !cache.engine.matches(cache.messagePatterns[id], text) {
          return false;
        }
      }
      return true;
    }

    /** `check_reaction_conditions`. */
    method CheckReactionConditions(handler: SlackEventHandler, e: SlackEvent) returns (ok: bool)
      requires e.Reaction?
      ensures ok == (handler.data.Some? &&
                     CachedReaction(cache.engine, handler.data.value.fields, EntryFor(cache.Contents(), handler.id), e))
    {
      if handler.data.None? {
        return false;
      }
      var f := handler.data.value.fields;
      var operationFits :=
        if f.reactionOperation == REACTION_ADDED then e.operation.ReactionWasAdded?
        else if f.reactionOperation == REACTION_REMOVED then e.operation.ReactionWasRemoved?
        else f.reactionOperation == REACTION_BOTH || f.reactionOperation == REACTION_UNSPECIFIED;
      if !operationFits {
        return false;
      }
      if f.reactionNames.Some? {
        if handler.id.None? || handler.id.value !in cache.reactionNames || e.reaction !in cache.reactionNames[handler.id.value] {
          return false;
        }
      }
      if f.reactionUserFilter.Some? {
        if handler.id.None? || handler.id.value !in cache.userFilters || !cache.engine.matches(cache.userFilters[handler.id.value], e.user) {
          return false;
        }
      }
      return true;
    }

    ghost predicate Accepts(id: EntityId, e: SlackEvent, channel: string)
      reads store`slacks, cache
    {
      && id in store.slacks.entities && store.slacks.entities[id].data.Some?
      && CachedAccepts(cache.engine, store.slacks.entities[id].data.value.fields, EntryFor(cache.Contents(), store.slacks.entities[id].id), e, channel)
    }

    /** A matcher that reads the store alone would dispatch the event to this handler. */
    ghost predicate MeantFor(id: EntityId, e: SlackEvent, channel: string)
      reads store`slacks
    {
      && id in store.slacks.entities && store.slacks.entities[id].data.Some?
      && DirectAccepts(cache.engine, store.slacks.entities[id].data.value.fields, e, channel)
    }

    /** While cache and store are in step, dispatching follows the stored texts but for the starved family. */
    lemma DispatchFollowsTheStore(id: EntityId, e: SlackEvent, channel: string)
      requires SyncedExcept({})
      requires id in store.slacks.entities ==> store.slacks.entities[id].id == Some(id)
      ensures Accepts(id, e, channel) <==>
              MeantFor(id, e, channel) && !Starved(cache.engine, store.slacks.entities[id].data.value.fields, e)
    {
      if id in store.slacks.entities && store.slacks.entities[id].data.Some? {
        assert Fits(id);
        CachedExactly(cache.engine, store.slacks.entities[id].data.value.fields, e, channel);
      }
    }

    /** The ids of the stored handlers an event is dispatched to; each is listed once, in an arbitrary order. */
    method MatchEventToHandlers(e: SlackEvent, channel: string) returns (matched: seq<EntityId>)
      ensures forall id :: id in matched <==> Accepts(id, e, channel)
      ensures forall id :: id in matched ==> id in store.slacks.entities && store.slacks.entities[id].data.Some?
      ensures forall id :: id in store.slacks.entities && store.slacks.entities[id].data.Some? ==>
                var f := store.slacks.entities[id].data.value.fields;
                (id in matched ==> Admits(f, e, channel)) && (Unconditional(f) && Admits(f, e, channel) ==> id in matched)
      ensures forall i, j :: 0 <= i < j < |matched| ==> matched[i] != matched[j]
    {
      var handlers := store.slacks.entities;
      var todo := handlers.Keys;
      matched := [];
      while todo != {}
        invariant todo <= handlers.Keys
        invariant forall id :: id in matched <==> id !in todo && Accepts(id, e, channel)
        invariant forall i, j :: 0 <= i < j < |matched| ==> matched[i] != matched[j]
        decreases |todo|
      {
        var key := AnyOf(todo);
        todo := todo - {key};
        var handler := handlers[key];
        if handler.data.Some? && handler.data.value.fields.enabled {
          var f := handler.data.value.fields;
          if f.slackChannelId.Some? && f.slackChannelId.value != channel {
            continue;
          }
          var fits := false;
          match e {
            case AppMention(text) =>
              if !f.mentionRequired {
                continue;
              }
              fits := CheckMessageConditions(handler, text);
            case Message(text) =>
              if f.mentionRequired {
                continue;
              }
              fits := CheckMessageConditions(handler, text);
            case Reaction(_, _, _) =>
              fits := CheckReactionConditions(handler, e);
            case Unsupported =>
          }
          if fits {
            matched := matched + [key];
          }
        }
      }
      forall id | id in handlers && handlers[id].data.Some?
        ensures var f := handlers[id].data.value.fields;
                (id in matched ==> Admits(f, e, channel)) && (Unconditional(f) && Admits(f, e, channel) ==> id in matched)
      {
        AcceptedAreAdmitted(cache.engine, handlers[id].data.value.fields, EntryFor(cache.Contents(), handlers[id].id), e, channel);
      }
    }
  }
}
