/** The per-event context of worker/core/event.py: an event object carrying
    its hook and the bot's database handle, and the prepare/close protocol
    that opens a database session for hooks that ask for one and releases it
    afterwards. Each event kind of the source is a named constructor of one
    class; the fields a kind does not set are None. */
module Events {
  import opened Common

  /** A hook descriptor, consumed read-only: its description, its
      docstring and the names of the arguments it requires. */
  datatype Hook = Hook(description: string, doc: string, requiredArgs: set<string>)

  /** What a `db` attribute may hold: None, the bot's database (which can
      open sessions) or an open session (which can be closed). */
  datatype DbRef = NoDb | Database(id: nat) | Session(id: nat)

  /** The bot an event belongs to; only its database matters here. */
  datatype Bot = Bot(db: DbRef)

  /** The `hook` attribute: never assigned (a bare BaseEvent), None, or a hook. */
  datatype HookSlot = Unset | NoHook | Bound(hook: Hook)

  /** Where an event stands in its prepare/close protocol. */
  datatype Phase = Unprepared | Prepared | Closed

  /** Which constructor built an event. */
  datatype EventKind = Base | Text | OnStart | OnReady | OnConnReady | Time | HookKind | Regex

  function SlotOf(hook: Option<Hook>): HookSlot {
    match hook
    case None => NoHook
    case Some(h) => Bound(h)
  }

  /** Whether the hook asks for a database session. */
  predicate NeedsDb(hook: HookSlot) {
    hook.Bound? && "db" in hook.hook.requiredArgs
  }

  /** `prepare`: no hook is an error; a hook requiring "db" swaps the
      database for a fresh session of it (`db.db_session()`, which only a
      database has); any other hook leaves `db` as it is. */
  function PrepareOf(hook: HookSlot, db: DbRef): Result<DbRef> {
    match hook
    case Unset => Err(AttributeError("hook"))
    case NoHook => Err(ValueError("event.hook is required to prepare an event"))
    case Bound(h) =>
      if "db" !in h.requiredArgs then Ok(db)
      else match db
        case Database(id) => Ok(Session(id))
        case _ => Err(AttributeError("db_session"))
  }

  /** `close`: no hook is an error; a hook requiring "db" closes the session
      (`db.close()`, which only a session has) and clears `db`; any other
      hook leaves `db` as it is. */
  function CloseOf(hook: HookSlot, db: DbRef): Result<DbRef> {
    match hook
    case Unset => Err(AttributeError("hook"))
    case NoHook => Err(ValueError("event.hook is required to close an event"))
    case Bound(h) =>
      if "db" !in h.requiredArgs then Ok(db)
      else match db
        case Session(_) => Ok(NoDb)
        case _ => Err(AttributeError("close"))
  }

  /** Neither step runs without a hook; with a None hook both raise ValueError. */
  lemma HookRequired(hook: HookSlot, db: DbRef)
    requires !hook.Bound?
    ensures PrepareOf(hook, db).Err? && CloseOf(hook, db).Err?
    ensures hook.NoHook? ==> PrepareOf(hook, db).error.ValueError? && CloseOf(hook, db).error.ValueError?
  {
  }

  /** For a hook requiring "db": prepare opens a session of the bot's
      database, close releases it and leaves None, and a second close fails. */
  lemma SessionScoped(h: Hook, id: nat)
    requires "db" in h.requiredArgs
    ensures PrepareOf(Bound(h), Database(id)) == Ok(Session(id))
    ensures CloseOf(Bound(h), Session(id)) == Ok(NoDb)
    ensures CloseOf(Bound(h), NoDb) == Err(AttributeError("close"))
  {
  }

  /** For a hook not requiring "db", prepare and close change nothing and
      can be repeated at will. */
  lemma OtherHooksKeepDb(h: Hook, db: DbRef)
    requires "db" !in h.requiredArgs
    ensures PrepareOf(Bound(h), db) == Ok(db) && CloseOf(Bound(h), db) == Ok(db)
  {
  }

  /** An event context. `phase` records the protocol's progress. */
  class BaseEvent {
    const kind: EventKind
    const bot: Bot
    var db: DbRef
    const hook: HookSlot
    const text: Option<string>
    const triggeredCommand: Option<string>
    const event: Option<nat>
    const permissionMgr: Option<nat>
    const channelId: Option<nat>
    const server: Option<nat>
    const matched: Option<nat>
    const doc: Option<string>
    ghost var phase: Phase

    /** A session is bound only to an event whose hook asks for one, and
        only between a successful prepare and close; otherwise `db` is the
        bot's, or None once a session was closed. */
    ghost predicate Valid()
      reads this
    {
      && (phase == Unprepared ==> db == bot.db)
      && (!NeedsDb(hook) ==> db == bot.db)
      && (NeedsDb(hook) && phase == Prepared ==> bot.db.Database? && db == Session(bot.db.id))
      && (NeedsDb(hook) && phase == Closed ==> db == NoDb)
    }

    /** BaseEvent(bot): copies the bot's database; no hook is assigned. */
    constructor(bot: Bot)
      ensures Valid() && phase == Unprepared
      ensures kind == Base && this.bot == bot && db == bot.db && hook == Unset
      ensures text == None && triggeredCommand == None && event == None && permissionMgr == None
      ensures channelId == None && server == None && matched == None && doc == None
    {
      kind := Base;
      this.bot := bot;
      db := bot.db;
      hook := Unset;
      text, triggeredCommand, event, permissionMgr := None, None, None, None;
      channelId, server, matched, doc := None, None, None, None;
      phase := Unprepared;
    }

    /** TextEvent: stores its arguments and copies the hook's docstring. */
    constructor TextEvent(hook: Hook, text: string, triggeredCommand: string, event: nat, bot: Bot,
                          permissionMgr: nat, channelId: nat)
      ensures Valid() && phase == Unprepared
      ensures kind == Text && this.bot == bot && db == bot.db && this.hook == Bound(hook)
      ensures this.text == Some(text) && this.triggeredCommand == Some(triggeredCommand)
      ensures this.event == Some(event) && this.permissionMgr == Some(permissionMgr)
      ensures this.channelId == Some(channelId) && doc == Some(hook.doc)
      ensures server == None && matched == None
    {
      kind := Text;
      this.bot := bot;
      db := bot.db;
      this.hook := Bound(hook);
      this.text := Some(text);
      this.triggeredCommand := Some(triggeredCommand);
      this.event := Some(event);
      this.permissionMgr := Some(permissionMgr);
      this.channelId := Some(channelId);
      doc := Some(hook.doc);
      server, matched := None, None;
      phase := Unprepared;
    }

    /** OnStartEvent(bot, hook). */
    constructor OnStartEvent(bot: Bot, hook: Option<Hook>)
      ensures Valid() && phase == Unprepared
      ensures kind == OnStart && this.bot == bot && db == bot.db && this.hook == SlotOf(hook)
      ensures text == None && triggeredCommand == None && event == None && permissionMgr == None
      ensures channelId == None && server == None && matched == None && doc == None
    {
      kind := OnStart;
      this.bot := bot;
      db := bot.db;
      this.hook := SlotOf(hook);
      text, triggeredCommand, event, permissionMgr := None, None, None, None;
      channelId, server, matched, doc := None, None, None, None;
      phase := Unprepared;
    }

    /** OnReadyEvent(bot, hook, permission_mgr, server): the event is None. */
    constructor OnReadyEvent(bot: Bot, hook: Option<Hook>, permissionMgr: nat, server: nat)
      ensures Valid() && phase == Unprepared
      ensures kind == OnReady && this.bot == bot && db == bot.db && this.hook == SlotOf(hook)
      ensures this.permissionMgr == Some(permissionMgr) && this.server == Some(server) && event == None
      ensures text == None && triggeredCommand == None && channelId == None && matched == None && doc == None
    {
      kind := OnReady;
      this.bot := bot;
      db := bot.db;
      this.hook := SlotOf(hook);
      this.permissionMgr := Some(permissionMgr);
      this.server := Some(server);
      event := None;
      text, triggeredCommand, channelId, matched, doc := None, None, None, None, None;
      phase := Unprepared;
    }

    /** OnConnReadyEvent(bot, hook): the event is None. */
    constructor OnConnReadyEvent(bot: Bot, hook: Option<Hook>)
      ensures Valid() && phase == Unprepared
      ensures kind == OnConnReady && this.bot == bot && db == bot.db && this.hook == SlotOf(hook)
      ensures text == None && triggeredCommand == None && event == None && permissionMgr == None
      ensures channelId == None && server == None && matched == None && doc == None
    {
      kind := OnConnReady;
      this.bot := bot;
      db := bot.db;
      this.hook := SlotOf(hook);
      text, triggeredCommand, event, permissionMgr := None, None, None, None;
      channelId, server, matched, doc := None, None, None, None;
      phase := Unprepared;
    }

    /** TimeEvent(bot, hook, event). */
    constructor TimeEvent(bot: Bot, hook: Option<Hook>, event: nat)
      ensures Valid() && phase == Unprepared
      ensures kind == Time && this.bot == bot && db == bot.db && this.hook == SlotOf(hook)
      ensures this.event == Some(event)
      ensures text == None && triggeredCommand == None && permissionMgr == None
      ensures channelId == None && server == None && matched == None && doc == None
    {
      kind := Time;
      this.bot := bot;
      db := bot.db;
      this.hook := SlotOf(hook);
      this.event := Some(event);
      text, triggeredCommand, permissionMgr := None, None, None;
      channelId, server, matched, doc := None, None, None, None;
      phase := Unprepared;
    }

    /** HookEvent(bot, hook, event, permission_mgr). */
    constructor HookEvent(bot: Bot, hook: Option<Hook>, event: nat, permissionMgr: nat)
      ensures Valid() && phase == Unprepared
      ensures kind == HookKind && this.bot == bot && db == bot.db && this.hook == SlotOf(hook)
      ensures this.event == Some(event) && this.permissionMgr == Some(permissionMgr)
      ensures text == None && triggeredCommand == None
      ensures channelId == None && server == None && matched == None && doc == None
    {
      kind := HookKind;
      this.bot := bot;
      db := bot.db;
      this.hook := SlotOf(hook);
      this.event := Some(event);
      this.permissionMgr := Some(permissionMgr);
      text, triggeredCommand := None, None;
      channelId, server, matched, doc := None, None, None, None;
      phase := Unprepared;
    }

    /** RegexEvent(bot=, hook=, event=, match=). */
    constructor RegexEvent(bot: Bot, hook: Option<Hook>, event: nat, matched: nat)
      ensures Valid() && phase == Unprepared
      ensures kind == Regex && this.bot == bot && db == bot.db && this.hook == SlotOf(hook)
      ensures this.event == Some(event) && this.matched == Some(matched)
      ensures text == None && triggeredCommand == None && permissionMgr == None
      ensures channelId == None && server == None && doc == None
    {
      kind := Regex;
      this.bot := bot;
      db := bot.db;
      this.hook := SlotOf(hook);
      this.event := Some(event);
      this.matched := Some(matched);
      text, triggeredCommand, permissionMgr := None, None, None;
      channelId, server, doc := None, None, None;
      phase := Unprepared;
    }

    /** Readies the event for its hook; on an error nothing changes. */
    method Prepare() returns (r: Outcome)
      requires Valid()
      modifies this`db, this`phase
      ensures Valid()
      ensures PrepareOf(hook, old(db)).Err? ==>
                r == Fail(PrepareOf(hook, old(db)).error) && db == old(db) && phase == old(phase)
      ensures PrepareOf(hook, old(db)).Ok? ==>
                r == Pass && db == PrepareOf(hook, old(db)).value && phase == Prepared
    {
      match hook
      case Unset =>
        return Fail(AttributeError("hook"));
      case NoHook =>
        return Fail(ValueError("event.hook is required to prepare an event"));
      case Bound(h) =>
        if "db" in h.requiredArgs {
          if !db.Database? {
            return Fail(AttributeError("db_session"));
          }
          db := Session(db.id);
        }
        phase := Prepared;
        return Pass;
    }

    /** Releases what Prepare opened; on an error nothing changes. */
    method Close() returns (r: Outcome)
      requires Valid()
      modifies this`db, this`phase
      ensures Valid()
      ensures CloseOf(hook, old(db)).Err? ==>
                r == Fail(CloseOf(hook, old(db)).error) && db == old(db) && phase == old(phase)
      ensures CloseOf(hook, old(db)).Ok? ==>
                r == Pass && db == CloseOf(hook, old(db)).value && phase == Closed
    {
      match hook
      case Unset =>
        return Fail(AttributeError("hook"));
      case NoHook =>
        return Fail(ValueError("event.hook is required to close an event"));
      case Bound(h) =>
        if "db" in h.requiredArgs {
          if !db.Session? {
            return Fail(AttributeError("close"));
          }
          db := NoDb;
        }
        phase := Closed;
        return Pass;
    }
  }

  /** An event for a hook requiring "db", on a bot with a database: prepare
      and the first close succeed and leave no handle, the second close
      fails. For any other hook every step succeeds and `db` stays the
      bot's, so the second close is not caught. */
  method CloseTwice(bot: Bot, h: Hook, event: nat) returns (db: DbRef, first: Outcome, second: Outcome, third: Outcome)
    requires bot.db.Database?
    ensures "db" in h.requiredArgs ==>
              first == Pass && second == Pass && third == Fail(AttributeError("close")) && db == NoDb
    ensures "db" !in h.requiredArgs ==> first == Pass && second == Pass && third == Pass && db == bot.db
  {
    var e := new BaseEvent.TimeEvent(bot, Some(h), event);
    first := e.Prepare();
    second := e.Close();
    third := e.Close();
    db := e.db;
  }
}
