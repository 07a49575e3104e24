/** The dispatch loop of worker/main.py: how a chat message is read as a
    ".command rest" line and matched against the command table, how each
    incoming event is classified (messages offloaded, ready handled inline,
    the rest ignored), and the ready work with its guard. Calls to the RPC
    server and the plugin manager are recorded as actions; the server list
    that `get_servers` returns travels with the ready event. */
module Worker {
  import opened Common
  import opened Events

  /** Python's `str.isspace` for one character, the separator test of
      `str.split()` without a separator. */
  predicate IsSpace(c: char) {
    || c == ' ' || ('\t' <= c <= '\r') || ('\U{1C}' <= c <= '\U{1F}')
    || c == '\U{85}' || c == '\U{A0}' || c == '\U{1680}'
    || ('\U{2000}' <= c <= '\U{200A}') || c == '\U{2028}' || c == '\U{2029}'
    || c == '\U{202F}' || c == '\U{205F}' || c == '\U{3000}'
  }

  predicate AllSpace(s: string) {
    forall i :: 0 <= i < |s| ==> IsSpace(s[i])
  }

  predicate NoSpace(s: string) {
    forall i :: 0 <= i < |s| ==> !IsSpace(s[i])
  }

  /** `s` with its leading whitespace consumed. */
  function SkipSpace(s: string): (r: string)
    ensures |r| <= |s| && r == s[|s| - |r|..]
    ensures AllSpace(s[..|s| - |r|])
    ensures r == [] || !IsSpace(r[0])
  {
    if s != [] && IsSpace(s[0]) then
      var t := s[1..];
      var r := SkipSpace(t);
      assert r == s[|s| - |r|..];
      SpaceRunCons(s, |s| - |r|);
      r
    else
      assert s[..0] == [];
      s
  }

  /** A space in front of a run of spaces makes a longer run. */
  lemma SpaceRunCons(s: string, n: nat)
    requires 1 <= n <= |s| && IsSpace(s[0]) && AllSpace(s[1..][..n - 1])
    ensures AllSpace(s[..n])
  {
    assert s[..n] == [s[0]] + s[1..][..n - 1];
  }

  /** The longest prefix of `s` without whitespace. */
  function Token(s: string): (r: string)
    ensures |r| <= |s| && r == s[..|r|]
    ensures NoSpace(r)
    ensures |r| < |s| ==> IsSpace(s[|r|])
  {
    if s == [] || IsSpace(s[0]) then [] else [s[0]] + Token(s[1..])
  }

  /** `split(maxsplit=1)` of a string with no leading whitespace. */
  function SplitTrimmed(t: string): (parts: seq<string>)
    requires t == [] || !IsSpace(t[0])
    ensures |parts| <= 2 && (parts == [] <==> t == [])
    ensures |parts| >= 1 ==> parts[0] != [] && NoSpace(parts[0])
    ensures |parts| == 2 ==> parts[1] != [] && !IsSpace(parts[1][0])
  {
    if t == [] then []
    else
      var word := Token(t);
      var rest := SkipSpace(t[|word|..]);
      if rest == [] then [word] else [word, rest]
  }

  /** `s.split(maxsplit=1)`: the first whitespace-delimited word and, if
      anything but whitespace follows it, the rest with its leading
      whitespace consumed and its trailing whitespace kept. */
  function SplitOnce(s: string): (parts: seq<string>)
    ensures |parts| <= 2
    ensures parts == [] <==> AllSpace(s)
    ensures |parts| >= 1 ==> parts[0] != [] && NoSpace(parts[0])
    ensures |parts| == 2 ==> parts[1] != [] && !IsSpace(parts[1][0])
  {
    var t := SkipSpace(s);
    assert t == [] ==> s[..|s| - |t|] == s;
    SplitTrimmed(t)
  }

  /** Whitespace in front of a word, or of nothing, is skipped. */
  lemma {:induction false} SkipLead(lead: string, s: string)
    requires AllSpace(lead) && (s == [] || !IsSpace(s[0]))
    ensures SkipSpace(lead + s) == s
  {
    if lead != [] {
      assert (lead + s)[1..] == lead[1..] + s;
      SkipLead(lead[1..], s);
    }
  }

  /** A word followed by whitespace or the end reads back as itself. */
  lemma {:induction false} TokenOf(word: string, s: string)
    requires NoSpace(word) && (s == [] || IsSpace(s[0]))
    ensures Token(word + s) == word
  {
    if word != [] {
      assert (word + s)[1..] == word[1..] + s;
      TokenOf(word[1..], s);
    }
  }

  /** What `split(maxsplit=1)` gives for leading whitespace, a word, a
      separating run of whitespace and a rest: the word, then the rest if
      there is one. Every input has this shape (see SplitOnce's contract),
      so this pins the function down. */
  lemma SplitOnceOf(lead: string, word: string, gap: string, rest: string)
    requires AllSpace(lead) && word != [] && NoSpace(word) && AllSpace(gap)
    requires rest != [] ==> gap != [] && !IsSpace(rest[0])
    ensures SplitOnce(lead + word + gap + rest) == if rest == [] then [word] else [word, rest]
  {
    var t := word + gap + rest;
    assert lead + word + gap + rest == lead + t;
    SkipLead(lead, t);
    SplitTrimmedOf(word, gap, rest);
  }

  lemma SplitTrimmedOf(word: string, gap: string, rest: string)
    requires word != [] && NoSpace(word) && AllSpace(gap)
    requires rest != [] ==> gap != [] && !IsSpace(rest[0])
    ensures SplitTrimmed(word + gap + rest) == if rest == [] then [word] else [word, rest]
  {
    var t := word + gap + rest;
    assert t == word + (gap + rest);
    TokenOf(word, gap + rest);
    assert t[|word|..] == gap + rest;
    SkipLead(gap, rest);
  }

  /** A chat message; `id` stands for the message object itself. */
  datatype Message = Message(id: nat, content: string)

  /** What `handle_message` does with a message. */
  datatype Dispatch =
    | Ignored                                          // not a command, or an unknown one
    | Launched(hook: Hook, event: Message, text: string)  // launch_command(hook=, event=, event_text=)
    | Crashed(error: PyError)                          // raised out of handle_message

  /** `handle_message`: a message starting with '.' names a command; a
      known command is launched with the text after it. */
  function HandleMessage(commands: map<string, Hook>, m: Message): (d: Dispatch)
    ensures (m.content == [] || m.content[0] != '.') ==> d == Ignored
    ensures d.Crashed? <==> m.content != [] && m.content[0] == '.' && AllSpace(m.content[1..])
    ensures d.Crashed? ==> d.error == IndexError
    ensures d.Launched? ==> d.event == m && d.hook in commands.Values
  {
    if m.content == [] || m.content[0] != '.' then Ignored
    else
      var cmdSplit := SplitOnce(m.content[1..]);
      if |cmdSplit| == 0 then Crashed(IndexError)
      else
        var command := cmdSplit[0];
        if command in commands then
          Launched(commands[command], m, if |cmdSplit| > 1 then cmdSplit[1] else "")
        else Ignored
  }

  /** ".name", optionally followed by whitespace and a text, launches the
      hook registered under `name` with that text (or "" when there is
      none), exactly when `name` is registered; otherwise nothing happens. */
  lemma CommandLaunch(commands: map<string, Hook>, id: nat, lead: string, name: string, gap: string, text: string)
    requires AllSpace(lead) && name != [] && NoSpace(name) && AllSpace(gap)
    requires text != [] ==> gap != [] && !IsSpace(text[0])
    ensures var m := Message(id, "." + lead + name + gap + text);
      HandleMessage(commands, m) == if name in commands then Launched(commands[name], m, text) else Ignored
  {
    var content := "." + lead + name + gap + text;
    assert content[1..] == lead + name + gap + text;
    SplitOnceOf(lead, name, gap, text);
  }

  type ServerId = nat

  /** An event the worker receives from the server. */
  datatype WorkerEvent =
    | MessageEvent(message: Message)
    | ReadyEvent(servers: seq<ServerId>)   // on_ready, with what get_servers answers
    | OtherEvent(kind: string)

  /** What the loop does, in order. */
  datatype Action =
    | Offload(message: Message)      // run_in_thread(handle_message, (payload,))
    | AddServer(server: ServerId)    // plugin_manager.add_new_server
    | LaunchReadyHooks               // launch_hooks_by_event(on_ready)
    | ScheduleTimer(interval: nat)   // run_coroutine_threadsafe(timer_loop(interval))

  const TIMER_INTERVAL: nat := 1

  /** `run_on_ready_work`: raises if already marked ready; otherwise adds
      every server, launches the ready hooks and arms the timer. */
  function ReadyWork(isReady: bool, servers: seq<ServerId>): (r: Result<seq<Action>>)
    ensures isReady <==> r.Err?
    ensures r.Err? ==> r.error == ValueError("Manager already marked as ready")
    ensures r.Ok? ==> |r.value| == |servers| + 2
  {
    if isReady then Err(ValueError("Manager already marked as ready"))
    else Ok(seq(|servers|, i requires 0 <= i < |servers| => AddServer(servers[i]))
            + [LaunchReadyHooks, ScheduleTimer(TIMER_INTERVAL)])
  }

  /** The ready work's order: every server is added, in the order given,
      before the ready hooks run, and the timer is armed only after them. */
  lemma ReadyWorkOrder(servers: seq<ServerId>)
    ensures var w := ReadyWork(false, servers).value;
      && (forall i :: 0 <= i < |servers| ==> w[i] == AddServer(servers[i]))
      && w[|servers|] == LaunchReadyHooks
      && w[|w| - 1] == ScheduleTimer(TIMER_INTERVAL)
      && (forall i :: 0 <= i < |w| && w[i].ScheduleTimer? ==> i == |w| - 1)
  {
  }

  /** The loop's actions so far, and the error that ended it, if any. */
  datatype Trace = Trace(actions: seq<Action>, crashed: Option<PyError>)

  /** `run` over a finite stream of events, with `_is_ready` as given. */
  function RunTrace(isReady: bool, events: seq<WorkerEvent>): Trace {
    if events == [] then Trace([], None)
    else
      var prev := RunTrace(isReady, events[..|events| - 1]);
      if prev.crashed.Some? then prev
      else match events[|events| - 1]
        case MessageEvent(m) => Trace(prev.actions + [Offload(m)], None)
        case ReadyEvent(servers) =>
          (match ReadyWork(isReady, servers)
           case Ok(work) => Trace(prev.actions + work, None)
           case Err(e) => Trace(prev.actions, Some(e)))
        case OtherEvent(_) => prev
  }

  /** The messages of a stream, in arrival order. */
  function Messages(events: seq<WorkerEvent>): seq<Message> {
    if events == [] then []
    else Messages(events[..|events| - 1]) +
         if events[|events| - 1].MessageEvent? then [events[|events| - 1].message] else []
  }

  /** The messages handed to threads, in the order offloaded. */
  function Offloaded(actions: seq<Action>): seq<Message> {
    if actions == [] then []
    else Offloaded(actions[..|actions| - 1]) +
         if actions[|actions| - 1].Offload? then [actions[|actions| - 1].message] else []
  }

  /** How many ready events a stream holds. */
  function ReadyCount(events: seq<WorkerEvent>): nat {
    if events == [] then 0
    else ReadyCount(events[..|events| - 1]) + if events[|events| - 1].ReadyEvent? then 1 else 0
  }

  /** How many times the ready hooks were launched. */
  function LaunchCount(actions: seq<Action>): nat {
    if actions == [] then 0
    else LaunchCount(actions[..|actions| - 1]) + if actions[|actions| - 1] == LaunchReadyHooks then 1 else 0
  }

  lemma {:induction false} OffloadedAppend(a: seq<Action>, b: seq<Action>)
    ensures Offloaded(a + b) == Offloaded(a) + Offloaded(b)
  {
    if b != [] {
      assert (a + b)[..|a + b| - 1] == a + b[..|b| - 1];
      assert (a + b)[|a + b| - 1] == b[|b| - 1];
      OffloadedAppend(a, b[..|b| - 1]);
    } else {
      assert a + b == a;
    }
  }

  lemma {:induction false} LaunchCountAppend(a: seq<Action>, b: seq<Action>)
    ensures LaunchCount(a + b) == LaunchCount(a) + LaunchCount(b)
  {
    if b != [] {
      assert (a + b)[..|a + b| - 1] == a + b[..|b| - 1];
      assert (a + b)[|a + b| - 1] == b[|b| - 1];
      LaunchCountAppend(a, b[..|b| - 1]);
    } else {
      assert a + b == a;
    }
  }

  lemma {:induction false} NoOffloadInReadyWork(servers: seq<ServerId>)
    ensures Offloaded(ReadyWork(false, servers).value) == []
    ensures LaunchCount(ReadyWork(false, servers).value) == 1
  {
    var w := ReadyWork(false, servers).value;
    if servers == [] {
      assert w == [LaunchReadyHooks] + [ScheduleTimer(TIMER_INTERVAL)];
      assert w[..1] == [LaunchReadyHooks];
      assert [LaunchReadyHooks][..0] == [];
    } else {
      var init := servers[..|servers| - 1];
      NoOffloadInReadyWork(init);
      var wi := ReadyWork(false, init).value;
      assert w == [AddServer(servers[0])] + w[1..];
      PrefixWork(servers);
      OffloadedAppend([AddServer(servers[0])], w[1..]);
      LaunchCountAppend([AddServer(servers[0])], w[1..]);
      assert [AddServer(servers[0])][..0] == [];
      assert w[1..] == ReadyWork(false, servers[1..]).value;
      NoOffloadInReadyWork(servers[1..]);
    }
  }

  lemma PrefixWork(servers: seq<ServerId>)
    requires servers != []
    ensures ReadyWork(false, servers).value[1..] == ReadyWork(false, servers[1..]).value
  {
  }

  /** Since `_is_ready` is never set, the guard never fires: the loop
      never stops on a ready event. */
  lemma {:induction false} GuardNeverFires(events: seq<WorkerEvent>)
    ensures RunTrace(false, events).crashed == None
  {
    if events != [] {
      GuardNeverFires(events[..|events| - 1]);
    }
  }

  /** What one event adds to the loop's actions while `_is_ready` is false. */
  function StepActions(e: WorkerEvent): seq<Action> {
    match e
    case MessageEvent(m) => [Offload(m)]
    case ReadyEvent(servers) => ReadyWork(false, servers).value
    case OtherEvent(_) => []
  }

  /** With `_is_ready` false, each event appends its own actions. */
  lemma TraceSnoc(events: seq<WorkerEvent>)
    requires events != []
    ensures RunTrace(false, events).actions ==
              RunTrace(false, events[..|events| - 1]).actions + StepActions(events[|events| - 1])
  {
    GuardNeverFires(events[..|events| - 1]);
    if events[|events| - 1].OtherEvent? {
      assert RunTrace(false, events[..|events| - 1]).actions + [] == RunTrace(false, events[..|events| - 1]).actions;
    }
  }

  /** Only a message event offloads, and only a ready event launches the
      ready hooks, once. */
  lemma StepCounts(e: WorkerEvent)
    ensures Offloaded(StepActions(e)) == if e.MessageEvent? then [e.message] else []
    ensures LaunchCount(StepActions(e)) == if e.ReadyEvent? then 1 else 0
  {
    match e
    case MessageEvent(m) =>
      assert [Offload(m)][..0] == [];
    case ReadyEvent(servers) =>
      NoOffloadInReadyWork(servers);
    case OtherEvent(_) =>
  }

  /** Every message is handed to a thread once, in arrival order, and
      nothing else is. */
  lemma {:induction false} OffloadsInOrder(events: seq<WorkerEvent>)
    ensures Offloaded(RunTrace(false, events).actions) == Messages(events)
  {
    if events != [] {
      var init := events[..|events| - 1];
      OffloadsInOrder(init);
      TraceSnoc(events);
      OffloadedAppend(RunTrace(false, init).actions, StepActions(events[|events| - 1]));
      StepCounts(events[|events| - 1]);
    }
  }

  /** Every ready event re-runs the ready work: the ready hooks are
      launched once per ready event, not once in all. */
  lemma {:induction false} ReadyWorkRepeats(events: seq<WorkerEvent>)
    ensures LaunchCount(RunTrace(false, events).actions) == ReadyCount(events)
  {
    if events != [] {
      var init := events[..|events| - 1];
      ReadyWorkRepeats(init);
      TraceSnoc(events);
      LaunchCountAppend(RunTrace(false, init).actions, StepActions(events[|events| - 1]));
      StepCounts(events[|events| - 1]);
    }
  }

  /** The loop as `run_on_ready_work` evidently means it to run: the ready
      work sets the flag its guard tests, so the loop carries that flag. */
  datatype GuardedLoop = GuardedLoop(isReady: bool, trace: Trace)

  function GuardedRun(events: seq<WorkerEvent>): GuardedLoop {
    if events == [] then GuardedLoop(false, Trace([], None))
    else
      var prev := GuardedRun(events[..|events| - 1]);
      if prev.trace.crashed.Some? then prev
      else match events[|events| - 1]
        case MessageEvent(m) => GuardedLoop(prev.isReady, Trace(prev.trace.actions + [Offload(m)], None))
        case ReadyEvent(servers) =>
          (match ReadyWork(prev.isReady, servers)
           case Ok(work) => GuardedLoop(true, Trace(prev.trace.actions + work, None))
           case Err(e) => GuardedLoop(prev.isReady, Trace(prev.trace.actions, Some(e))))
        case OtherEvent(_) => prev
  }

  /** With the guard's flag set by the ready work, the ready hooks run once
      at most, and a second ready event stops the loop with the guard's
      ValueError. */
  lemma {:induction false} GuardedReadyOnce(events: seq<WorkerEvent>)
    ensures GuardedRun(events).isReady <==> ReadyCount(events) > 0
    ensures LaunchCount(GuardedRun(events).trace.actions) == if ReadyCount(events) > 0 then 1 else 0
    ensures GuardedRun(events).trace.crashed.Some? <==> ReadyCount(events) >= 2
    ensures GuardedRun(events).trace.crashed.Some? ==>
              GuardedRun(events).trace.crashed.value == ValueError("Manager already marked as ready")
  {
    if events != [] {
      var init := events[..|events| - 1];
      GuardedReadyOnce(init);
      var prev := GuardedRun(init);
      if prev.trace.crashed.None? {
        match events[|events| - 1]
        case MessageEvent(m) =>
          LaunchCountAppend(prev.trace.actions, [Offload(m)]);
          assert [Offload(m)][..0] == [];
        case ReadyEvent(servers) =>
          if !prev.isReady {
            LaunchCountAppend(prev.trace.actions, ReadyWork(false, servers).value);
            NoOffloadInReadyWork(servers);
          }
        case OtherEvent(_) =>
      }
    }
  }

  /** A bare ".name" launches the hook registered under `name` with no
      text, or nothing when `name` is not registered. */
  lemma BareCommand(commands: map<string, Hook>, id: nat, name: string)
    requires name != [] && NoSpace(name)
    ensures HandleMessage(commands, Message(id, ['.'] + name)) ==
              if name in commands then Launched(commands[name], Message(id, ['.'] + name), "") else Ignored
  {
    assert (['.'] + name)[1..] == name;
    SplitWord(name);
  }

  /** A lone word splits into itself. */
  lemma SplitWord(word: string)
    requires word != [] && NoSpace(word)
    ensures SplitOnce(word) == [word]
  {
    assert SkipSpace(word) == word;
    assert word + [] == word;
    TokenOf(word, []);
    assert word[|word|..] == [];
  }

  /** With the command table {"ping": h}, ".ping" launches h once, with no text. */
  lemma ScenarioPing(h: Hook)
    ensures HandleMessage(map["ping" := h], Message(1, ".ping")) == Launched(h, Message(1, ".ping"), "")
  {
    assert ['.'] + "ping" == ".ping";
    BareCommand(map["ping" := h], 1, "ping");
  }

  /** With the command table {"ping": h}, ".pong" launches nothing. */
  lemma ScenarioPong(h: Hook)
    ensures HandleMessage(map["ping" := h], Message(2, ".pong")) == Ignored
  {
    assert ['.'] + "pong" == ".pong";
    BareCommand(map["ping" := h], 2, "pong");
  }

  /** Two messages and two ready events: both messages are offloaded in
      order, and each ready event adds the servers, launches the ready
      hooks and arms the timer again. */
  lemma ScenarioTrace(ping: Message, pong: Message, s: ServerId)
    ensures RunTrace(false, [MessageEvent(ping), MessageEvent(pong), ReadyEvent([s]), ReadyEvent([s])]) ==
              Trace([Offload(ping), Offload(pong),
                     AddServer(s), LaunchReadyHooks, ScheduleTimer(TIMER_INTERVAL),
                     AddServer(s), LaunchReadyHooks, ScheduleTimer(TIMER_INTERVAL)], None)
  {
    var work := [AddServer(s), LaunchReadyHooks, ScheduleTimer(TIMER_INTERVAL)];
    assert ReadyWork(false, [s]).value == work;
    var e1 := [MessageEvent(ping)];
    assert e1[..0] == [];
    assert RunTrace(false, e1) == Trace([Offload(ping)], None);
    var e2 := e1 + [MessageEvent(pong)];
    assert e2[..1] == e1;
    assert RunTrace(false, e2) == Trace([Offload(ping), Offload(pong)], None);
    var e3 := e2 + [ReadyEvent([s])];
    assert e3[..2] == e2;
    assert RunTrace(false, e3) == Trace([Offload(ping), Offload(pong)] + work, None);
    var e4 := e3 + [ReadyEvent([s])];
    assert e4[..3] == e3;
    assert e4 == [MessageEvent(ping), MessageEvent(pong), ReadyEvent([s]), ReadyEvent([s])];
  }

  /** The worker process: the command table it serves, its readiness
      flags, and the actions it has taken. */
  class PythonWorker {
    const commands: map<string, Hook>
    /** `_is_ready`: read by the guard, never assigned after construction. */
    var isReady: bool
    /** `_on_ready`: the flag the ready work actually sets. */
    var onReady: bool
    var actions: seq<Action>

    constructor(commands: map<string, Hook>)
      ensures this.commands == commands && !isReady && !onReady && actions == []
    {
      this.commands := commands;
      isReady := false;
      onReady := false;
      actions := [];
    }

    /** `run_on_ready_work`, with `servers` as get_servers' answer. */
    method RunOnReadyWork(servers: seq<ServerId>) returns (r: Outcome)
      modifies this`onReady, this`actions
      ensures ReadyWork(isReady, servers).Err? ==>
                r == Fail(ReadyWork(isReady, servers).error) && unchanged(this)
      ensures ReadyWork(isReady, servers).Ok? ==>
                r == Pass && onReady
      ensures ReadyWork(isReady, servers).Ok? ==> actions == old(actions) + ReadyWork(isReady, servers).value
    {
      if isReady {
        return Fail(ValueError("Manager already marked as ready"));
      }
      onReady := true;
      ghost var before := actions;
      ghost var work := ReadyWork(isReady, servers).value;
      var i := 0;
      while i < |servers|
        invariant 0 <= i <= |servers| && onReady
        invariant actions == before + seq(i, j requires 0 <= j < i => AddServer(servers[j]))
      {
        assert seq(i + 1, j requires 0 <= j < i + 1 => AddServer(servers[j]))
            == seq(i, j requires 0 <= j < i => AddServer(servers[j])) + [AddServer(servers[i])];
        actions := actions + [AddServer(servers[i])];
        i := i + 1;
      }
      assert work == seq(i, j requires 0 <= j < i => AddServer(servers[j])) + [LaunchReadyHooks, ScheduleTimer(TIMER_INTERVAL)];
      actions := actions + [LaunchReadyHooks, ScheduleTimer(TIMER_INTERVAL)];
      assert actions == before + work;
      return Pass;
    }

    /** `run` over the events `get_event` delivers, in order, until they
        run out or a ready event raises. */
    method Run(events: seq<WorkerEvent>) returns (r: Outcome)
      modifies this`onReady, this`actions
      ensures actions == old(actions) + RunTrace(isReady, events).actions
      ensures r == (match RunTrace(isReady, events).crashed case None => Pass case Some(e) => Fail(e))
      ensures onReady == (old(onReady) || (!isReady && ReadyCount(events) > 0))
    {
      ghost var before := actions;
      ghost var wasOnReady := onReady;
      var i := 0;
      while i < |events|
        invariant 0 <= i <= |events|
        invariant RunTrace(isReady, events[..i]).crashed == None
        invariant actions == before + RunTrace(isReady, events[..i]).actions
        invariant onReady == (wasOnReady || (!isReady && ReadyCount(events[..i]) > 0))
      {
        assert events[..i + 1][..i] == events[..i];
        match events[i] {
          case MessageEvent(m) =>
            actions := actions + [Offload(m)];
          case ReadyEvent(servers) =>
            var ready := RunOnReadyWork(servers);
            if ready.Fail? {
              RunStops(isReady, events, i + 1);
              return ready;
            }
          case OtherEvent(_) =>
        }
        i := i + 1;
      }
      assert events[..i] == events;
      return Pass;
    }
  }

  /** Once the loop has stopped, later events change nothing. */
  lemma {:induction false} RunStops(isReady: bool, events: seq<WorkerEvent>, n: nat)
    requires n <= |events| && RunTrace(isReady, events[..n]).crashed.Some?
    ensures RunTrace(isReady, events) == RunTrace(isReady, events[..n])
  {
    if n < |events| {
      assert events[..|events| - 1][..n] == events[..n];
      RunStops(isReady, events[..|events| - 1], n);
    } else {
      assert events[..n] == events;
    }
  }
}
