/**
 * The periodic sweeps that drive the synchronisation of every registered
 * ODK form (odk2gn/tasks.py).
 *
 * A sweep walks the registered forms in query order. For each form it logs a
 * start line, scans a command table and calls back every command whose name
 * equals the form's declared upgrade command name, logs an end line and
 * pauses. Everything a sweep does is recorded as a trace of events; the ideal
 * trace (no callback raises) is the function Sweep, and the loop RunSweep is
 * proved to produce a prefix of it that stops at the first callback raising.
 */
module Tasks {

  // ---------------------------------------------------------------------------
  // Data model
  // ---------------------------------------------------------------------------

  /** The value of one keyword argument given to a command callback. */
  datatype Arg = Str(s: string) | Int(i: int) | Bool(b: bool)

  /** Keyword arguments of a callback, by parameter name. */
  type Kwargs = map<string, Arg>

  /** The GeoNature module a form belongs to. */
  datatype Module = Module(moduleCode: string, moduleType: string)

  /** A registered form (one row of TOdkForm). */
  datatype OdkForm = OdkForm(
    gnModule: Module,
    odkProjectId: int,
    odkFormId: string,
    synchronizeCommandName: string,
    upgradeCommandName: string)

  /** One entry of a command group's table: the table key and the command's own name. */
  datatype Command = Command(key: string, name: string)

  /** Which of the two periodic tasks is running. */
  datatype Intent = Synchronize | Upgrade

  /** The two info lines the sweep logs around each form. */
  datatype LogLine = Started(intent: Intent, moduleCode: string) | Finished(intent: Intent, moduleCode: string)

  /** What a sweep does, in order: log lines, callbacks and the pause after each form. */
  datatype Event =
    | Info(line: LogLine)
    | Callback(command: Command, kwargs: Kwargs)
    | Pause

  const MonitoringModule: string := "monitoring_module"

  /** The flags the upgrade sweep passes, all false, to a monitoring module's command. */
  const SkipFlags: seq<string> :=
    ["skip_taxons", "skip_sites", "skip_jdd", "skip_sites_groups", "skip_nomenclatures", "skip_observers"]

  // ---------------------------------------------------------------------------
  // Specification of one sweep
  // ---------------------------------------------------------------------------

  /** The keyword arguments a matched command receives for this form. */
  function CallbackArguments(intent: Intent, form: OdkForm): Kwargs
  {
    if form.gnModule.moduleType == MonitoringModule then
      var ids := map[
        "module_code" := Str(form.gnModule.moduleCode),
        "project_id" := Int(form.odkProjectId),
        "form_id" := Str(form.odkFormId)];
      if intent == Upgrade then
        ids + map[
          "skip_taxons" := Bool(false),
          "skip_sites" := Bool(false),
          "skip_jdd" := Bool(false),
          "skip_sites_groups" := Bool(false),
          "skip_nomenclatures" := Bool(false),
          "skip_observers" := Bool(false)]
      else ids
    else
      map["project_id" := Int(form.odkProjectId), "form_id" := Str(form.odkFormId)]
  }

  /** The commands of the table whose name is `name`, in table order. */
  function Matching(registry: seq<Command>, name: string): (m: seq<Command>)
    ensures |m| <= |registry|
    ensures forall c :: c in m <==> c in registry && c.name == name
  {
    if registry == [] then []
    else
      var last := registry[|registry| - 1];
      assert registry == registry[..|registry| - 1] + [last];
      Matching(registry[..|registry| - 1], name) + (if last.name == name then [last] else [])
  }

  /** The callbacks the scan of `registry` makes for one form. */
  function Callbacks(intent: Intent, form: OdkForm, registry: seq<Command>): seq<Event>
  {
    if registry == [] then []
    else
      var last := registry[|registry| - 1];
      Callbacks(intent, form, registry[..|registry| - 1])
        + (if last.name == form.upgradeCommandName
           then [Callback(last, CallbackArguments(intent, form))] else [])
  }

  /** Everything the sweep does for one form when no callback raises. */
  function FormEvents(intent: Intent, form: OdkForm, registry: seq<Command>): seq<Event>
  {
    [Info(Started(intent, form.gnModule.moduleCode))]
      + Callbacks(intent, form, registry)
      + [Info(Finished(intent, form.gnModule.moduleCode)), Pause]
  }

  /** Everything a sweep over `forms` does when no callback raises. */
  function Sweep(intent: Intent, forms: seq<OdkForm>, registry: seq<Command>): seq<Event>
  {
    ConcatMap(form => FormEvents(intent, form, registry), forms)
  }

  /** The blocks f(xs[0]), f(xs[1]), ... one after the other. */
  function ConcatMap<A, B>(f: A -> seq<B>, xs: seq<A>): seq<B>
  {
    if xs == [] then [] else ConcatMap(f, xs[..|xs| - 1]) + f(xs[|xs| - 1])
  }

  /** The number of callbacks in a trace. */
  function CallbackCount(trace: seq<Event>): nat
  {
    if trace == [] then 0
    else CallbackCount(trace[..|trace| - 1]) + (if trace[|trace| - 1].Callback? then 1 else 0)
  }

  /** The number of pauses in a trace. */
  function PauseCount(trace: seq<Event>): nat
  {
    if trace == [] then 0
    else PauseCount(trace[..|trace| - 1]) + (if trace[|trace| - 1].Pause? then 1 else 0)
  }

  /**
   * What a run whose callbacks are numbered from `base` has done when the
   * n-th callback raises exactly when raises(n): with `completed`, all of
   * `ideal` and no callback raised; otherwise a prefix of `ideal` ending with
   * the first callback that raised.
   */
  ghost predicate RunOutcome(ideal: seq<Event>, raises: nat -> bool, base: nat, trace: seq<Event>, completed: bool)
  {
    && (completed ==> trace == ideal)
    && (!completed ==>
          && trace <= ideal
          && trace != [] && trace[|trace| - 1].Callback?
          && raises(base + CallbackCount(trace) - 1))
    && (forall n :: base <= n < base + CallbackCount(trace) - (if completed then 0 else 1) ==> !raises(n))
  }

  /** What a whole sweep has done: a run of its ideal trace from the first callback. */
  ghost predicate SweepOutcome(intent: Intent, forms: seq<OdkForm>, registry: seq<Command>,
                               raises: nat -> bool, trace: seq<Event>, completed: bool)
  {
    RunOutcome(Sweep(intent, forms, registry), raises, 0, trace, completed)
  }

  // ---------------------------------------------------------------------------
  // The sweeps
  // ---------------------------------------------------------------------------

  /**
   * One sweep over the registered forms. The n-th callback made (from 0)
   * raises exactly when raises(n); nothing catches it, so it ends the sweep.
   */
  method RunSweep(intent: Intent, forms: seq<OdkForm>, registry: seq<Command>, raises: nat -> bool)
    returns (trace: seq<Event>, completed: bool)
    ensures SweepOutcome(intent, forms, registry, raises, trace, completed)
  {
    trace := [];
    var calls := 0;
    for i := 0 to |forms|
      invariant trace == Sweep(intent, forms[..i], registry)
      invariant calls == CallbackCount(trace)
      invariant forall n :: 0 <= n < calls ==> !raises(n)
    {
      var events, formCompleted := VisitForm(intent, forms[i], registry, raises, calls);
      if !formCompleted {
        SweepAborts(intent, forms, registry, raises, i, events);
        return trace + events, false;
      }
      SweepContinues(intent, forms, registry, raises, i, events);
      trace := trace + events;
      calls := calls + CallbackCount(events);
    }
    assert forms[..|forms|] == forms;
    completed := true;
  }

  /**
   * The body of the sweep for one form: log the start, call back every
   * matching command, log the end and pause. `calls` callbacks were made
   * before this form.
   */
  method VisitForm(intent: Intent, form: OdkForm, registry: seq<Command>, raises: nat -> bool, calls: nat)
    returns (events: seq<Event>, completed: bool)
    ensures RunOutcome(FormEvents(intent, form, registry), raises, calls, events, completed)
  {
    var start := Info(Started(intent, form.gnModule.moduleCode));
    var made := [];
    for j := 0 to |registry|
      invariant made == Callbacks(intent, form, registry[..j])
      invariant forall n :: calls <= n < calls + |made| ==> !raises(n)
    {
      var cmd := registry[j];
      CallbacksStep(intent, form, registry, j);
      if form.upgradeCommandName == cmd.name {
        made := made + [Callback(cmd, CallbackArguments(intent, form))];
        if raises(calls + |made| - 1) {
          CallbacksPrefix(intent, form, registry, j);
          CallbacksAreCallbacks(intent, form, registry[..j + 1]);
          VisitOutcome(start, made, calls);
          return [start] + made, false;
        }
      }
    }
    assert registry[..|registry|] == registry;
    events := [start] + made + [Info(Finished(intent, form.gnModule.moduleCode)), Pause];
    CallbacksAreCallbacks(intent, form, registry);
    VisitOutcome(start, made, calls);
    CallbackCountAppend([start] + made, [Info(Finished(intent, form.gnModule.moduleCode)), Pause]);
    ClosingCounts(Finished(intent, form.gnModule.moduleCode));
    completed := true;
  }

  /** synchronize_all_modules: the sweep over the synchronize command table. */
  method SynchronizeAllModules(forms: seq<OdkForm>, synchronizeCommands: seq<Command>, raises: nat -> bool)
    returns (trace: seq<Event>, completed: bool)
    ensures SweepOutcome(Synchronize, forms, synchronizeCommands, raises, trace, completed)
  {
    trace, completed := RunSweep(Synchronize, forms, synchronizeCommands, raises);
  }

  /** upgrade_all_forms: the sweep over the upgrade command table. */
  method UpgradeAllForms(forms: seq<OdkForm>, upgradeCommands: seq<Command>, raises: nat -> bool)
    returns (trace: seq<Event>, completed: bool)
    ensures SweepOutcome(Upgrade, forms, upgradeCommands, raises, trace, completed)
  {
    trace, completed := RunSweep(Upgrade, forms, upgradeCommands, raises);
  }

  // ---------------------------------------------------------------------------
  // Lemmas used by the loop
  // ---------------------------------------------------------------------------

  lemma CallbacksStep(intent: Intent, form: OdkForm, registry: seq<Command>, j: nat)
    requires j < |registry|
    ensures Callbacks(intent, form, registry[..j + 1])
            == Callbacks(intent, form, registry[..j])
               + (if registry[j].name == form.upgradeCommandName
                  then [Callback(registry[j], CallbackArguments(intent, form))] else [])
  {
    assert registry[..j + 1][..j] == registry[..j];
  }

  lemma SweepStep(intent: Intent, forms: seq<OdkForm>, registry: seq<Command>, i: nat)
    requires i < |forms|
    ensures Sweep(intent, forms[..i + 1], registry)
            == Sweep(intent, forms[..i], registry) + FormEvents(intent, forms[i], registry)
  {
    assert forms[..i + 1][..i] == forms[..i];
  }

  /** Callback counting over the events of a visit: every event after the start line is a callback. */
  lemma VisitOutcome(start: Event, made: seq<Event>, calls: nat)
    requires start.Info?
    requires forall e :: e in made ==> e.Callback?
    ensures CallbackCount([start] + made) == |made|
  {
    CallbackCountAppend([start], made);
    assert [start][..0] == [];
    AllCallbacksCount(made);
  }

  /** The end line and the pause after a form: no callback, one pause. */
  lemma ClosingCounts(line: LogLine)
    ensures CallbackCount([Info(line), Pause]) == 0
    ensures PauseCount([Info(line), Pause]) == 1
  {
    var one := [Info(line)];
    var two := [Info(line), Pause];
    assert one[..0] == [];
    assert CallbackCount(one) == CallbackCount([]) + 0 == 0;
    assert PauseCount(one) == PauseCount([]) + 0 == 0;
    assert two[..1] == one;
    assert CallbackCount(two) == CallbackCount(one) + 0;
    assert PauseCount(two) == PauseCount(one) + 1;
  }

  lemma {:induction false} AllCallbacksCount(trace: seq<Event>)
    requires forall e :: e in trace ==> e.Callback?
    ensures CallbackCount(trace) == |trace|
  {
    if trace != [] {
      assert trace[|trace| - 1] in trace;
      AllCallbacksCount(trace[..|trace| - 1]);
    }
  }

  /** The scan of a table makes callbacks only. */
  lemma {:induction false} CallbacksAreCallbacks(intent: Intent, form: OdkForm, registry: seq<Command>)
    ensures forall e :: e in Callbacks(intent, form, registry) ==> e.Callback?
  {
    if registry != [] {
      CallbacksAreCallbacks(intent, form, registry[..|registry| - 1]);
    }
  }

  lemma {:induction false} CallbackCountAppend(a: seq<Event>, b: seq<Event>)
    ensures CallbackCount(a + b) == CallbackCount(a) + CallbackCount(b)
    decreases |b|
  {
    if b != [] {
      assert (a + b)[..|a + b| - 1] == a + b[..|b| - 1];
      CallbackCountAppend(a, b[..|b| - 1]);
    } else {
      assert a + b == a;
    }
  }

  lemma {:induction false} PauseCountAppend(a: seq<Event>, b: seq<Event>)
    ensures PauseCount(a + b) == PauseCount(a) + PauseCount(b)
    decreases |b|
  {
    if b != [] {
      assert (a + b)[..|a + b| - 1] == a + b[..|b| - 1];
      PauseCountAppend(a, b[..|b| - 1]);
    } else {
      assert a + b == a;
    }
  }

  /** Scanning a table in two parts makes the callbacks of each part, in order. */
  lemma {:induction false} CallbacksAppend(intent: Intent, form: OdkForm, a: seq<Command>, b: seq<Command>)
    ensures Callbacks(intent, form, a + b) == Callbacks(intent, form, a) + Callbacks(intent, form, b)
    decreases |b|
  {
    if b == [] {
      assert a + b == a;
    } else {
      assert (a + b)[..|a + b| - 1] == a + b[..|b| - 1];
      CallbacksAppend(intent, form, a, b[..|b| - 1]);
    }
  }

  /** A sweep over two runs of forms is the sweep over the first, then over the second. */
  lemma SweepAppend(intent: Intent, a: seq<OdkForm>, b: seq<OdkForm>, registry: seq<Command>)
    ensures Sweep(intent, a + b, registry) == Sweep(intent, a, registry) + Sweep(intent, b, registry)
  {
    ConcatMapAppend(form => FormEvents(intent, form, registry), a, b);
  }

  lemma {:induction false} ConcatMapAppend<A, B>(f: A -> seq<B>, a: seq<A>, b: seq<A>)
    ensures ConcatMap(f, a + b) == ConcatMap(f, a) + ConcatMap(f, b)
    decreases |b|
  {
    if b == [] {
      assert a + b == a;
    } else {
      var n := |b| - 1;
      assert (a + b)[..|a + b| - 1] == a + b[..n];
      assert (a + b)[|a + b| - 1] == b[n];
      ConcatMapAppend(f, a, b[..n]);
    }
  }

  /** A callback raising during the visit of forms[i] ends the sweep as SweepOutcome says. */
  lemma SweepAborts(intent: Intent, forms: seq<OdkForm>, registry: seq<Command>, raises: nat -> bool,
                    i: nat, events: seq<Event>)
    requires i < |forms|
    requires forall n :: 0 <= n < CallbackCount(Sweep(intent, forms[..i], registry)) ==> !raises(n)
    requires RunOutcome(FormEvents(intent, forms[i], registry), raises,
                        CallbackCount(Sweep(intent, forms[..i], registry)), events, false)
    ensures SweepOutcome(intent, forms, registry, raises, Sweep(intent, forms[..i], registry) + events, false)
  {
    FormBlockInSweep(intent, forms, registry, i);
    AbortedAfter(Sweep(intent, forms[..i], registry), FormEvents(intent, forms[i], registry),
                 Sweep(intent, forms[i + 1..], registry), raises, events);
  }

  /**
   * A run that raised inside `block`, after `done` ran through without a
   * raise, is a raised run of done + block + rest.
   */
  lemma AbortedAfter(done: seq<Event>, block: seq<Event>, rest: seq<Event>, raises: nat -> bool, events: seq<Event>)
    requires forall n :: 0 <= n < CallbackCount(done) ==> !raises(n)
    requires RunOutcome(block, raises, CallbackCount(done), events, false)
    ensures RunOutcome(done + block + rest, raises, 0, done + events, false)
  {
    CallbackCountAppend(done, events);
    PrefixInside(done, events, block, rest);
    assert (done + events)[|done + events| - 1] == events[|events| - 1];
  }

  /** A visit of forms[i] with no callback raising extends the sweep by that form's block. */
  lemma SweepContinues(intent: Intent, forms: seq<OdkForm>, registry: seq<Command>, raises: nat -> bool,
                       i: nat, events: seq<Event>)
    requires i < |forms|
    requires forall n :: 0 <= n < CallbackCount(Sweep(intent, forms[..i], registry)) ==> !raises(n)
    requires RunOutcome(FormEvents(intent, forms[i], registry), raises,
                        CallbackCount(Sweep(intent, forms[..i], registry)), events, true)
    ensures Sweep(intent, forms[..i + 1], registry) == Sweep(intent, forms[..i], registry) + events
    ensures CallbackCount(Sweep(intent, forms[..i + 1], registry))
            == CallbackCount(Sweep(intent, forms[..i], registry)) + CallbackCount(events)
    ensures forall n :: 0 <= n < CallbackCount(Sweep(intent, forms[..i + 1], registry)) ==> !raises(n)
  {
    SweepStep(intent, forms, registry, i);
    CallbackCountAppend(Sweep(intent, forms[..i], registry), events);
  }

  /** The events of a form up to the callback of registry[j] are a prefix of its events. */
  lemma CallbacksPrefix(intent: Intent, form: OdkForm, registry: seq<Command>, j: nat)
    requires j < |registry|
    ensures [Info(Started(intent, form.gnModule.moduleCode))] + Callbacks(intent, form, registry[..j + 1])
            <= FormEvents(intent, form, registry)
  {
    assert registry == registry[..j + 1] + registry[j + 1..];
    CallbacksAppend(intent, form, registry[..j + 1], registry[j + 1..]);
    PrefixInside([], [Info(Started(intent, form.gnModule.moduleCode))] + Callbacks(intent, form, registry[..j + 1]),
                 [Info(Started(intent, form.gnModule.moduleCode))] + Callbacks(intent, form, registry),
                 [Info(Finished(intent, form.gnModule.moduleCode)), Pause]);
  }

  /** A prefix of the middle part of a concatenation, with what comes before it, is a prefix of the whole. */
  lemma PrefixInside<T>(a: seq<T>, b: seq<T>, c: seq<T>, d: seq<T>)
    requires b <= c
    ensures a + b <= a + c + d
  {
    assert c == b + c[|b|..];
    assert a + c + d == (a + b) + (c[|b|..] + d);
  }

  // ---------------------------------------------------------------------------
  // Properties of the sweep
  // ---------------------------------------------------------------------------

  /** Matching keeps table order: the matches of a split table are the matches of each part. */
  lemma {:induction false} MatchingAppend(a: seq<Command>, b: seq<Command>, name: string)
    ensures Matching(a + b, name) == Matching(a, name) + Matching(b, name)
    decreases |b|
  {
    if b == [] {
      assert a + b == a;
    } else {
      assert (a + b)[..|a + b| - 1] == a + b[..|b| - 1];
      MatchingAppend(a, b[..|b| - 1], name);
    }
  }

  /**
   * A form's callbacks are exactly the table entries named like its upgrade
   * command, in table order, each with the form's arguments.
   */
  lemma {:induction false} CallbacksAreMatches(intent: Intent, form: OdkForm, registry: seq<Command>)
    ensures var m := Matching(registry, form.upgradeCommandName);
            && |Callbacks(intent, form, registry)| == |m|
            && forall k :: 0 <= k < |m| ==>
                 Callbacks(intent, form, registry)[k] == Callback(m[k], CallbackArguments(intent, form))
  {
    if registry != [] {
      CallbacksAreMatches(intent, form, registry[..|registry| - 1]);
    }
  }

  /** A form whose upgrade command name is in no table entry gets no callback. */
  lemma NoMatchNoCallback(intent: Intent, form: OdkForm, registry: seq<Command>)
    requires forall c :: c in registry ==> c.name != form.upgradeCommandName
    ensures FormEvents(intent, form, registry)
            == [Info(Started(intent, form.gnModule.moduleCode)), Info(Finished(intent, form.gnModule.moduleCode)), Pause]
  {
    CallbacksAreMatches(intent, form, registry);
    MatchingNone(registry, form.upgradeCommandName);
  }

  lemma {:induction false} MatchingNone(registry: seq<Command>, name: string)
    requires forall c :: c in registry ==> c.name != name
    ensures Matching(registry, name) == []
  {
    if registry != [] {
      assert registry[|registry| - 1] in registry;
      MatchingNone(registry[..|registry| - 1], name);
    }
  }

  /**
   * Forms are visited in order, each once: the sweep is the form blocks one
   * after the other, the block of forms[i] standing between the sweep of the
   * forms before it and the sweep of the forms after it.
   */
  lemma FormBlockInSweep(intent: Intent, forms: seq<OdkForm>, registry: seq<Command>, i: nat)
    requires i < |forms|
    ensures Sweep(intent, forms, registry)
            == Sweep(intent, forms[..i], registry)
               + FormEvents(intent, forms[i], registry)
               + Sweep(intent, forms[i + 1..], registry)
  {
    assert forms == forms[..i] + [forms[i]] + forms[i + 1..];
    SweepAppend(intent, forms[..i] + [forms[i]], forms[i + 1..], registry);
    SweepAppend(intent, forms[..i], [forms[i]], registry);
    assert [forms[i]][..0] == [];
  }

  /** Callbacks never pause. */
  lemma {:induction false} CallbacksHaveNoPause(intent: Intent, form: OdkForm, registry: seq<Command>)
    ensures PauseCount(Callbacks(intent, form, registry)) == 0
  {
    if registry != [] {
      var last := registry[|registry| - 1];
      var tail := if last.name == form.upgradeCommandName
                  then [Callback(last, CallbackArguments(intent, form))] else [];
      CallbacksHaveNoPause(intent, form, registry[..|registry| - 1]);
      PauseCountAppend(Callbacks(intent, form, registry[..|registry| - 1]), tail);
      assert tail != [] ==> tail[..0] == [];
    }
  }

  /** The sweep pauses exactly once per form. */
  lemma {:induction false} OnePausePerForm(intent: Intent, forms: seq<OdkForm>, registry: seq<Command>)
    ensures PauseCount(Sweep(intent, forms, registry)) == |forms|
  {
    if forms != [] {
      var form := forms[|forms| - 1];
      OnePausePerForm(intent, forms[..|forms| - 1], registry);
      var cbs := Callbacks(intent, form, registry);
      CallbacksHaveNoPause(intent, form, registry);
      PauseCountAppend(Sweep(intent, forms[..|forms| - 1], registry), FormEvents(intent, form, registry));
      PauseCountAppend([Info(Started(intent, form.gnModule.moduleCode))] + cbs, [Info(Finished(intent, form.gnModule.moduleCode)), Pause]);
      PauseCountAppend([Info(Started(intent, form.gnModule.moduleCode))], cbs);
      assert [Info(Started(intent, form.gnModule.moduleCode))][..0] == [];
      assert [Info(Finished(intent, form.gnModule.moduleCode)), Pause][..1] == [Info(Finished(intent, form.gnModule.moduleCode))];
      assert [Info(Finished(intent, form.gnModule.moduleCode))][..0] == [];
    }
  }

  /**
   * Every callback of a sweep is a table entry named like the upgrade command
   * of some visited form, called with that form's arguments.
   */
  lemma {:induction false} SweepCallbacksComeFromForms(intent: Intent, forms: seq<OdkForm>, registry: seq<Command>)
    ensures forall e :: e in Sweep(intent, forms, registry) && e.Callback? ==>
              && e.command in registry
              && exists form :: form in forms && e.command.name == form.upgradeCommandName
                                 && e.kwargs == CallbackArguments(intent, form)
  {
    if forms != [] {
      var form := forms[|forms| - 1];
      var rest := forms[..|forms| - 1];
      SweepCallbacksComeFromForms(intent, rest, registry);
      CallbacksAreMatches(intent, form, registry);
      var m := Matching(registry, form.upgradeCommandName);
      forall e | e in Sweep(intent, forms, registry) && e.Callback?
        ensures && e.command in registry
                && exists f :: f in forms && e.command.name == f.upgradeCommandName
                                 && e.kwargs == CallbackArguments(intent, f)
      {
        if e in Sweep(intent, rest, registry) {
          var f :| f in rest && e.command.name == f.upgradeCommandName && e.kwargs == CallbackArguments(intent, f);
          assert f in forms;
        } else {
          assert e in Callbacks(intent, form, registry);
          var k :| 0 <= k < |Callbacks(intent, form, registry)| && Callbacks(intent, form, registry)[k] == e;
          assert m[k] in m;
          assert form in forms;
        }
      }
    }
  }

  /** The arguments a matched command receives, by module type and intent. */
  lemma CallbackArgumentsByModuleType(intent: Intent, form: OdkForm)
    ensures var kw := CallbackArguments(intent, form);
            form.gnModule.moduleType == MonitoringModule ==>
              && kw["module_code"] == Str(form.gnModule.moduleCode)
              && kw["project_id"] == Int(form.odkProjectId)
              && kw["form_id"] == Str(form.odkFormId)
              && (intent == Upgrade ==> forall flag :: flag in SkipFlags ==> flag in kw && kw[flag] == Bool(false))
              && (intent == Upgrade ==> kw.Keys == {"module_code", "project_id", "form_id", "skip_taxons",
                                                    "skip_sites", "skip_jdd", "skip_sites_groups",
                                                    "skip_nomenclatures", "skip_observers"})
              && (intent == Synchronize ==> kw.Keys == {"module_code", "project_id", "form_id"})
    ensures var kw := CallbackArguments(intent, form);
            form.gnModule.moduleType != MonitoringModule ==>
              && kw.Keys == {"project_id", "form_id"}
              && kw["project_id"] == Int(form.odkProjectId)
              && kw["form_id"] == Str(form.odkFormId)
  {
  }

  /**
   * Both sweeps key on the upgrade command name: the synchronize command name
   * a form declares changes nothing in any sweep.
   */
  lemma {:induction false} SweepIgnoresSynchronizeName(intent: Intent, forms: seq<OdkForm>, forms': seq<OdkForm>,
                                                       registry: seq<Command>)
    requires |forms'| == |forms|
    requires forall i :: 0 <= i < |forms| ==>
               forms'[i] == forms[i].(synchronizeCommandName := forms'[i].synchronizeCommandName)
    ensures Sweep(intent, forms', registry) == Sweep(intent, forms, registry)
  {
    if forms != [] {
      var n := |forms| - 1;
      SweepIgnoresSynchronizeName(intent, forms[..n], forms'[..n], registry);
      CallbacksIgnoreSynchronizeName(intent, forms[n], forms'[n], registry);
    }
  }

  lemma {:induction false} CallbacksIgnoreSynchronizeName(intent: Intent, form: OdkForm, form': OdkForm,
                                                          registry: seq<Command>)
    requires form' == form.(synchronizeCommandName := form'.synchronizeCommandName)
    ensures Callbacks(intent, form', registry) == Callbacks(intent, form, registry)
  {
    if registry != [] {
      CallbacksIgnoreSynchronizeName(intent, form, form', registry[..|registry| - 1]);
    }
  }

  // ---------------------------------------------------------------------------
  // Schedule (setup_periodic_tasks)
  // ---------------------------------------------------------------------------

  /** One field of a crontab: a fixed value, or every value divisible by a step. */
  datatype CronField = At(value: nat) | Every(step: nat)

  datatype Crontab = Crontab(minute: CronField, hour: CronField)

  datatype PeriodicTask = PeriodicTask(schedule: Crontab, intent: Intent, name: string)

  predicate FieldMatches(field: CronField, v: nat)
  {
    match field
    case At(x) => v == x
    case Every(step) => step > 0 && v % step == 0
  }

  /** Whether the crontab fires at hour:minute of a day. */
  predicate Fires(schedule: Crontab, hour: nat, minute: nat)
  {
    hour < 24 && minute < 60 && FieldMatches(schedule.minute, minute) && FieldMatches(schedule.hour, hour)
  }

  // crontab(minute=0, hour="*/1")
  const SynchronizeSchedule: Crontab := Crontab(At(0), Every(1))

  // crontab(minute=0, hour=12)
  const UpgradeSchedule: Crontab := Crontab(At(0), At(12))

  const SynchronizeTask: PeriodicTask := PeriodicTask(SynchronizeSchedule, Synchronize, "synchronize_monitoring_modules")
  const UpgradeTask: PeriodicTask := PeriodicTask(UpgradeSchedule, Upgrade, "upgrade_monitoring_modules")

  /** The periodic tasks of the worker, as registered with the scheduler. */
  class Beat {
    var entries: seq<PeriodicTask>

    constructor ()
      ensures entries == []
    {
      entries := [];
    }

    method AddPeriodicTask(task: PeriodicTask)
      modifies this
      ensures entries == old(entries) + [task]
    {
      entries := entries + [task];
    }
  }

  /** setup_periodic_tasks: registers the synchronize sweep, then the upgrade sweep. */
  method SetupPeriodicTasks(sender: Beat)
    modifies sender
    ensures sender.entries == old(sender.entries) + [SynchronizeTask, UpgradeTask]
  {
    sender.AddPeriodicTask(SynchronizeTask);
    sender.AddPeriodicTask(UpgradeTask);
  }

  /** The synchronize sweep runs at minute 0 of every hour, the upgrade sweep daily at 12:00. */
  lemma ScheduleTimes(hour: nat, minute: nat)
    requires hour < 24 && minute < 60
    ensures Fires(SynchronizeTask.schedule, hour, minute) <==> minute == 0
    ensures Fires(UpgradeTask.schedule, hour, minute) <==> hour == 12 && minute == 0
  {
  }
}
