/** The application object of liblava/app/app.cpp with its run callbacks
    written as statements that change its fields one at a time. Each method
    is proved to do exactly what the matching function of AppSpec says:
    same result, same new state, and the same actions appended to the
    record of what the collaborators were asked to do. */
module AppRuns {
  import opened Wrappers
  import opened WindowFile
  import opened AppSpec

  /** The collaborators of the application (window, device, target,
      shading, plotter, GUI, camera, block, file system) seen through the
      requests they receive: `trace` lists those requests, oldest first. */
  class Recorder {
    var trace: seq<Action>

    constructor()
      ensures trace == []
    {
      trace := [];
    }

    method Record(a: Action)
      modifies this
      ensures trace == old(trace) + [a]
    {
      trace := trace + [a];
    }
  }

  /** `(a + b) + c == a + (b + c)`, for the records built step by step. */
  lemma Assoc(a: seq<Action>, b: seq<Action>, c: seq<Action>)
    ensures (a + b) + c == a + (b + c)
  {
  }

  /** Four single appends make one append of the four. */
  lemma AppendFour(t: seq<Action>, a: Action, b: Action, c: Action, d: Action)
    ensures t + [a] + [b] + [c] + [d] == t + [a, b, c, d]
  {
  }

  /** Five single appends make one append of the five. */
  lemma AppendFive(t: seq<Action>, a: Action, b: Action, c: Action, d: Action, e: Action)
    ensures t + [a] + [b] + [c] + [d] + [e] == t + [a, b, c, d, e]
  {
  }

  class App {
    const cfg: AppConfig
    var vSync: bool
    var toggleVSync: bool
    var paused: bool
    var guiActive: bool
    var system: int
    var current: int
    var delta: int
    var frameCounter: nat
    var registered: seq<Registration>
    const log: Recorder

    /** The fields the run callbacks change, as one value. */
    function State(): AppState
      reads this
    {
      AppState(vSync, toggleVSync, paused, guiActive, system, current, delta, frameCounter, registered)
    }

    constructor(cfg: AppConfig, s: AppState)
      ensures this.cfg == cfg && State() == s && fresh(log) && log.trace == []
    {
      this.cfg := cfg;
      vSync, toggleVSync, paused, guiActive := s.vSync, s.toggleVSync, s.paused, s.guiActive;
      system, current, delta, frameCounter := s.system, s.current, s.delta, s.frameCounter;
      registered := s.registered;
      log := new Recorder();
    }

    /** `destroy_target()`. */
    method DestroyTarget()
      modifies log
      ensures log.trace == old(log.trace) + DestroyTargetActions(cfg)
    {
      if cfg.hasOnDestroy {
        log.Record(OnDestroy);
      }
      log.Record(DestroyPlotter);
      log.Record(DestroyShading);
      log.Record(Action.DestroyTarget);
    }

    /** `destroy_gui()`. */
    method DestroyGui()
      modifies log
      ensures log.trace == old(log.trace) + DESTROY_GUI
    {
      log.Record(Action.DestroyGui);
      log.Record(DestroyFonts);
    }

    /** `create_target()` with the current `v_sync`. */
    method CreateTarget(e: TargetEnv) returns (ok: bool)
      modifies log
      ensures var r := CreateTargetOutcome(cfg, vSync, e);
        ok == r.ok && log.trace == old(log.trace) + r.actions
    {
      log.Record(Action.CreateTarget(vSync));
      if !e.targetOk {
        return false;
      }
      log.Record(CreateShading);
      if !e.shadingOk {
        return false;
      }
      log.Record(CreatePlotter);
      if !e.plotterOk {
        return false;
      }
      log.Record(AssignInput);
      if cfg.hasOnCreate {
        log.Record(OnCreate);
        return e.onCreateResult;
      }
      return true;
    }

    /** `create_gui()`. */
    method CreateGui(e: GuiEnv) returns (ok: bool)
      modifies log
      ensures var r := CreateGuiOutcome(e);
        ok == r.ok && log.trace == old(log.trace) + r.actions
    {
      log.Record(SetupGui);
      log.Record(Action.CreateGui);
      if !e.guiCreateOk {
        return false;
      }
      log.Record(AddGuiPipeline);
      log.Record(UploadFonts);
      if !e.uploadOk {
        return false;
      }
      log.Record(StageFonts);
      return true;
    }

    /** The mode switch of a rebuild. */
    method SwitchWindowMode(e: WindowEnv) returns (ok: bool)
      modifies log
      ensures var r := SwitchModeOutcome(cfg, e);
        ok == r.ok && log.trace == old(log.trace) + r.actions
    {
      if cfg.saveWindow {
        log.Record(SaveWindowFile);
      }
      log.Record(Action.LoadWindowState);
      if e.loadedState.Failure? {
        log.Record(Throws(e.loadedState.error));
        return false;
      }
      var windowState := Flipped(e.loadedState.value, e.windowFullscreen);
      log.Record(SwitchMode(windowState));
      if !e.switchModeOk {
        return false;
      }
      log.Record(SetWindowIcon);
      return true;
    }

    /** Target and GUI created anew, the last part of a rebuild. */
    method Recreate(e: WindowEnv) returns (ok: bool)
      modifies log
      ensures var r := AppSpec.Recreate(cfg, vSync, e);
        ok == r.ok && log.trace == old(log.trace) + r.actions
    {
      ghost var t0 := log.trace;
      ok := CreateTarget(e.target);
      if ok {
        ok := CreateGui(e.gui);
        Assoc(t0, CreateTargetOutcome(cfg, vSync, e.target).actions, CreateGuiOutcome(e.gui).actions);
      }
    }

    /** The rebuild branch after the teardown: mode switch, v-sync toggle,
        then target and GUI. */
    method RebuildRest(e: WindowEnv) returns (ok: bool)
      modifies this, log
      ensures var r := AppSpec.RebuildRest(cfg, old(State()), e);
        ok == r.ok && State() == r.next && log.trace == old(log.trace) + r.actions
    {
      ghost var s := State();
      ghost var t0 := log.trace;
      ghost var sw: seq<Action> := [];
      if e.switchModeRequest {
        ok := SwitchWindowMode(e);
        if !ok {
          return;
        }
        sw := SwitchModeOutcome(cfg, e).actions;
      }
      assert log.trace == t0 + sw;
      if toggleVSync {
        vSync := !vSync;
        toggleVSync := false;
      }
      assert State() == AfterVSyncToggle(s);
      ok := Recreate(e);
      Assoc(t0, sw, AppSpec.Recreate(cfg, vSync, e).actions);
    }

    /** The start of a rebuild: wait for the device to be idle, then
        destroy the target and the GUI. */
    method TearDownForRebuild()
      modifies log
      ensures log.trace == old(log.trace) + RebuildPrefix(cfg)
    {
      ghost var t0 := log.trace;
      log.Record(WaitIdle);
      DestroyTarget();
      Assoc(t0, [WaitIdle], DestroyTargetActions(cfg));
      DestroyGui();
      Assoc(t0, [WaitIdle] + DestroyTargetActions(cfg), DESTROY_GUI);
    }

    /** The rebuild branch of `handle_window`'s run: the teardown, then the
        rest. */
    method Rebuild(e: WindowEnv) returns (ok: bool)
      modifies this, log
      ensures var r := AppSpec.Rebuild(cfg, old(State()), e);
        ok == r.ok && State() == r.next && log.trace == old(log.trace) + r.actions
    {
      ghost var s := State();
      ghost var t0 := log.trace;
      ghost var rest := AppSpec.RebuildRest(cfg, s, e);
      assert AppSpec.Rebuild(cfg, s, e) == Step(rest.ok, rest.next, RebuildPrefix(cfg) + rest.actions);
      TearDownForRebuild();
      assert State() == s;
      ok := RebuildRest(e);
      assert State() == rest.next;
      Assoc(t0, RebuildPrefix(cfg), rest.actions);
    }

    /** `handle_window`'s run callback. */
    method HandleWindow(e: WindowEnv) returns (ok: bool)
      modifies this, log
      ensures var r := AppSpec.HandleWindow(cfg, old(State()), e);
        ok == r.ok && State() == r.next && log.trace == old(log.trace) + r.actions
    {
      if e.closeRequest {
        log.Record(ShutDown);
        return e.shutDownResult;
      }
      if e.switchModeRequest || toggleVSync || e.reloadRequest {
        ok := Rebuild(e);
        return;
      }
      if e.resizeRequest {
        log.Record(UpdateCamera);
        log.Record(HandleResize);
        return e.handleResizeOk;
      }
      return true;
    }

    /** `render`'s run callback. */
    method Render(e: RenderEnv) returns (ok: bool)
      modifies this, log
      ensures var r := AppSpec.Render(old(State()), e);
        ok == r.ok && State() == r.next && log.trace == old(log.trace) + r.actions
    {
      if e.iconified {
        log.Record(Sleep);
        return true;
      }
      log.Record(BeginFrame);
      if e.frameIndex.None? {
        return true;
      }
      frameCounter := frameCounter + 1;
      log.Record(ProcessBlock(e.frameIndex.value));
      if !e.processOk {
        return false;
      }
      log.Record(EndFrame);
      return e.endFrameOk;
    }

    /** `update`'s run callback. */
    method Update(e: UpdateEnv) returns (ok: bool)
      modifies this, log
      ensures var r := AppSpec.Update(cfg, old(State()), e);
        ok == r.ok && State() == r.next && log.trace == old(log.trace) + r.actions
    {
      var dt := 0;
      var time := e.now;
      if system != time {
        dt := time - system;
        system := time;
      }
      delta := dt;
      if !paused {
        if cfg.useFixDelta {
          dt := cfg.fixDelta;
        }
        dt := e.scale(dt);
        current := current + dt;
      } else {
        dt := 0;
      }
      if cfg.hasOnUpdate {
        log.Record(OnUpdate(dt));
        return e.onUpdateResult;
      }
      return true;
    }

    /** The key listener `handle_input` adds. */
    method KeyListener(e: KeyEnv) returns (ok: bool)
      modifies this, log
      ensures var r := AppSpec.KeyListener(cfg, old(State()), e);
        ok == r.ok && State() == r.next && log.trace == old(log.trace) + r.actions
    {
      if e.guiCapturesKeyboard {
        log.Record(StopCamera);
        return false;
      }
      if cfg.handleKeyEvents {
        if Pressed(e.event, Tab) {
          guiActive := !guiActive;
        }
        if Pressed(e.event, Escape) {
          log.Record(ShutDown);
          return e.shutDownResult;
        }
        if PressedWith(e.event, Enter, Alt) {
          log.Record(SetFullscreen(!e.windowFullscreen));
          return true;
        }
        if PressedWith(e.event, Backspace, Alt) {
          toggleVSync := true;
          return true;
        }
        if Pressed(e.event, Space) {
          paused := !paused;
        }
      }
      if e.cameraActive {
        log.Record(CameraHandleKey);
        return e.cameraHandled;
      }
      return false;
    }

    /** The mouse-button listener (`handle` is CameraHandleMouse) and the
        scroll listener (`handle` is CameraHandleScroll) `handle_input` adds. */
    method PointerListener(e: PointerEnv, handle: Action) returns (ok: bool)
      modifies log
      ensures var r := AppSpec.PointerListener(e, handle);
        ok == r.ok && log.trace == old(log.trace) + r.actions
    {
      if e.guiCapturesMouse {
        return false;
      }
      if e.cameraActive {
        log.Record(handle);
        return e.cameraHandled;
      }
      return false;
    }

    /** The run `handle_input` adds: poll events, then pass the mouse
        position on. */
    method InputRun() returns (ok: bool)
      modifies log
      ensures ok && log.trace == old(log.trace) + INPUT_RUN
    {
      log.Record(HandleEvents);
      log.Record(SetMousePosition);
      return true;
    }

    /** `create_block()`. */
    method CreateBlock(blockOk: bool) returns (ok: bool)
      modifies log
      ensures var r := CreateBlockOutcome(blockOk);
        ok == r.ok && log.trace == old(log.trace) + r.actions
    {
      log.Record(Action.CreateBlock);
      if !blockOk {
        return false;
      }
      log.Record(AddBlockCommand);
      return true;
    }

    /** What the block's command records for `frame`. */
    method RecordBlockCommand(frame: nat)
      modifies log
      ensures log.trace == old(log.trace) + BlockCommand(cfg, frame)
    {
      log.Record(StageTextures(frame));
      if cfg.hasOnProcess {
        log.Record(OnProcess(frame));
      }
      log.Record(ProcessPass(frame));
    }

    /** The teardown `setup` registers as a run-end. */
    method Teardown()
      modifies log
      ensures log.trace == old(log.trace) + AppSpec.Teardown(cfg)
    {
      ghost var t0 := log.trace;
      log.Record(DestroyCamera);
      DestroyGui();
      Assoc(t0, [DestroyCamera], DESTROY_GUI);
      log.Record(DestroyBlock);
      ghost var head := [DestroyCamera] + DESTROY_GUI + [DestroyBlock];
      Assoc(t0, [DestroyCamera] + DESTROY_GUI, [DestroyBlock]);
      DestroyTarget();
      Assoc(t0, head, DestroyTargetActions(cfg));
      ghost var save := if cfg.saveWindow then [SaveWindowFile] else [];
      if cfg.saveWindow {
        log.Record(SaveWindowFile);
      }
      Assoc(t0, head + DestroyTargetActions(cfg), save);
      ghost var t1 := log.trace;
      log.Record(DestroyWindow);
      log.Record(SaveConfig);
      log.Record(RemoveConfigCallback);
      log.Record(TerminateFileSystem);
      ghost var tail := [DestroyWindow, SaveConfig, RemoveConfigCallback, TerminateFileSystem];
      AppendFour(t1, DestroyWindow, SaveConfig, RemoveConfigCallback, TerminateFileSystem);
      Assoc(t0, head + DestroyTargetActions(cfg) + save, tail);
      assert AppSpec.Teardown(cfg) == head + DestroyTargetActions(cfg) + save + tail;
    }

    /** The creation steps of `setup` from the GUI on. */
    method CreateFromGui(e: SetupEnv) returns (ok: bool)
      modifies log
      ensures var r := AppSpec.CreateFromGui(e);
        ok == r.ok && log.trace == old(log.trace) + r.actions
    {
      ghost var t0 := log.trace;
      ok := CreateGui(e.gui);
      if ok {
        ok := CreateBlock(e.blockOk);
        Assoc(t0, CreateGuiOutcome(e.gui).actions, CreateBlockOutcome(e.blockOk).actions);
      }
    }

    /** The creation steps of `setup` from the camera on. */
    method CreateFromCamera(e: SetupEnv) returns (ok: bool)
      modifies log
      ensures var r := AppSpec.CreateFromCamera(e);
        ok == r.ok && log.trace == old(log.trace) + r.actions
    {
      ghost var t0 := log.trace;
      log.Record(CreateCamera);
      if !e.cameraOk {
        return false;
      }
      ok := CreateFromGui(e);
      Assoc(t0, [CreateCamera], AppSpec.CreateFromGui(e).actions);
    }

    /** The creation steps of `setup` from the target on. */
    method CreateFromTarget(e: SetupEnv) returns (ok: bool)
      modifies log
      ensures var r := AppSpec.CreateFromTarget(cfg, vSync, e);
        ok == r.ok && log.trace == old(log.trace) + r.actions
    {
      ghost var t0 := log.trace;
      ok := CreateTarget(e.target);
      if ok {
        ok := CreateFromCamera(e);
        Assoc(t0, CreateTargetOutcome(cfg, vSync, e.target).actions, AppSpec.CreateFromCamera(e).actions);
      }
    }

    /** The creation steps of `setup`, from the device on. */
    method CreateAll(e: SetupEnv) returns (ok: bool)
      modifies log
      ensures var r := AppSpec.CreateAll(cfg, vSync, e);
        ok == r.ok && log.trace == old(log.trace) + r.actions
    {
      ghost var t0 := log.trace;
      if !e.hasDevice {
        log.Record(CreateDevice);
        if !e.deviceOk {
          return false;
        }
      }
      ok := CreateFromTarget(e);
      if !e.hasDevice {
        Assoc(t0, [CreateDevice], AppSpec.CreateFromTarget(cfg, vSync, e).actions);
      }
    }

    /** The end of a successful `setup`: `handle_input()` adds the
        listeners, a run and a run-end; `handle_window()`, `update()` and
        `render()` add their runs, `update()` setting the clock first;
        then the teardown and `on_create` are registered and the frame
        counter is reset. */
    method RegisterRuns(now: int)
      modifies this, log
      ensures State() == Registered(old(State()), now)
      ensures log.trace == old(log.trace) + INPUT_HANDLERS
    {
      log.Record(AddGuiToInput);
      log.Record(AddKeyListener);
      log.Record(AddMouseListener);
      log.Record(AddScrollListener);
      registered := registered + [RunInput, RunEndRemoveGui];
      registered := registered + [RunWindow];
      system := now;
      registered := registered + [RunUpdate];
      registered := registered + [RunRender];
      registered := registered + [RunEndTeardown];
      registered := registered + [RunOnceOnCreate];
      frameCounter := 0;
    }

    /** `handle_config()`'s `on_load`, then the `-vs`/`--v_sync` option. */
    method ReadConfiguration(e: SetupEnv)
      modifies this`paused, this`guiActive, this`vSync
      ensures State() == Configure(old(State()), e)
    {
      ghost var s := State();
      ghost var r := Configure(s, e);
      var c := e.config;
      var p, g, v := paused, guiActive, vSync;
      if c.paused.Some? {
        p := c.paused.value;
      }
      if c.guiActive.Some? {
        g := c.guiActive.value;
      }
      if c.vSync.Some? {
        v := c.vSync.value;
      }
      if e.cmdVSync.Some? {
        v := e.cmdVSync.value;
      }
      assert p == r.paused && g == r.guiActive && v == r.vSync;
      paused, guiActive, vSync := p, g, v;
      assert State() == s.(vSync := v, paused := p, guiActive := g);
    }

    /** The first part of `setup()`: start the file system, mount the
        resources, read the configuration file and the command line, then
        open the window with the stored state. */
    method OpenWindow(e: SetupEnv) returns (ok: bool)
      modifies this, log
      ensures ok == (e.fileSystemOk && e.loadedState.Success? && e.windowOk)
      ensures !e.fileSystemOk ==> State() == old(State()) && log.trace == old(log.trace) + [InitFileSystem]
      ensures e.fileSystemOk ==> State() == Configure(old(State()), e)
      ensures e.fileSystemOk && e.loadedState.Failure? ==>
        log.trace == old(log.trace) + [InitFileSystem, MountResources, HandleConfig, Action.LoadWindowState,
                                       Throws(e.loadedState.error)]
      ensures e.fileSystemOk && e.loadedState.Success? ==>
        log.trace == old(log.trace) + SetupPrefix(e.loadedState.value)
    {
      ghost var t0 := log.trace;
      log.Record(InitFileSystem);
      if !e.fileSystemOk {
        return false;
      }
      log.Record(MountResources);
      log.Record(HandleConfig);
      ReadConfiguration(e);
      log.Record(Action.LoadWindowState);
      if e.loadedState.Failure? {
        log.Record(Throws(e.loadedState.error));
        AppendFive(t0, InitFileSystem, MountResources, HandleConfig, Action.LoadWindowState, Throws(e.loadedState.error));
        return false;
      }
      log.Record(CreateWindow(e.loadedState.value));
      AppendFive(t0, InitFileSystem, MountResources, HandleConfig, Action.LoadWindowState, CreateWindow(e.loadedState.value));
      return e.windowOk;
    }

    /** `setup()`. */
    method Setup(e: SetupEnv) returns (ok: bool)
      modifies this, log
      ensures var r := AppSpec.Setup(cfg, old(State()), e);
        ok == r.ok && State() == r.next && log.trace == old(log.trace) + r.actions
    {
      if !e.frameReady {
        return false;
      }
      ghost var t0 := log.trace;
      ok := OpenWindow(e);
      if !ok {
        return;
      }
      ghost var pre := SetupPrefix(e.loadedState.value);
      log.Record(SetWindowIcon);
      Assoc(t0, pre, [SetWindowIcon]);
      ok := CreateAll(e);
      ghost var c := AppSpec.CreateAll(cfg, vSync, e).actions;
      Assoc(t0, pre + [SetWindowIcon], c);
      if !ok {
        return;
      }
      RegisterRuns(e.now);
      Assoc(t0, pre + [SetWindowIcon] + c, INPUT_HANDLERS);
      return true;
    }
  }
}
