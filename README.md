# liblava core, modelled in Dafny

This project models three parts of liblava, a C++ framework for Vulkan
applications, and proves properties of the model.

- **File-name helpers** (`liblava/file/file_utils.cpp`), in `file_utils.dfy`
  (module `FileUtils`):
  - `extension(file_name, ext)`: the text after the last dot, compared with
    ASCII lower-casing. When there is no dot, `npos + 1` wraps to 0 in 64-bit
    `size_t` arithmetic.
  - Its overload over a list of extensions.
  - `remove_existing_path`: erases the first occurrence of a sub-path. On
    Windows it then rewrites backslashes; the platform is a parameter.
- **Pipeline objects** (`liblava/block/pipeline.hpp`), in `pipeline.dfy`
  (module `Pipeline`):
  - `pipeline_layout`: the ordered descriptor and push-constant-range lists.
  - The abstract `pipeline`: the `active` and `auto_bind` flags, the shared
    layout and the native handle that makes it ready.
  - `graphics_pipeline`: the shader-stage list, the render pass, the viewport,
    scissor, size type, auto size and line width, and `copy_to`/`copy_from`.
  - `compute_pipeline`: its single shader stage.
  - Each is a class whose methods change its fields. Native handles are
    opaque `Option<Handle>` values, and shared pointers are object
    references.
  - `pipeline_properties.dfy` (module `PipelineProperties`) states, on fresh
    objects, what a caller reads back: defaults, flag independence, toggling,
    round trips, append order and derived copies.
- **Window-state persistence** (`liblava/app/app.cpp`), in `window_file.dfy`
  (module `WindowFile`):
  - `to_json` and `from_json`. `from_json` is a partial update: the fields
    are written in place, one key at a time. It is modelled as a loop and as
    a spec function.
  - `load_window_file` and `load_window_state`. A parsed JSON document is
    abstracted to objects, integers, booleans and other values. `get<int>()`
    accepts an integer or a boolean, which it reads as 1 or 0. `get<bool>()`
    accepts only a boolean. Any other value is the library's type error, and
    `from_json` reports it for the first ill-typed key it reads. Text that is
    not JSON is the library's parse error. Both exceptions pass through
    `load_window_state`.
- **Application frame** (`liblava/app/app.cpp`):
  - `app_spec.dfy` (module `AppSpec`) has the decision logic as functions.
    The state the run callbacks change is `AppState`:
    - `config.v_sync` and `toggle_v_sync`;
    - `run_time.paused`, `system`, `current` and `delta`;
    - the GUI's active flag;
    - `frame_counter`;
    - the registered callbacks.

    What the collaborators answer on one call (window, device, target, GUI,
    camera, plotter, block, file system, configuration file, clock) is an
    input datatype. The outcome of `load_window_state` is a `Result`, and
    its exception is the request `Throws`, which ends the step. Each step
    gives its result, the new state and the ordered list of requests it
    makes.
  - `app.dfy` (module `AppRuns`) has the application object as a class.
    - Its run callbacks change its fields one statement at a time:
      `handle_window`, `update`, `render`, and the key, mouse and scroll
      listeners of `handle_input`.
    - So do `setup` and the teardown it registers, `create_block`,
      `create_target`, `destroy_target`, `create_gui` and `destroy_gui`.
    - Each requested call is appended to a `Recorder`.
    - Each method is proved to give the same result, new state and requests
      as its `AppSpec` function.

`wrappers.dfy` holds the `Option` and `Result` datatypes.

## Model

| member | source | states |
|---|---|---|
| FileUtils.ToLowerChar | liblava/file/file_utils.cpp:48-49 | `::tolower` maps exactly `A`-`Z` to `a`-`z` and leaves every other character alone |
| FileUtils.ToLower | liblava/file/file_utils.cpp:48-49 | the transform keeps the length and lower-cases each character in place |
| FileUtils.FindLastOf | liblava/file/file_utils.cpp:46 | `find_last_of` gives npos iff the character is absent; otherwise it gives an index holding it, with no later occurrence |
| FileUtils.ExtensionStart | liblava/file/file_utils.cpp:46 | the `substr` start `find_last_of('.') + 1` stays within the name; with no dot, npos + 1 wraps to 0; otherwise it is just past the last dot, with no dot after it |
| FileUtils.Extension | liblava/file/file_utils.cpp:42-52 | no contract of its own: its meaning is stated by `ExtensionAfterLastDot`, `ExtensionWithoutDot` and the case lemmas below |
| FileUtils.ExtensionAfterLastDot | liblava/file/file_utils.cpp:42-52 | `extension(prefix + "." + suffix, e)`, with no dot in `suffix`, holds iff `suffix` and `e` are equal up to ASCII case |
| FileUtils.ExtensionWithoutDot | liblava/file/file_utils.cpp:46-51 | a name without a dot is compared whole against the extension |
| FileUtils.ExtensionIgnoresPrefix | liblava/file/file_utils.cpp:46 | the characters before the last dot never change the answer |
| FileUtils.FindLastDotUpToCase | liblava/file/file_utils.cpp:46-49 | names equal up to case have their last dot at the same position |
| FileUtils.ExtensionCaseInsensitive | liblava/file/file_utils.cpp:48-51 | changing the ASCII case of any letter of the name or the extension does not change the answer |
| FileUtils.ExtensionOfUpperCase | liblava/file/file_utils.cpp:48-51 | upper-casing both arguments does not change the answer |
| FileUtils.ExtensionFoldsOnlyAscii | liblava/file/file_utils.cpp:48-49 | folding is ASCII-only: an extension that differs from the name's in a character above 0x7f, such as `Ä` against `ä`, never matches, whatever the case of the other characters |
| FileUtils.ExtensionAny | liblava/file/file_utils.cpp:54-60 | the list overload is true iff some listed extension matches; an empty list gives false |
| FileUtils.FindFrom | liblava/file/file_utils.cpp:68 | `find` gives the first position at or after `from` where the needle occurs, or nothing when it occurs nowhere from there |
| FileUtils.ReplaceChar | liblava/file/file_utils.cpp:72-74 | `std::replace` keeps the length and replaces exactly the matching characters |
| FileUtils.RemoveExistingPath | liblava/file/file_utils.cpp:67-80 | true iff `path` occurs, and then its first occurrence is erased (backslashes rewritten afterwards on Windows); otherwise false and `target` unchanged; an empty `path` is found, and off Windows leaves `target` unchanged |
| Pipeline.PipelineLayout.constructor | liblava/block/pipeline.hpp:18 | `make()` starts with both lists empty and no native layout |
| Pipeline.PipelineLayout.AddDescriptor | liblava/block/pipeline.hpp:20 | `add(descriptor)` appends at the end of `descriptors` and changes nothing else |
| Pipeline.PipelineLayout.AddPushConstantRange | liblava/block/pipeline.hpp:21 | `add(range)` appends at the end of `push_constant_ranges` and changes nothing else |
| Pipeline.PipelineLayout.AddLayout | liblava/block/pipeline.hpp:23 | `add_layout` is `add(descriptor)` |
| Pipeline.PipelineLayout.AddRange | liblava/block/pipeline.hpp:24 | `add_range` is `add(range)` |
| Pipeline.ShaderStage.constructor | liblava/block/pipeline.hpp:90 | `shader_stage::create(stage)` has that stage |
| Pipeline.ShaderStage.SetStage | liblava/block/pipeline.hpp:93 | `set_stage` sets the create info's stage |
| Pipeline.PipelineBase.constructor | liblava/block/pipeline.hpp:110-118 | a new pipeline keeps its device and cache, is active, not auto-bound, has no native pipeline and no layout |
| Pipeline.PipelineBase.SetActive | liblava/block/pipeline.hpp:66 | `set_active(v)` sets `active` to `v` and nothing else |
| Pipeline.PipelineBase.Toggle | liblava/block/pipeline.hpp:69 | `toggle()` negates `active` and nothing else |
| Pipeline.PipelineBase.SetAutoBind | liblava/block/pipeline.hpp:71 | `set_auto_bind(v)` sets `auto_bind` to `v` and nothing else |
| Pipeline.PipelineBase.SetLayout | liblava/block/pipeline.hpp:80 | `set_layout` sets the layout reference and nothing else |
| Pipeline.PipelineBase.Create | liblava/block/pipeline.hpp:61 | `create()` stores the native pipeline the subtype built, and succeeds iff the pipeline is then ready |
| Pipeline.PipelineBase.Destroy | liblava/block/pipeline.hpp:62 | `destroy()` leaves the pipeline not ready |
| Pipeline.GraphicsPipeline.constructor | liblava/block/pipeline.hpp:229-236 | a new graphics pipeline: base defaults, no render pass, no stages, size type `input`, auto size on, automatic line width off, line width 1 |
| Pipeline.GraphicsPipeline.SetRenderPass | liblava/block/pipeline.hpp:144 | `set_render_pass` sets the render pass and nothing else |
| Pipeline.GraphicsPipeline.Set | liblava/block/pipeline.hpp:145 | `set(pass)` is `set_render_pass(pass)` |
| Pipeline.GraphicsPipeline.Create | liblava/block/pipeline.hpp:149-154 | `create(pass)` sets the render pass, then builds through `pipeline::create()`; it succeeds iff ready |
| Pipeline.GraphicsPipeline.AddShaderStage | liblava/block/pipeline.hpp:177 | `add(stage)` appends at the end of the shader-stage list |
| Pipeline.GraphicsPipeline.ClearShaderStages | liblava/block/pipeline.hpp:180 | `clear_shader_stages` empties the list |
| Pipeline.GraphicsPipeline.SetAutoSize | liblava/block/pipeline.hpp:182 | `set_auto_size(v)` sets `auto_size` and nothing else |
| Pipeline.GraphicsPipeline.SetViewport | liblava/block/pipeline.hpp:186 | `set_viewport` sets the viewport and nothing else |
| Pipeline.GraphicsPipeline.SetScissor | liblava/block/pipeline.hpp:189 | `set_scissor` sets the scissor and nothing else |
| Pipeline.GraphicsPipeline.SetSizeType | liblava/block/pipeline.hpp:192 | `set_size_type` sets the size type and nothing else |
| Pipeline.GraphicsPipeline.SetLineWidth | liblava/block/pipeline.hpp:197 | `set_line_width(value)` sets the line width and nothing else |
| Pipeline.GraphicsPipeline.SetAutoLineWidth | liblava/block/pipeline.hpp:201 | `set_auto_line_width(v)` sets the flag and nothing else |
| Pipeline.GraphicsPipeline.CopyTo | liblava/block/pipeline.hpp:194 | `copy_to(target)` gives the target this pipeline's whole configuration and leaves both native pipelines and the source alone |
| Pipeline.GraphicsPipeline.CopyFrom | liblava/block/pipeline.hpp:195 | `copy_from(source)` is `source->copy_to(this)` |
| Pipeline.ComputePipeline.constructor | liblava/block/pipeline.hpp:245-250 | a new compute pipeline has the base defaults and no shader stage |
| Pipeline.ComputePipeline.Set | liblava/block/pipeline.hpp:256 | `set(stage)` sets the shader stage |
| Pipeline.ComputePipeline.CopyTo | liblava/block/pipeline.hpp:259 | `copy_to` carries the stage and the layout over |
| Pipeline.ComputePipeline.CopyFrom | liblava/block/pipeline.hpp:260 | `copy_from(source)` is `source->copy_to(this)` |
| Pipeline.PipelineLayout.GetDescriptors | liblava/block/pipeline.hpp:31 | a getter with no contract of its own: what a caller reads back through it is stated by `PipelineProperties.LayoutKeepsOrder` |
| Pipeline.PipelineLayout.GetPushConstantRanges | liblava/block/pipeline.hpp:33 | a getter with no contract of its own: what a caller reads back through it is stated by `PipelineProperties.LayoutKeepsOrder` |
| Pipeline.PipelineBase.IsActive | liblava/block/pipeline.hpp:67 | a getter with no contract of its own: what a caller reads back through it is stated by `PipelineProperties.FreshPipeline`, `ToggleTwice` and `FlagsIndependent` |
| Pipeline.PipelineBase.IsAutoBind | liblava/block/pipeline.hpp:72 | a getter with no contract of its own: what a caller reads back through it is stated by `PipelineProperties.FreshPipeline` and `FlagsIndependent` |
| Pipeline.PipelineBase.IsReady | liblava/block/pipeline.hpp:74 | a getter with no contract of its own: what a caller reads back through it is stated by `PipelineProperties.ReadyFollowsHandle` |
| Pipeline.PipelineBase.GetLayout | liblava/block/pipeline.hpp:79 | a getter with no contract of its own: what a caller reads back through it is stated by `PipelineProperties.LayoutRoundTrip` |
| Pipeline.GraphicsPipeline.GetRenderPass | liblava/block/pipeline.hpp:147 | a getter with no contract of its own: what a caller reads back through it is stated by `PipelineProperties.CreateSetsRenderPass` |
| Pipeline.GraphicsPipeline.GetShaderStages | liblava/block/pipeline.hpp:179 | a getter with no contract of its own: what a caller reads back through it is stated by `PipelineProperties.StagesInOrder` |
| Pipeline.GraphicsPipeline.IsAutoSize | liblava/block/pipeline.hpp:183 | a getter with no contract of its own: what a caller reads back through it is stated by `PipelineProperties.GraphicsDefaults` and `GraphicsSettersRoundTrip` |
| Pipeline.GraphicsPipeline.GetViewport | liblava/block/pipeline.hpp:185 | a getter with no contract of its own: what a caller reads back through it is stated by `PipelineProperties.GraphicsSettersRoundTrip` |
| Pipeline.GraphicsPipeline.GetScissor | liblava/block/pipeline.hpp:188 | a getter with no contract of its own: what a caller reads back through it is stated by `PipelineProperties.GraphicsSettersRoundTrip` |
| Pipeline.GraphicsPipeline.GetSizeType | liblava/block/pipeline.hpp:191 | a getter with no contract of its own: what a caller reads back through it is stated by `PipelineProperties.GraphicsDefaults` and `GraphicsSettersRoundTrip` |
| Pipeline.GraphicsPipeline.GetLineWidth | liblava/block/pipeline.hpp:198 | a getter with no contract of its own: what a caller reads back through it is stated by `PipelineProperties.GraphicsDefaults` and `GraphicsSettersRoundTrip` |
| Pipeline.GraphicsPipeline.IsAutoLineWidth | liblava/block/pipeline.hpp:200 | a getter with no contract of its own: what a caller reads back through it is stated by `PipelineProperties.GraphicsDefaults` and `GraphicsSettersRoundTrip` |
| Pipeline.ComputePipeline.GetShaderStage | liblava/block/pipeline.hpp:257 | a getter with no contract of its own: what a caller reads back through it is stated by `PipelineProperties.DeriveCompute` |
| PipelineProperties.FreshPipeline | liblava/block/pipeline.hpp:111-118 | a fresh pipeline is active, not auto-bound, has no layout and is not ready |
| PipelineProperties.ToggleTwice | liblava/block/pipeline.hpp:66-69 | one toggle negates `active`, and a second one restores it |
| PipelineProperties.FlagsIndependent | liblava/block/pipeline.hpp:66-72 | setting `auto_bind` does not touch `active`, and the reverse |
| PipelineProperties.LayoutRoundTrip | liblava/block/pipeline.hpp:74-80 | `set_layout(l)` then `get_layout()` gives `l`; a layout alone does not make the pipeline ready |
| PipelineProperties.ReadyFollowsHandle | liblava/block/pipeline.hpp:61-74 | `is_ready()` follows the native handle through create and a repeated destroy |
| PipelineProperties.LayoutKeepsOrder | liblava/block/pipeline.hpp:20-24 | descriptors and ranges are kept in the order added, each in its own list |
| PipelineProperties.GraphicsDefaults | liblava/block/pipeline.hpp:229-236 | the graphics defaults as a caller reads them back |
| PipelineProperties.StagesInOrder | liblava/block/pipeline.hpp:177-180 | stages are listed in the order added, and clearing empties the list |
| PipelineProperties.CreateSetsRenderPass | liblava/block/pipeline.hpp:144-154 | `create(pass)` leaves `pass` set whether or not the build succeeds |
| PipelineProperties.GraphicsSettersRoundTrip | liblava/block/pipeline.hpp:182-201 | the viewport, scissor, size-type, auto-size and line-width setters round-trip through their getters |
| PipelineProperties.DeriveVariant | liblava/block/pipeline.hpp:194-195 | a variant made by `copy_from` has the template's configuration, is unbuilt and active, and the template stays as ready as it was |
| PipelineProperties.DeriveCompute | liblava/block/pipeline.hpp:256-260 | a compute pipeline copied from another has its stage and layout and is unbuilt |
| WindowFile.Get | liblava/app/app.cpp:19-21 | each field is written as a value of its own JSON type: a boolean exactly for the five flags |
| WindowFile.With | liblava/app/app.cpp:23-44 | `w.f = v.get<T>()` sets the field to the value converted to its type (a boolean read as an integer gives 1 or 0) and leaves every other field alone |
| WindowFile.ReadField | liblava/app/app.cpp:24-25 | one `if (j.count(key)) w.f = j.at(key).get<T>()`: fails with a type error on that key iff the value has the wrong type; otherwise overwrites exactly that field when the key is present |
| WindowFile.ReadFields | liblava/app/app.cpp:23-44 | no contract of its own: its meaning is stated by `ReadFieldsSpec` |
| WindowFile.ReadFieldsSpec | liblava/app/app.cpp:23-44 | a run of these statements over distinct fields succeeds iff every present key is well typed, and then updates exactly the present fields; otherwise its error is the type error of the first listed field whose value is ill-typed |
| WindowFile.FromJsonInPlace | liblava/app/app.cpp:23-44 | the field-by-field, in-place `from_json` computes the partial update |
| WindowFile.EveryFieldIsRead | liblava/app/app.cpp:23-44 | `from_json` looks at every field of `window::state` |
| WindowFile.FromJson | liblava/app/app.cpp:23-44 | no contract of its own: its meaning is stated by `FromJsonSpec`, `FromJsonFirstError` and `FromJsonInPlace` |
| WindowFile.FieldOrderDistinct | liblava/app/app.cpp:23-44 | `from_json` reads each field once |
| WindowFile.FromJsonSpec | liblava/app/app.cpp:23-44 | `from_json` succeeds iff every present key has its field's type; a field is overwritten iff its key is present, and the others keep their prior values |
| WindowFile.FromJsonFirstError | liblava/app/app.cpp:23-44 | a failing `from_json` throws the type error of the first ill-typed key in the order x, y, width, height, fullscreen, floating, resizable, decorated, maximized, monitor |
| WindowFile.KeyInjective | liblava/app/app.cpp:24-43 | no two fields are read from the same key |
| WindowFile.FromJsonOneKey | liblava/app/app.cpp:23-44 | a document whose only key is a field's, holding a value of an accepted type, assigns that field its converted value and changes nothing else |
| WindowFile.BoolReadAsInt | liblava/app/app.cpp:24-25 | `{"x": true}` is accepted and sets `x` to 1, leaving the other fields alone |
| WindowFile.ToJson | liblava/app/app.cpp:19-21 | no contract of its own: its meaning is stated by `ToJsonFields` and `FromJsonToJson` |
| WindowFile.ToJsonFields | liblava/app/app.cpp:19-21 | `to_json` writes an object with every field under its own key |
| WindowFile.FromJsonToJson | liblava/app/app.cpp:19-44 | `from_json(to_json(w), prior)` gives `w`, whatever `prior` was |
| WindowFile.FromJsonWithoutKeys | liblava/app/app.cpp:23-44 | a document without any window-state key changes nothing |
| WindowFile.FromJsonIdempotent | liblava/app/app.cpp:23-44 | applying the same document twice equals applying it once |
| WindowFile.LoadWindowFile | liblava/app/app.cpp:46-60 | false and `state` untouched when the file cannot be loaded or has no entry under `save_name`; the parse error when the text is not JSON; otherwise `state` is the entry converted into a default state, and a conversion error is thrown with `state` untouched |
| WindowFile.FromJsonThrowsTypeErrors | liblava/app/app.cpp:23-44 | `from_json` throws only type errors |
| WindowFile.LoadIgnoresPriorState | liblava/app/app.cpp:58 | once the entry exists, the prior `state` does not affect the result |
| WindowFile.LoadWindowState | liblava/app/app.cpp:62-71 | empty when window.json does not exist, cannot be read or holds no entry; the parse error when it is not JSON; otherwise the loaded state or the conversion's exception |
| WindowFile.LoadWindowStateErrors | liblava/app/app.cpp:46-71 | an exception comes only from an existing file: the parse error from unparsable text, or a type error from converting an existing entry |
| WindowFile.LoadWindowStateSucceeds | liblava/app/app.cpp:62-71 | a well-typed stored entry always gives a state |
| AppSpec.CreateTargetOutcome | liblava/app/app.cpp:292-306 | `create_target` creates the target first, and succeeds iff target, shading and plotter are created and `on_create`, when set, agrees |
| AppSpec.CreateTargetCallsOnCreate | liblava/app/app.cpp:297-305 | the input is assigned iff target, shading and plotter were created, and `on_create` is called, after that, iff it is set as well |
| AppSpec.DestroyTargetActions | liblava/app/app.cpp:308-316 | `destroy_target` ends with plotter, shading, target, preceded by one more step iff `on_destroy` is set |
| AppSpec.DestroyTargetCallsOnDestroy | liblava/app/app.cpp:309-310 | `on_destroy` is called iff it is set, and then first |
| AppSpec.DestroyTargetOrder | liblava/app/app.cpp:312-315 | the plotter goes before the shading, and the shading before the target |
| AppSpec.CreateGuiOutcome | liblava/app/app.cpp:261-285 | `create_gui` sets the GUI up then creates it; it succeeds iff creation and font upload succeed, and then ends by staging the fonts |
| AppSpec.CreateGuiStages | liblava/app/app.cpp:273-282 | the GUI pipeline is added iff the GUI was created, and the fonts are staged iff `create_gui` succeeds |
| AppSpec.Flipped | liblava/app/app.cpp:401-403 | a stored state, when there is one, gets the fullscreen flag opposite to the window's and keeps every other field |
| AppSpec.SwitchModeOutcome | liblava/app/app.cpp:397-409 | the mode-switch part succeeds iff `load_window_state` does not throw and `switch_mode` succeeds; a throw is its last request, with no switch and no icon |
| AppSpec.SwitchModeSavesFirst | liblava/app/app.cpp:398-405 | the window file is saved iff `save_window` is set, and then before the stored state is loaded; `switch_mode` gets the flipped state |
| AppSpec.RebuildPrefix | liblava/app/app.cpp:392-395 | the rebuild's teardown waits for the device first, and ends by destroying the target and then the GUI |
| AppSpec.AfterVSyncToggle | liblava/app/app.cpp:411-414 | a pending toggle flips `v_sync` and is cleared; nothing else changes |
| AppSpec.Recreate | liblava/app/app.cpp:416-419 | creating anew starts with the target, and succeeds iff both `create_target` and `create_gui` do |
| AppSpec.RecreateOrder | liblava/app/app.cpp:416-419 | on success the target is created before the GUI, and staging the fonts comes last |
| AppSpec.RebuildRest | liblava/app/app.cpp:397-419 | after the teardown: ok iff the requested mode switch and both creations succeed; the toggle is consumed unless the mode switch failed, and then the state is unchanged |
| AppSpec.CloseComesFirst | liblava/app/app.cpp:388-389 | a close request ends the step with `shut_down()` alone, whatever else is requested |
| AppSpec.HandleWindow | liblava/app/app.cpp:386-431 | no contract of its own: its meaning is stated by `CloseComesFirst`, `WithoutRebuildNothingIsTornDown` and the `Rebuild` lemmas |
| AppSpec.Rebuild | liblava/app/app.cpp:391-420 | no contract of its own: its meaning is stated by `RebuildTearsDownFirst`, `RebuildSucceeds`, `RebuildParts` and the order lemmas |
| AppSpec.WithoutRebuildNothingIsTornDown | liblava/app/app.cpp:422-429 | with no close or rebuild trigger, nothing is torn down and no state changes; a resize answers with `handle_resize()`, and no request gives true and no action |
| AppSpec.RebuildPrefixOrder | liblava/app/app.cpp:392-395 | wait for idle, then destroy the target, then destroy the GUI |
| AppSpec.RebuildTearsDownFirst | liblava/app/app.cpp:391-395 | a triggered rebuild starts with the teardown, in that order, and changes no state except the v-sync toggle |
| AppSpec.SwitchThrowStopsRebuild | liblava/app/app.cpp:391-401 | an exception from `load_window_state` ends the rebuild after the teardown and the save: it fails, nothing is created anew and the state, toggle included, is unchanged |
| AppSpec.RebuildSucceeds | liblava/app/app.cpp:391-420 | a rebuild succeeds iff the requested mode switch, `create_target` with the new v-sync and `create_gui` succeed; the toggle is then consumed |
| AppSpec.RebuildParts | liblava/app/app.cpp:391-420 | a successful rebuild is the teardown, the mode switch when requested, then target and GUI created anew |
| AppSpec.RebuildRecreatesAfterTeardown | liblava/app/app.cpp:394-416 | the target is created anew only after the GUI has been destroyed |
| AppSpec.RebuildTargetBeforeGui | liblava/app/app.cpp:416-419 | a successful rebuild creates the target before the GUI |
| AppSpec.RebuildEndsWithFonts | liblava/app/app.cpp:416-419 | a successful rebuild ends by staging the GUI fonts |
| AppSpec.VSyncToggleRebuild | liblava/app/app.cpp:411-416 | without a mode switch, the target is recreated with the flipped setting iff a toggle was pending, and no toggle is left pending |
| AppSpec.Render | liblava/app/app.cpp:460-478 | an iconified window sleeps and gives true; no frame index gives true; otherwise the counter goes up by one and the block processes that frame; the result is false iff processing or `end_frame` fails |
| AppSpec.FrameCounterCountsFrames | liblava/app/app.cpp:467-471 | over any run of render steps, `frame_counter` grows by exactly the number of frames drawn, and nothing else changes |
| AppSpec.Update | liblava/app/app.cpp:433-458 | `system` becomes the clock reading and `delta` the raw difference; `current` is unchanged while paused, and otherwise grows by the scaled, possibly fixed, delta; `on_update` gets the applied delta (0 while paused) |
| AppSpec.DeltasTelescope | liblava/app/app.cpp:436-445 | over a run of updates the raw deltas add up to the elapsed time, and a paused application's time stands still |
| AppSpec.KeyListener | liblava/app/app.cpp:321-352 | GUI capture stops the camera and gives false; only `guiActive`, `paused` and `toggle_v_sync` can change; without bindings the camera decides |
| AppSpec.CameraKey | liblava/app/app.cpp:348-351 | only an active camera is handed the key, the result is its answer, and the state is unchanged |
| AppSpec.KeyListenerFlags | liblava/app/app.cpp:327-346 | the GUI toggles iff bindings act and Tab is pressed; the pause toggles iff they act and Space is pressed; a toggle is requested iff they act and Alt+Backspace is pressed |
| AppSpec.KeyListenerCommands | liblava/app/app.cpp:331-342 | Escape shuts down iff bindings act, and returns the result of `shut_down()` without the camera seeing the key; Alt+Enter flips fullscreen; Alt+Backspace is consumed |
| AppSpec.AltBackspaceFlipsVSync | liblava/app/app.cpp:339-341 | Alt+Backspace followed by a window step with no close or mode switch rebuilds with the opposite v-sync and clears the toggle |
| AppSpec.PointerListener | liblava/app/app.cpp:354-372 | GUI mouse capture gives false with nothing done; otherwise the camera handles the event iff it is active, and the result is its answer |
| AppSpec.CreateBlockOutcome | liblava/app/app.cpp:161-182 | `create_block` succeeds iff the block is created, and adds its command exactly then |
| AppSpec.BlockCommand | liblava/app/app.cpp:165-179 | the command stages textures first and processes the shading pass last, with `on_process` in between iff it is set |
| AppSpec.Teardown | liblava/app/app.cpp:232-250 | no contract of its own: its meaning is stated by `TeardownOrder` and `TeardownSavesWindow` |
| AppSpec.TeardownOrder | liblava/app/app.cpp:232-250 | the run-end destroys the camera first and terminates the file system last; GUI before block, block before target, target before window, config saved before its callback is removed |
| AppSpec.TeardownSavesWindow | liblava/app/app.cpp:241-244 | the window file is written iff `save_window` is set, and then before the window is destroyed |
| AppSpec.CreateFromGui | liblava/app/app.cpp:220-224 | from the GUI on, `setup` succeeds iff `create_gui` and `create_block` succeed |
| AppSpec.CreateFromCamera | liblava/app/app.cpp:217-224 | from the camera on, it starts by creating the camera, and succeeds iff the camera, the GUI and the block are created |
| AppSpec.CreateFromTarget | liblava/app/app.cpp:214-224 | from the target on, it starts with the target, and succeeds iff every later step does |
| AppSpec.CreateAll | liblava/app/app.cpp:208-224 | the creation steps succeed iff there is (or is made) a device and each of target, camera, GUI and block is created; a device is made first exactly when there is none |
| AppSpec.CreateAllStart | liblava/app/app.cpp:208-214 | a made device is followed directly by the target, which otherwise comes first |
| AppSpec.GuiBeforeBlock | liblava/app/app.cpp:220-223 | the GUI fonts are staged before the block is created |
| AppSpec.CameraOrder | liblava/app/app.cpp:217-223 | the camera is created before the GUI and the block |
| AppSpec.TargetOrder | liblava/app/app.cpp:214-223 | the target is created before the camera and the block |
| AppSpec.CreateAllCallsOnCreate | liblava/app/app.cpp:292-306 | a successful creation run calls `on_create` when it is set, from `create_target` |
| AppSpec.CreateAllOrder | liblava/app/app.cpp:208-224 | target before camera, camera before GUI, GUI fonts before the block, target before the block |
| AppSpec.Setup | liblava/app/app.cpp:184-259 | once the frame is ready, `setup` starts with the file system, and it succeeds only when the stored window state loads without an exception |
| AppSpec.LoadConfig | liblava/app/app.cpp:113-143 | `on_load` sets `run_time.paused`, the GUI's active flag and `config.v_sync` from the keys the file has, and nothing else |
| AppSpec.SetupVSync | liblava/app/app.cpp:199-200 | a `-vs`/`--v_sync` option overrides the configured v-sync, and nothing else changes |
| AppSpec.Configure | liblava/app/app.cpp:197-200 | after `handle_config()` and the command line, v-sync is the option's value, else the file's, else the prior one; paused and the GUI flag are the file's values where it has them; nothing else changes |
| AppSpec.Registered | liblava/app/app.cpp:226-256 | no contract of its own: its meaning is stated by `SetupState` |
| AppSpec.SetupPrefix | liblava/app/app.cpp:190-203 | no contract of its own: its meaning is stated by `SetupActions` and `SetupWindowBeforeTarget` |
| AppSpec.SetupSucceeds | liblava/app/app.cpp:184-224 | `setup` succeeds iff the frame is ready, the file system starts, `load_window_state` does not throw, the window opens and every creation step succeeds |
| AppSpec.SetupState | liblava/app/app.cpp:197-256 | nothing changes before the file system is up; after that the configuration file's and the command line's flags apply whatever happens next; only success resets the frame counter, sets the clock and registers the runs |
| AppSpec.SetupThrowCreatesNothing | liblava/app/app.cpp:203 | when `load_window_state` throws, `setup` fails with that exception as its last request: no window or target is created, nothing is registered, and only the configured flags have changed |
| AppSpec.SetupActions | liblava/app/app.cpp:184-226 | a successful `setup` is the window steps, the icon, the creation steps, then the listener registrations |
| AppSpec.SetupWindowBeforeTarget | liblava/app/app.cpp:203-214 | the window is opened, with the stored state, before the target is created |
| AppSpec.SetupTargetBeforeBlock | liblava/app/app.cpp:214-223 | the target is created before the block |
| AppSpec.StartupCallsOnCreateTwice | liblava/app/app.cpp:252-254 | with `on_create` set, a successful start calls it inside `setup` (from `create_target`) and also registers the run-once that calls it again on the first frame |
| AppSpec.SetupRegistersListenersLast | liblava/app/app.cpp:226 | a successful `setup` ends with `handle_input`'s listener registrations |
| AppRuns.App.constructor | liblava/app/app.cpp:104-108 | a new application holds the given configuration and state, with nothing requested yet |
| AppRuns.App.DestroyTarget | liblava/app/app.cpp:308-316 | the method requests exactly `DestroyTargetActions` |
| AppRuns.App.DestroyGui | liblava/app/app.cpp:287-290 | the GUI, then the fonts, are destroyed |
| AppRuns.App.CreateTarget | liblava/app/app.cpp:292-306 | the method's result and requests are those of `CreateTargetOutcome` with the current v-sync |
| AppRuns.App.CreateGui | liblava/app/app.cpp:261-285 | the method's result and requests are those of `CreateGuiOutcome` |
| AppRuns.App.SwitchWindowMode | liblava/app/app.cpp:397-409 | the method's result and requests are those of `SwitchModeOutcome`, the throw included |
| AppRuns.App.Recreate | liblava/app/app.cpp:416-419 | the method's result and requests are those of `AppSpec.Recreate` |
| AppRuns.App.TearDownForRebuild | liblava/app/app.cpp:392-395 | the method requests exactly `RebuildPrefix` |
| AppRuns.App.RebuildRest | liblava/app/app.cpp:397-419 | the method's result, new fields and requests are those of `AppSpec.RebuildRest` |
| AppRuns.App.Rebuild | liblava/app/app.cpp:391-420 | the method's result, new fields and requests are those of `AppSpec.Rebuild` |
| AppRuns.App.HandleWindow | liblava/app/app.cpp:386-431 | the run callback's result, new fields and requests are those of `AppSpec.HandleWindow` |
| AppRuns.App.Render | liblava/app/app.cpp:460-478 | the run callback's result, new fields (`frame_counter++`) and requests are those of `AppSpec.Render` |
| AppRuns.App.Update | liblava/app/app.cpp:433-458 | the run callback's result, new clock fields and the `on_update` call are those of `AppSpec.Update` |
| AppRuns.App.KeyListener | liblava/app/app.cpp:321-352 | the listener's result, new flags and requests are those of `AppSpec.KeyListener` |
| AppRuns.App.PointerListener | liblava/app/app.cpp:354-372 | the listener's result and requests are those of `AppSpec.PointerListener` |
| AppRuns.App.InputRun | liblava/app/app.cpp:374-379 | the input run polls events, then sets the mouse position, and gives true |
| AppRuns.App.CreateBlock | liblava/app/app.cpp:161-182 | the method's result and requests are those of `CreateBlockOutcome` |
| AppRuns.App.RecordBlockCommand | liblava/app/app.cpp:165-179 | the block's command requests exactly `BlockCommand` for the frame |
| AppRuns.App.Teardown | liblava/app/app.cpp:232-250 | the run-end requests exactly `AppSpec.Teardown` |
| AppRuns.App.CreateFromGui | liblava/app/app.cpp:220-224 | the method's result and requests are those of `AppSpec.CreateFromGui` |
| AppRuns.App.CreateFromCamera | liblava/app/app.cpp:217-224 | the method's result and requests are those of `AppSpec.CreateFromCamera` |
| AppRuns.App.CreateFromTarget | liblava/app/app.cpp:214-224 | the method's result and requests are those of `AppSpec.CreateFromTarget` |
| AppRuns.App.CreateAll | liblava/app/app.cpp:208-224 | the method's result and requests are those of `AppSpec.CreateAll` |
| AppRuns.App.RegisterRuns | liblava/app/app.cpp:226-256 | the runs are registered in order, the clock is set, the frame counter is reset and the listeners are added |
| AppRuns.App.ReadConfiguration | liblava/app/app.cpp:197-200 | `handle_config()`'s `on_load` and the `-vs` option leave the fields as `Configure` gives them |
| AppRuns.App.OpenWindow | liblava/app/app.cpp:190-203 | ok iff the file system starts, `load_window_state` does not throw and the window opens; the configured flags are applied once the file system is up; a throw is the last request |
| AppRuns.App.Setup | liblava/app/app.cpp:184-259 | `setup()`'s result, new fields and requests are those of `AppSpec.Setup` |

## Left out

- `read_file`, `write_file`, `load_file_data` and `file_remover` are left out: they are file-stream and `fs::remove` I/O.
- `get_filename_from` is left out: it wraps `std::filesystem::path`, whose semantics are not part of this model.
- JSON parsing and dumping are left out. A document is an abstract object/number/boolean value. A window.json that `load_file_data` cannot read gives no data; text that `json::parse` rejects is the parse error (`FileData.Unparsable`).
- `save_window_file` and its `merge_patch` are not modelled. Saving is one `SaveWindowFile` request.
- AppSpec.LoadConfig: only the `on_load` keys that set AppState fields (`paused`, `gui`, `v_sync`) are modelled, as already-converted values. The conversion of those values and its exceptions are left out, because `json_file::load` is not part of this model. Registering `config_callback` and `on_save` are the `HandleConfig` request only.
- AppSpec.Configure: the other `on_load` keys are not modelled. `speed`, `auto_save`, `save_interval`, `auto_load` and `physical_device` are left out. `AppConfig`'s `useFixDelta` and `fixDelta` are the values in effect once `setup` has read the configuration file.
- `save_window_file`'s own `json::parse` of an existing window.json can throw too. That exception is not modelled: saving is the `SaveWindowFile` request in the teardown and the mode switch.
- The details of nlohmann's number conversion are left out. Integers are unbounded, and the model checks only the JSON type.
- WindowFile.ReadField: JSON floating-point numbers, which `get<int>()` truncates, are not modelled. `JOther` stands for floats, strings, null and arrays alike, and is always a type error.
- WindowFile.LoadWindowFile: the default `window::state` is a parameter, because window.hpp is not part of this model.
- Pipeline.PipelineBase.Create, Pipeline.PipelineBase.Destroy and the `copy_to` bodies follow the documented behaviour: create stores the built handle, destroy clears it, copy carries the configuration but not the native handle. pipeline.cpp is not part of this model.
- All native Vulkan work is left out:
  - `create_internal`, `destroy_internal`, `bind` and `set_viewport_and_scissor`;
  - `pipeline_layout::create`/`destroy` and `bind_descriptor_set`;
  - shader-module creation (`add_shader_stage(data/filename)`, `set_shader_stage(data/filename)`, `shader_stage::create(device, data, stage)`);
  - `set_line_width(cmd_buf)`.
- The vertex-input, depth, rasterization, colour-blend and dynamic-state setters of `graphics_pipeline` are not modelled. They fill Vulkan create-info structures whose code lives in pipeline.cpp.
- Auto size and relative viewport scaling are not modelled.
- The default argument `value = true` of `set_active`, `set_auto_bind`, `set_auto_size` and `set_auto_line_width` is not modelled: each setter takes its value explicitly, so a call without an argument is the call with `true`.
- The line width is kept as an opaque `r32` bit pattern. No float arithmetic is done on it.
- AppSpec.Update: `to_sec(dt) * run_time.speed` is float arithmetic, modelled as an abstract scaling function on milliseconds. `on_update`'s argument is recorded in milliseconds, and the `to_delta` conversion is not modelled.
- AppSpec.Render: `frame_counter` is an unbounded natural number, so its wrap-around is not modelled. Its width is declared in app.hpp, which is not part of this model.
- AppSpec.KeyListener: `event.pressed(key)` is read as "this key went down", and `event.pressed(key, mod)` as "with exactly that modifier". input.hpp is not part of this model.
- What `camera.handle`, `camera.stop` and `shut_down()` do is left out. They are requests whose answers are inputs.
- AppSpec.HandleWindow: `window.switch_mode_request()` is asked twice, and the model assumes both calls give the same answer.
- The following are left out or are requests only:
  - ImGui drawing (`draw_about`);
  - icon loading (`SetWindowIcon`);
  - font enumeration and `setup_font` in `create_gui`;
  - `sleep` (`Sleep`);
  - `device->wait_for_idle` (`WaitIdle`);
  - file-system initialisation and mounting;
  - the `--physical_device` option, the log calls and the debug labels in `create_block`.
- The frame driver that calls the registered runs, run-ends and the run-once `on_create` is external. The model records what is registered, not its execution. So `StartupCallsOnCreateTwice` shows the second `on_create` only as the registered run-once, not as a call.
