# File Transfer panel and rsync helper, modelled in Dafny

This project models the two pieces of logic in the ComfyUI file-transfer plugin.

1. **The File Transfer panel's controller** (`web/js/rsync_panel.js`) is modelled as a pure state machine. The state is:
   - one run button per tool (rsync, rclone),
   - the output area that both tools write to,
   - the active tab button and pane,
   - the panel's CSS display value.

   A click on a run button validates the form, builds the request body, switches the panel to its "running" look and issues one POST. The completion of that request renders the response or the transport error and always restores the button. The rsync and rclone handlers are one handler (`TransferPanel.Dispatch` and `TransferPanel.Settle`) parameterised by the tool. `PanelSession` replays arbitrary event sequences and tracks which tools have a request outstanding. It proves that the disabled button is what makes at most one request per tool possible. `WireBody` models the body `JSON.stringify` sends.
2. **The rsync helper** (`comfy_rsync.py`): `_build_cmd`, the `--dry-run` insertion and precondition of `rsync_sync`, and the `rsync_call_node` adaptor. `shutil.which` is a boolean input. `subprocess.run` is a function from the command line and timeout to an exit status with output, or to an exception.

`JsNumber` models the part of `parseInt` that the timeout field relies on.

Modules: `Outcomes` (`Option`, `Result`), `JsNumber`, `TransferPanel`, `PanelSession`, `WireBody`, `ComfyRsync`.

Behaviour of the code that is easy to misread, and that the model keeps:
- The timeout is sent as `parseInt(field || "300")`. It is not clamped to 1..3600. A field such as "-5" is sent as -5.
- An empty `output` also renders as "No output returned", not only a missing one.
- The two tools are not independent. They share the output area, so one tool's completion overwrites the other's running placeholder. The invariant in `PanelSession.Consistent` accounts for this.
- `rsync_sync` inserts `--dry-run` at index 1 even behind `wsl`, against the comment above that line (see Findings).

## Model

| member | source | states |
|---|---|---|
| JsNumber.ParseInt | web/js/rsync_panel.js:264 | `parseInt` gives NaN exactly when no digit follows the optional sign; a negative result needs a leading '-' |
| JsNumber.ParseIntStopsAtNonDigit | web/js/rsync_panel.js:264 | parsing stops at the first non-digit, so "12.5" and "1e3" read as 12 and 1 |
| JsNumber.ParseIntNegative | web/js/rsync_panel.js:316 | a leading '-' negates the digit run, so a negative timeout is sent as is |
| JsNumber.ParseIntOfDecimalText | web/js/rsync_panel.js:264 | `parseInt` reads back the decimal spelling of every natural number as that number |
| JsNumber.DecimalRoundTrip | web/js/rsync_panel.js:316 | the value of a natural number's decimal spelling is the number itself |
| TransferPanel.BuildPayload | web/js/rsync_panel.js:309-317 | the body copies source, destination, flags, dry_run and use_wsl verbatim; config_path is present exactly for rclone; the timeout is `parseInt(field or "300")` |
| TransferPanel.TimeoutField | web/js/rsync_panel.js:264 | an empty timeout field is sent as 300 and the decimal spelling of any n as n, with no clamping |
| TransferPanel.PayloadsDifferOnlyInConfigPath | web/js/rsync_panel.js:258-317 | the rsync and rclone bodies for the same form differ only in rclone's config path |
| TransferPanel.Render | web/js/rsync_panel.js:286-296 | green ("#8bff87") exactly for a decoded response with truthy success, red ("#ff8787") otherwise; the response output, or "No output returned" when it is empty or missing; a transport error as "Error: " plus its message or the tool's fallback |
| TransferPanel.Dispatch | web/js/rsync_panel.js:253-284 | a disabled button changes nothing; a form missing a path only shows the red error and sends nothing; otherwise the button is disabled with "Running...", the running placeholder is neutral and exactly one POST goes to the tool's endpoint; the other button, tabs and display are untouched |
| TransferPanel.Settle | web/js/rsync_panel.js:286-300 | on every completion path the tool's button is enabled with its label at rest and the outcome is rendered; the other button is untouched |
| TransferPanel.ValidationBeforeAnyChange | web/js/rsync_panel.js:267-271 | a form missing a path changes only the output area and issues no request |
| TransferPanel.SettleAlwaysShowsAMessage | web/js/rsync_panel.js:286-296 | every completion leaves non-empty text in a non-neutral colour |
| TransferPanel.SelectTab | web/js/rsync_panel.js:231-243 | after a tab click exactly the clicked tab button and pane are active; buttons, output and display are untouched |
| TransferPanel.SelectTabIdempotent | web/js/rsync_panel.js:233-242 | clicking a tab twice is clicking it once, and clicking the only active tab changes nothing |
| TransferPanel.ToggleDisplay | web/js/rsync_panel.js:12-16 | the menu command maps "none" to "block" and any other value to "none" |
| TransferPanel.ToggleTwice | web/js/rsync_panel.js:15 | on "none" and "block" toggling twice restores the display |
| TransferPanel.Handle | web/js/rsync_panel.js:248-360 | only an enabled run button with both paths issues a request; the close button and a click on the panel itself hide it; other window clicks change nothing |
| PanelSession.Next | web/js/rsync_panel.js:273-300 | a dispatched request puts its tool in flight and a completion takes it out |
| PanelSession.NextConsistent | web/js/rsync_panel.js:253-353 | every event keeps each button tracking its tool's outstanding request, one active tab and pane, a display of "none" or "block", and a neutral output only while its tool runs |
| PanelSession.ReplayConsistent | web/js/rsync_panel.js:253-353 | the invariant holds after every event sequence from the panel's initial state |
| PanelSession.NoSecondRequestWhileRunning | web/js/rsync_panel.js:273-275 | while a tool's request is outstanding, clicking its run button issues nothing and changes nothing |
| PanelSession.AtMostOneJobPerTool | web/js/rsync_panel.js:273-284 | a request is only issued for a tool with none outstanding |
| PanelSession.SettledPanelIsIdle | web/js/rsync_panel.js:297-300 | once nothing is outstanding both buttons are enabled with their original labels and the running placeholder is gone |
| PanelSession.OneActiveTab | web/js/rsync_panel.js:231-243 | after any event sequence exactly one tab button is active and the active pane is its pane |
| PanelSession.SuccessfulRsyncRun | web/js/rsync_panel.js:253-300 | a run of "/a" to "/b" sends the form with timeout 300 to /rsync/run, and a successful response shows its output in green with the button restored |
| WireBody.Encode | web/js/rsync_panel.js:309-317 | the body's keys are the object literal's keys in order, with config_path just before timeout for rclone |
| WireBody.DecodeEncode | web/js/rsync_panel.js:283 | the serialised body loses nothing, a NaN timeout written as null included |
| WireBody.RcloneAddsOnlyConfigPath | web/js/rsync_panel.js:309-317 | the rclone body is the rsync body with one config_path member inserted before the timeout |
| ComfyRsync.EffectiveFlags | comfy_rsync.py:22 | a missing or empty flag list becomes ["-avz"]; any other list is kept exactly as given |
| ComfyRsync.CallerFlagsReachRsync | comfy_rsync.py:21-27 | a non-empty caller flag list appears verbatim between "rsync" and the source, otherwise ["-avz"] does |
| ComfyRsync.BuildCmd | comfy_rsync.py:21-27 | the command is "rsync", the flags, source and destination, led by "wsl" under WSL; its length is 3 + flags (+1 for WSL) |
| ComfyRsync.WslOnlyPrefixes | comfy_rsync.py:24-27 | WSL prepends exactly "wsl" and leaves the rest unchanged |
| ComfyRsync.Insert | comfy_rsync.py:67 | `list.insert` puts the element at the index and shifts the rest, or appends past the end |
| ComfyRsync.SyncCommand | comfy_rsync.py:62-67 | the length is 3 + flags + WSL + dry-run; source and destination are always last; with dry-run, "--dry-run" is at index 1 and removing it gives the built command |
| ComfyRsync.DryRunPosition | comfy_rsync.py:63-67 | with WSL the command starts "wsl", "--dry-run", "rsync"; without it "rsync", "--dry-run" |
| ComfyRsync.IntendedSyncCommand | comfy_rsync.py:64-65 | the corrected command has the same length as the command as written |
| ComfyRsync.IntendedDryRunFollowsRsync | comfy_rsync.py:64-65 | with the index the comment describes, "--dry-run" directly follows "rsync" and the rest keeps its order |
| ComfyRsync.AsWrittenDiffersOnlyForWslDryRun | comfy_rsync.py:63-67 | the code and the corrected command agree exactly when the run is not a dry run through WSL |
| ComfyRsync.RsyncSync | comfy_rsync.py:57-82 | without rsync and without WSL it raises FileNotFoundError; otherwise it returns whatever exit status the launch gave, re-raises a missing executable as "Command not found: wsl" or "Command not found: rsync", and passes other exceptions through |
| ComfyRsync.MissingRsyncLaunchesNothing | comfy_rsync.py:57-60 | without rsync and without WSL the result does not depend on the launcher: nothing is run |
| ComfyRsync.CallNode | comfy_rsync.py:87-105 | a missing or empty path gives the "required" error; otherwise success with rc and output when `rsync_sync` returns, failure with the exception's text when it raises an `Exception`, and the exception itself escapes when it is a `BaseException` outside `Exception` |
| ComfyRsync.CallNodeChecksPathsFirst | comfy_rsync.py:92-99 | with a path missing the answer does not depend on rsync being installed or on any launch |
| ComfyRsync.CallNodeSucceedsOnAnyExitStatus | comfy_rsync.py:101-103 | whenever rsync runs the node reports success, whatever the exit status |
| ComfyRsync.CallNodeFailsIffException | comfy_rsync.py:98-105 | the node returns a failure exactly when a path is missing or `rsync_sync` raised an `Exception` |
| ComfyRsync.CallNodeLetsBaseExceptionsEscape | comfy_rsync.py:72-105 | the node raises exactly when rsync is launched and the launch raises a non-`Exception` (an interrupt or exit), and it raises that exception unchanged |

## Left out

- DOM construction, CSS, `app.registerExtension` and the menu wiring (web/js/rsync_panel.js:5-228) are UI chrome. The model starts from the state `setup` leaves behind, so the command's `if (panel)` guard always passes.
- `fetch` and `response.json()` are abstract outcomes: a decoded body, or a transport error with an optional message. An HTTP error status whose body is JSON is a decoded response, as in the code, which never inspects the status. A body of `null` is the exception: reading `result.output` on it throws inside the `try`, so it is a transport error carrying that TypeError's message. Any other non-object body (a number, a string, an array) is a decoded response with a falsy `success` and no `output`.
- TransferPanel.Outcome: a non-string `output` value in the response (a number, an object) is not modelled. `success` is modelled by its truthiness only.
- JsNumber.ParseInt: leading whitespace, a "0x" prefix and the loss of precision on very long digit runs are not modelled. The number input never holds the first two, and the third is floating point.
- The `/rsync/run` and `/rclone/run` server handlers are not part of this model.
- Async interleaving beyond one dispatch step and one completion step per request is not modelled. There is no client-side timeout or cancellation, so if the server never answers, the button stays disabled.
- ComfyRsync.CallNode: the input dictionary is modelled with string (or missing) `source` and `dest` and a list of strings (or missing) `flags`, as `rsync_sync`'s annotations declare. An ill-typed value, which would raise a TypeError inside the `try`, is not modelled.
- ComfyRsync.RsyncSync: the `env` argument, stderr merged into stdout, and UTF-8 decoding belong to the launcher and are not modelled. The text of a raised exception is carried as given.
- `find_rsync` (comfy_rsync.py:16-18) and `subprocess.run` are OS and process I/O. Their results are inputs.
- The `__main__` command-line entry point (comfy_rsync.py:108-124) parses arguments and prints. It adds no logic of its own.
- `__init__.py` only re-exports names for plugin loading, and the names it imports are not defined in `comfy_rsync.py`. There is nothing to model.

## Findings

| source | as written | input that shows it | evidently intended | confidence | as-written member | corrected member |
|---|---|---|---|---|---|---|
| comfy_rsync.py:63-67 | `insert_at = 1 if use_wsl else 1` puts "--dry-run" at index 1 also when "wsl" leads, making it an argument of `wsl` rather than of `rsync` | source "a", dest "b", no flags, dry_run and use_wsl set: the command is ["wsl", "--dry-run", "rsync", "-avz", "a", "b"] | index 2 under WSL, as the comment says: ["wsl", "rsync", "--dry-run", "-avz", "a", "b"] | not executed; high that the code contradicts its own comment | ComfyRsync.DryRunPosition | ComfyRsync.IntendedDryRunFollowsRsync |

`ComfyRsync.SyncCommand` models the insertion as written. `ComfyRsync.IntendedSyncCommand` is the corrected definition. `ComfyRsync.RsyncSync` and `ComfyRsync.CallNode` keep the as-written command because they describe what the code launches. `ComfyRsync.AsWrittenDiffersOnlyForWslDryRun` shows that the two differ exactly for a dry run through WSL.
