/** The File Transfer panel's controller as a pure state machine.

    The panel holds one run button per tool, one output area that both tools write to,
    the tab strip (one tab button and one pane per tool) and the panel's CSS display
    value. The rsync and rclone run handlers are the same handler parameterised by the
    tool: they differ only in endpoint, labels, placeholder and fallback texts and in
    rclone's extra `config_path` field.

    A run handler is split at its one suspension point, the awaited `fetch`: `ClickRun`
    covers everything before the request is issued, `Complete` everything after it
    settles (the `try` body or `catch`, then the `finally`). */
module TransferPanel {
  import opened Outcomes
  import opened JsNumber

  datatype Tool = Rsync | Rclone

  function Other(t: Tool): Tool {
    match t
    case Rsync => Rclone
    case Rclone => Rsync
  }

  /** The run button's label at rest. */
  function RunLabel(t: Tool): string {
    match t
    case Rsync => "Run Rsync"
    case Rclone => "Run Rclone"
  }

  const RunningLabel: string := "Running..."

  function Endpoint(t: Tool): string {
    match t
    case Rsync => "/rsync/run"
    case Rclone => "/rclone/run"
  }

  /** The output area's placeholder while a request is outstanding. */
  function RunningText(t: Tool): string {
    match t
    case Rsync => "Running rsync command..."
    case Rclone => "Running rclone command..."
  }

  /** What follows "Error: " when a transport failure carries no message. */
  function FailureFallback(t: Tool): string {
    match t
    case Rsync => "Failed to run rsync"
    case Rclone => "Failed to run rclone"
  }

  const MissingPathsText: string := "Error: Source and destination paths are required."
  const NoOutputText: string := "No output returned"
  const InitialOutputText: string := "Results will appear here"
  const DefaultTimeoutText: string := "300"

  /** The output area's text colour. `Inherited` is the initial state, in which the
      handlers have not yet set any colour. */
  datatype Color = Inherited | Neutral | Green | Red

  /** The value the handlers assign to `outputArea.style.color` for each colour. */
  function CssColor(c: Color): string {
    match c
    case Inherited => ""
    case Neutral => "var(--input-text)"
    case Green => "#8bff87"
    case Red => "#ff8787"
  }

  datatype Button = Button(disabled: bool, caption: string)

  datatype OutputArea = OutputArea(text: string, color: Color)

  /** The whole visible state the handlers read and write. Tabs and panes are named by
      the tool whose form they hold ("rsync-tab", "rclone-tab"). */
  datatype Panel = Panel(
    rsyncRun: Button,
    rcloneRun: Button,
    output: OutputArea,
    activeTabButtons: set<Tool>,
    activePanes: set<Tool>,
    display: string)

  /** The form fields as the handler reads them at click time. The rsync form has no
      config-path field; its `configPath` is ignored. */
  datatype Form = Form(
    source: string,
    destination: string,
    flags: string,
    dryRun: bool,
    useWsl: bool,
    configPath: string,
    timeout: string)

  /** The request body object; `configPath` is present for rclone only. */
  datatype Payload = Payload(
    source: string,
    destination: string,
    flags: string,
    dryRun: bool,
    useWsl: bool,
    configPath: Option<string>,
    timeout: Number)

  datatype Request = Request(endpoint: string, body: Payload)

  /** How an outstanding request settles. `Decoded` is a response whose body parsed as
      JSON: `success` is the truthiness of its `success` field and `output` its `output`
      field (None when absent). `TransportError` is a rejected `fetch` or `json()`, with
      the error's `message` (None when it has none). A body of `null` is the exception:
      reading `result.output` on it throws, so it settles as a `TransportError` carrying
      that TypeError's message; any other non-object body (a number, a string, an
      array) is `Decoded(false, None)`. */
  datatype Outcome =
    | Decoded(success: bool, output: Option<string>)
    | TransportError(message: Option<string>)

  datatype Event =
    | ClickRun(tool: Tool, form: Form)
    | Complete(tool: Tool, outcome: Outcome)
    | ClickTab(tab: Tool)
    | ToggleCommand
    | ClickClose
    | ClickWindow(onPanel: bool)

  /** The panel after one event, and the request that event issued, if any. */
  datatype Step = Step(panel: Panel, request: Option<Request>)

  /** The panel as `setup` leaves it: hidden, rsync tab active, both buttons idle. */
  const Initial: Panel := Panel(
    Button(false, RunLabel(Rsync)),
    Button(false, RunLabel(Rclone)),
    OutputArea(InitialOutputText, Inherited),
    {Rsync},
    {Rsync},
    "none")

  function ButtonOf(p: Panel, t: Tool): Button {
    match t
    case Rsync => p.rsyncRun
    case Rclone => p.rcloneRun
  }

  /** Replaces one tool's button; nothing else changes. */
  function WithButton(p: Panel, t: Tool, b: Button): (q: Panel)
    ensures ButtonOf(q, t) == b
    ensures ButtonOf(q, Other(t)) == ButtonOf(p, Other(t))
    ensures q.output == p.output && q.display == p.display
    ensures q.activeTabButtons == p.activeTabButtons && q.activePanes == p.activePanes
  {
    match t
    case Rsync => p.(rsyncRun := b)
    case Rclone => p.(rcloneRun := b)
  }

  /** Both paths are required; nothing else in the form is checked. */
  predicate HasPaths(f: Form) {
    f.source != "" && f.destination != ""
  }

  /** `parseInt(field || "300")`. */
  function TimeoutOf(field: string): Number {
    ParseInt(if field == "" then DefaultTimeoutText else field)
  }

  /** The request body built from the form: text and check-box fields verbatim, the
      config path for rclone only, and the timeout parsed without any clamping. */
  function BuildPayload(t: Tool, f: Form): (b: Payload)
    ensures b.source == f.source && b.destination == f.destination
    ensures b.flags == f.flags && b.dryRun == f.dryRun && b.useWsl == f.useWsl
    ensures b.configPath.Some? <==> t == Rclone
    ensures b.configPath.Some? ==> b.configPath.value == f.configPath
    ensures b.timeout == TimeoutOf(f.timeout)
  {
    Payload(f.source, f.destination, f.flags, f.dryRun, f.useWsl,
            if t == Rclone then Some(f.configPath) else None,
            TimeoutOf(f.timeout))
  }

  /** How a settled request is shown: the response's output (or a placeholder when it
      is empty or missing) coloured by its success flag; a transport failure as an
      "Error: " line in red. */
  function Render(t: Tool, o: Outcome): (out: OutputArea)
    ensures out.color == Green <==> o.Decoded? && o.success
    ensures out.color == Red <==> !(o.Decoded? && o.success)
    ensures CssColor(out.color) == if o.Decoded? && o.success then "#8bff87" else "#ff8787"
    ensures o.Decoded? && o.output.Some? && o.output.value != "" ==> out.text == o.output.value
    ensures o.Decoded? && o.output.ValueOr("") == "" ==> out.text == NoOutputText
    ensures o.TransportError? && o.message.ValueOr("") != "" ==> out.text == "Error: " + o.message.value
    ensures o.TransportError? && o.message.ValueOr("") == "" ==> out.text == "Error: " + FailureFallback(t)
  {
    match o
    case Decoded(success, output) =>
      var text := if output.ValueOr("") != "" then output.value else NoOutputText;
      OutputArea(text, if success then Green else Red)
    case TransportError(message) =>
      var reason := if message.ValueOr("") != "" then message.value else FailureFallback(t);
      OutputArea("Error: " + reason, Red)
  }

  /** A click on a run button. A disabled button does not fire, so nothing happens;
      a form without both paths only puts the error message in red; otherwise the
      button is disabled, the running placeholder shown, and exactly one POST issued. */
  function Dispatch(p: Panel, t: Tool, f: Form): (r: Step)
    ensures ButtonOf(p, t).disabled ==> r == Step(p, None)
    ensures !ButtonOf(p, t).disabled && !HasPaths(f) ==>
      r.request == None && r.panel == p.(output := OutputArea(MissingPathsText, Red))
    ensures !ButtonOf(p, t).disabled && HasPaths(f) ==>
      && r.request == Some(Request(Endpoint(t), BuildPayload(t, f)))
      && ButtonOf(r.panel, t) == Button(true, RunningLabel)
      && r.panel.output == OutputArea(RunningText(t), Neutral)
    ensures ButtonOf(r.panel, Other(t)) == ButtonOf(p, Other(t))
    ensures r.panel.activeTabButtons == p.activeTabButtons && r.panel.activePanes == p.activePanes
    ensures r.panel.display == p.display
  {
    if ButtonOf(p, t).disabled then
      Step(p, None)
    else if !HasPaths(f) then
      Step(p.(output := OutputArea(MissingPathsText, Red)), None)
    else
      var running := WithButton(p, t, Button(true, RunningLabel));
      Step(running.(output := OutputArea(RunningText(t), Neutral)),
           Some(Request(Endpoint(t), BuildPayload(t, f))))
  }

  /** The end of a run handler: the outcome is rendered and, on every path, this tool's
      button is re-enabled with its label at rest. */
  function Settle(p: Panel, t: Tool, o: Outcome): (q: Panel)
    ensures ButtonOf(q, t) == Button(false, RunLabel(t))
    ensures ButtonOf(q, Other(t)) == ButtonOf(p, Other(t))
    ensures q.output == Render(t, o)
    ensures q.activeTabButtons == p.activeTabButtons && q.activePanes == p.activePanes
    ensures q.display == p.display
  {
    WithButton(p, t, Button(false, RunLabel(t))).(output := Render(t, o))
  }

  /** A click on a tab button deactivates every tab button and pane, then activates
      the clicked button and its pane. */
  function SelectTab(p: Panel, t: Tool): (q: Panel)
    ensures q.activeTabButtons == {t} && q.activePanes == {t}
    ensures q.rsyncRun == p.rsyncRun && q.rcloneRun == p.rcloneRun
    ensures q.output == p.output && q.display == p.display
  {
    var cleared := p.(activeTabButtons := {}, activePanes := {});
    cleared.(activeTabButtons := cleared.activeTabButtons + {t},
             activePanes := cleared.activePanes + {t})
  }

  /** The menu command: "none" shows the panel as "block", anything else hides it. */
  function ToggleDisplay(display: string): (d: string)
    ensures display == "none" ==> d == "block"
    ensures display != "none" ==> d == "none"
  {
    if display == "none" then "block" else "none"
  }

  /** The panel after one event, with the request it issued. */
  function Handle(p: Panel, e: Event): (r: Step)
    ensures r.request.Some? ==> e.ClickRun? && !ButtonOf(p, e.tool).disabled && HasPaths(e.form)
    ensures e.ClickClose? || (e.ClickWindow? && e.onPanel) ==> r.panel == p.(display := "none")
    ensures e.ClickWindow? && !e.onPanel ==> r.panel == p
  {
    match e
    case ClickRun(t, f) => Dispatch(p, t, f)
    case Complete(t, o) => Step(Settle(p, t, o), None)
    case ClickTab(t) => Step(SelectTab(p, t), None)
    case ToggleCommand => Step(p.(display := ToggleDisplay(p.display)), None)
    case ClickClose => Step(p.(display := "none"), None)
    case ClickWindow(onPanel) => Step(if onPanel then p.(display := "none") else p, None)
  }

  // Properties relating several operations.

  /** An empty timeout field is sent as 300 and a field holding the decimal spelling of
      `n` is sent as `n`, whatever its size: nothing clamps it to 1..3600. */
  lemma TimeoutField(t: Tool, f: Form, n: nat)
    ensures f.timeout == "" ==> BuildPayload(t, f).timeout == Finite(300)
    ensures f.timeout == DecimalText(n) ==> BuildPayload(t, f).timeout == Finite(n)
  {
    assert DefaultTimeoutText == DecimalText(300);
    ParseIntOfDecimalText(300);
    ParseIntOfDecimalText(n);
  }

  /** The two tools build the same body apart from rclone's config path. */
  lemma PayloadsDifferOnlyInConfigPath(f: Form)
    ensures BuildPayload(Rclone, f) == BuildPayload(Rsync, f).(configPath := Some(f.configPath))
  {
  }

  /** A rejected form changes nothing but the output area: neither button, the tabs nor
      the display moves, and no request leaves. */
  lemma ValidationBeforeAnyChange(p: Panel, t: Tool, f: Form)
    requires !HasPaths(f)
    ensures Handle(p, ClickRun(t, f)).request == None
    ensures Handle(p, ClickRun(t, f)).panel == p.(output := Handle(p, ClickRun(t, f)).panel.output)
    ensures !ButtonOf(p, t).disabled ==>
      Handle(p, ClickRun(t, f)).panel.output == OutputArea(MissingPathsText, Red)
  {
  }

  /** Every settled request leaves a visible, non-empty message, and the neutral colour
      of the running placeholder is gone. */
  lemma SettleAlwaysShowsAMessage(p: Panel, t: Tool, o: Outcome)
    ensures Settle(p, t, o).output.text != ""
    ensures Settle(p, t, o).output.color != Neutral
  {
  }

  /** Selecting a tab is idempotent, and selecting the tab that is already the only
      active one changes nothing. */
  lemma SelectTabIdempotent(p: Panel, t: Tool)
    ensures SelectTab(SelectTab(p, t), t) == SelectTab(p, t)
    ensures p.activeTabButtons == {t} && p.activePanes == {t} ==> SelectTab(p, t) == p
  {
  }

  /** On the two values the panel's display ever takes, toggling twice is the identity. */
  lemma ToggleTwice(display: string)
    requires display == "none" || display == "block"
    ensures ToggleDisplay(ToggleDisplay(display)) == display
  {
  }
}
