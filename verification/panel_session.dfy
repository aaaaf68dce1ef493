/** Sequences of panel events, with the set of tools whose request is still outstanding.

    The handlers keep no job counter: the disabled run button is the only thing that
    stops a second request for the same tool. This module adds that bookkeeping beside
    the panel and proves that the button tracks it on every event sequence. */
module PanelSession {
  import opened Outcomes
  import opened TransferPanel

  /** The panel and the tools that have a request outstanding. */
  datatype Session = Session(panel: Panel, inFlight: set<Tool>)

  const Start: Session := Session(Initial, {})

  /** One event: a dispatched request puts its tool in flight, a completion takes it out. */
  function Next(s: Session, e: Event): (n: Session)
    ensures n.panel == Handle(s.panel, e).panel
    ensures Handle(s.panel, e).request.Some? ==> n.inFlight == s.inFlight + {e.tool}
    ensures e.Complete? ==> n.inFlight == s.inFlight - {e.tool}
    ensures !e.Complete? && Handle(s.panel, e).request.None? ==> n.inFlight == s.inFlight
  {
    var step := Handle(s.panel, e);
    var inFlight :=
      if step.request.Some? then s.inFlight + {e.tool}
      else if e.Complete? then s.inFlight - {e.tool}
      else s.inFlight;
    Session(step.panel, inFlight)
  }

  /** The session reached from `Start` by the events in order. */
  function Replay(events: seq<Event>): Session {
    if events == [] then Start
    else Next(Replay(events[..|events| - 1]), events[|events| - 1])
  }

  /** A tool's button is disabled and reads "Running..." exactly while its request is
      outstanding, and is enabled with its label at rest otherwise. */
  predicate ButtonTracksJob(s: Session, t: Tool) {
    ButtonOf(s.panel, t) ==
      if t in s.inFlight then Button(true, RunningLabel) else Button(false, RunLabel(t))
  }

  /** The output area shows `t`'s running placeholder while `t` is outstanding. */
  predicate ShowsRunning(s: Session, t: Tool) {
    t in s.inFlight && s.panel.output == OutputArea(RunningText(t), Neutral)
  }

  /** What holds after every event sequence. */
  predicate Consistent(s: Session) {
    && ButtonTracksJob(s, Rsync)
    && ButtonTracksJob(s, Rclone)
    && (s.panel.activeTabButtons == {Rsync} || s.panel.activeTabButtons == {Rclone})
    && s.panel.activePanes == s.panel.activeTabButtons
    && (s.panel.display == "none" || s.panel.display == "block")
    && (s.panel.output.color == Neutral ==> ShowsRunning(s, Rsync) || ShowsRunning(s, Rclone))
  }

  /** Every event keeps the session consistent, including a completion that arrives for
      a tool with nothing outstanding. */
  lemma NextConsistent(s: Session, e: Event)
    requires Consistent(s)
    ensures Consistent(Next(s, e))
  {
    var n := Next(s, e);
    match e {
      case ClickRun(t, f) =>
        assert ButtonOf(n.panel, Other(t)) == ButtonOf(s.panel, Other(t));
        assert Other(t) in n.inFlight <==> Other(t) in s.inFlight;
      case Complete(t, o) =>
        assert ButtonOf(n.panel, Other(t)) == ButtonOf(s.panel, Other(t));
        assert Other(t) in n.inFlight <==> Other(t) in s.inFlight;
        SettleAlwaysShowsAMessage(s.panel, t, o);
      case ClickTab(t) =>
        assert n.panel.activeTabButtons == {t};
        assert t == Rsync || t == Rclone;
      case ToggleCommand =>
      case ClickClose =>
      case ClickWindow(onPanel) =>
    }
  }

  /** Every session reachable from the start is consistent. */
  lemma {:induction false} ReplayConsistent(events: seq<Event>)
    ensures Consistent(Replay(events))
  {
    if events != [] {
      ReplayConsistent(events[..|events| - 1]);
      NextConsistent(Replay(events[..|events| - 1]), events[|events| - 1]);
    }
  }

  /** While a tool's request is outstanding, clicking its run button does nothing: no
      second request, no change on screen. */
  lemma {:induction false} NoSecondRequestWhileRunning(events: seq<Event>, t: Tool, f: Form)
    requires t in Replay(events).inFlight
    ensures Handle(Replay(events).panel, ClickRun(t, f)) == Step(Replay(events).panel, None)
  {
    ReplayConsistent(events);
  }

  /** A request is only ever issued for a tool with none outstanding, so each tool has at
      most one request in flight. */
  lemma {:induction false} AtMostOneJobPerTool(events: seq<Event>, e: Event)
    requires Handle(Replay(events).panel, e).request.Some?
    ensures e.ClickRun? && e.tool !in Replay(events).inFlight
  {
    ReplayConsistent(events);
  }

  /** Once nothing is outstanding, both buttons are enabled with their labels at rest
      and the output area no longer shows a running placeholder. */
  lemma {:induction false} SettledPanelIsIdle(events: seq<Event>)
    requires Replay(events).inFlight == {}
    ensures ButtonOf(Replay(events).panel, Rsync) == Button(false, "Run Rsync")
    ensures ButtonOf(Replay(events).panel, Rclone) == Button(false, "Run Rclone")
    ensures Replay(events).panel.output.color != Neutral
  {
    ReplayConsistent(events);
  }

  /** After any event sequence exactly one tab button and its pane are active. */
  lemma {:induction false} OneActiveTab(events: seq<Event>)
    ensures exists t :: Replay(events).panel.activeTabButtons == {t}
    ensures Replay(events).panel.activePanes == Replay(events).panel.activeTabButtons
  {
    ReplayConsistent(events);
    var t :| t in Replay(events).panel.activeTabButtons;
  }

  /** A successful rsync run of "/a" to "/b": the request carries the form and the
      default timeout, and the response text ends up in green with the button idle. */
  lemma SuccessfulRsyncRun()
    ensures
      var f := Form("/a", "/b", "-avz", true, false, "", "");
      var e1 := ClickRun(Rsync, f);
      var e2 := Complete(Rsync, Decoded(true, Some("sent 10 files")));
      && Handle(Start.panel, e1).request ==
           Some(Request("/rsync/run",
                        Payload("/a", "/b", "-avz", true, false, None, JsNumber.Finite(300))))
      && Replay([e1, e2]).panel.output == OutputArea("sent 10 files", Green)
      && ButtonOf(Replay([e1, e2]).panel, Rsync) == Button(false, "Run Rsync")
  {
    var f := Form("/a", "/b", "-avz", true, false, "", "");
    TimeoutField(Rsync, f, 300);
    var e1 := ClickRun(Rsync, f);
    var e2 := Complete(Rsync, Decoded(true, Some("sent 10 files")));
    assert [e1, e2][..1] == [e1];
    assert [e1][..0] == [];
  }
}
