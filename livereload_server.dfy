/** The live-reload task of the `serve` command: it owns one lazily created
    push server, subscribes to the file watcher's `change` and `error`
    events, decides per change whether connected browsers are told to
    reload, and reports a failed start to the user, and watch errors to the
    user and to analytics.

    The push server, the watcher, the UI and the analytics service are
    modelled as plain logs: the server records what it was asked to
    broadcast and the ports it was asked to listen on, the task records the
    listeners it registered, the lines it wrote and the analytics records it
    sent. `path.relative` and `String.prototype.match` are kept
    uninterpreted: the task is given them as arbitrary total functions. */
module LiveReload {
  import opened JsText

  // ---------------------------------------------------------------------
  // Values exchanged with the collaborators
  // ---------------------------------------------------------------------

  /** A configured filter pattern, matched by the host's `match`. */
  datatype Pattern = Pattern(source: string)

  /** The parts of the project the task reads. */
  datatype Project = Project(root: string, liveReloadFilterPatterns: seq<Pattern>)

  /** The `results` object of a watcher `change` event. */
  datatype ChangeEvent = ChangeEvent(filePath: Option<string>)

  /** A watcher `error` value: optional `message` and `stack` properties and
      the text the value itself converts to (what is written when it has no
      message). */
  datatype ErrorEvent = ErrorEvent(message: Option<string>, stack: Option<string>, asText: string)

  /** `options` of `start`; only `liveReload === true` enables the server. */
  datatype StartOptions = StartOptions(liveReload: Option<bool>, liveReloadPort: int)

  /** The error a failed bind reports to the pending `listen`. */
  datatype TransportError = TransportError(message: string, stack: string)

  /** How the push server's bind of a port ends: its success callback runs,
      or its error callback runs first with a transport error. */
  datatype BindOutcome = Bound | BindFailed(cause: TransportError)

  /** A user-facing error that is shown without a stack trace. */
  datatype SilentError = SilentError(message: string)

  /** How the promise returned by `start` settles; `Resolved(None)` is a
      promise resolved with `undefined`. */
  datatype StartOutcome = Resolved(value: Option<string>) | Rejected(error: SilentError)

  /** The argument of the push server's `changed`: `{body: {files: ...}}`. */
  datatype Payload = Payload(files: seq<string>)

  /** Which function the push server's settable `error` property holds. */
  datatype ErrorHook = Forwarding | RejectPendingListen

  /** A watcher subscription made by `start`. */
  datatype Listener = OnChange | OnError

  /** One `ui.writeLine`; `highlighted` marks text wrapped in `chalk.red`. */
  datatype Line = Line(text: string, highlighted: bool)

  /** One call on the analytics service. */
  datatype AnalyticsRecord =
    | Track(name: string, message: string)
    | TrackError(description: string, isFatal: bool)

  // ---------------------------------------------------------------------
  // Fixed texts
  // ---------------------------------------------------------------------

  const DisabledMessage := "Livereload server manually disabled."
  const BannerPrefix := "Livereload server on port "
  const FailurePrefix := "Livereload failed on port "
  const FailureSuffix := ".  It is either in use or you do not have permission."
  const ReloadPayload := Payload(["LiveReload files"])
  const ReloadEvent := Track("broccoli watcher", "live-reload")

  // ---------------------------------------------------------------------
  // The change filter
  // ---------------------------------------------------------------------

  /** The `reduce` over the filter patterns, seeded with `acc`: the change may
      trigger exactly when the seed holds and no pattern matches `path`. */
  function FilterFold(acc: bool, path: string, patterns: seq<Pattern>,
                      matches: (string, Pattern) -> bool): (r: bool)
    ensures r <==> acc && forall i :: 0 <= i < |patterns| ==> !matches(path, patterns[i])
    decreases |patterns|
  {
    if patterns == [] then acc
    else FilterFold(acc && !matches(path, patterns[0]), path, patterns[1..], matches)
  }

  /** The path the filter sees: the event's path (empty when absent) made
      relative to the project root. */
  function RelativeChangePath(project: Project, relative: (string, string) -> string,
                              event: ChangeEvent): string
  {
    relative(project.root, OrEmpty(event.filePath))
  }

  /** Whether a change event leads to a reload: no configured pattern matches
      its relative path. With no patterns every change triggers, and an
      absent path is filtered as the empty string. */
  function CanTrigger(project: Project, relative: (string, string) -> string,
                      matches: (string, Pattern) -> bool, event: ChangeEvent): (r: bool)
    ensures r <==> forall i :: 0 <= i < |project.liveReloadFilterPatterns| ==>
                     !matches(relative(project.root, OrEmpty(event.filePath)),
                              project.liveReloadFilterPatterns[i])
    ensures project.liveReloadFilterPatterns == [] ==> r
    ensures event.filePath.None? ==>
              (r <==> forall i :: 0 <= i < |project.liveReloadFilterPatterns| ==>
                        !matches(relative(project.root, ""), project.liveReloadFilterPatterns[i]))
  {
    FilterFold(true, RelativeChangePath(project, relative, event),
               project.liveReloadFilterPatterns, matches)
  }

  /** Filtering with the patterns `p + q` is filtering with `p` and then with `q`. */
  lemma {:induction false} FilterFoldAppend(acc: bool, path: string, p: seq<Pattern>, q: seq<Pattern>,
                                            matches: (string, Pattern) -> bool)
    ensures FilterFold(acc, path, p + q, matches)
            == FilterFold(FilterFold(acc, path, p, matches), path, q, matches)
    decreases |p|
  {
    if p == [] {
      assert p + q == q;
    } else {
      assert (p + q)[1..] == p[1..] + q;
      FilterFoldAppend(acc && !matches(path, p[0]), path, p[1..], q, matches);
    }
  }

  // ---------------------------------------------------------------------
  // Banners and reports
  // ---------------------------------------------------------------------

  /** The line written once the server listens on `port`; it names the port. */
  function Banner(port: int): (s: string)
    ensures |s| > |BannerPrefix| && s[..|BannerPrefix|] == BannerPrefix
    ensures ParseInteger(s[|BannerPrefix|..]) == Some(port)
  {
    var s := BannerPrefix + NumberToString(port);
    assert s[|BannerPrefix|..] == NumberToString(port);
    NumberRoundTrip(port);
    s
  }

  /** `writeErrorBanner`: the fixed error a failed bind of `port` is turned
      into. It mentions the port and is built from nothing else, so the
      transport error's message and stack never reach the user. */
  function WriteErrorBanner(port: int): (e: SilentError)
    ensures |e.message| > |FailurePrefix| + |FailureSuffix|
    ensures e.message[..|FailurePrefix|] == FailurePrefix
    ensures e.message[|e.message| - |FailureSuffix|..] == FailureSuffix
    ensures ParseInteger(e.message[|FailurePrefix|..|e.message| - |FailureSuffix|]) == Some(port)
  {
    var digits := NumberToString(port);
    var m := FailurePrefix + digits + FailureSuffix;
    assert m[|FailurePrefix|..|m| - |FailureSuffix|] == digits;
    assert m[..|FailurePrefix|] == FailurePrefix;
    assert m[|m| - |FailureSuffix|..] == FailureSuffix;
    NumberRoundTrip(port);
    SilentError(m)
  }

  /** The lines `didError` writes: the message (or the value itself when it
      has no message) in red, then the stack on a line of its own when there
      is one. */
  function ErrorLines(e: ErrorEvent): (lines: seq<Line>)
    ensures |lines| == if Truthy(e.stack) then 2 else 1
    ensures lines[0].highlighted
    ensures Truthy(e.message) ==> lines[0].text == e.message.value
    ensures !Truthy(e.message) ==> lines[0].text == e.asText
    ensures forall i :: 1 <= i < |lines| ==> lines[i].text == e.stack.value && !lines[i].highlighted
  {
    var first := Line(if Truthy(e.message) then e.message.value else e.asText, true);
    if Truthy(e.stack) then [first, Line(e.stack.value, false)] else [first]
  }

  /** The analytics record `didError` sends: never fatal, and its description
      reads as the message text, one space, then the stack text (either
      written as "undefined" when absent). */
  function ErrorRecord(e: ErrorEvent): (r: AnalyticsRecord)
    ensures r.TrackError? && !r.isFatal
    ensures |r.description| == |ConcatText(e.message)| + 1 + |ConcatText(e.stack)|
    ensures r.description[..|ConcatText(e.message)|] == ConcatText(e.message)
    ensures r.description[|ConcatText(e.message)|] == ' '
    ensures r.description[|ConcatText(e.message)| + 1..] == ConcatText(e.stack)
  {
    TrackError(ConcatText(e.message) + " " + ConcatText(e.stack), false)
  }

  /** When the message text has no space, the first space of the description
      marks where the message ends, so both parts can be read back. */
  lemma ErrorDescriptionSplits(e: ErrorEvent, k: nat)
    requires k == |ConcatText(e.message)|
    requires forall i :: 0 <= i < k ==> ConcatText(e.message)[i] != ' '
    ensures forall i :: 0 <= i < k ==> ErrorRecord(e).description[i] != ' '
    ensures ErrorRecord(e).description[k] == ' '
  {
  }

  /** Without that condition the description is ambiguous: a space inside the
      message and a space inside the stack can give the same record. */
  lemma ErrorDescriptionAmbiguous(asText: string)
    ensures ErrorRecord(ErrorEvent(Some("a b"), Some("c"), asText))
            == ErrorRecord(ErrorEvent(Some("a"), Some("b c"), asText))
  {
  }

  // ---------------------------------------------------------------------
  // The push server handle
  // ---------------------------------------------------------------------

  /** The push server: an opaque handle whose effects are recorded. */
  class Server {
    /** Every payload passed to `changed`, oldest first. */
    var changed: seq<Payload>
    /** The ports `listen` was called with, oldest first. */
    var listenedOn: seq<int>
    /** The function currently held by the settable `error` property. */
    var error: ErrorHook

    constructor ()
      ensures changed == [] && listenedOn == [] && error == Forwarding
    {
      changed := [];
      listenedOn := [];
      error := Forwarding;
    }
  }

  // ---------------------------------------------------------------------
  // The task
  // ---------------------------------------------------------------------

  class LiveReloadTask {
    const project: Project
    /** `path.relative(from, to)` */
    const relative: (string, string) -> string
    /** `filePath.match(pattern)` is truthy */
    const matches: (string, Pattern) -> bool

    /** `this._liveReloadServer`: absent until first used. */
    var cachedServer: Server?
    /** Listeners registered on the watcher, oldest first. */
    var watcherListeners: seq<Listener>
    /** Lines written to the UI, oldest first. */
    var uiLines: seq<Line>
    /** Calls made on the analytics service, oldest first. */
    var analytics: seq<AnalyticsRecord>
    /** How many push servers this task has constructed. */
    ghost var constructions: nat

    /** At most one server is ever constructed, and it is the cached one. */
    ghost predicate Valid()
      reads this
    {
      constructions == if cachedServer == null then 0 else 1
    }

    /** All broadcasts made so far (none while there is no server). */
    ghost function Broadcasts(): seq<Payload>
      reads this, cachedServer
    {
      if cachedServer == null then [] else cachedServer.changed
    }

    /** All ports the server was asked to listen on so far. */
    ghost function ListenCalls(): seq<int>
      reads this, cachedServer
    {
      if cachedServer == null then [] else cachedServer.listenedOn
    }

    constructor (project: Project, relative: (string, string) -> string,
                 matches: (string, Pattern) -> bool)
      ensures Valid()
      ensures this.project == project && this.relative == relative && this.matches == matches
      ensures cachedServer == null && watcherListeners == [] && uiLines == [] && analytics == []
    {
      this.project := project;
      this.relative := relative;
      this.matches := matches;
      cachedServer := null;
      watcherListeners := [];
      uiLines := [];
      analytics := [];
      constructions := 0;
    }

    /** `liveReloadServer`: the first call constructs and caches a server,
        every later call returns that same handle and constructs nothing. */
    method LiveReloadServer() returns (s: Server)
      requires Valid()
      modifies this`cachedServer, this`constructions
      ensures Valid() && cachedServer == s && constructions <= 1
      ensures old(cachedServer) != null ==>
                s == old(cachedServer) && constructions == old(constructions)
                && unchanged(s)
      ensures old(cachedServer) == null ==>
                fresh(s) && constructions == 1
                && s.changed == [] && s.listenedOn == [] && s.error == Forwarding
    {
      if cachedServer != null {
        return cachedServer;
      }
      s := new Server();
      cachedServer := s;
      constructions := constructions + 1;
    }

    /** `listen`: installs the rejecting error hook on the (possibly new)
        server, then binds `port`; the promise settles as the bind does. */
    method Listen(port: int, bind: BindOutcome) returns (r: BindOutcome)
      requires Valid()
      modifies this`cachedServer, this`constructions, cachedServer
      ensures Valid() && cachedServer != null && constructions == 1
      ensures old(cachedServer) != null ==> cachedServer == old(cachedServer)
      ensures old(cachedServer) == null ==> fresh(cachedServer)
      ensures r == bind
      ensures cachedServer.error == RejectPendingListen
      ensures ListenCalls() == old(ListenCalls()) + [port]
      ensures Broadcasts() == old(Broadcasts())
    {
      var server := LiveReloadServer();
      server.error := RejectPendingListen;
      server.listenedOn := server.listenedOn + [port];
      r := bind;
    }

    /** `start`: disabled unless `liveReload === true`; otherwise subscribes
        `didChange` and `didError` to the watcher, listens on the port, and
        writes the banner or fails with the fixed start-up error. */
    method Start(options: StartOptions, bind: BindOutcome) returns (r: StartOutcome)
      requires Valid()
      modifies this`cachedServer, this`constructions, this`watcherListeners, this`uiLines, cachedServer
      ensures Valid()
      ensures analytics == old(analytics)
      ensures options.liveReload != Some(true) ==>
                r == Resolved(Some(DisabledMessage))
                && cachedServer == old(cachedServer) && constructions == old(constructions)
                && watcherListeners == old(watcherListeners) && uiLines == old(uiLines)
                && (cachedServer != null ==> unchanged(cachedServer))
      ensures options.liveReload == Some(true) ==>
                watcherListeners == old(watcherListeners) + [OnChange, OnError]
                && cachedServer != null && constructions == 1
                && (old(cachedServer) != null ==> cachedServer == old(cachedServer))
                && (old(cachedServer) == null ==> fresh(cachedServer))
                && cachedServer.error == RejectPendingListen
                && ListenCalls() == old(ListenCalls()) + [options.liveReloadPort]
                && Broadcasts() == old(Broadcasts())
      ensures options.liveReload == Some(true) && bind.Bound? ==>
                r == Resolved(None) && uiLines == old(uiLines) + [Line(Banner(options.liveReloadPort), false)]
      ensures options.liveReload == Some(true) && bind.BindFailed? ==>
                r == Rejected(WriteErrorBanner(options.liveReloadPort)) && uiLines == old(uiLines)
    {
      if options.liveReload != Some(true) {
        return Resolved(Some(DisabledMessage));
      }
      watcherListeners := watcherListeners + [OnChange];
      watcherListeners := watcherListeners + [OnError];
      var outcome := Listen(options.liveReloadPort, bind);
      match outcome
      case Bound =>
        WriteBanner(options.liveReloadPort);
        r := Resolved(None);
      case BindFailed(_) =>
        r := Rejected(WriteErrorBanner(options.liveReloadPort));
    }

    /** `writeBanner`: one line naming the port. */
    method WriteBanner(port: int)
      modifies this`uiLines
      ensures uiLines == old(uiLines) + [Line(Banner(port), false)]
    {
      uiLines := uiLines + [Line(Banner(port), false)];
    }

    /** `didChange`: when the change can trigger, exactly one broadcast and
        one analytics event; otherwise nothing at all happens. */
    method DidChange(event: ChangeEvent)
      requires Valid()
      modifies this`cachedServer, this`constructions, this`analytics, cachedServer
      ensures Valid()
      ensures CanTrigger(project, relative, matches, event) ==>
                cachedServer != null
                && (old(cachedServer) != null ==> cachedServer == old(cachedServer))
                && (old(cachedServer) == null ==> fresh(cachedServer))
                && Broadcasts() == old(Broadcasts()) + [ReloadPayload]
                && ListenCalls() == old(ListenCalls())
                && cachedServer.error == (if old(cachedServer) == null then Forwarding else old(cachedServer.error))
                && analytics == old(analytics) + [ReloadEvent]
      ensures !CanTrigger(project, relative, matches, event) ==>
                cachedServer == old(cachedServer) && constructions == old(constructions)
                && analytics == old(analytics)
                && (cachedServer != null ==> unchanged(cachedServer))
    {
      var canTrigger := CanTrigger(project, relative, matches, event);
      if canTrigger {
        var server := LiveReloadServer();
        server.changed := server.changed + [ReloadPayload];
        analytics := analytics + [ReloadEvent];
      }
    }

    /** `didError`: one or two UI lines and exactly one non-fatal analytics
        record, for any error value whose `message` and `stack` are strings
        or absent. */
    method DidError(e: ErrorEvent)
      modifies this`uiLines, this`analytics
      ensures uiLines == old(uiLines) + ErrorLines(e)
      ensures analytics == old(analytics) + [ErrorRecord(e)]
    {
      uiLines := uiLines + ErrorLines(e);
      analytics := analytics + [ErrorRecord(e)];
    }
  }

  /** What a caller can conclude from the contracts alone: an enabled start
      followed by a triggering change works on one fresh server of the task's
      own, never on another task's. */
  method StartThenChange(t: LiveReloadTask, other: LiveReloadTask, event: ChangeEvent)
    requires t != other && t.Valid() && t.cachedServer == null
    requires other.cachedServer != null
    requires t.project.liveReloadFilterPatterns == []
    modifies t
  {
    var r := t.Start(StartOptions(Some(true), 35729), Bound);
    assert r == Resolved(None);
    assert t.cachedServer != other.cachedServer;
    t.DidChange(event);
    assert t.Broadcasts() == [ReloadPayload];
    assert t.analytics == old(t.analytics) + [ReloadEvent];
  }
}
