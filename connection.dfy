/** The connection side of the component: the periodic `TimerHandler` that
    raises `WaitingForConnection`, arms the one-shot timeout and requests a
    data connection; `ConnectionStateHandler`, which on connect stops the
    timeout, clears the flag, fetches the probe URL and the upload URL and
    releases the connection; and `TimeoutHandler`. Calls into the Legato
    services are recorded, in order, in a trace. */
module Connection {
  import opened CTypes
  import opened HttpClient
  import opened Position

  /** The reference `le_data_Request` hands out; `ConnectionRef` starts
      null. */
  datatype RequestRef = NullRef | Ref(id: nat)

  /** The two URLs fetched on connect. The upload URL is kept as the values
      it is printed from: longitude and latitude in millionths of a degree,
      and the C string in `time_string`. */
  datatype Target = Probe | Upload(longitude: int32, latitude: int32, timeField: string)

  /** The service calls the handlers make. */
  datatype ApiCall =
    | TimeoutStart
    | TimeoutStop
    | GnssConnectService
    | GnssForceHotRestart
    | DataRequest
    | HttpGet(target: Target)
    | DataRelease(ref: RequestRef)

  /** `WaitingForConnection`, whether the timeout timer is running, and
      `ConnectionRef`. */
  datatype Session = Session(waiting: bool, timeoutArmed: bool, connectionRef: RequestRef)

  /** What the event loop delivers: a tick of the 30 s timer (with the
      reference the connection request returns), a connection-state change
      (with the fix values it reads on connect), or expiry of the timeout. */
  datatype Event =
    | CycleTick(granted: RequestRef)
    | Connected(longitude: int32, latitude: int32, timeField: string)
    | Disconnected
    | TimeoutExpired

  const InitialSession := Session(false, false, NullRef)

  /** One handler run: the new session and the calls it makes, in order.
      The timeout timer is one-shot, so its expiry leaves it stopped. */
  function Step(s: Session, e: Event): (Session, seq<ApiCall>)
  {
    match e
    case CycleTick(granted) =>
      (Session(true, true, granted), [TimeoutStart, GnssConnectService, GnssForceHotRestart, DataRequest])
    case Connected(lon, lat, field) =>
      (s.(waiting := false, timeoutArmed := false),
       [TimeoutStop, HttpGet(Probe), HttpGet(Upload(lon, lat, field)), DataRelease(s.connectionRef)])
    case Disconnected =>
      (s, [])
    case TimeoutExpired =>
      (s.(timeoutArmed := false), if s.waiting then [TimeoutStop] else [])
  }

  /** The handlers run on each event in turn: the final session and every call
      made. */
  function Run(s: Session, events: seq<Event>): (Session, seq<ApiCall>)
  {
    if events == [] then (s, [])
    else
      var before := Run(s, events[..|events| - 1]);
      var after := Step(before.0, events[|events| - 1]);
      (after.0, before.1 + after.1)
  }

  /** The timeout timer only runs while the component waits for a
      connection. */
  predicate Consistent(s: Session)
  {
    s.timeoutArmed ==> s.waiting
  }

  lemma {:induction false} RunKeepsConsistent(s: Session, events: seq<Event>)
    requires Consistent(s)
    ensures Consistent(Run(s, events).0)
  {
    if events != [] {
      RunKeepsConsistent(s, events[..|events| - 1]);
    }
  }

  /** Only a connect clears the flag: once raised, it stays raised through
      any number of ticks, disconnects and timeouts. */
  lemma {:induction false} WaitingUntilConnected(s: Session, events: seq<Event>)
    requires s.waiting
    requires forall i | 0 <= i < |events| :: !events[i].Connected?
    ensures Run(s, events).0.waiting
  {
    if events != [] {
      WaitingUntilConnected(s, events[..|events| - 1]);
    }
  }

  /** Disconnects and timeouts never touch the flag or the request
      reference. */
  lemma {:induction false} QuietEventsKeepFlag(s: Session, events: seq<Event>)
    requires forall i | 0 <= i < |events| :: events[i].Disconnected? || events[i].TimeoutExpired?
    ensures Run(s, events).0.waiting == s.waiting
    ensures Run(s, events).0.connectionRef == s.connectionRef
  {
    if events != [] {
      QuietEventsKeepFlag(s, events[..|events| - 1]);
    }
  }

  /** How many elements of `xs` satisfy `p`. */
  function Count<T>(xs: seq<T>, p: T -> bool): nat
  {
    if xs == [] then 0 else Count(xs[..|xs| - 1], p) + (if p(xs[|xs| - 1]) then 1 else 0)
  }

  lemma {:induction false} CountConcat<T>(a: seq<T>, b: seq<T>, p: T -> bool)
    ensures Count(a + b, p) == Count(a, p) + Count(b, p)
  {
    if b == [] {
      assert a + b == a;
    } else {
      assert (a + b)[..|a + b| - 1] == a + b[..|b| - 1];
      CountConcat(a, b[..|b| - 1], p);
    }
  }

  predicate IsConnect(e: Event) { e.Connected? }
  predicate IsTick(e: Event) { e.CycleTick? }
  predicate IsProbe(c: ApiCall) { c == HttpGet(Probe) }
  predicate IsUpload(c: ApiCall) { c.HttpGet? && c.target.Upload? }
  predicate IsRelease(c: ApiCall) { c.DataRelease? }
  predicate IsRequest(c: ApiCall) { c == DataRequest }

  /** What a single step contributes to each count. */
  lemma StepCounts(s: Session, e: Event)
    ensures var calls := Step(s, e).1;
      && Count(calls, IsProbe) == (if IsConnect(e) then 1 else 0)
      && Count(calls, IsUpload) == (if IsConnect(e) then 1 else 0)
      && Count(calls, IsRelease) == (if IsConnect(e) then 1 else 0)
      && Count(calls, IsRequest) == (if IsTick(e) then 1 else 0)
  {
    var calls := Step(s, e).1;
    if e.CycleTick? || e.Connected? {
      CountOfFour(calls, IsProbe);
      CountOfFour(calls, IsUpload);
      CountOfFour(calls, IsRelease);
      CountOfFour(calls, IsRequest);
    } else if calls != [] {
      assert calls[..0] == [];
    }
  }

  lemma CountOfFour(calls: seq<ApiCall>, p: ApiCall -> bool)
    requires |calls| == 4
    ensures Count(calls, p) == (if p(calls[0]) then 1 else 0) + (if p(calls[1]) then 1 else 0)
      + (if p(calls[2]) then 1 else 0) + (if p(calls[3]) then 1 else 0)
  {
    var c3, c2, c1 := calls[..3], calls[..2], calls[..1];
    assert calls[..|calls| - 1] == c3 && c3[..|c3| - 1] == c2 && c2[..|c2| - 1] == c1 && c1[..|c1| - 1] == [];
    assert c3[|c3| - 1] == calls[2] && c2[|c2| - 1] == calls[1] && c1[|c1| - 1] == calls[0];
    assert Count(c1, p) == (if p(calls[0]) then 1 else 0);
    assert Count(c2, p) == Count(c1, p) + (if p(calls[1]) then 1 else 0);
    assert Count(c3, p) == Count(c2, p) + (if p(calls[2]) then 1 else 0);
  }

  /** Over any run, every connect fetches the probe once, fetches the upload
      once and releases once, whatever the fetches return; ticks are the only
      source of connection requests; and nothing else fetches or releases. */
  lemma {:induction false} RunCounts(s: Session, events: seq<Event>)
    ensures var calls := Run(s, events).1;
      && Count(calls, IsProbe) == Count(events, IsConnect)
      && Count(calls, IsUpload) == Count(events, IsConnect)
      && Count(calls, IsRelease) == Count(events, IsConnect)
      && Count(calls, IsRequest) == Count(events, IsTick)
  {
    if events != [] {
      var init := events[..|events| - 1];
      var last := events[|events| - 1];
      RunCounts(s, init);
      var before := Run(s, init);
      StepCounts(before.0, last);
      var after := Step(before.0, last);
      CountConcat(before.1, after.1, IsProbe);
      CountConcat(before.1, after.1, IsUpload);
      CountConcat(before.1, after.1, IsRelease);
      CountConcat(before.1, after.1, IsRequest);
    }
  }

  /** The main event loop's globals. `fix` are the position globals it reads
      when building the upload URL. */
  class Orchestrator {
    var waitingForConnection: bool
    var timeoutArmed: bool
    var connectionRef: RequestRef
    /** The service calls made so far, in order. */
    ghost var calls: seq<ApiCall>
    const fix: PositionGlobals

    function State(): Session
      reads this
    {
      Session(waitingForConnection, timeoutArmed, connectionRef)
    }

    /** The event a connection-state change is: on connect it carries what
        the upload URL is printed from. */
    function StateChange(isConnected: bool): Event
      reads this, fix, fix.timeString
    {
      if isConnected then Connected(fix.longitude, fix.latitude, CString(fix.timeString[..], '\0'))
      else Disconnected
    }

    /** The static initialisers: not waiting, timeout not running, no
        request. */
    constructor (fix: PositionGlobals)
      ensures this.fix == fix
      ensures State() == InitialSession && calls == []
    {
      this.fix := fix;
      waitingForConnection, timeoutArmed, connectionRef := false, false, NullRef;
      calls := [];
    }

    /** `TimerHandler`: raise the flag, start the timeout, restart GNSS
        acquisition, and request a connection (`le_data_Request` returns
        `granted`). */
    method TimerHandler(granted: RequestRef)
      modifies this
      ensures State() == Step(old(State()), CycleTick(granted)).0
      ensures calls == old(calls) + Step(old(State()), CycleTick(granted)).1
    {
      waitingForConnection := true;
      timeoutArmed := true;
      calls := calls + [TimeoutStart];
      calls := calls + [GnssConnectService, GnssForceHotRestart];
      calls := calls + [DataRequest];
      connectionRef := granted;
    }

    /** `ConnectionStateHandler`: on connect, stop the timeout, clear the
        flag, fetch the probe URL, fetch the upload URL built from the fix
        globals, and release the connection, in that order and whatever the
        fetches return; on disconnect, nothing. */
    method ConnectionStateHandler(isConnected: bool, probe: Transfer, upload: Transfer)
      requires fix.Valid()
      requires isConnected ==> probe.FitsReceiveBuffer() && upload.FitsReceiveBuffer()
      modifies this
      ensures State() == Step(old(State()), StateChange(isConnected)).0
      ensures calls == old(calls) + Step(old(State()), StateChange(isConnected)).1
    {
      var dataout := new byte[MAX_RECEIVE_LEN];
      if isConnected {
        timeoutArmed := false;
        calls := calls + [TimeoutStop];
        waitingForConnection := false;
        calls := calls + [HttpGet(Probe)];
        var fetched := GetUrl(probe, dataout);
        var target := Upload(fix.longitude, fix.latitude, CString(fix.timeString[..], '\0'));
        calls := calls + [HttpGet(target)];
        fetched := GetUrl(upload, dataout);
        calls := calls + [DataRelease(connectionRef)];
      }
    }

    /** Expiry of the one-shot timeout timer, then `TimeoutHandler`: the timer
        is stopped again only if the flag is still raised, and the flag is
        left as it is. */
    method TimeoutHandler()
      modifies this
      ensures State() == Step(old(State()), TimeoutExpired).0
      ensures calls == old(calls) + Step(old(State()), TimeoutExpired).1
    {
      timeoutArmed := false;
      if waitingForConnection {
        calls := calls + [TimeoutStop];
      }
    }
  }
}
