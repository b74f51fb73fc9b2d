/** The screen that drives the signal: choosing a backend starts the access
    workflow (device status, then login, pairing or rejection, then the lamps'
    status), and tapping a lamp switches it on or, with a double tap, makes it blink.
    Each backend call, the credential prompt included, is answered by an input; the
    workflow reports what it asked for, rejected or alerted as a list of events. */
module StopLightController {
  import opened Common
  import opened StopLight
  import StopNet

  /** `Segment`: the positions of the backend selector. */
  datatype Segment = HttpSegment | HttpsSegment | SrpcSegment

  /** `Segment.rawValue`. */
  function SegmentIndex(s: Segment): int {
    match s
    case HttpSegment => 0
    case HttpsSegment => 1
    case SrpcSegment => 2
  }

  /** `Segment(rawValue:)`. */
  function SegmentAt(index: int): Option<Segment> {
    if index == 0 then Some(HttpSegment)
    else if index == 1 then Some(HttpsSegment)
    else if index == 2 then Some(SrpcSegment)
    else None
  }

  /** `Segment.segment(stopNet:)`: the position of a backend, by its interface. */
  function SegmentFor(intf: StopNet.Intf): Segment {
    match intf
    case Http => HttpSegment
    case Https => HttpsSegment
    case Srpc => SrpcSegment
  }

  /** The interface of the backend `connect` selects for a position. */
  function BackendFor(s: Segment): StopNet.Intf {
    match s
    case HttpSegment => StopNet.Http
    case HttpsSegment => StopNet.Https
    case SrpcSegment => StopNet.Srpc
  }

  /** Positions and indices correspond one to one, and so do positions and
      backends; the selector index -1 names no backend. */
  lemma SegmentCorrespondence(s: Segment, index: int, intf: StopNet.Intf)
    ensures SegmentAt(SegmentIndex(s)) == Some(s)
    ensures SegmentAt(index) == Some(s) <==> SegmentIndex(s) == index
    ensures SegmentAt(-1) == None
    ensures SegmentFor(BackendFor(s)) == s && BackendFor(SegmentFor(intf)) == intf
  {
  }

  /** What the workflow does that can be observed: backend calls, prompts, alerts
      and rejections, in order. */
  datatype Event =
    | StatusRequested
    | CredentialsPrompted
    | LoginRequested(credentials: Credentials)
    | PairRequested(credentials: Credentials)
    | LightsRequested
    | Rejected(message: string)
    | BlockedAlert
    | InvalidLoginAlert

  /** The answers the workflow receives: the device status, the credential prompt
      (submitted or cancelled), the pairing and login verdicts and the lamps'
      status. Each is consulted at most once. */
  datatype Answers = Answers(
    deviceStatus: Result<StopNet.DeviceStatus>,
    credentials: Result<Credentials>,
    paired: bool,
    loggedIn: bool,
    lights: Result<map<string, Json>>)

  /** The events of `lightsStatus()`. */
  function LightsEvents(a: Answers): seq<Event> {
    [LightsRequested] +
    match a.lights
    case Success(_) => []
    case Failure(e) => [Rejected("status error: " + e.description)]
  }

  /** The events of `login(_:)` with the given credentials. */
  function LoginWithEvents(c: Credentials, a: Answers): seq<Event> {
    [LoginRequested(c)] +
    if a.loggedIn then LightsEvents(a) else [Rejected("Invalid login"), InvalidLoginAlert]
  }

  /** The events of `login()`: prompt, then log in with what was submitted. */
  function LoginEvents(a: Answers): seq<Event> {
    [CredentialsPrompted] +
    match a.credentials
    case Success(c) => LoginWithEvents(c, a)
    case Failure(e) => [Rejected("Login error: " + e.description)]
  }

  /** The events of `pair()`: prompt, pair, and on success log in with the same credentials. */
  function PairEvents(a: Answers): seq<Event> {
    [CredentialsPrompted] +
    match a.credentials
    case Success(c) =>
      [PairRequested(c)] + if a.paired then LoginWithEvents(c, a) else [Rejected("Unable to pair")]
    case Failure(e) => [Rejected("Error while pairing: " + e.description)]
  }

  /** The events of `connect(intf:)` after the backend switch. */
  function ConnectEvents(a: Answers): seq<Event> {
    [StatusRequested] +
    match a.deviceStatus
    case Success(st) =>
      if st == StopNet.Ready then LoginEvents(a)
      else if st == StopNet.Pairing then PairEvents(a)
      else [Rejected("blocked"), BlockedAlert]
    case Failure(e) => [Rejected("Failed to obtain device status: " + e.description)]
  }

  function Rejections(events: seq<Event>): nat {
    if events == [] then 0
    else Rejections(events[..|events| - 1]) + if events[|events| - 1].Rejected? then 1 else 0
  }

  /** The rejections of two consecutive stretches of a flow add up. */
  lemma {:induction false} RejectionsAppend(xs: seq<Event>, ys: seq<Event>)
    ensures Rejections(xs + ys) == Rejections(xs) + Rejections(ys)
    decreases |ys|
  {
    if ys == [] {
      assert xs + ys == xs;
    } else {
      var last := |ys| - 1;
      RejectionsAppend(xs, ys[..last]);
      assert (xs + ys)[..|xs + ys| - 1] == xs + ys[..last];
    }
  }

  lemma RejectionsSingle(x: Event)
    ensures Rejections([x]) == if x.Rejected? then 1 else 0
  {
    assert [x][..0] == [];
  }

  /** The command `lightsStatus()` gives a lamp for its entry's text: "on", "off"
      and "blinking" name theirs, anything else switches the lamp off. */
  function CommandFor(s: string): (cmd: Command)
    ensures cmd == TurnOn <==> s == "on"
    ensures cmd == StartBlink <==> s == "blinking"
    ensures cmd == TurnOff <==> s != "on" && s != "blinking"
  {
    if s == "on" then TurnOn
    else if s == "off" then TurnOff
    else if s == "blinking" then StartBlink
    else TurnOff
  }

  /** Read off the JSON entry: a lamp is switched on exactly for the JSON string
      "on", blinks exactly for the JSON string "blinking", and is switched off for
      every other entry, including numbers, booleans and missing text. */
  lemma CommandForEntry(j: Json)
    ensures CommandFor(StringValue(j)) == TurnOn <==> j == JString("on")
    ensures CommandFor(StringValue(j)) == StartBlink <==> j == JString("blinking")
    ensures CommandFor(StringValue(j)) == TurnOff <==> j != JString("on") && j != JString("blinking")
  {
    StringValueIsText(j, "on");
    StringValueIsText(j, "blinking");
  }

  /** A lamps' status the app can apply without crashing: an entry per colour and a
      "light" entry naming a colour (the source force-unwraps all three lookups). */
  predicate WellFormedLights(status: map<string, Json>) {
    ColorName(Red) in status && ColorName(Yellow) in status && ColorName(Green) in status &&
    "light" in status && ParseColor(StringValue(status["light"])).Some?
  }

  /** The colour the lamps' status names as current. */
  function CurrentColor(status: map<string, Json>): Color
    requires WellFormedLights(status)
  {
    ParseColor(StringValue(status["light"])).value
  }

  /** The status a lamp of colour `c` ends in when `status` is applied to it. */
  function Applied(status: map<string, Json>, c: Color, before: Status): Status
    requires WellFormedLights(status)
  {
    After(CommandFor(StringValue(status[ColorName(c)])), before)
  }

  /** Whether a flow with these events applied a lamps' status. */
  predicate AppliesLights(a: Answers, events: seq<Event>) {
    LightsRequested in events && a.lights.Success?
  }

  /** A flow can crash only in `lightsStatus()`; this excludes that. */
  predicate SafeFor(a: Answers, events: seq<Event>) {
    AppliesLights(a, events) ==> WellFormedLights(a.lights.value)
  }

  /** The status a lamp ends a flow in. */
  function Final(a: Answers, events: seq<Event>, c: Color, before: Status): Status
    requires SafeFor(a, events)
  {
    if AppliesLights(a, events) then Applied(a.lights.value, c, before) else before
  }

  /** A blocked device: neither login nor pairing is attempted, and there is one
      rejection ("blocked") and one alert. */
  lemma BlockedFlow(a: Answers)
    requires a.deviceStatus == Success(StopNet.Blocked)
    ensures ConnectEvents(a) == [StatusRequested, Rejected("blocked"), BlockedAlert]
    ensures forall e :: e in ConnectEvents(a) ==> !e.LoginRequested? && !e.PairRequested?
    ensures Rejections(ConnectEvents(a)) == 1 && multiset(ConnectEvents(a))[BlockedAlert] == 1
  {
    RejectionsAppend([StatusRequested, Rejected("blocked")], [BlockedAlert]);
    RejectionsAppend([StatusRequested], [Rejected("blocked")]);
    assert [StatusRequested, Rejected("blocked"), BlockedAlert] == [StatusRequested, Rejected("blocked")] + [BlockedAlert];
    assert [StatusRequested, Rejected("blocked")] == [StatusRequested] + [Rejected("blocked")];
    RejectionsSingle(StatusRequested);
    RejectionsSingle(Rejected("blocked"));
    RejectionsSingle(BlockedAlert);
  }

  /** The login step, in whichever flow it runs: it is requested with the given
      credentials; a successful login fetches the lamps' status exactly once, a
      failed one rejects with "Invalid login", alerts, and fetches nothing. */
  lemma LoginWithFlow(c: Credentials, a: Answers)
    ensures var es := LoginWithEvents(c, a);
      es[0] == LoginRequested(c) &&
      (a.loggedIn ==> multiset(es)[LightsRequested] == 1) &&
      (!a.loggedIn ==> es == [LoginRequested(c), Rejected("Invalid login"), InvalidLoginAlert])
  {
    if a.loggedIn {
      var tail := LightsEvents(a)[1..];
      assert LoginWithEvents(c, a) == [LoginRequested(c), LightsRequested] + tail;
      assert LightsRequested !in tail;
    }
  }

  /** A ready device: login is attempted with the submitted credentials and pairing
      is not; a successful login fetches the lamps' status exactly once, a failed
      one rejects with "Invalid login" and fetches nothing. */
  lemma ReadyFlow(a: Answers, c: Credentials)
    requires a.deviceStatus == Success(StopNet.Ready) && a.credentials == Success(c)
    ensures var es := ConnectEvents(a);
      LoginRequested(c) in es && (forall e :: e in es ==> !e.PairRequested?) &&
      (a.loggedIn ==> multiset(es)[LightsRequested] == 1) &&
      (!a.loggedIn ==> Rejected("Invalid login") in es && LightsRequested !in es)
  {
    var es := ConnectEvents(a);
    var login := LoginWithEvents(c, a);
    assert es == [StatusRequested, CredentialsPrompted] + login;
    LoginWithFlow(c, a);
    assert LoginRequested(c) == login[0];
    if !a.loggedIn {
      assert es == [StatusRequested, CredentialsPrompted, LoginRequested(c), Rejected("Invalid login"), InvalidLoginAlert];
    }
  }

  /** A device in pairing mode: pairing is attempted with the submitted
      credentials; only a successful pairing leads to login, with the same
      credentials and right after the pairing request; a failed one rejects with
      "Unable to pair" and attempts no login. After a successful pairing, the login
      step fetches the lamps' status exactly once when it succeeds, and rejects with
      "Invalid login" without fetching when it fails. */
  lemma PairingFlow(a: Answers, c: Credentials)
    requires a.deviceStatus == Success(StopNet.Pairing) && a.credentials == Success(c)
    ensures var es := ConnectEvents(a);
      es[..3] == [StatusRequested, CredentialsPrompted, PairRequested(c)] &&
      (a.paired ==> |es| > 3 && es[3] == LoginRequested(c)) &&
      (!a.paired ==> es == [StatusRequested, CredentialsPrompted, PairRequested(c), Rejected("Unable to pair")]) &&
      (forall e :: e in es && e.LoginRequested? ==> e == LoginRequested(c) && a.paired) &&
      (a.paired && a.loggedIn ==> multiset(es)[LightsRequested] == 1) &&
      (a.paired && !a.loggedIn ==> Rejected("Invalid login") in es && LightsRequested !in es)
  {
    var es := ConnectEvents(a);
    if a.paired {
      var login := LoginWithEvents(c, a);
      assert es == [StatusRequested, CredentialsPrompted, PairRequested(c)] + login;
      LoginWithFlow(c, a);
      if !a.loggedIn {
        assert es == [StatusRequested, CredentialsPrompted, PairRequested(c), LoginRequested(c), Rejected("Invalid login"), InvalidLoginAlert];
      }
    }
  }

  /** A cancelled credential prompt ends the flow with one rejection, before any
      login or pairing request. */
  lemma CancelledFlow(a: Answers)
    requires a.deviceStatus.Success? && a.deviceStatus.value != StopNet.Blocked
    requires a.credentials.Failure?
    ensures var es := ConnectEvents(a);
      |es| == 3 && es[2].Rejected? && forall e :: e in es ==> !e.LoginRequested? && !e.PairRequested?
  {
  }

  /** A flow's ending: one rejection and no lamps' status applied, or a lamps'
      status applied and no rejection. */
  predicate OneEnding(a: Answers, events: seq<Event>) {
    (Rejections(events) == 1 && !AppliesLights(a, events)) ||
    (Rejections(events) == 0 && AppliesLights(a, events))
  }

  lemma PrependKeepsEnding(a: Answers, x: Event, events: seq<Event>)
    requires !x.Rejected? && x != LightsRequested && OneEnding(a, events)
    ensures OneEnding(a, [x] + events)
  {
    RejectionsAppend([x], events);
    RejectionsSingle(x);
  }

  lemma RejectionEnding(a: Answers, message: string, alert: seq<Event>)
    requires |alert| <= 1 && forall e :: e in alert ==> !e.Rejected? && e != LightsRequested
    ensures OneEnding(a, [Rejected(message)] + alert)
  {
    RejectionsAppend([Rejected(message)], alert);
    RejectionsSingle(Rejected(message));
    if alert != [] {
      assert alert == [alert[0]];
      RejectionsSingle(alert[0]);
    }
  }

  lemma LightsEnding(a: Answers)
    ensures OneEnding(a, LightsEvents(a))
  {
    var events := LightsEvents(a);
    RejectionsSingle(LightsRequested);
    if a.lights.Failure? {
      var rejected := Rejected("status error: " + a.lights.error.description);
      RejectionsAppend([LightsRequested], [rejected]);
      RejectionsSingle(rejected);
    } else {
      assert events == [LightsRequested];
    }
  }

  lemma LoginWithEnding(c: Credentials, a: Answers)
    ensures OneEnding(a, LoginWithEvents(c, a))
  {
    if a.loggedIn {
      LightsEnding(a);
      PrependKeepsEnding(a, LoginRequested(c), LightsEvents(a));
    } else {
      RejectionEnding(a, "Invalid login", [InvalidLoginAlert]);
      PrependKeepsEnding(a, LoginRequested(c), [Rejected("Invalid login")] + [InvalidLoginAlert]);
      assert LoginWithEvents(c, a) == [LoginRequested(c)] + ([Rejected("Invalid login")] + [InvalidLoginAlert]);
    }
  }

  lemma LoginEnding(a: Answers)
    ensures OneEnding(a, LoginEvents(a))
  {
    match a.credentials
    case Success(c) =>
      LoginWithEnding(c, a);
      PrependKeepsEnding(a, CredentialsPrompted, LoginWithEvents(c, a));
    case Failure(e) =>
      RejectionEnding(a, "Login error: " + e.description, []);
      PrependKeepsEnding(a, CredentialsPrompted, [Rejected("Login error: " + e.description)] + []);
      assert LoginEvents(a) == [CredentialsPrompted] + ([Rejected("Login error: " + e.description)] + []);
  }

  lemma PairEnding(a: Answers)
    ensures OneEnding(a, PairEvents(a))
  {
    match a.credentials
    case Success(c) =>
      var rest := if a.paired then LoginWithEvents(c, a) else [Rejected("Unable to pair")] + [];
      if a.paired {
        LoginWithEnding(c, a);
      } else {
        RejectionEnding(a, "Unable to pair", []);
      }
      PrependKeepsEnding(a, PairRequested(c), rest);
      PrependKeepsEnding(a, CredentialsPrompted, [PairRequested(c)] + rest);
      assert PairEvents(a) == [CredentialsPrompted] + ([PairRequested(c)] + rest);
    case Failure(e) =>
      RejectionEnding(a, "Error while pairing: " + e.description, []);
      PrependKeepsEnding(a, CredentialsPrompted, [Rejected("Error while pairing: " + e.description)] + []);
      assert PairEvents(a) == [CredentialsPrompted] + ([Rejected("Error while pairing: " + e.description)] + []);
  }

  /** Every flow ends in exactly one of two ways: one rejection, or the lamps'
      status applied with no rejection at all. */
  lemma RejectOrApply(a: Answers)
    ensures var es := ConnectEvents(a);
      (Rejections(es) == 1 && !AppliesLights(a, es)) || (Rejections(es) == 0 && AppliesLights(a, es))
  {
    var rest: seq<Event>;
    match a.deviceStatus {
      case Success(st) =>
        if st == StopNet.Ready {
          LoginEnding(a);
          rest := LoginEvents(a);
        } else if st == StopNet.Pairing {
          PairEnding(a);
          rest := PairEvents(a);
        } else {
          RejectionEnding(a, "blocked", [BlockedAlert]);
          rest := [Rejected("blocked")] + [BlockedAlert];
        }
      case Failure(e) =>
        RejectionEnding(a, "Failed to obtain device status: " + e.description, []);
        rest := [Rejected("Failed to obtain device status: " + e.description)] + [];
    }
    PrependKeepsEnding(a, StatusRequested, rest);
    assert ConnectEvents(a) == [StatusRequested] + rest;
  }

  /** Whether a lamp is the one a switch-off or a tap concerns. */
  function SwitchedOff(lamp: StopLight, previous: StopLight?, before: Status): Status {
    if lamp == previous then Off else before
  }

  /** The status a lamp ends a tap in: unchanged unless the backend confirmed the
      request; then the tapped lamp gets the command (after being switched off if
      it was the current one), the previous current lamp is switched off, and the
      others keep their status. */
  function TapOutcome(lamp: StopLight, tapped: StopLight, previous: StopLight?, before: Status,
                      cmd: Command, confirmed: bool): Status
  {
    if !confirmed then before
    else if lamp == tapped then After(cmd, SwitchedOff(lamp, previous, before))
    else SwitchedOff(lamp, previous, before)
  }

  class StopLightController {
    /** The selector's chosen position; -1 when none is chosen. */
    var selectedSegmentIndex: int
    const redLight: StopLight
    const yellowLight: StopLight
    const greenLight: StopLight
    /** The current lamp. */
    var stopLight: StopLight?
    /** The current backend, by its selector position. */
    var stopNet: Option<Segment>

    ghost predicate Valid()
      reads this
    {
      redLight.color == Red && yellowLight.color == Yellow && greenLight.color == Green &&
      (stopLight == null || stopLight == redLight || stopLight == yellowLight || stopLight == greenLight)
    }

    /** `setStopLight`'s choice: the lamp of a colour. */
    function LightFor(c: Color): (lamp: StopLight)
      reads this
      requires Valid()
      ensures lamp.color == c
    {
      match c
      case Red => redLight
      case Yellow => yellowLight
      case Green => greenLight
    }

    /** The set-up of `viewDidLoad`: three lamps, all off, no backend and no
        selection. */
    constructor ()
      ensures Valid()
      ensures selectedSegmentIndex == -1 && stopLight == null && stopNet == None
      ensures fresh(redLight) && fresh(yellowLight) && fresh(greenLight)
      ensures redLight.status == Off && yellowLight.status == Off && greenLight.status == Off
    {
      selectedSegmentIndex := -1;
      redLight := new StopLight(Red);
      yellowLight := new StopLight(Yellow);
      greenLight := new StopLight(Green);
      stopLight := null;
      stopNet := None;
    }

    /** `reject(_:)`: the selection is reset so the user must choose again. */
    method Reject(message: string) returns (events: seq<Event>)
      modifies this
      ensures events == [Rejected(message)]
      ensures selectedSegmentIndex == -1
      ensures stopLight == old(stopLight) && stopNet == old(stopNet)
    {
      selectedSegmentIndex := -1;
      events := [Rejected(message)];
    }

    /** `setStopLight(_:)`: the lamp of that colour becomes current. */
    method SetStopLight(c: Color)
      requires Valid()
      modifies this
      ensures Valid()
      ensures stopLight == LightFor(c) && stopLight.color == c
      ensures selectedSegmentIndex == old(selectedSegmentIndex) && stopNet == old(stopNet)
    {
      match c
      case Red => stopLight := redLight;
      case Yellow => stopLight := yellowLight;
      case Green => stopLight := greenLight;
    }

    /** The `forEach` of `lightsStatus()`: each lamp, in turn, gets the command its
        colour's entry names. */
    method ApplyLightsStatus(status: map<string, Json>)
      requires Valid() && WellFormedLights(status)
      modifies redLight, yellowLight, greenLight
      ensures redLight.status == Applied(status, Red, old(redLight.status))
      ensures yellowLight.status == Applied(status, Yellow, old(yellowLight.status))
      ensures greenLight.status == Applied(status, Green, old(greenLight.status))
    {
      var lamps := [redLight, yellowLight, greenLight];
      assert forall k, j :: 0 <= k < j < |lamps| ==> lamps[k].color != lamps[j].color;
      for i := 0 to |lamps|
        invariant forall k :: 0 <= k < i ==>
          lamps[k].status == Applied(status, lamps[k].color, old(lamps[k].status))
        invariant forall k :: i <= k < |lamps| ==> lamps[k].status == old(lamps[k].status)
      {
        var lamp := lamps[i];
        match CommandFor(StringValue(status[ColorName(lamp.color)]))
        case TurnOn => lamp.On();
        case TurnOff => lamp.Off();
        case StartBlink => lamp.Blink();
      }
      assert lamps[0] == redLight && lamps[1] == yellowLight && lamps[2] == greenLight;
    }

    /** `lightsStatus()`: fetch the lamps' status; apply it and make the lamp it
        names current, or reject. */
    method LightsStatus(a: Answers) returns (events: seq<Event>)
      requires Valid() && SafeFor(a, LightsEvents(a))
      modifies this, redLight, yellowLight, greenLight
      ensures Valid()
      ensures events == LightsEvents(a)
      ensures redLight.status == Final(a, events, Red, old(redLight.status))
      ensures yellowLight.status == Final(a, events, Yellow, old(yellowLight.status))
      ensures greenLight.status == Final(a, events, Green, old(greenLight.status))
      ensures stopLight == if AppliesLights(a, events) then LightFor(CurrentColor(a.lights.value)) else old(stopLight)
      ensures selectedSegmentIndex == if Rejections(events) > 0 then -1 else old(selectedSegmentIndex)
      ensures stopNet == old(stopNet)
    {
      events := [LightsRequested];
      RejectionsSingle(LightsRequested);
      match a.lights
      case Success(status) =>
        ApplyLightsStatus(status);
        SetStopLight(CurrentColor(status));
      case Failure(e) =>
        var rejected := Reject("status error: " + e.description);
        RejectionsAppend(events, rejected);
        RejectionsSingle(rejected[0]);
        events := events + rejected;
    }

    /** `login(_:)`: log in with the credentials; on success fetch the lamps'
        status, otherwise reject with "Invalid login" and alert. */
    method LoginWith(c: Credentials, a: Answers) returns (events: seq<Event>)
      requires Valid() && SafeFor(a, LoginWithEvents(c, a))
      modifies this, redLight, yellowLight, greenLight
      ensures Valid()
      ensures events == LoginWithEvents(c, a)
      ensures redLight.status == Final(a, events, Red, old(redLight.status))
      ensures yellowLight.status == Final(a, events, Yellow, old(yellowLight.status))
      ensures greenLight.status == Final(a, events, Green, old(greenLight.status))
      ensures stopLight == if AppliesLights(a, events) then LightFor(CurrentColor(a.lights.value)) else old(stopLight)
      ensures selectedSegmentIndex == if Rejections(events) > 0 then -1 else old(selectedSegmentIndex)
      ensures stopNet == old(stopNet)
    {
      events := [LoginRequested(c)];
      RejectionsSingle(LoginRequested(c));
      var rest;
      if a.loggedIn {
        rest := LightsStatus(a);
      } else {
        rest := Reject("Invalid login");
        rest := rest + [InvalidLoginAlert];
        RejectionsAppend([Rejected("Invalid login")], [InvalidLoginAlert]);
        RejectionsSingle(Rejected("Invalid login"));
        RejectionsSingle(InvalidLoginAlert);
      }
      RejectionsAppend(events, rest);
      events := events + rest;
    }

    /** `login()`: prompt for credentials and log in with them, or reject when the
        prompt is cancelled. */
    method Login(a: Answers) returns (events: seq<Event>)
      requires Valid() && SafeFor(a, LoginEvents(a))
      modifies this, redLight, yellowLight, greenLight
      ensures Valid()
      ensures events == LoginEvents(a)
      ensures redLight.status == Final(a, events, Red, old(redLight.status))
      ensures yellowLight.status == Final(a, events, Yellow, old(yellowLight.status))
      ensures greenLight.status == Final(a, events, Green, old(greenLight.status))
      ensures stopLight == if AppliesLights(a, events) then LightFor(CurrentColor(a.lights.value)) else old(stopLight)
      ensures selectedSegmentIndex == if Rejections(events) > 0 then -1 else old(selectedSegmentIndex)
      ensures stopNet == old(stopNet)
    {
      events := [CredentialsPrompted];
      RejectionsSingle(CredentialsPrompted);
      var rest;
      match a.credentials {
        case Success(c) =>
          rest := LoginWith(c, a);
        case Failure(e) =>
          rest := Reject("Login error: " + e.description);
          RejectionsSingle(rest[0]);
      }
      RejectionsAppend(events, rest);
      events := events + rest;
    }

    /** `pair()`: prompt for credentials and pair with them; on success log in
        with the same credentials, otherwise reject. */
    method Pair(a: Answers) returns (events: seq<Event>)
      requires Valid() && SafeFor(a, PairEvents(a))
      modifies this, redLight, yellowLight, greenLight
      ensures Valid()
      ensures events == PairEvents(a)
      ensures redLight.status == Final(a, events, Red, old(redLight.status))
      ensures yellowLight.status == Final(a, events, Yellow, old(yellowLight.status))
      ensures greenLight.status == Final(a, events, Green, old(greenLight.status))
      ensures stopLight == if AppliesLights(a, events) then LightFor(CurrentColor(a.lights.value)) else old(stopLight)
      ensures selectedSegmentIndex == if Rejections(events) > 0 then -1 else old(selectedSegmentIndex)
      ensures stopNet == old(stopNet)
    {
      events := [CredentialsPrompted];
      RejectionsSingle(CredentialsPrompted);
      var rest;
      match a.credentials {
        case Success(c) =>
          rest := [PairRequested(c)];
          RejectionsSingle(PairRequested(c));
          var more;
          if a.paired {
            more := LoginWith(c, a);
          } else {
            more := Reject("Unable to pair");
            RejectionsSingle(Rejected("Unable to pair"));
          }
          RejectionsAppend(rest, more);
          rest := rest + more;
        case Failure(e) =>
          rest := Reject("Error while pairing: " + e.description);
          RejectionsSingle(rest[0]);
      }
      RejectionsAppend(events, rest);
      events := events + rest;
    }

    /** `connect(intf:)`: switch the current lamp off, select the backend of the
        position, then branch on the device status: ready logs in, pairing pairs,
        blocked rejects and alerts, an error rejects. */
    method Connect(s: Segment, a: Answers) returns (events: seq<Event>)
      requires Valid() && SafeFor(a, ConnectEvents(a))
      modifies this, redLight, yellowLight, greenLight
      ensures Valid()
      ensures stopNet == Some(s)
      ensures events == ConnectEvents(a)
      ensures redLight.status == Final(a, events, Red, SwitchedOff(redLight, old(stopLight), old(redLight.status)))
      ensures yellowLight.status == Final(a, events, Yellow, SwitchedOff(yellowLight, old(stopLight), old(yellowLight.status)))
      ensures greenLight.status == Final(a, events, Green, SwitchedOff(greenLight, old(stopLight), old(greenLight.status)))
      ensures stopLight == if AppliesLights(a, events) then LightFor(CurrentColor(a.lights.value)) else old(stopLight)
      ensures selectedSegmentIndex == if Rejections(events) > 0 then -1 else old(selectedSegmentIndex)
    {
      if stopLight != null {
        stopLight.Off();
      }
      stopNet := Some(s);
      events := [StatusRequested];
      RejectionsSingle(StatusRequested);
      var rest;
      match a.deviceStatus {
        case Success(st) =>
          if st == StopNet.Ready {
            rest := Login(a);
          } else if st == StopNet.Pairing {
            rest := Pair(a);
          } else {
            rest := Reject("blocked");
            rest := rest + [BlockedAlert];
            RejectionsAppend([Rejected("blocked")], [BlockedAlert]);
            RejectionsSingle(Rejected("blocked"));
            RejectionsSingle(BlockedAlert);
          }
        case Failure(e) =>
          rest := Reject("Failed to obtain device status: " + e.description);
          RejectionsSingle(rest[0]);
      }
      RejectionsAppend(events, rest);
      events := events + rest;
    }

    /** `stopNetChange(_:)`: the selector records the chosen position, then
        `connect` runs for it. The selection stands exactly when the flow ends
        without a rejection. */
    method StopNetChange(index: int, a: Answers) returns (events: seq<Event>)
      requires Valid() && SegmentAt(index).Some? && SafeFor(a, ConnectEvents(a))
      modifies this, redLight, yellowLight, greenLight
      ensures Valid()
      ensures stopNet == SegmentAt(index)
      ensures events == ConnectEvents(a)
      ensures selectedSegmentIndex == if Rejections(events) > 0 then -1 else index
      ensures selectedSegmentIndex == index <==> AppliesLights(a, events)
    {
      selectedSegmentIndex := index;
      events := Connect(SegmentAt(index).value, a);
      RejectOrApply(a);
    }

    /** The tap handler: a lamp that is on is left alone; otherwise, with a backend
        chosen, the "switch" request is sent for its colour and, once confirmed, the
        current lamp is switched off, the tapped one on, and it becomes current. A
        failed request changes nothing. `requested` says whether it was sent. */
    method Tap(lamp: StopLight, answer: Result<Color>) returns (requested: bool)
      requires Valid() && (lamp == redLight || lamp == yellowLight || lamp == greenLight)
      modifies this, redLight, yellowLight, greenLight
      ensures Valid()
      ensures requested <==> !old(lamp.IsOn()) && stopNet.Some?
      ensures var confirmed := requested && answer.Success?;
        redLight.status == TapOutcome(redLight, lamp, old(stopLight), old(redLight.status), TurnOn, confirmed) &&
        yellowLight.status == TapOutcome(yellowLight, lamp, old(stopLight), old(yellowLight.status), TurnOn, confirmed) &&
        greenLight.status == TapOutcome(greenLight, lamp, old(stopLight), old(greenLight.status), TurnOn, confirmed) &&
        stopLight == if confirmed then lamp else old(stopLight)
      ensures requested && answer.Success? ==> lamp.IsOn()
      ensures selectedSegmentIndex == old(selectedSegmentIndex) && stopNet == old(stopNet)
    {
      requested := false;
      if lamp.IsOn() || stopNet.None? {
        return;
      }
      requested := true;
      if answer.Success? {
        if stopLight != null {
          stopLight.Off();
        }
        lamp.On();
        stopLight := lamp;
      }
    }

    /** The double-tap handler: as the tap handler, for a lamp that is not
        blinking, with the "blink" request and the lamp made to blink. */
    method DoubleTap(lamp: StopLight, answer: Result<Color>) returns (requested: bool)
      requires Valid() && (lamp == redLight || lamp == yellowLight || lamp == greenLight)
      modifies this, redLight, yellowLight, greenLight
      ensures Valid()
      ensures requested <==> !old(lamp.IsBlinking()) && stopNet.Some?
      ensures var confirmed := requested && answer.Success?;
        redLight.status == TapOutcome(redLight, lamp, old(stopLight), old(redLight.status), StartBlink, confirmed) &&
        yellowLight.status == TapOutcome(yellowLight, lamp, old(stopLight), old(yellowLight.status), StartBlink, confirmed) &&
        greenLight.status == TapOutcome(greenLight, lamp, old(stopLight), old(greenLight.status), StartBlink, confirmed) &&
        stopLight == if confirmed then lamp else old(stopLight)
      ensures requested && answer.Success? ==> lamp.status == BlinkOff
      ensures selectedSegmentIndex == old(selectedSegmentIndex) && stopNet == old(stopNet)
    {
      requested := false;
      if lamp.IsBlinking() || stopNet.None? {
        return;
      }
      requested := true;
      if answer.Success? {
        if stopLight != null {
          stopLight.Off();
        }
        lamp.Blink();
        stopLight := lamp;
      }
    }
  }
}
