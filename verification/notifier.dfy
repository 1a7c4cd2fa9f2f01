/** The plugin's event handling (octoprint_octorant/__init__.py): host events are
    routed to internal event IDs, `notify_event` gates them and composes the message,
    and `send_message` hands a delivery over when a webhook URL is configured. The
    host's settings store and printer are explicit inputs. */
module Notifier {
  import opened Common
  import opened Decimal
  import opened Events
  import opened Template
  import Timedelta

  /** The plugin settings as read with defaults merged in. `events` holds the stored
      per-event records; an ID without one falls back to the built-in table. */
  datatype Settings = Settings(
    url: string,
    username: string,
    avatar: string,
    allowScripts: Option<bool>,
    scriptBefore: Option<string>,
    scriptAfter: Option<string>,
    events: map<string, EventConfig>,
    webcamSnapshot: Option<string>)

  /** The `progress` part of the printer's current data: seconds left and spent. */
  datatype PrinterProgress = PrinterProgress(printTimeLeft: Option<int>, printTime: Option<int>)

  /** Everything `send_message` hands on once the URL gate passes: the scripts it runs
      before and after, the camera URL it fetches a snapshot from, and the fields of
      the webhook message. */
  datatype Delivery = Delivery(
    eventId: string,
    message: string,
    url: string,
    username: string,
    avatar: string,
    scriptBefore: Option<string>,
    snapshotUrl: Option<string>,
    scriptAfter: Option<string>)

  /** What a notification call does: returns a boolean (and possibly hands over a
      delivery), lets an exception escape, or uses a template outside the modelled
      part of `str.format`. */
  datatype Notified =
    | Returned(result: bool, delivery: Option<Delivery>)
    | Raised(error: string)
    | UnmodelledTemplate

  predicate Sent(r: Notified) {
    r.Returned? && r.delivery.Some?
  }

  /** `self._settings.get(["events", id], merged=True)`: the stored record when there
      is one, the built-in default otherwise. */
  function Configured(s: Settings, id: string): (c: EventConfig)
    requires id in EVENTS
    ensures id in s.events ==> c == s.events[id]
    ensures id !in s.events ==> c == EVENTS[id]
  {
    if id in s.events then s.events[id] else EVENTS[id]
  }

  // ---------------------------------------------------------------- routing

  datatype Route =
    | Notify(id: string, data: Vars, startsBedTimer: bool)
    | Ignore
    | RouteError(error: string)

  /** Python's `int(v)` on a template value: integers as they are, floats truncated
      toward zero; strings are not converted in this model. */
  function ToInt(v: Value): Option<int> {
    match v
    case IntVal(i) => Some(i)
    case FloatVal(x, _) => Some(if x >= 0.0 then x.Floor else -((-x).Floor))
    case StrVal(_) => None
  }

  /** `on_event`: the host event name (and, for printer state changes, the payload's
      `state_id`) picks the internal event; every ID it can pick is in the table. */
  function RouteEvent(event: string, payload: Vars): (r: Route)
    requires Valid(payload)
    ensures r.Notify? ==> r.id in EVENTS && Valid(r.data)
    ensures r.Notify? && r.startsBedTimer ==> event == "PrintCancelled" || event == "PrintDone"
  {
    if event == "Startup" then Notify("startup", NoVars, false)
    else if event == "Shutdown" then Notify("shutdown", NoVars, false)
    else if event == "PrinterStateChanged" then
      if "state_id" !in payload.values then RouteError("KeyError: 'state_id'")
      else
        var state := payload.values["state_id"];
        if state == StrVal("OPERATIONAL") then Notify("printer_state_operational", NoVars, false)
        else if state == StrVal("ERROR") then Notify("printer_state_error", NoVars, false)
        else if state == StrVal("UNKNOWN") then Notify("printer_state_unknown", NoVars, false)
        else Ignore
    else if event == "PrintStarted" then Notify("printing_started", payload, false)
    else if event == "PrintPaused" then Notify("printing_paused", payload, false)
    else if event == "PrintResumed" then Notify("printing_resumed", payload, false)
    else if event == "PrintCancelled" then Notify("printing_cancelled", payload, true)
    else if event == "PrintDone" then
      if "time" !in payload.values then RouteError("KeyError: 'time'")
      else match ToInt(payload.values["time"])
        case None => RouteError("ValueError")
        case Some(t) =>
          if !Timedelta.Representable(t) then RouteError("OverflowError")
          else Notify("printing_done", Assign(payload, "time_formatted", StrVal(Timedelta.Text(t))), true)
    else Ignore
  }

  const HOST_EVENTS: set<string> :=
    {"Startup", "Shutdown", "PrinterStateChanged", "PrintStarted", "PrintPaused",
     "PrintResumed", "PrintCancelled", "PrintDone"}

  /** The state a `PrinterStateChanged` payload reports, when it has one. */
  predicate ReportsState(payload: Vars, state: string) {
    "state_id" in payload.values && payload.values["state_id"] == StrVal(state)
  }

  /** The routing table of `on_event`. */
  lemma RoutingTable(payload: Vars)
    requires Valid(payload)
    ensures RouteEvent("Startup", payload) == Notify("startup", NoVars, false)
    ensures RouteEvent("Shutdown", payload) == Notify("shutdown", NoVars, false)
    ensures ReportsState(payload, "OPERATIONAL") ==>
              RouteEvent("PrinterStateChanged", payload) == Notify("printer_state_operational", NoVars, false)
    ensures ReportsState(payload, "ERROR") ==>
              RouteEvent("PrinterStateChanged", payload) == Notify("printer_state_error", NoVars, false)
    ensures ReportsState(payload, "UNKNOWN") ==>
              RouteEvent("PrinterStateChanged", payload) == Notify("printer_state_unknown", NoVars, false)
    ensures "state_id" !in payload.values ==> RouteEvent("PrinterStateChanged", payload).RouteError?
    ensures RouteEvent("PrintStarted", payload) == Notify("printing_started", payload, false)
    ensures RouteEvent("PrintPaused", payload) == Notify("printing_paused", payload, false)
    ensures RouteEvent("PrintResumed", payload) == Notify("printing_resumed", payload, false)
    ensures RouteEvent("PrintCancelled", payload) == Notify("printing_cancelled", payload, true)
  {
  }

  /** `PrintDone` needs a `time` that `int()` converts and `timedelta` can hold; then
      it notifies `printing_done` with the payload plus `time_formatted`, the text of
      that many seconds, and starts the bed timer. */
  lemma PrintDoneRoute(payload: Vars)
    requires Valid(payload)
    ensures var r := RouteEvent("PrintDone", payload);
            && ("time" !in payload.values ==> r.RouteError?)
            && ("time" in payload.values && ToInt(payload.values["time"]).None? ==> r.RouteError?)
            && ("time" in payload.values && ToInt(payload.values["time"]).Some? ==>
                  var t := ToInt(payload.values["time"]).value;
                  && (!Timedelta.Representable(t) ==> r == RouteError("OverflowError"))
                  && (Timedelta.Representable(t) ==>
                        && r.Notify? && r.id == "printing_done" && r.startsBedTimer
                        && r.data.values == payload.values["time_formatted" := StrVal(Timedelta.Text(t))]
                        && |payload.names| <= |r.data.names| && r.data.names[..|payload.names|] == payload.names))
  {
    if "time" in payload.values && ToInt(payload.values["time"]).Some? {
      var t := ToInt(payload.values["time"]).value;
      if Timedelta.Representable(t) {
        var d := Assign(payload, "time_formatted", StrVal(Timedelta.Text(t)));
        assert RouteEvent("PrintDone", payload) == Notify("printing_done", d, true);
        assert d.values == payload.values["time_formatted" := StrVal(Timedelta.Text(t))];
      }
    }
  }

  /** Any other host event, and a printer state other than the three named ones, is
      acknowledged without a notification. */
  lemma UnroutedEventsIgnored(event: string, payload: Vars)
    requires Valid(payload)
    ensures event !in HOST_EVENTS ==> RouteEvent(event, payload) == Ignore
    ensures event == "PrinterStateChanged" && "state_id" in payload.values
            && payload.values["state_id"] !in {StrVal("OPERATIONAL"), StrVal("ERROR"), StrVal("UNKNOWN")}
            ==> RouteEvent(event, payload) == Ignore
  {
  }

  // ---------------------------------------------------------------- gates

  /** Python's `a % b` (floor division: the result takes the sign of `b`). */
  function PyMod(a: int, b: int): (m: int)
    requires b != 0
    ensures b > 0 ==> 0 <= m < b
    ensures b < 0 ==> b < m <= 0
    ensures exists q :: a == Times(q, b) + m
  {
    var m := a % b;
    assert a == Times(a / b, b) + m;
    if m != 0 && b < 0 then
      assert a == Times(a / b - 1, b) + (m + b);
      m + b
    else m
  }

  function Times(k: int, b: int): int {
    k * b
  }

  /** The progress rule of `notify_event`: a non-zero step, a progress strictly between
      the two ends of the print and a multiple of the step. */
  predicate ProgressAllows(step: int, progress: int) {
    !(step == 0 || progress == 0 || PyMod(progress, step) != 0 || progress == 100)
  }

  /** A whole multiple of `b` leaves no remainder. */
  lemma MultipleModZero(k: int, b: int)
    requires b != 0
    ensures Times(k, b) % b == 0
  {
    var a := Times(k, b);
    var q := a / b;
    var m := a % b;
    assert a == q * b + m;
    var e := k - q;
    assert e * b == m;
    assert e == 0;
  }

  /** The progress rule in plain terms: whatever the signs, Python's modulo is zero
      exactly when the progress is a whole multiple of the step. */
  lemma ProgressAllowsMeansMultiple(step: int, progress: int)
    ensures ProgressAllows(step, progress)
        <==> step != 0 && progress != 0 && progress != 100 && exists k :: progress == Times(k, step)
  {
    if step != 0 {
      var m := PyMod(progress, step);
      var q :| progress == Times(q, step) + m;
      if m == 0 {
        assert progress == Times(q, step);
      }
      if exists k :: progress == Times(k, step) {
        var k :| progress == Times(k, step);
        MultipleModZero(k, step);
      }
    }
  }

  /** `"http" in url`, the only check `send_message` makes on the webhook URL. */
  predicate HasHttp(url: string) {
    Contains(url, "http")
  }

  /** `exec_script`: which script (if any) is executed for `which`. Nothing runs unless
      scripts are allowed, `which` is "before" or "after", and the configured path is
      non-empty and exists. */
  function ScriptToRun(s: Settings, which: string, files: set<string>): (r: Option<string>)
    ensures r.Some? <==>
      && s.allowScripts.Some? && s.allowScripts.value
      && ((which == "before" && s.scriptBefore.Some? && s.scriptBefore.value != "" && s.scriptBefore.value in files)
       || (which == "after" && s.scriptAfter.Some? && s.scriptAfter.value != "" && s.scriptAfter.value in files))
    ensures r.Some? && which == "before" ==> r == s.scriptBefore
    ensures r.Some? && which == "after" ==> r == s.scriptAfter
  {
    if s.allowScripts.None? || s.allowScripts.value == false then None
    else
      var chosen := if which == "before" then s.scriptBefore else if which == "after" then s.scriptAfter else None;
      if chosen.Some? && |chosen.value| > 0 && chosen.value in files then chosen else None
  }

  /** `send_message`: False with nothing sent when the URL does not contain "http";
      otherwise True, with the scripts, the snapshot source and the message fields. */
  function SendMessage(s: Settings, id: string, message: string, withSnapshot: bool, files: set<string>): (r: Notified)
    ensures r.Returned? && (r.result <==> exists i :: OccursAt(s.url, "http", i))
    ensures r.delivery.Some? <==> r.result
    ensures r.result ==> (&& r.delivery.value.message == message && r.delivery.value.url == s.url
                          && r.delivery.value.eventId == id)
    ensures r.result ==> (r.delivery.value.snapshotUrl.Some? <==>
                            withSnapshot && s.webcamSnapshot.Some? && HasHttp(s.webcamSnapshot.value))
    ensures r.result && r.delivery.value.snapshotUrl.Some? ==> r.delivery.value.snapshotUrl == s.webcamSnapshot
    ensures r.result ==> (&& r.delivery.value.username == s.username && r.delivery.value.avatar == s.avatar
                          && r.delivery.value.scriptBefore == ScriptToRun(s, "before", files)
                          && r.delivery.value.scriptAfter == ScriptToRun(s, "after", files))
  {
    if !HasHttp(s.url) then Returned(false, None)
    else
      var snapshot := if withSnapshot && s.webcamSnapshot.Some? && HasHttp(s.webcamSnapshot.value)
                      then s.webcamSnapshot else None;
      Returned(true, Some(Delivery(id, message, s.url, s.username, s.avatar,
        ScriptToRun(s, "before", files), snapshot, ScriptToRun(s, "after", files))))
  }

  // ---------------------------------------------------------------- messages

  /** The defaults `notify_event` installs, in the order it installs them. */
  const DEFAULTS: seq<(string, Value)> :=
    [("progress", IntVal(0)), ("remaining", IntVal(0)), ("remaining_formatted", StrVal("0s")),
     ("spent", IntVal(0)), ("spent_formatted", StrVal("0s"))]

  /** The keys of a list of default pairs. */
  function DefaultKeys(defs: seq<(string, Value)>): set<string> {
    if |defs| == 0 then {} else {defs[0].0} + DefaultKeys(defs[1..])
  }

  /** The value of the first pair for `k`. */
  function FirstDefault(defs: seq<(string, Value)>, k: string): Value
    requires k in DefaultKeys(defs)
  {
    if defs[0].0 == k then defs[0].1 else FirstDefault(defs[1..], k)
  }

  /** `setdefault` for each pair of `defs` in turn: every default key ends up present,
      values already there are kept, and an absent key gets the value of its first
      default pair. */
  function SetDefaults(d: Vars, defs: seq<(string, Value)>): (r: Vars)
    requires Valid(d)
    ensures Valid(r)
    ensures r.values.Keys == d.values.Keys + DefaultKeys(defs)
    ensures forall k :: k in d.values ==> r.values[k] == d.values[k]
    ensures forall k :: k in DefaultKeys(defs) && k !in d.values ==> r.values[k] == FirstDefault(defs, k)
    ensures |d.names| <= |r.names| && r.names[..|d.names|] == d.names
    decreases |defs|
  {
    if |defs| == 0 then d
    else
      var d1 := SetDefault(d, defs[0].0, defs[0].1);
      var r := SetDefaults(d1, defs[1..]);
      assert r.names[..|d.names|] == r.names[..|d1.names|][..|d.names|];
      r
  }

  /** The `setdefault` calls of `notify_event`. */
  function WithDefaults(data: Vars): (r: Vars)
    requires Valid(data)
    ensures Valid(r)
    ensures r.values.Keys == data.values.Keys + {"progress", "remaining", "remaining_formatted", "spent", "spent_formatted"}
    ensures forall k :: k in data.values ==> r.values[k] == data.values[k]
    ensures "progress" !in data.values ==> r.values["progress"] == IntVal(0)
    ensures "remaining" !in data.values ==> r.values["remaining"] == IntVal(0)
    ensures "spent" !in data.values ==> r.values["spent"] == IntVal(0)
    ensures "remaining_formatted" !in data.values ==> r.values["remaining_formatted"] == StrVal("0s")
    ensures "spent_formatted" !in data.values ==> r.values["spent_formatted"] == StrVal("0s")
    ensures |data.names| <= |r.names| && r.names[..|data.names|] == data.names
  {
    DefaultsTable();
    SetDefaults(data, DEFAULTS)
  }

  lemma DefaultsTable()
    ensures DefaultKeys(DEFAULTS) == {"progress", "remaining", "remaining_formatted", "spent", "spent_formatted"}
    ensures FirstDefault(DEFAULTS, "progress") == IntVal(0)
    ensures FirstDefault(DEFAULTS, "remaining") == IntVal(0)
    ensures FirstDefault(DEFAULTS, "remaining_formatted") == StrVal("0s")
    ensures FirstDefault(DEFAULTS, "spent") == IntVal(0)
    ensures FirstDefault(DEFAULTS, "spent_formatted") == StrVal("0s")
  {
    var t1 := DEFAULTS[1..];
    var t2 := t1[1..];
    var t3 := t2[1..];
    var t4 := t3[1..];
    assert t4[1..] == [];
    assert DefaultKeys(t4) == {"spent_formatted"};
    assert DefaultKeys(t3) == {"spent", "spent_formatted"};
    assert DefaultKeys(t2) == {"remaining_formatted", "spent", "spent_formatted"};
    assert DefaultKeys(t1) == {"remaining", "remaining_formatted", "spent", "spent_formatted"};
  }


  /** `data[name] = t` and `data[name + "_formatted"] = str(timedelta(seconds=t))`. */
  function WithTime(d: Vars, name: string, t: Option<int>): (r: Vars)
    requires Valid(d)
    ensures Valid(r)
    ensures forall k :: k in r.values <==> k in d.values || (t.Some? && (k == name || k == name + "_formatted"))
    ensures t.Some? ==> name in r.values && r.values[name] == IntVal(t.value)
    ensures t.Some? ==> name + "_formatted" in r.values && r.values[name + "_formatted"] == StrVal(Timedelta.Text(t.value))
    ensures forall k :: k in d.values && k != name && k != name + "_formatted" ==> r.values[k] == d.values[k]
    ensures t.None? ==> r == d
  {
    if t.Some? then
      var d1 := Assign(d, name, IntVal(t.value));
      assert name != name + "_formatted" by { assert |name| != |name + "_formatted"|; }
      var nf := name + "_formatted";
      var r := Assign(d1, nf, StrVal(Timedelta.Text(t.value)));
      r
    else d
  }

  /** The seconds left, when the printer reports progress and the time left. */
  function TimeLeft(printer: Option<PrinterProgress>): Option<int> {
    if printer.Some? then printer.value.printTimeLeft else None
  }

  /** The seconds spent, when the printer reports progress and the print time. */
  function TimeSpent(printer: Option<PrinterProgress>): Option<int> {
    if printer.Some? then printer.value.printTime else None
  }

  /** Every reported time is one that `timedelta` can hold. */
  predicate TimesFit(printer: Option<PrinterProgress>) {
    && (TimeLeft(printer).Some? ==> Timedelta.Representable(TimeLeft(printer).value))
    && (TimeSpent(printer).Some? ==> Timedelta.Representable(TimeSpent(printer).value))
  }

  /** The printer's times overwrite `remaining`/`spent` and their formatted forms
      when the printer reports them; an unreported time leaves its two variables
      alone, and no other variable changes. */
  function WithPrinterTimes(d: Vars, printer: Option<PrinterProgress>): (r: Vars)
    requires Valid(d)
    ensures Valid(r)
    ensures forall k :: k in r.values <==>
              || k in d.values
              || (TimeLeft(printer).Some? && (k == "remaining" || k == "remaining_formatted"))
              || (TimeSpent(printer).Some? && (k == "spent" || k == "spent_formatted"))
    ensures TimeLeft(printer).Some? ==>
              && "remaining" in r.values && "remaining_formatted" in r.values
              && r.values["remaining"] == IntVal(TimeLeft(printer).value)
              && r.values["remaining_formatted"] == StrVal(Timedelta.Text(TimeLeft(printer).value))
    ensures TimeSpent(printer).Some? ==>
              && "spent" in r.values && "spent_formatted" in r.values
              && r.values["spent"] == IntVal(TimeSpent(printer).value)
              && r.values["spent_formatted"] == StrVal(Timedelta.Text(TimeSpent(printer).value))
    ensures forall k :: k in d.values
                        && !(TimeLeft(printer).Some? && (k == "remaining" || k == "remaining_formatted"))
                        && !(TimeSpent(printer).Some? && (k == "spent" || k == "spent_formatted"))
              ==> r.values[k] == d.values[k]
  {
    PrinterNames();
    TwoTimes(d, "remaining", "remaining_formatted", TimeLeft(printer), "spent", "spent_formatted", TimeSpent(printer));
    WithTime(WithTime(d, "remaining", TimeLeft(printer)), "spent", TimeSpent(printer))
  }

  /** The four variables the printer's times set are distinct, and each formatted
      name is its base name plus "_formatted". */
  lemma PrinterNames()
    ensures "remaining" + "_formatted" == "remaining_formatted"
    ensures "spent" + "_formatted" == "spent_formatted"
    ensures "remaining" != "spent" && "remaining" != "spent_formatted"
    ensures "remaining_formatted" != "spent" && "remaining_formatted" != "spent_formatted"
  {
    assert |"spent"| == 5 && |"spent_formatted"| == 15 && |"remaining"| == 9 && |"remaining_formatted"| == 19;
  }

  /** Two `WithTime` calls on four distinct names: each reported time sets its two
      variables, and everything else is kept. */
  lemma TwoTimes(d: Vars, a: string, af: string, ta: Option<int>, b: string, bf: string, tb: Option<int>)
    requires Valid(d)
    requires af == a + "_formatted" && bf == b + "_formatted"
    requires a != b && a != bf && af != b && af != bf
    ensures var r := WithTime(WithTime(d, a, ta), b, tb);
            && Valid(r)
            && (forall k :: k in r.values <==> || k in d.values
                                               || (ta.Some? && (k == a || k == af))
                                               || (tb.Some? && (k == b || k == bf)))
            && (ta.Some? ==> r.values[a] == IntVal(ta.value) && r.values[af] == StrVal(Timedelta.Text(ta.value)))
            && (tb.Some? ==> r.values[b] == IntVal(tb.value) && r.values[bf] == StrVal(Timedelta.Text(tb.value)))
            && (forall k :: k in d.values && !(ta.Some? && (k == a || k == af)) && !(tb.Some? && (k == b || k == bf))
                  ==> r.values[k] == d.values[k])
  {
  }

  /** A variable name as the warning shows it: "`{name}`". */
  function Quote(x: string): string {
    "`{" + x + "}`"
  }

  /** The warning appended to a template that names an unknown variable: it quotes
      the variable and every available one. */
  function Warning(key: string, names: seq<string>): (w: string)
    ensures Contains(w, Quote(key))
    ensures forall n :: n in names ==> Contains(w, Quote(n))
  {
    var lead := "\r\n:sos: **OctoRant Warning**\r\n The variable ";
    var mid := " is invalid for this message: \r\n Available variables: ";
    QuotesAll(lead, key, mid, names);
    lead + Quote(key) + mid + Quote(Join("}`, `{", names))
  }

  lemma QuotesAll(lead: string, key: string, mid: string, names: seq<string>)
    ensures var w := lead + Quote(key) + mid + Quote(Join("}`, `{", names));
            Contains(w, Quote(key)) && forall n :: n in names ==> Contains(w, Quote(n))
  {
    var list := Quote(Join("}`, `{", names));
    var w := lead + Quote(key) + mid + list;
    assert w == lead + Quote(key) + (mid + list);
    ContainsInside(lead, Quote(key), mid + list);
    forall n | n in names
      ensures Contains(w, Quote(n))
    {
      JoinMentions(names, n);
      var j :| OccursAt(list, Quote(n), j);
      OccursShift(lead + Quote(key) + mid, list, Quote(n), j);
    }
  }

  datatype Composed = Message(text: string) | FormatRaises | FormatUnmodelled

  /** The `try`/`except KeyError` around `format`: a missing variable never escapes,
      it turns into the unchanged template followed by a warning that names it and
      lists every available variable. */
  function Compose(template: string, d: Vars): (r: Composed)
    ensures Format(template, d).Formatted? ==> r == Message(Format(template, d).text)
    ensures Format(template, d).MissingKey? ==>
              && r.Message?
              && StartsWith(r.text, template)
              && Contains(r.text, Quote(Format(template, d).name))
              && forall n :: n in d.names ==> Contains(r.text, Quote(n))
    ensures Format(template, d).Malformed? <==> r.FormatRaises?
  {
    match Format(template, d)
    case Formatted(text) => Message(text)
    case MissingKey(key) =>
      var text := template + Warning(key, d.names);
      WarningMentions(template, key, d.names);
      Message(text)
    case Malformed => FormatRaises
    case Unmodelled => FormatUnmodelled
  }

  lemma WarningMentions(template: string, key: string, names: seq<string>)
    ensures StartsWith(template + Warning(key, names), template)
    ensures Contains(template + Warning(key, names), Quote(key))
    ensures forall n :: n in names ==> Contains(template + Warning(key, names), Quote(n))
  {
    var w := Warning(key, names);
    var t := template + w;
    assert t[..|template|] == template;
    var i :| OccursAt(w, Quote(key), i);
    OccursShift(template, w, Quote(key), i);
    forall n | n in names
      ensures Contains(t, Quote(n))
    {
      var j :| OccursAt(w, Quote(n), j);
      OccursShift(template, w, Quote(n), j);
    }
  }

  lemma ContainsInside(a: string, sub: string, b: string)
    ensures Contains(a + sub + b, sub)
  {
    assert (a + sub + b)[|a|..|a| + |sub|] == sub;
    assert OccursAt(a + sub + b, sub, |a|);
  }

  lemma OccursShift(a: string, b: string, sub: string, j: int)
    requires OccursAt(b, sub, j)
    ensures OccursAt(a + b, sub, |a| + j)
  {
    assert (a + b)[|a| + j..|a| + j + |sub|] == b[j..j + |sub|];
  }

  /** Every name of a joined list appears wrapped in its own "`{" and "}`". */
  lemma {:induction false} JoinMentions(names: seq<string>, n: string)
    requires n in names
    ensures exists j :: OccursAt(Quote(Join("}`, `{", names)), Quote(n), j)
    decreases |names|
  {
    var w := Quote(Join("}`, `{", names));
    if |names| == 1 {
      assert w == Quote(n);
      assert OccursAt(w, Quote(n), 0);
    } else if names[0] == n {
      assert w == Quote(n) + (", " + Quote(Join("}`, `{", names[1..])));
      assert w[0..|Quote(n)|] == Quote(n);
      assert OccursAt(w, Quote(n), 0);
    } else {
      assert n in names[1..];
      JoinMentions(names[1..], n);
      var rest := Quote(Join("}`, `{", names[1..]));
      var j :| OccursAt(rest, Quote(n), j);
      var lead := "`{" + names[0] + "}`, ";
      assert w == lead + rest;
      OccursShift(lead, rest, Quote(n), j);
    }
  }

  // ---------------------------------------------------------------- notify_event

  /** The progress value `notify_event` tests, after defaults: 0 when the caller gave none. */
  function ProgressOf(data: Vars): Option<int> {
    if "progress" in data.values then ToInt(data.values["progress"]) else Some(0)
  }

  /** The progress gate as a whole: passes, stops quietly, or raises. */
  datatype Gate = Pass | Stop | GateRaises(error: string)

  function ProgressGate(cfg: EventConfig, data: Vars): (g: Gate)
    ensures g.Pass? <==> cfg.threshold.Step? && ProgressOf(data).Some?
                         && ProgressAllows(cfg.threshold.step, ProgressOf(data).value)
  {
    match cfg.threshold
    case Step(step, _) =>
      if step == 0 then Stop
      else
        (match ProgressOf(data)
         case None => GateRaises("ValueError")
         case Some(p) => if ProgressAllows(step, p) then Pass else Stop)
    case _ => GateRaises("KeyError: 'step'")
  }

  /** The progress gate applies only to `printing_progress`; every other event passes. */
  predicate GatePasses(s: Settings, id: string, data: Vars)
    requires id in EVENTS
  {
    id == "printing_progress" ==> ProgressGate(Configured(s, id), data).Pass?
  }

  /** The message `notify_event` builds for an event: the configured template over the
      data with defaults and the printer's times. */
  function MessageOf(s: Settings, id: string, data: Vars, printer: Option<PrinterProgress>): Composed
    requires id in EVENTS && Valid(data)
  {
    Compose(Configured(s, id).message, WithPrinterTimes(WithDefaults(data), printer))
  }

  /** `notify_event(id, data)`: False for an unknown or disabled event and for a
      progress value the step rule rejects; otherwise the composed message is handed
      to `send_message`, unless a reported time overflows `timedelta` or the template
      is malformed, which raise. */
  function NotifyEvent(s: Settings, id: string, data: Vars, printer: Option<PrinterProgress>, files: set<string>): (r: Notified)
    requires Valid(data)
    ensures id !in EVENTS ==> r == Returned(false, None)
    ensures id in EVENTS && !Configured(s, id).enabled ==> r == Returned(false, None)
    ensures id in EVENTS && Configured(s, id).enabled && id == "printing_progress" ==>
              && (ProgressGate(Configured(s, id), data).Stop? ==> r == Returned(false, None))
              && (ProgressGate(Configured(s, id), data).GateRaises? ==> r.Raised?)
    ensures id in EVENTS && Configured(s, id).enabled && GatePasses(s, id, data) && !TimesFit(printer) ==>
              r == Raised("OverflowError")
    ensures id in EVENTS && Configured(s, id).enabled && GatePasses(s, id, data) && TimesFit(printer) ==>
              var c := MessageOf(s, id, data, printer);
              && (c.Message? ==> r == SendMessage(s, id, c.text, Configured(s, id).withSnapshot, files))
              && (c.Message? ==> && r.Returned? && (r.result <==> HasHttp(s.url))
                                 && (r.result ==> r.delivery.Some? && r.delivery.value.message == c.text))
              && (c.FormatRaises? ==> r.Raised?)
              && (c.FormatUnmodelled? ==> r.UnmodelledTemplate?)
    ensures r.Returned? ==> (r.result <==> r.delivery.Some?)
    ensures Sent(r) ==> && id in EVENTS && Configured(s, id).enabled && HasHttp(s.url)
                        && r.delivery.value.eventId == id
                        && (r.delivery.value.snapshotUrl.Some? ==> Configured(s, id).withSnapshot)
    ensures Sent(r) && id == "printing_progress" ==> ProgressGate(Configured(s, id), data).Pass?
  {
    if id !in EVENTS then Returned(false, None)
    else
      var cfg := Configured(s, id);
      if !cfg.enabled then Returned(false, None)
      else
        var gate := if id == "printing_progress" then ProgressGate(cfg, data) else Pass;
        match gate
        case Stop => Returned(false, None)
        case GateRaises(e) => Raised(e)
        case Pass =>
          if !TimesFit(printer) then Raised("OverflowError")
          else
            match MessageOf(s, id, data, printer)
            case Message(text) => SendMessage(s, id, text, cfg.withSnapshot, files)
            case FormatRaises => Raised("UnboundLocalError: message")
            case FormatUnmodelled => UnmodelledTemplate
  }

  /** An unknown template variable never lets an exception escape: the event is
      delivered with the warning text whenever the URL gate passes. */
  lemma MissingVariableStillSends(s: Settings, id: string, data: Vars, printer: Option<PrinterProgress>, files: set<string>)
    requires Valid(data) && id in EVENTS && Configured(s, id).enabled && GatePasses(s, id, data) && TimesFit(printer)
    requires Format(Configured(s, id).message, WithPrinterTimes(WithDefaults(data), printer)).MissingKey?
    ensures NotifyEvent(s, id, data, printer, files).Returned?
    ensures NotifyEvent(s, id, data, printer, files).result <==> HasHttp(s.url)
  {
  }

  /** The data `on_print_progress` passes: the progress alone. */
  function ProgressData(progress: int): (d: Vars)
    ensures Valid(d) && d.values == map["progress" := IntVal(progress)]
  {
    Vars(["progress"], map["progress" := IntVal(progress)])
  }

  /** The `notify_event` call of `on_print_progress(progress)`: never a notification
      at 0 % or 100 %; False when the step rule rejects the progress; the composed
      message when it accepts it. `on_print_progress` itself discards this result and
      returns None, so only a raised exception reaches its caller. */
  function OnPrintProgress(s: Settings, progress: int, printer: Option<PrinterProgress>, files: set<string>): (r: Notified)
    ensures progress == 0 || progress == 100 ==> !Sent(r)
    ensures Sent(r) ==> Configured(s, "printing_progress").threshold.Step?
                        && ProgressAllows(Configured(s, "printing_progress").threshold.step, progress)
    ensures var cfg := Configured(s, "printing_progress");
            cfg.enabled && cfg.threshold.Step? && !ProgressAllows(cfg.threshold.step, progress) ==>
              r == Returned(false, None)
    ensures var cfg := Configured(s, "printing_progress");
            && cfg.enabled && cfg.threshold.Step? && ProgressAllows(cfg.threshold.step, progress)
            && TimesFit(printer) && MessageOf(s, "printing_progress", ProgressData(progress), printer).Message? ==>
              r.Returned? && (r.result <==> HasHttp(s.url))
  {
    NotifyEvent(s, "printing_progress", ProgressData(progress), printer, files)
  }

  /** `on_event`: the outcome of the notification, and whether the bed-temperature
      timer was started first. */
  function OnEvent(s: Settings, event: string, payload: Vars, printer: Option<PrinterProgress>, files: set<string>): (r: (Notified, bool))
    requires Valid(payload)
    ensures event !in HOST_EVENTS ==> r == (Returned(true, None), false)
    ensures RouteEvent(event, payload).Ignore? ==> r == (Returned(true, None), false)
    ensures RouteEvent(event, payload).RouteError? ==> r.0.Raised? && !r.1
    ensures var rt := RouteEvent(event, payload);
            rt.Notify? ==> r == (NotifyEvent(s, rt.id, rt.data, printer, files), rt.startsBedTimer)
    ensures Sent(r.0) ==> RouteEvent(event, payload).Notify? && HasHttp(s.url)
    ensures r.1 ==> event == "PrintCancelled" || event == "PrintDone"
  {
    match RouteEvent(event, payload)
    case Notify(id, data, timer) => (NotifyEvent(s, id, data, printer, files), timer)
    case Ignore => (Returned(true, None), false)
    case RouteError(e) => (Raised(e), false)
  }

  // ---------------------------------------------------------------- settings save

  /** The text `on_settings_save` compares before and after saving. */
  function BotSettings(s: Settings): string {
    s.url + s.avatar + s.username
  }

  /** `on_settings_save`: a test notification, under the new settings, exactly when
      the concatenation of URL, avatar and username differs. */
  function OnSettingsSave(before: Settings, after: Settings, printer: Option<PrinterProgress>, files: set<string>): (r: Option<Notified>)
    ensures r.Some? <==> before.url + before.avatar + before.username != after.url + after.avatar + after.username
    ensures r.Some? ==> r.value == NotifyEvent(after, "test", NoVars, printer, files)
  {
    if BotSettings(before) != BotSettings(after) then Some(NotifyEvent(after, "test", NoVars, printer, files)) else None
  }

  /** Different middles make different texts. */
  lemma DifferentMiddle(p: string, x: string, y: string, q: string)
    requires x != y
    ensures p + x + q != p + y + q
  {
    if |x| == |y| {
      var i :| 0 <= i < |x| && x[i] != y[i];
      assert (p + x + q)[|p| + i] == x[i];
      assert (p + y + q)[|p| + i] == y[i];
    } else {
      assert |p + x + q| != |p + y + q|;
    }
  }

  /** Changing exactly one of the three fields always sends the test message. */
  lemma OneFieldChangeSendsTest(before: Settings, after: Settings, printer: Option<PrinterProgress>, files: set<string>)
    requires (before.url != after.url && before.avatar == after.avatar && before.username == after.username)
          || (before.url == after.url && before.avatar != after.avatar && before.username == after.username)
          || (before.url == after.url && before.avatar == after.avatar && before.username != after.username)
    ensures OnSettingsSave(before, after, printer, files).Some?
  {
    if before.url != after.url {
      var q := before.avatar + before.username;
      DifferentMiddle("", before.url, after.url, q);
      assert BotSettings(before) == "" + before.url + q;
      assert BotSettings(after) == "" + after.url + q;
    } else if before.avatar != after.avatar {
      DifferentMiddle(before.url, before.avatar, after.avatar, before.username);
    } else {
      DifferentMiddle(before.url + before.avatar, before.username, after.username, "");
      assert BotSettings(before) == before.url + before.avatar + before.username + "";
      assert BotSettings(after) == after.url + after.avatar + after.username + "";
    }
  }

  /** Moving text between the fields so that the concatenation is unchanged does not
      count as a change: no test message is sent, although the URL itself changed
      when the moved text is not empty. */
  lemma ResplitIsNoChange(before: Settings, after: Settings, moved: string,
                          printer: Option<PrinterProgress>, files: set<string>)
    requires after.url == before.url + moved && before.avatar == moved + after.avatar
    requires after.username == before.username
    ensures OnSettingsSave(before, after, printer, files).None?
    ensures moved != "" ==> before.url != after.url
  {
    assert BotSettings(before) == before.url + moved + after.avatar + after.username;
    assert BotSettings(after) == before.url + moved + after.avatar + after.username;
    if moved != "" {
      assert |after.url| > |before.url|;
    }
  }

  /** No test message whenever the concatenation is the same, whatever the fields. */
  lemma SameConcatenationNoTest(before: Settings, after: Settings, printer: Option<PrinterProgress>, files: set<string>)
    requires BotSettings(before) == BotSettings(after)
    ensures OnSettingsSave(before, after, printer, files).None?
  {
  }

  // ---------------------------------------------------------------- bed cooled

  datatype BedCheck =
    | BedCheck(notification: Option<Notified>, cancelTimer: bool)
    | BedCheckRaises(error: string)

  /** `check_bed_temperature`: when the printer reports a bed temperature at or below
      the configured threshold, notify `bed_cooled`, then stop the timer. An exception
      from the notification escapes before the timer is stopped. */
  function CheckBedTemperature(s: Settings, bed: Option<real>, printer: Option<PrinterProgress>, files: set<string>): (r: BedCheck)
    ensures r.BedCheck? <==> Configured(s, "bed_cooled").threshold.Temperature?
    ensures r.BedCheck? ==> (r.notification.Some? <==>
              bed.Some? && bed.value <= Configured(s, "bed_cooled").threshold.degrees as real)
    ensures r.BedCheck? && r.notification.Some? ==>
              r.notification.value == NotifyEvent(s, "bed_cooled", NoVars, printer, files)
    ensures r.BedCheck? ==> (r.cancelTimer <==> r.notification.Some? && !r.notification.value.Raised?)
  {
    match Configured(s, "bed_cooled").threshold
    case Temperature(threshold, _) =>
      if bed.Some? && bed.value <= threshold as real then
        var n := NotifyEvent(s, "bed_cooled", NoVars, printer, files);
        BedCheck(Some(n), !n.Raised?)
      else BedCheck(None, false)
    case _ => BedCheckRaises("KeyError: 'temperature'")
  }
}
