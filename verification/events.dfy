/** The plugin's built-in event table: the categories shown in the settings page and,
    for every internal event ID, its default configuration record. */
module Events {

  /** The optional numeric rule an event carries: the progress step with its unit, or
      the bed temperature threshold with its unit. */
  datatype Threshold =
    | NoThreshold
    | Step(step: int, stepUnit: string)
    | Temperature(degrees: int, temperatureUnit: string)

  datatype EventConfig = EventConfig(
    category: string,
    name: string,
    enabled: bool,
    withSnapshot: bool,
    message: string,
    threshold: Threshold)

  const CATEGORIES: seq<string> := ["system", "printer", "prints", "progress"]

  /** Every internal event ID of the table. */
  const IDS: set<string> := {"startup", "shutdown", "printer_state_operational", "printer_state_error", "printer_state_unknown", "printing_started", "printing_paused", "printing_resumed", "printing_cancelled", "printing_done", "printing_failed", "printing_progress", "bed_cooled", "test"}

  const EVENTS: map<string, EventConfig> :=
    map[
      "startup" := EventConfig("system", "Octoprint Startup", true, false,
        "⏰ I just woke up! What are we gonna print today?",
        NoThreshold),
      "shutdown" := EventConfig("system", "Octoprint Shutdown", true, false,
        "💤 Going to bed now!",
        NoThreshold),
      "printer_state_operational" := EventConfig("printer", "Printer state : operational", true, false,
        "✅ Your printer is operational.",
        NoThreshold),
      "printer_state_error" := EventConfig("printer", "Printer state : error", true, false,
        "⚠️ Your printer is in an erroneous state.",
        NoThreshold),
      "printer_state_unknown" := EventConfig("printer", "Printer state : unknown", true, false,
        "❔ Your printer is in an unknown state.",
        NoThreshold),
      "printing_started" := EventConfig("prints", "Printing process : started", true, true,
        "🖨️ I've started printing **{name}**",
        NoThreshold),
      "printing_paused" := EventConfig("prints", "Printing process : paused", true, true,
        "⏸️ The printing was paused.",
        NoThreshold),
      "printing_resumed" := EventConfig("prints", "Printing process : resumed", true, true,
        "▶️ The printing was resumed.",
        NoThreshold),
      "printing_cancelled" := EventConfig("prints", "Printing process : cancelled", true, true,
        "🛑 The printing was stopped.",
        NoThreshold),
      "printing_done" := EventConfig("prints", "Printing process : done", true, true,
        "👍 Printing is done! Took about {time_formatted}",
        NoThreshold),
      "printing_failed" := EventConfig("prints", "Printing process : failed", true, true,
        "👎 Printing has failed! :(",
        NoThreshold),
      "printing_progress" := EventConfig("progress", "Printing progress (by completion)", true, true,
        "📢 Printing is at {progress}%",
        Step(10, "%")),
      "bed_cooled" := EventConfig("prints", "Printing process : bed cooled", true, true,
        "❄️ The print bed is cool!",
        Temperature(30, "C")),
      "test" := EventConfig("test", "Test message", true, true,
        "Hello hello! If you see this message, it means that the settings are correct!",
        NoThreshold)
    ]

  /** The events of the two categories that concern the host and the printer rather
      than a print job. */
  predicate IsSystemOrPrinter(c: EventConfig) {
    c.category == "system" || c.category == "printer"
  }

  /** The table holds exactly the listed IDs. */
  lemma TableKeys()
    ensures EVENTS.Keys == IDS
  {
  }

  /** Every record has a category, a name and a message. */
  lemma RecordsFilled()
    ensures forall id :: id in EVENTS ==> EVENTS[id].category != "" && EVENTS[id].name != "" && EVENTS[id].message != ""
  {
  }

  /** Every event belongs to one of CATEGORIES, except the settings test message,
      whose category "test" is deliberately outside the list. */
  lemma CategoriesListed()
    ensures forall id :: id in EVENTS ==> (EVENTS[id].category in CATEGORIES <==> id != "test")
    ensures EVENTS["test"].category == "test"
  {
  }

  /** Every event is switched on by default. */
  lemma AllEnabledByDefault()
    ensures forall id :: id in EVENTS ==> EVENTS[id].enabled
  {
  }

  /** A snapshot is attached by default exactly for the events that are not about
      the host or the printer state. */
  lemma SnapshotOutsideSystemAndPrinter()
    ensures forall id :: id in EVENTS ==> (EVENTS[id].withSnapshot <==> !IsSystemOrPrinter(EVENTS[id]))
  {
  }

  /** Only the progress event carries a step (10 %) and only the bed-cooled event a
      temperature threshold (30 C). */
  lemma DefaultThresholds()
    ensures EVENTS["printing_progress"].threshold == Step(10, "%")
    ensures EVENTS["bed_cooled"].threshold == Temperature(30, "C")
    ensures forall id :: id in EVENTS && id != "printing_progress" && id != "bed_cooled" ==> EVENTS[id].threshold == NoThreshold
  {
  }
}
