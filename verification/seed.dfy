/** The twelve rooms the server starts with. */
module Seed {
  import opened Wrappers
  import opened RoomDirectory

  /** The identifiers of the seeded rooms. */
  const SeedIds: set<string> := {
    "boardroom", "conf_a", "conf_b", "conf_c", "conf_d", "conf_e",
    "focus_a", "focus_b", "focus_c", "focus_d", "east_a", "east_b"
  }

  /** The directory as the server holds it at start-up. */
  const Initial: Directory := map[
    "boardroom" := Room("boardroom", "Boardroom", 20, false, [
      Meeting("08:30–09:30", "Exec Standup", "CEO Office"),
      Meeting("10:00–12:00", "Q2 Strategy", "A. Rivera"),
      Meeting("14:00–16:00", "Board Review", "B. Chen")
    ]),
    "conf_a" := Room("conf_a", "Conf A", 12, true, [
      Meeting("13:00–14:00", "Sprint Planning", "Dev Team")
    ]),
    "conf_b" := Room("conf_b", "Conf B", 10, false, [
      Meeting("09:00–10:30", "UX Review", "Design"),
      Meeting("11:00–12:00", "Vendor Call", "Procurement"),
      Meeting("15:00–16:00", "Retro", "Scrum Master")
    ]),
    "conf_c" := Room("conf_c", "Conf C", 10, true, [
      Meeting("14:30–15:30", "HR One-on-Ones", "HR Dept")
    ]),
    "conf_d" := Room("conf_d", "Conf D", 12, true, []),
    "conf_e" := Room("conf_e", "Conf E", 10, false, [
      Meeting("09:30–11:00", "Client Demo", "Sales"),
      Meeting("13:00–14:30", "Partner Sync", "Partnerships")
    ]),
    "focus_a" := Room("focus_a", "Focus A", 4, true, [
      Meeting("10:00–11:00", "1-on-1: Eng", "T. Park")
    ]),
    "focus_b" := Room("focus_b", "Focus B", 4, true, []),
    "focus_c" := Room("focus_c", "Focus C", 4, false, [
      Meeting("08:00–09:00", "Morning Briefing", "Ops"),
      Meeting("15:30–16:00", "Quick Sync", "M. Wang")
    ]),
    "focus_d" := Room("focus_d", "Focus D", 4, true, []),
    "east_a" := Room("east_a", "East Mtg A", 6, true, [
      Meeting("11:00–12:00", "Cross-team Sync", "PM Office")
    ]),
    "east_b" := Room("east_b", "East Mtg B", 6, false, [
      Meeting("09:00–17:00", "All-day Workshop", "L&D Team")
    ])
  ]

  /** The seeded directory holds exactly the twelve seeded ids. */
  lemma InitialKeys()
    ensures Initial.Keys == SeedIds
  {
  }

  /** Every seeded record is stored under its own id and has a positive capacity. */
  lemma InitialWellFormed()
    ensures WellFormed(Initial)
  {
  }

  /** Looking up any seeded id yields a record carrying that exact id. */
  lemma GetSeededRoom(id: string)
    requires id in SeedIds
    ensures Get(Initial, id).Success?
    ensures Get(Initial, id).value.id == id
  {
    InitialKeys();
    InitialWellFormed();
  }

  /** An id that is not seeded is reported as not found. */
  lemma GetNonexistent()
    ensures Get(Initial, "nonexistent") == Failure(NotFound(RoomNotFound))
  {
    InitialKeys();
  }
}
