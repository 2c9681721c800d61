/** The generator window reduced to the state its core operations share:
    the password field that "generate" writes and "save password" reads.
    The rest of the window's state arrives as a `Config` or as arguments. */
module App {
  import opened Wrappers
  import opened PasswordBuilder
  import PasswordLog

  class PasswordGenerator {
    /** The entry showing the password. `Generate` writes it; the user may
        also edit it, and "save password" saves whatever it holds. */
    var passwordVar: string

    /** A fresh window shows no password. */
    constructor ()
      ensures passwordVar == ""
    {
      passwordVar := "";
    }

    /** "Generate": on success the new password replaces the shown one; on a
        failure (an error dialog or an exception) the shown one stays. */
    method Generate(cfg: Config) returns (outcome: Outcome)
      modifies this`passwordVar
      ensures Admissible(cfg, outcome)
      ensures outcome.Generated? ==> passwordVar == outcome.password
      ensures outcome.Failed? ==> passwordVar == old(passwordVar)
    {
      outcome := BuildPassword(cfg);
      if outcome.Generated? {
        passwordVar := outcome.password;
      }
    }

    /** "Save password": the entry to append to the log, or `None` (the
        "nothing to save" warning) while no password is shown. */
    method SavePassword(timestamp: string, note: string) returns (record: Option<string>)
      ensures record.None? <==> passwordVar == ""
      ensures record.Some? ==> record.value == PasswordLog.Record(timestamp, note, passwordVar)
    {
      if passwordVar == "" {
        return None;
      }
      record := Some(PasswordLog.Record(timestamp, note, passwordVar));
    }
  }
}
