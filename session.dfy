/** Streamlit's `st.session_state`: a mutable dictionary shared by the pages for the length
    of a browser session. The values the core stores in it are integers (thresholds), text
    (the user name), a flag (authenticated), lists of names (staff, allowed tabs) and the
    weekly-goal dictionary. */
module Session {

  datatype Value =
    | IntValue(i: int)
    | TextValue(s: string)
    | FlagValue(b: bool)
    | ListValue(items: seq<string>)
    | GoalsValue(goals: map<string, int>)

  class SessionState {
    var store: map<string, Value>

    constructor (initial: map<string, Value>)
      ensures store == initial
    {
      store := initial;
    }
  }
}
