/** The admin panel of pages/6_Admin_Panel.py: who may open it, the
    metrics it derives from the session's activity log, the "last 20"
    table with defaults for missing fields, and clearing the log. */
module AdminPanel {
  import opened Common
  import Login

  /** A log entry is a dictionary from field names to text. */
  type LogEntry = map<string, string>

  /** `entry.get(key, default)` */
  function Get(entry: LogEntry, key: string, default: string): (v: string)
    ensures key in entry ==> v == entry[key]
    ensures key !in entry ==> v == default
  {
    if key in entry then entry[key] else default
  }

  datatype Access = NotLoggedIn | NotAdmin | Granted

  function AccessMessage(access: Access): string {
    match access
    case NotLoggedIn => "You must log in to access Kalam NanoAtmosphere."
    case NotAdmin => "You do not have permission to view the Admin Panel."
    case Granted => ""
  }

  /** The two guards at the top of the page, in their order. */
  function Guard(loggedIn: bool, userEmail: Option<string>): (access: Access)
    ensures access == Granted <==> loggedIn && userEmail == Some(AdminEmail)
    ensures access == NotLoggedIn <==> !loggedIn
  {
    if !loggedIn then NotLoggedIn
    else if userEmail != Some(AdminEmail) then NotAdmin
    else Granted
  }

  /** In every reachable login session, the panel opens exactly for the
      sessions the login page gave the admin role. */
  lemma GuardMatchesRole(s: Login.Session)
    requires Login.Inv(s)
    ensures Guard(s.loggedIn, s.userEmail) == Granted <==> s.role == Login.AdminRole
  {
  }

  function UserOf(entry: LogEntry): string {
    Get(entry, "user", "unknown")
  }

  /** `{log.get("user", "unknown") for log in logs}` */
  function UserSet(logs: seq<LogEntry>): (users: set<string>)
    ensures forall u :: u in users <==> exists i :: 0 <= i < |logs| && UserOf(logs[i]) == u
  {
    if logs == [] then {}
    else
      var users := UserSet(logs[..|logs| - 1]) + {UserOf(logs[|logs| - 1])};
      assert forall i :: 0 <= i < |logs| - 1 ==> logs[..|logs| - 1][i] == logs[i];
      users
  }

  /** The "Unique Users" metric. */
  function UniqueUsers(logs: seq<LogEntry>): nat {
    |UserSet(logs)|
  }

  /** There are never more unique users than log entries, and none only
      when the log is empty. */
  lemma {:induction false} UniqueUsersBound(logs: seq<LogEntry>)
    ensures UniqueUsers(logs) <= |logs|
    ensures UniqueUsers(logs) == 0 <==> logs == []
  {
    if logs != [] {
      var init := logs[..|logs| - 1];
      UniqueUsersBound(init);
      var last := UserOf(logs[|logs| - 1]);
      assert UserSet(logs) == UserSet(init) + {last};
      assert last in UserSet(logs);
      assert |UserSet(init) + {last}| <= |UserSet(init)| + 1 by {
        if last in UserSet(init) {
          assert UserSet(init) + {last} == UserSet(init);
        } else {
          assert |UserSet(init) + {last}| == |UserSet(init)| + 1;
        }
      }
    }
  }

  /** The "Last Activity" metric. */
  function LastActivity(logs: seq<LogEntry>): (shown: string)
    ensures logs == [] ==> shown == "No logs"
    ensures logs != [] && "timestamp" in logs[|logs| - 1] ==> shown == logs[|logs| - 1]["timestamp"]
    ensures logs != [] && "timestamp" !in logs[|logs| - 1] ==> shown == "N/A"
  {
    if logs == [] then "No logs" else Get(logs[|logs| - 1], "timestamp", "N/A")
  }

  /** Every page visit appends an entry, after which it is the last activity. */
  lemma LastActivityOfAppend(logs: seq<LogEntry>, entry: LogEntry)
    ensures LastActivity(logs + [entry]) == Get(entry, "timestamp", "N/A")
    ensures UniqueUsers(logs + [entry]) >= 1
  {
    var l := logs + [entry];
    assert l[|l| - 1] == entry;
    UniqueUsersBound(l);
  }

  /** One row of the activity table, every field filled in. */
  datatype SafeLog = SafeLog(user: string, action: string, page: string, timestamp: string)

  function SafeOf(entry: LogEntry): (row: SafeLog)
    ensures row.user == UserOf(entry)
    ensures "action" in entry ==> row.action == entry["action"]
    ensures "action" !in entry ==> row.action == "unknown"
    ensures "page" in entry ==> row.page == entry["page"]
    ensures "page" !in entry ==> row.page == "unknown"
    ensures "timestamp" in entry ==> row.timestamp == entry["timestamp"]
    ensures "timestamp" !in entry ==> row.timestamp == "N/A"
  {
    SafeLog(Get(entry, "user", "unknown"), Get(entry, "action", "unknown"),
            Get(entry, "page", "unknown"), Get(entry, "timestamp", "N/A"))
  }

  const TableRows: nat := 20

  /** The table of the last 20 entries, oldest first. */
  method SafeLogs(logs: seq<LogEntry>) returns (rows: seq<SafeLog>)
    ensures |rows| == if |logs| < TableRows then |logs| else TableRows
    ensures forall i :: 0 <= i < |rows| ==> rows[i] == SafeOf(logs[|logs| - |rows| + i])
  {
    var count := if |logs| < TableRows then |logs| else TableRows;
    var start := |logs| - count;
    rows := [];
    for k := 0 to count
      invariant |rows| == k
      invariant forall i :: 0 <= i < k ==> rows[i] == SafeOf(logs[start + i])
    {
      rows := rows + [SafeOf(logs[start + k])];
    }
  }

  /** `st.session_state.user_logs` */
  class ActivityLog {
    var entries: seq<LogEntry>

    /** The page creates an empty log when the session has none. */
    constructor ()
      ensures entries == []
    {
      entries := [];
    }

    /** The "Clear Logs" button. */
    method Clear()
      modifies this
      ensures entries == []
      ensures UniqueUsers(entries) == 0 && LastActivity(entries) == "No logs"
    {
      entries := [];
    }
  }
}
