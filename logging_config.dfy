/** The in-memory log view: a bounded buffer of the last 500 log entries, meant for a web
    view of the logs and filled by the handler that only `setup_logging("streamlit")`
    installs (the command-line monitor asks for `"cli"`, and the web front end does not call
    it), and the naming scheme of the agent loggers. */
module LoggingConfig {
  import opened PyText
  import opened PySlice

  /** `deque(maxlen=500)` */
  const BufferCapacity: nat := 500

  /** The default `limit` of `get_recent_logs`. */
  const DefaultLogLimit: int := 100

  datatype Level = Debug | Info | Warning | Error | Critical

  /** `record.levelname` */
  function LevelName(l: Level): string {
    match l
    case Debug => "DEBUG"
    case Info => "INFO"
    case Warning => "WARNING"
    case Error => "ERROR"
    case Critical => "CRITICAL"
  }

  /** The parts of a `logging.LogRecord` the handler reads; `created` is its epoch time. */
  datatype LogRecord = LogRecord(name: string, level: Level, message: string, created: real)

  /** One buffered entry; `fullText` is the record as the handler's formatter renders it. */
  datatype LogEntry = LogEntry(timestamp: real, level: string, agent: string, message: string, fullText: string)

  /** `get_agent_logger(agent_name)` returns the logger with this name. */
  function AgentLoggerName(agentName: string): (r: string)
    ensures |r| == |agentName| + 6
    ensures r[..6] == "Agent." && r[6..] == agentName
  {
    "Agent." + agentName
  }

  /** The `agent` column: the logger name with every `"Agent."` removed. A name without
      that part, such as the root logger's, is shown as it is. */
  function AgentLabel(loggerName: string): (r: string)
    ensures |r| <= |loggerName|
    ensures !Contains(loggerName, "Agent.") ==> r == loggerName
  {
    if Contains(loggerName, "Agent.") then RemoveAll(loggerName, "Agent.")
    else RemoveAllAbsent(loggerName, "Agent."); RemoveAll(loggerName, "Agent.")
  }

  /** An agent name without a dot is shown exactly as it was given to `get_agent_logger`. */
  lemma AgentLabelOfAgentLogger(agentName: string)
    requires '.' !in agentName
    ensures AgentLabel(AgentLoggerName(agentName)) == agentName
  {
    var pat := "Agent.";
    assert AgentLoggerName(agentName)[..|pat|] == pat;
    assert AgentLoggerName(agentName)[|pat|..] == agentName;
    MissingCharNotContained(agentName, pat, '.');
    RemoveAllAbsent(agentName, pat);
  }

  /** The four loggers the monitor creates are labelled by their agent names. */
  lemma AgentLoggersLabels()
    ensures AgentLabel(AgentLoggerName("Config")) == "Config"
    ensures AgentLabel(AgentLoggerName("Watchman")) == "Watchman"
    ensures AgentLabel(AgentLoggerName("Analyst")) == "Analyst"
    ensures AgentLabel(AgentLoggerName("Dispatcher")) == "Dispatcher"
  {
    AgentLabelOfAgentLogger("Config");
    AgentLabelOfAgentLogger("Watchman");
    AgentLabelOfAgentLogger("Analyst");
    AgentLabelOfAgentLogger("Dispatcher");
  }

  /** The module-level `_log_buffer` and the functions that act on it. */
  class LogBuffer {
    var entries: seq<LogEntry>

    ghost predicate Valid()
      reads this
    {
      |entries| <= BufferCapacity
    }

    constructor ()
      ensures Valid() && entries == []
    {
      entries := [];
    }

    /** `StreamlitLogHandler.emit`: one entry built from the record is appended; when the
        buffer is full its oldest entry is dropped. */
    method Emit(record: LogRecord, fullText: string)
      requires Valid()
      modifies this
      ensures Valid()
      ensures var e := LogEntry(record.created, LevelName(record.level), AgentLabel(record.name), record.message, fullText);
        && entries == LastN(old(entries) + [e], BufferCapacity)
        && (|old(entries)| < BufferCapacity ==> entries == old(entries) + [e])
        && (|old(entries)| == BufferCapacity ==> entries == old(entries)[1..] + [e])
        && entries[|entries| - 1] == e
    {
      var e := LogEntry(record.created, LevelName(record.level), AgentLabel(record.name), record.message, fullText);
      LastNAfterAppend(entries, e, BufferCapacity);
      if |entries| == BufferCapacity {
        entries := entries[1..] + [e];
      } else {
        entries := entries + [e];
      }
    }

    /** `get_recent_logs(limit)`: `list(_log_buffer)[-limit:]`, read only. */
    function GetRecentLogs(limit: int := DefaultLogLimit): (r: seq<LogEntry>)
      reads this
      ensures limit >= 1 ==> r == LastN(entries, limit) && |r| == Min(limit, |entries|)
      ensures limit >= 1 ==> r == entries[|entries| - Min(limit, |entries|)..]
      ensures limit == 0 ==> r == entries
      ensures limit < 0 ==> r == entries[Min(-limit, |entries|)..]
    {
      if limit >= 1 then LastNIsSuffix(entries, limit); Tail(entries, limit) else Tail(entries, limit)
    }

    /** `clear_log_buffer` */
    method Clear()
      modifies this
      ensures Valid() && entries == []
    {
      entries := [];
    }
  }
}
