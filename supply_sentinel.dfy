/** The command-line monitor: the watchman, analyst and dispatcher agents and one pass of
    the monitoring loop, with the generative model's answers as oracle input. */
module SupplySentinel {
  import opened Wrappers
  import opened PyText
  import opened Risk
  import opened AlertHistory
  import LoggingConfig

  // ---------------------------------------------------------------- watchman

  /** `watchman_agent`: the search text, or None when the call raised. A response whose
      `text` is None makes the following `split` raise inside the same `try`, so it is
      None too. */
  function Watchman(reply: SearchReply): (news: Option<string>)
    ensures news.Some? <==> reply.Answered? && reply.text.Some?
    ensures news.Some? ==> news.value == reply.text.value
  {
    match reply
    case Raised(_) => None
    case Answered(text) => text
  }

  predicate AllBlank(lines: seq<string>) {
    forall k :: 0 <= k < |lines| ==> IsBlank(lines[k])
  }

  /** How many of `lines` have a non-whitespace character. */
  function CountNonBlank(lines: seq<string>): (n: nat)
    ensures n <= |lines|
    ensures n == 0 <==> AllBlank(lines)
  {
    if lines == [] then 0
    else
      assert forall k :: 1 <= k < |lines| ==> lines[1..][k - 1] == lines[k];
      (if IsBlank(lines[0]) then 0 else 1) + CountNonBlank(lines[1..])
  }

  /** `len([line for line in result.split('\n') if line.strip()])`, the number of data
      points the watchman logs. */
  function ArticleCount(text: string): (n: nat)
    ensures n == 0 <==> IsBlank(text)
    ensures n <= CountChar(text, '\n') + 1
  {
    SplitLinesBlank(text);
    SplitJoin(text, '\n');
    CountNonBlank(Split(text, '\n'))
  }

  lemma BlankCons(c: char, s: string)
    ensures IsBlank([c] + s) <==> IsSpace(c) && IsBlank(s)
  {
    var p := [c] + s;
    if IsBlank(p) {
      assert IsSpace(p[0]);
      forall i | 0 <= i < |s| ensures IsSpace(s[i]) {
        assert p[i + 1] == s[i];
      }
    }
    if IsSpace(c) && IsBlank(s) {
      forall i | 0 <= i < |p| ensures IsSpace(p[i]) {
        if i > 0 {
          assert p[i] == s[i - 1];
        }
      }
    }
  }

  lemma AllBlankCons(x: string, xs: seq<string>)
    ensures AllBlank([x] + xs) <==> IsBlank(x) && AllBlank(xs)
  {
    var p := [x] + xs;
    assert p[0] == x;
    assert forall k :: 0 <= k < |xs| ==> p[k + 1] == xs[k];
    if IsBlank(x) && AllBlank(xs) {
      forall k | 0 <= k < |p| ensures IsBlank(p[k]) {
        if k > 0 {
          assert p[k] == xs[k - 1];
        }
      }
    }
  }

  /** Every piece of the split is blank exactly when the whole text is. */
  lemma {:induction false} SplitLinesBlank(text: string)
    ensures AllBlank(Split(text, '\n')) <==> IsBlank(text)
  {
    if text != [] {
      var rest := Split(text[1..], '\n');
      SplitLinesBlank(text[1..]);
      assert text == [text[0]] + text[1..];
      BlankCons(text[0], text[1..]);
      if text[0] == '\n' {
        AllBlankCons([], rest);
      } else {
        assert rest == [rest[0]] + rest[1..];
        AllBlankCons(rest[0], rest[1..]);
        AllBlankCons([text[0]] + rest[0], rest[1..]);
        BlankCons(text[0], rest[0]);
      }
    }
  }

  lemma {:induction false} CountNonBlankAppend(a: seq<string>, b: seq<string>)
    ensures CountNonBlank(a + b) == CountNonBlank(a) + CountNonBlank(b)
  {
    if a != [] {
      assert (a + b)[1..] == a[1..] + b;
      CountNonBlankAppend(a[1..], b);
    } else {
      assert a + b == b;
    }
  }

  /** Counting is line by line: joining two texts with a newline adds their counts. */
  lemma ArticleCountAround(a: string, b: string)
    ensures ArticleCount(a + "\n" + b) == ArticleCount(a) + ArticleCount(b)
  {
    SplitAround(a, b, '\n');
    assert a + "\n" + b == a + ['\n'] + b;
    CountNonBlankAppend(Split(a, '\n'), Split(b, '\n'));
  }

  // ---------------------------------------------------------------- analyst

  /** The threat level the analyst logs for a score it computed. */
  datatype Severity = NoData | Critical | Elevated | Normal

  /** The analyst's severity branches: 0 asks for a retry, the alert threshold and above is
      critical, 5 and above elevated, anything else normal. */
  function Classify(score: real): (s: Severity)
    ensures s == NoData <==> score == 0.0
    ensures s == Critical <==> IsCritical(score)
    ensures s == Elevated <==> 5.0 <= score < AlertThreshold
    ensures s == Normal <==> score != 0.0 && score < 5.0
  {
    if score == 0.0 then NoData
    else if score >= 7.0 then Critical
    else if score >= 5.0 then Elevated
    else Normal
  }

  /** The level of the analyst's log line for each severity. */
  function SeverityLevel(s: Severity): (l: LoggingConfig.Level)
    ensures l == LoggingConfig.Critical <==> s == Critical
    ensures l == LoggingConfig.Warning <==> s == NoData || s == Elevated
    ensures l == LoggingConfig.Info <==> s == Normal
  {
    match s
    case NoData => LoggingConfig.Warning
    case Critical => LoggingConfig.Critical
    case Elevated => LoggingConfig.Warning
    case Normal => LoggingConfig.Info
  }

  /** `analyst_agent`: no call is made, and None returned, for missing or empty search text;
      otherwise the parsed reply of the scoring call, None when that call or the parse
      failed. */
  function Analyst(news: Option<string>, scoring: Option<Assessment>): (r: Option<Assessment>)
    ensures news == None || news == Some("") ==> r == None
    ensures news.Some? && news.value != "" ==> r == scoring
  {
    if news == None || news.value == "" then None else scoring
  }

  /** The analysis of one dependency in a pass: watchman, then analyst. */
  function ItemRisk(replies: ItemReplies): Option<Assessment> {
    Analyst(Watchman(replies.search), replies.scoring)
  }

  /** A failed search never yields an assessment. */
  lemma FailedSearchNotScored(e: string, scoring: Option<Assessment>)
    ensures ItemRisk(ItemReplies(Raised(e), scoring)) == None
    ensures ItemRisk(ItemReplies(Answered(None), scoring)) == None
  {
  }

  // ---------------------------------------------------------------- dispatcher

  datatype Alert = Alert(material: string, location: string, score: real, reason: string)

  /** What one dispatcher call did: nothing to assess, a duplicate of today's alert, an alert
      raised, or a score below the threshold merely logged. */
  datatype DispatchOutcome = NoRisk | Suppressed | Alerted(alert: Alert) | Monitored(score: real)

  /** The decision `dispatcher_agent` takes for `risk` against the history `h`, `key` being
      the dependency's key for the day: its outcome, and the history afterwards. */
  function DispatchStep(h: set<string>, key: string, material: string, location: string, risk: Option<Assessment>)
    : (r: (DispatchOutcome, set<string>))
    ensures r.0 == NoRisk <==> !RiskPresent(risk)
    ensures r.0 == Suppressed <==> RiskPresent(risk) && key in h
    ensures r.0.Alerted? <==> CriticalRisk(risk) && key !in h
    ensures r.0.Alerted? ==> r.0.alert == Alert(material, location, risk.value.Score(), risk.value.Reason())
    ensures r.0.Monitored? <==> RiskPresent(risk) && key !in h && !IsCritical(risk.value.Score())
    ensures r.0.Monitored? ==> r.0.score == risk.value.Score()
    ensures r.1 == h + (if CriticalRisk(risk) then {key} else {})
  {
    if !RiskPresent(risk) then (NoRisk, h)
    else if key in h then (Suppressed, h)
    else if IsCritical(risk.value.Score()) then
      (Alerted(Alert(material, location, risk.value.Score(), risk.value.Reason())), h + {key})
    else (Monitored(risk.value.Score()), h)
  }

  // ---------------------------------------------------------------- one pass

  datatype CycleCounts = CycleCounts(safe: nat, critical: nat, skipped: nat)

  /** The statistics step of one loop iteration. */
  function CountItem(c: CycleCounts, risk: Option<Assessment>): CycleCounts {
    if RiskPresent(risk) then
      if IsCritical(risk.value.Score()) then c.(critical := c.critical + 1)
      else c.(safe := c.safe + 1)
    else c.(skipped := c.skipped + 1)
  }

  /** The counters after the first `n` dependencies of a pass: each lands in exactly one. */
  function Tally(risks: seq<Option<Assessment>>, n: nat): (c: CycleCounts)
    requires n <= |risks|
    ensures c.safe + c.critical + c.skipped == n
  {
    if n == 0 then CycleCounts(0, 0, 0) else CountItem(Tally(risks, n - 1), risks[n - 1])
  }

  lemma TallyNext(risks: seq<Option<Assessment>>, n: nat)
    requires n < |risks|
    ensures Tally(risks, n + 1) == CountItem(Tally(risks, n), risks[n])
  {
  }

  /** The analyses of a pass, one per dependency. */
  function Risks(replies: seq<ItemReplies>): (r: seq<Option<Assessment>>)
    ensures |r| == |replies|
  {
    if replies == [] then [] else Risks(replies[..|replies| - 1]) + [ItemRisk(replies[|replies| - 1])]
  }

  lemma {:induction false} RisksAt(replies: seq<ItemReplies>, i: int)
    requires 0 <= i < |replies|
    ensures Risks(replies)[i] == ItemRisk(replies[i])
  {
    var n := |replies| - 1;
    if i < n {
      RisksAt(replies[..n], i);
    }
  }

  /** The outcomes of the first `n` dispatches of a pass that starts from the history `h`,
      where dispatch `i` uses the key `keys[i]` and the analysis `risks[i]`, and the history
      they leave. */
  function Pass(h: set<string>, suppliers: seq<Dependency>, keys: seq<string>, risks: seq<Option<Assessment>>, n: nat)
    : (r: (seq<DispatchOutcome>, set<string>))
    requires n <= |suppliers| == |keys| == |risks|
    ensures |r.0| == n
  {
    if n == 0 then ([], h)
    else
      var p := Pass(h, suppliers, keys, risks, n - 1);
      var s := DispatchStep(p.1, keys[n - 1], suppliers[n - 1].material, suppliers[n - 1].location, risks[n - 1]);
      (p.0 + [s.0], s.1)
  }

  /** One more iteration of the loop: the dispatcher against the history so far. */
  lemma PassNext(h: set<string>, suppliers: seq<Dependency>, keys: seq<string>, risks: seq<Option<Assessment>>, n: nat,
                 o: DispatchOutcome, h': set<string>)
    requires n < |suppliers| == |keys| == |risks|
    requires (o, h') == DispatchStep(Pass(h, suppliers, keys, risks, n).1, keys[n], suppliers[n].material, suppliers[n].location, risks[n])
    ensures Pass(h, suppliers, keys, risks, n + 1).0 == Pass(h, suppliers, keys, risks, n).0 + [o]
    ensures Pass(h, suppliers, keys, risks, n + 1).1 == h'
  {
  }

  /** The keys of those of the first `n` dependencies whose analysis was critical. */
  function CriticalKeys(keys: seq<string>, risks: seq<Option<Assessment>>, n: nat): set<string>
    requires n <= |keys| == |risks|
  {
    if n == 0 then {}
    else CriticalKeys(keys, risks, n - 1) + (if CriticalRisk(risks[n - 1]) then {keys[n - 1]} else {})
  }

  /** Every critical dependency has its key among the pass's keys. */
  lemma {:induction false} CriticalKeyIn(keys: seq<string>, risks: seq<Option<Assessment>>, n: nat, i: int)
    requires n <= |keys| == |risks|
    requires 0 <= i < n && CriticalRisk(risks[i])
    ensures keys[i] in CriticalKeys(keys, risks, n)
  {
    if i < n - 1 {
      CriticalKeyIn(keys, risks, n - 1, i);
    }
  }

  /** A pass adds at most as many keys to the history as it counts critical scores: the
      critical counter also counts scores whose alert was suppressed. */
  lemma {:induction false} NewKeysAtMostCritical(keys: seq<string>, risks: seq<Option<Assessment>>, n: nat)
    requires n <= |keys| == |risks|
    ensures |CriticalKeys(keys, risks, n)| <= Tally(risks, n).critical
  {
    if n > 0 {
      NewKeysAtMostCritical(keys, risks, n - 1);
    }
  }

  /** A pass adds exactly the keys of its critical dependencies to the history. */
  lemma {:induction false} PassHistory(h: set<string>, suppliers: seq<Dependency>, keys: seq<string>, risks: seq<Option<Assessment>>, n: nat)
    requires n <= |suppliers| == |keys| == |risks|
    ensures Pass(h, suppliers, keys, risks, n).1 == h + CriticalKeys(keys, risks, n)
  {
    if n > 0 {
      PassHistory(h, suppliers, keys, risks, n - 1);
      SetUnionAssoc(h, CriticalKeys(keys, risks, n - 1), if CriticalRisk(risks[n - 1]) then {keys[n - 1]} else {});
    }
  }

  /** A longer pass begins with the outcomes of a shorter one. */
  lemma {:induction false} PassPrefix(h: set<string>, suppliers: seq<Dependency>, keys: seq<string>, risks: seq<Option<Assessment>>, j: nat, n: nat)
    requires j <= n <= |suppliers| == |keys| == |risks|
    ensures Pass(h, suppliers, keys, risks, n).0[..j] == Pass(h, suppliers, keys, risks, j).0
  {
    if j < n {
      PassPrefix(h, suppliers, keys, risks, j, n - 1);
      var p := Pass(h, suppliers, keys, risks, n - 1).0;
      assert Pass(h, suppliers, keys, risks, n).0[..j] == p[..j];
    }
  }

  /** Dispatch `j` of a pass decides against the starting history plus the keys of the
      critical dependencies before it. */
  lemma PassOutcome(h: set<string>, suppliers: seq<Dependency>, keys: seq<string>, risks: seq<Option<Assessment>>, n: nat, j: nat)
    requires j < n <= |suppliers| == |keys| == |risks|
    ensures Pass(h, suppliers, keys, risks, n).0[j]
      == DispatchStep(h + CriticalKeys(keys, risks, j), keys[j], suppliers[j].material, suppliers[j].location, risks[j]).0
  {
    PassPrefix(h, suppliers, keys, risks, j + 1, n);
    var o := Pass(h, suppliers, keys, risks, n).0;
    assert o[j] == o[..j + 1][j];
    PassHistory(h, suppliers, keys, risks, j);
  }

  /** Dispatch `j` alerts exactly when its analysis is critical and its key is neither in
      the starting history nor among the keys of the critical dependencies before it. */
  lemma PassAlerts(h: set<string>, suppliers: seq<Dependency>, keys: seq<string>, risks: seq<Option<Assessment>>, n: nat)
    requires n <= |suppliers| == |keys| == |risks|
    ensures forall j | 0 <= j < n ::
      Pass(h, suppliers, keys, risks, n).0[j].Alerted? <==> CriticalRisk(risks[j]) && keys[j] !in h + CriticalKeys(keys, risks, j)
  {
    forall j | 0 <= j < n
      ensures Pass(h, suppliers, keys, risks, n).0[j].Alerted? <==> CriticalRisk(risks[j]) && keys[j] !in h + CriticalKeys(keys, risks, j)
    {
      PassOutcome(h, suppliers, keys, risks, n, j);
    }
  }

  /** How many of the outcomes raised an alert. */
  function AlertCount(outcomes: seq<DispatchOutcome>): (n: nat)
    ensures n <= |outcomes|
  {
    if outcomes == [] then 0
    else AlertCount(outcomes[..|outcomes| - 1]) + (if outcomes[|outcomes| - 1].Alerted? then 1 else 0)
  }

  lemma AlertCountAppend(outcomes: seq<DispatchOutcome>, o: DispatchOutcome)
    ensures AlertCount(outcomes + [o]) == AlertCount(outcomes) + (if o.Alerted? then 1 else 0)
  {
    assert (outcomes + [o])[..|outcomes|] == outcomes;
  }

  /** A pass that raised no alert leaves the history as it found it. */
  lemma {:induction false} PassNoAlert(h: set<string>, suppliers: seq<Dependency>, keys: seq<string>, risks: seq<Option<Assessment>>, n: nat)
    requires n <= |suppliers| == |keys| == |risks|
    ensures AlertCount(Pass(h, suppliers, keys, risks, n).0) == 0 ==> Pass(h, suppliers, keys, risks, n).1 == h
  {
    if n > 0 {
      PassNoAlert(h, suppliers, keys, risks, n - 1);
      var p := Pass(h, suppliers, keys, risks, n - 1);
      var s := DispatchStep(p.1, keys[n - 1], suppliers[n - 1].material, suppliers[n - 1].location, risks[n - 1]);
      AlertCountAppend(p.0, s.0);
    }
  }

  /** A dependency dispatched again under a key that already had a critical analysis, and
      itself analysed, had its alert suppressed; in particular the same pair on the same
      day. */
  ghost predicate SuppressesRepeats(keys: seq<string>, risks: seq<Option<Assessment>>, outcomes: seq<DispatchOutcome>)
    requires |outcomes| <= |keys| == |risks|
  {
    forall i, j ::
      (0 <= i < j < |outcomes| && keys[i] == keys[j] && CriticalRisk(risks[i]) && RiskPresent(risks[j]))
      ==> outcomes[j] == Suppressed
  }

  lemma PassSuppressesRepeats(h: set<string>, suppliers: seq<Dependency>, keys: seq<string>, risks: seq<Option<Assessment>>, n: nat)
    requires n <= |suppliers| == |keys| == |risks|
    ensures SuppressesRepeats(keys, risks, Pass(h, suppliers, keys, risks, n).0)
  {
    var o := Pass(h, suppliers, keys, risks, n).0;
    forall i, j | 0 <= i < j < n && keys[i] == keys[j] && CriticalRisk(risks[i]) && RiskPresent(risks[j])
      ensures o[j] == Suppressed
    {
      PassOutcome(h, suppliers, keys, risks, n, j);
      CriticalKeyIn(keys, risks, j, i);
    }
  }

  /** `SupplySentinel`: the alert history in memory and the file that backs it. */
  class Sentinel {
    var alertHistory: set<string>
    var historyFile: HistoryFile

    /** The file always reloads as the set: every change to the set is saved at once. */
    ghost predicate Valid()
      reads this
    {
      LoadHistory(historyFile) == alertHistory
    }

    constructor (file: HistoryFile)
      ensures Valid()
      ensures alertHistory == LoadHistory(file) && historyFile == file
    {
      alertHistory := LoadHistory(file);
      historyFile := file;
    }

    /** `_save_history`: the file is rewritten with the set's keys, each once. */
    method SaveHistory()
      modifies this`historyFile
      ensures Valid()
      ensures historyFile.Listed? && |historyFile.keys| == |alertHistory|
    {
      var keys := ListKeys(alertHistory);
      historyFile := Listed(keys);
    }

    /** `dispatcher_agent` on the day `today`; the file is rewritten only for an alert. */
    method Dispatch(material: string, location: string, risk: Option<Assessment>, today: Date)
      returns (o: DispatchOutcome)
      requires Valid()
      modifies this
      ensures Valid()
      ensures o == DispatchStep(old(alertHistory), AlertKey(material, location, today), material, location, risk).0
      ensures alertHistory == DispatchStep(old(alertHistory), AlertKey(material, location, today), material, location, risk).1
      ensures o.Alerted? ==> historyFile.Listed? && |historyFile.keys| == |alertHistory|
      ensures !o.Alerted? ==> historyFile == old(historyFile)
    {
      if !RiskPresent(risk) {
        return NoRisk;
      }
      var score := risk.value.Score();
      var reason := risk.value.Reason();
      var alertId := AlertKey(material, location, today);
      if alertId in alertHistory {
        return Suppressed;
      }
      if IsCritical(score) {
        alertHistory := alertHistory + {alertId};
        SaveHistory();
        o := Alerted(Alert(material, location, score, reason));
      } else {
        o := Monitored(score);
      }
    }

    /** Two same-day calls for one critical dependency: one key is added, and the second
        call is suppressed. */
    method DispatchTwice(material: string, location: string, risk: Option<Assessment>, today: Date)
      returns (first: DispatchOutcome, second: DispatchOutcome)
      requires CriticalRisk(risk) && Valid()
      modifies this
      ensures Valid()
      ensures first.Alerted? <==> AlertKey(material, location, today) !in old(alertHistory)
      ensures second == Suppressed
      ensures alertHistory == old(alertHistory) + {AlertKey(material, location, today)}
    {
      first := Dispatch(material, location, risk, today);
      second := Dispatch(material, location, risk, today);
    }

    /** One pass of `run_loop` over the configured dependencies: watchman, analyst and
        dispatcher per item, and the safe/critical/skipped statistics. Dispatch `i` reads
        the clock as `days[i]`. */
    method RunCycle(suppliers: seq<Dependency>, replies: seq<ItemReplies>, days: seq<Date>)
      returns (counts: CycleCounts, outcomes: seq<DispatchOutcome>)
      requires |replies| == |suppliers| == |days| && Valid()
      modifies this
      ensures Valid()
      ensures counts == Tally(Risks(replies), |suppliers|)
      ensures counts.safe + counts.critical + counts.skipped == |suppliers|
      ensures outcomes == Pass(old(alertHistory), suppliers, Keys(suppliers, days), Risks(replies), |suppliers|).0
      ensures alertHistory == Pass(old(alertHistory), suppliers, Keys(suppliers, days), Risks(replies), |suppliers|).1
      ensures alertHistory == old(alertHistory) + CriticalKeys(Keys(suppliers, days), Risks(replies), |suppliers|)
      ensures forall j | 0 <= j < |outcomes| ::
        outcomes[j].Alerted? <==>
          CriticalRisk(Risks(replies)[j])
          && Keys(suppliers, days)[j] !in old(alertHistory) + CriticalKeys(Keys(suppliers, days), Risks(replies), j)
      ensures SuppressesRepeats(Keys(suppliers, days), Risks(replies), outcomes)
      ensures AlertCount(outcomes) == 0 ==> historyFile == old(historyFile)
    {
      ghost var h0 := alertHistory;
      ghost var keys := Keys(suppliers, days);
      ghost var risks := Risks(replies);
      var safeCount, criticalCount, skippedCount := 0, 0, 0;
      outcomes := [];
      var n := 0;
      while n < |suppliers|
        invariant 0 <= n <= |suppliers| && Valid()
        invariant CycleCounts(safeCount, criticalCount, skippedCount) == Tally(risks, n)
        invariant outcomes == Pass(h0, suppliers, keys, risks, n).0
        invariant alertHistory == Pass(h0, suppliers, keys, risks, n).1
        invariant AlertCount(outcomes) == 0 ==> historyFile == old(historyFile)
      {
        var item := suppliers[n];
        KeysAt(suppliers, days, n);
        RisksAt(replies, n);
        var news := Watchman(replies[n].search);
        var riskAnalysis := Analyst(news, replies[n].scoring);
        var o := Dispatch(item.material, item.location, riskAnalysis, days[n]);
        PassNext(h0, suppliers, keys, risks, n, o, alertHistory);
        TallyNext(risks, n);
        if RiskPresent(riskAnalysis) {
          if IsCritical(riskAnalysis.value.Score()) {
            criticalCount := criticalCount + 1;
          } else {
            safeCount := safeCount + 1;
          }
        } else {
          skippedCount := skippedCount + 1;
        }
        AlertCountAppend(outcomes, o);
        outcomes := outcomes + [o];
        n := n + 1;
      }
      counts := CycleCounts(safeCount, criticalCount, skippedCount);
      PassHistory(h0, suppliers, keys, risks, n);
      PassSuppressesRepeats(h0, suppliers, keys, risks, n);
      PassAlerts(h0, suppliers, keys, risks, n);
    }

    /** `run_loop(debug_mode=True)`: without a dependency list nothing runs; otherwise
        exactly one pass. */
    method RunDebug(suppliersFile: Option<seq<Dependency>>, replies: seq<ItemReplies>, days: seq<Date>)
      returns (counts: Option<CycleCounts>, outcomes: seq<DispatchOutcome>)
      requires suppliersFile.Some? ==> |replies| == |suppliersFile.value| == |days|
      requires Valid()
      modifies this
      ensures Valid()
      ensures suppliersFile == None ==>
        counts == None && outcomes == [] && alertHistory == old(alertHistory) && historyFile == old(historyFile)
      ensures suppliersFile.Some? ==>
        && counts == Some(Tally(Risks(replies), |replies|))
        && outcomes == Pass(old(alertHistory), suppliersFile.value, Keys(suppliersFile.value, days), Risks(replies), |replies|).0
        && alertHistory == Pass(old(alertHistory), suppliersFile.value, Keys(suppliersFile.value, days), Risks(replies), |replies|).1
        && alertHistory == old(alertHistory) + CriticalKeys(Keys(suppliersFile.value, days), Risks(replies), |replies|)
        && (AlertCount(outcomes) == 0 ==> historyFile == old(historyFile))
    {
      if suppliersFile == None {
        return None, [];
      }
      var c;
      c, outcomes := RunCycle(suppliersFile.value, replies, days);
      counts := Some(c);
    }
  }
}
