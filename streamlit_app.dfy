/** The web front end's monitor: `check_item` decides before any model call whether the
    dependency was already alerted today, and the main loop counts safe and critical
    results. The generative model's answers are oracle input. */
module StreamlitApp {
  import opened Wrappers
  import opened PyText
  import opened Risk
  import opened AlertHistory

  const SearchErrorPrefix: string := "Search error: "

  /** `watchman_agent`: the response text, or an error sentinel string when the call raised. */
  function Watchman(reply: SearchReply): (news: Option<string>)
    ensures reply.Raised? ==> news == Some(SearchErrorPrefix + reply.error)
    ensures reply.Answered? ==> news == reply.text
  {
    match reply
    case Raised(e) => Some(SearchErrorPrefix + e)
    case Answered(text) => text
  }

  /** The input guard of `analyst_agent`: present, non-empty, and no "error" in any case. */
  predicate Scorable(news: Option<string>) {
    news.Some? && news.value != "" && !Contains(Lower(news.value), "error")
  }

  /** `analyst_agent`: None without a model call for rejected input; otherwise the parsed
      reply of the scoring call, None when that call or the parse failed. */
  function Analyst(news: Option<string>, scoring: Option<Assessment>): (r: Option<Assessment>)
    ensures !Scorable(news) ==> r == None
    ensures Scorable(news) ==> r == scoring
  {
    if news == None || news.value == "" || Contains(Lower(news.value), "error") then None
    else scoring
  }

  function ItemRisk(replies: ItemReplies): Option<Assessment> {
    Analyst(Watchman(replies.search), replies.scoring)
  }

  /** Lower-casing keeps an occurrence in place. */
  lemma LowerOccurs(s: string, pat: string, i: int)
    requires OccursAt(s, pat, i)
    ensures OccursAt(Lower(s), Lower(pat), i)
  {
    assert Lower(s)[i..i + |pat|] == Lower(pat);
  }

  /** Any spelling of "error" (ERROR, Error, ...) in the text keeps it from being scored. */
  lemma ErrorInAnyCaseRejected(s: string, pat: string, i: int)
    requires OccursAt(s, pat, i) && Lower(pat) == "error"
    ensures !Scorable(Some(s))
  {
    LowerOccurs(s, pat, i);
  }

  /** The watchman's error sentinel is never scored, so a failed search never alerts. */
  lemma SearchErrorNeverScored(e: string, scoring: Option<Assessment>)
    ensures ItemRisk(ItemReplies(Raised(e), scoring)) == None
  {
    var s := SearchErrorPrefix + e;
    assert s[7..12] == "error";
    assert OccursAt(Lower(s), "error", 7) by {
      LowerOccurs(s, "error", 7);
    }
  }

  datatype Status = Skipped | Safe | Critical

  /** The dictionary `check_item` returns; absent keys are None. For a skipped dependency
      the score is absent; for a missing assessment it is 0 and there is no reason. */
  datatype CheckResult = CheckResult(
    material: string,
    location: string,
    status: Status,
    score: Option<real>,
    reason: Option<string>,
    message: Option<string>)

  /** What `check_item` decides for one dependency against the history `h`, given today's
      key `key` and what the analyst would return, `risk`: its result, and the history
      afterwards. The assessment is only looked at when the key is new. */
  function CheckOutcome(h: set<string>, key: string, material: string, location: string, risk: Option<Assessment>)
    : (r: (CheckResult, set<string>))
    ensures r.0.material == material && r.0.location == location
    ensures r.0.status == Skipped <==> key in h
    ensures r.0.status == Critical <==> key !in h && CriticalRisk(risk)
    ensures r.1 == h + (if r.0.status == Critical then {key} else {})
    ensures key in h ==> r.0 == CheckResult(material, location, Skipped, None, None, Some("Already assessed today"))
    ensures key !in h && !RiskPresent(risk) ==>
      r.0 == CheckResult(material, location, Safe, Some(0.0), None, Some("No significant risks detected"))
    ensures key !in h && RiskPresent(risk) ==>
      r.0.score == Some(risk.value.Score()) && r.0.reason == Some(risk.value.Reason()) && r.0.message == None
  {
    if key in h then (CheckResult(material, location, Skipped, None, None, Some("Already assessed today")), h)
    else if !RiskPresent(risk) then
      (CheckResult(material, location, Safe, Some(0.0), None, Some("No significant risks detected")), h)
    else if IsCritical(risk.value.Score()) then
      (CheckResult(material, location, Critical, Some(risk.value.Score()), Some(risk.value.Reason()), None), h + {key})
    else
      (CheckResult(material, location, Safe, Some(risk.value.Score()), Some(risk.value.Reason()), None), h)
  }

  /** What the analyst would return for each dependency of a run. */
  function Risks(replies: seq<ItemReplies>): (r: seq<Option<Assessment>>)
    ensures |r| == |replies|
  {
    if replies == [] then [] else Risks(replies[..|replies| - 1]) + [ItemRisk(replies[|replies| - 1])]
  }

  lemma {:induction false} RisksAt(replies: seq<ItemReplies>, i: int)
    requires 0 <= i < |replies|
    ensures Risks(replies)[i] == ItemRisk(replies[i])
  {
    var n := |replies| - 1;
    if i < n {
      RisksAt(replies[..n], i);
    }
  }

  /** The results follow the dependencies they were computed for. */
  ghost predicate Aligned(suppliers: seq<Dependency>, results: seq<CheckResult>) {
    |results| <= |suppliers|
    && forall i :: 0 <= i < |results| ==>
      results[i].material == suppliers[i].material && results[i].location == suppliers[i].location
  }

  /** The results of the first `n` checks of `main`'s loop from the history `h`, where check
      `i` uses the key `keys[i]` and the assessment `risks[i]`, and the history they leave. */
  function CheckAll(h: set<string>, suppliers: seq<Dependency>, keys: seq<string>, risks: seq<Option<Assessment>>, n: nat)
    : (r: (seq<CheckResult>, set<string>))
    requires n <= |suppliers| == |keys| == |risks|
    ensures |r.0| == n
  {
    if n == 0 then ([], h)
    else
      var p := CheckAll(h, suppliers, keys, risks, n - 1);
      var c := CheckOutcome(p.1, keys[n - 1], suppliers[n - 1].material, suppliers[n - 1].location, risks[n - 1]);
      (p.0 + [c.0], c.1)
  }

  /** Result `i` is about dependency `i`. */
  lemma {:induction false} CheckAllAligned(h: set<string>, suppliers: seq<Dependency>, keys: seq<string>, risks: seq<Option<Assessment>>, n: nat)
    requires n <= |suppliers| == |keys| == |risks|
    ensures Aligned(suppliers, CheckAll(h, suppliers, keys, risks, n).0)
  {
    if n > 0 {
      CheckAllAligned(h, suppliers, keys, risks, n - 1);
      var p := CheckAll(h, suppliers, keys, risks, n - 1).0;
      var r := CheckAll(h, suppliers, keys, risks, n).0;
      assert forall i | 0 <= i < n - 1 :: r[i] == p[i];
    }
  }

  /** One more iteration of the loop: `check_item` against the history so far. */
  lemma CheckAllNext(h: set<string>, suppliers: seq<Dependency>, keys: seq<string>, risks: seq<Option<Assessment>>, n: nat,
                     r: CheckResult, h': set<string>)
    requires n < |suppliers| == |keys| == |risks|
    requires (r, h') == CheckOutcome(CheckAll(h, suppliers, keys, risks, n).1, keys[n], suppliers[n].material, suppliers[n].location, risks[n])
    ensures CheckAll(h, suppliers, keys, risks, n + 1).0 == CheckAll(h, suppliers, keys, risks, n).0 + [r]
    ensures CheckAll(h, suppliers, keys, risks, n + 1).1 == h'
  {
  }

  /** How many results have status `st`. */
  function CountStatus(results: seq<CheckResult>, st: Status): (n: nat)
    ensures n <= |results|
  {
    if results == [] then 0
    else CountStatus(results[..|results| - 1], st) + (if results[|results| - 1].status == st then 1 else 0)
  }

  /** One more result adds one to its own status count and nothing to the others. */
  lemma CountStatusAppend(results: seq<CheckResult>, r: CheckResult, st: Status)
    ensures CountStatus(results + [r], st) == CountStatus(results, st) + (if r.status == st then 1 else 0)
  {
    assert (results + [r])[..|results|] == results;
  }

  /** Every result has exactly one of the three statuses. */
  lemma {:induction false} StatusCountsPartition(results: seq<CheckResult>)
    ensures CountStatus(results, Skipped) + CountStatus(results, Safe) + CountStatus(results, Critical) == |results|
  {
    if results != [] {
      StatusCountsPartition(results[..|results| - 1]);
    }
  }

  /** The keys of the critical results; result `i` was computed under `keys[i]`. */
  function AlertedKeys(keys: seq<string>, results: seq<CheckResult>): set<string>
    requires |results| <= |keys|
  {
    if results == [] then {}
    else
      var n := |results| - 1;
      AlertedKeys(keys, results[..n]) + (if results[n].status == Critical then {keys[n]} else {})
  }

  lemma {:induction false} AlertedKeyIn(keys: seq<string>, results: seq<CheckResult>, i: int)
    requires |results| <= |keys|
    requires 0 <= i < |results| && results[i].status == Critical
    ensures keys[i] in AlertedKeys(keys, results)
  {
    var n := |results| - 1;
    if i < n {
      assert results[..n][i] == results[i];
      AlertedKeyIn(keys, results[..n], i);
    }
  }

  /** The loop adds exactly the keys of its critical results to the history. */
  lemma {:induction false} CheckAllHistory(h: set<string>, suppliers: seq<Dependency>, keys: seq<string>, risks: seq<Option<Assessment>>, n: nat)
    requires n <= |suppliers| == |keys| == |risks|
    ensures var r := CheckAll(h, suppliers, keys, risks, n); r.1 == h + AlertedKeys(keys, r.0)
  {
    if n > 0 {
      CheckAllHistory(h, suppliers, keys, risks, n - 1);
      var p := CheckAll(h, suppliers, keys, risks, n - 1);
      var r := CheckAll(h, suppliers, keys, risks, n);
      assert r.0[..n - 1] == p.0;
      SetUnionAssoc(h, AlertedKeys(keys, p.0), if r.0[n - 1].status == Critical then {keys[n - 1]} else {});
    }
  }

  /** A loop without a critical result leaves the history as it found it. */
  lemma {:induction false} CheckAllNoCritical(h: set<string>, suppliers: seq<Dependency>, keys: seq<string>, risks: seq<Option<Assessment>>, n: nat)
    requires n <= |suppliers| == |keys| == |risks|
    ensures CountStatus(CheckAll(h, suppliers, keys, risks, n).0, Critical) == 0 ==> CheckAll(h, suppliers, keys, risks, n).1 == h
  {
    if n > 0 {
      CheckAllNoCritical(h, suppliers, keys, risks, n - 1);
      var p := CheckAll(h, suppliers, keys, risks, n - 1);
      var c := CheckOutcome(p.1, keys[n - 1], suppliers[n - 1].material, suppliers[n - 1].location, risks[n - 1]);
      CountStatusAppend(p.0, c.0, Critical);
    }
  }

  /** A longer loop begins with the results of a shorter one. */
  lemma {:induction false} CheckAllPrefix(h: set<string>, suppliers: seq<Dependency>, keys: seq<string>, risks: seq<Option<Assessment>>, j: nat, n: nat)
    requires j <= n <= |suppliers| == |keys| == |risks|
    ensures CheckAll(h, suppliers, keys, risks, n).0[..j] == CheckAll(h, suppliers, keys, risks, j).0
  {
    if j < n {
      CheckAllPrefix(h, suppliers, keys, risks, j, n - 1);
      var p := CheckAll(h, suppliers, keys, risks, n - 1).0;
      assert CheckAll(h, suppliers, keys, risks, n).0[..j] == p[..j];
    }
  }

  /** Result `j` is `check_item` against the starting history plus the keys of the critical
      results before it. */
  lemma CheckAllResult(h: set<string>, suppliers: seq<Dependency>, keys: seq<string>, risks: seq<Option<Assessment>>, n: nat, j: nat)
    requires j < n <= |suppliers| == |keys| == |risks|
    ensures var results := CheckAll(h, suppliers, keys, risks, n).0;
      results[j] == CheckOutcome(h + AlertedKeys(keys, results[..j]), keys[j], suppliers[j].material, suppliers[j].location, risks[j]).0
  {
    var results := CheckAll(h, suppliers, keys, risks, n).0;
    CheckAllPrefix(h, suppliers, keys, risks, j, n);
    CheckAllPrefix(h, suppliers, keys, risks, j + 1, n);
    assert results[j] == results[..j + 1][j];
    CheckAllHistory(h, suppliers, keys, risks, j);
  }

  /** Every result of the loop, as `CheckAllResult` states it for one. */
  lemma CheckAllResults(h: set<string>, suppliers: seq<Dependency>, keys: seq<string>, risks: seq<Option<Assessment>>, n: nat)
    requires n <= |suppliers| == |keys| == |risks|
    ensures var results := CheckAll(h, suppliers, keys, risks, n).0;
      forall j | 0 <= j < n ::
        results[j] == CheckOutcome(h + AlertedKeys(keys, results[..j]), keys[j], suppliers[j].material, suppliers[j].location, risks[j]).0
  {
    var results := CheckAll(h, suppliers, keys, risks, n).0;
    forall j | 0 <= j < n
      ensures results[j] == CheckOutcome(h + AlertedKeys(keys, results[..j]), keys[j], suppliers[j].material, suppliers[j].location, risks[j]).0
    {
      CheckAllResult(h, suppliers, keys, risks, n, j);
    }
  }

  /** A dependency checked again under a key that already produced a critical result is
      skipped; in particular the same pair on the same day. */
  ghost predicate SkipsRepeats(keys: seq<string>, results: seq<CheckResult>)
    requires |results| <= |keys|
  {
    forall i, j ::
      (0 <= i < j < |results| && keys[i] == keys[j] && results[i].status == Critical) ==> results[j].status == Skipped
  }

  lemma CheckAllSkipsRepeats(h: set<string>, suppliers: seq<Dependency>, keys: seq<string>, risks: seq<Option<Assessment>>, n: nat)
    requires n <= |suppliers| == |keys| == |risks|
    ensures SkipsRepeats(keys, CheckAll(h, suppliers, keys, risks, n).0)
  {
    var results := CheckAll(h, suppliers, keys, risks, n).0;
    forall i, j | 0 <= i < j < n && keys[i] == keys[j] && results[i].status == Critical
      ensures results[j].status == Skipped
    {
      CheckAllResult(h, suppliers, keys, risks, n, j);
      assert results[..j][i] == results[i];
      AlertedKeyIn(keys, results[..j], i);
    }
  }

  /** `StreamlitSentinel`: the alert history in memory and the file that backs it. */
  class StreamlitSentinel {
    var alertHistory: set<string>
    var historyFile: HistoryFile

    /** The file always reloads as the set: every change to the set is saved at once. */
    ghost predicate Valid()
      reads this
    {
      LoadHistory(historyFile) == alertHistory
    }

    constructor (file: HistoryFile)
      ensures Valid()
      ensures alertHistory == LoadHistory(file) && historyFile == file
    {
      alertHistory := LoadHistory(file);
      historyFile := file;
    }

    /** `_save_history`: the file is rewritten with the set's keys, each once. */
    method SaveHistory()
      modifies this`historyFile
      ensures Valid()
      ensures historyFile.Listed? && |historyFile.keys| == |alertHistory|
    {
      var keys := ListKeys(alertHistory);
      historyFile := Listed(keys);
    }

    /** `check_item` for one dependency on the day `today`; `replies` are what the search and
        scoring calls would answer, and are not consulted for a skipped dependency. The file
        is rewritten only for a critical result. */
    method CheckItem(material: string, location: string, replies: ItemReplies, today: Date)
      returns (r: CheckResult)
      requires Valid()
      modifies this
      ensures Valid()
      ensures r == CheckOutcome(old(alertHistory), AlertKey(material, location, today), material, location, ItemRisk(replies)).0
      ensures alertHistory == CheckOutcome(old(alertHistory), AlertKey(material, location, today), material, location, ItemRisk(replies)).1
      ensures r.status == Critical ==> historyFile.Listed? && |historyFile.keys| == |alertHistory|
      ensures r.status != Critical ==> historyFile == old(historyFile)
    {
      var alertId := AlertKey(material, location, today);
      if alertId in alertHistory {
        return CheckResult(material, location, Skipped, None, None, Some("Already assessed today"));
      }
      var news := Watchman(replies.search);
      var riskData := Analyst(news, replies.scoring);
      if !RiskPresent(riskData) {
        return CheckResult(material, location, Safe, Some(0.0), None, Some("No significant risks detected"));
      }
      var score := riskData.value.Score();
      var reason := riskData.value.Reason();
      if IsCritical(score) {
        alertHistory := alertHistory + {alertId};
        SaveHistory();
        r := CheckResult(material, location, Critical, Some(score), Some(reason), None);
      } else {
        r := CheckResult(material, location, Safe, Some(score), Some(reason), None);
      }
    }

    /** A critical result is followed, on the same day, by a skipped one for the same pair,
        whatever the model would answer the second time. */
    method CheckTwice(material: string, location: string, first: ItemReplies, second: ItemReplies, today: Date)
      returns (r1: CheckResult, r2: CheckResult)
      requires Valid()
      modifies this
      ensures Valid()
      ensures r1.status == Critical ==> r2.status == Skipped
      ensures r1.status == Critical ==> alertHistory == old(alertHistory) + {AlertKey(material, location, today)}
    {
      r1 := CheckItem(material, location, first, today);
      r2 := CheckItem(material, location, second, today);
    }

    /** The loop of `main` over the dependencies with its safe and critical counters; a
        skipped result changes neither. Check `i` reads the clock as `days[i]`. */
    method RunChecks(suppliers: seq<Dependency>, replies: seq<ItemReplies>, days: seq<Date>)
      returns (results: seq<CheckResult>, safeCount: nat, criticalCount: nat)
      requires |replies| == |suppliers| == |days| && Valid()
      modifies this
      ensures Valid()
      ensures results == CheckAll(old(alertHistory), suppliers, Keys(suppliers, days), Risks(replies), |suppliers|).0
      ensures alertHistory == CheckAll(old(alertHistory), suppliers, Keys(suppliers, days), Risks(replies), |suppliers|).1
      ensures |results| == |suppliers|
      ensures safeCount == CountStatus(results, Safe) && criticalCount == CountStatus(results, Critical)
      ensures safeCount + criticalCount + CountStatus(results, Skipped) == |suppliers|
      ensures alertHistory == old(alertHistory) + AlertedKeys(Keys(suppliers, days), results)
      ensures forall j | 0 <= j < |results| ::
        results[j] == CheckOutcome(old(alertHistory) + AlertedKeys(Keys(suppliers, days), results[..j]),
                                   Keys(suppliers, days)[j], suppliers[j].material, suppliers[j].location, Risks(replies)[j]).0
      ensures SkipsRepeats(Keys(suppliers, days), results)
      ensures criticalCount == 0 ==> historyFile == old(historyFile)
    {
      ghost var h0 := alertHistory;
      ghost var keys := Keys(suppliers, days);
      ghost var risks := Risks(replies);
      results := [];
      safeCount, criticalCount := 0, 0;
      var n := 0;
      while n < |suppliers|
        invariant 0 <= n <= |suppliers| && Valid()
        invariant results == CheckAll(h0, suppliers, keys, risks, n).0
        invariant alertHistory == CheckAll(h0, suppliers, keys, risks, n).1
        invariant safeCount == CountStatus(results, Safe) && criticalCount == CountStatus(results, Critical)
        invariant criticalCount == 0 ==> historyFile == old(historyFile)
      {
        var item := suppliers[n];
        KeysAt(suppliers, days, n);
        RisksAt(replies, n);
        var result := CheckItem(item.material, item.location, replies[n], days[n]);
        CheckAllNext(h0, suppliers, keys, risks, n, result, alertHistory);
        if result.status == Critical {
          criticalCount := criticalCount + 1;
        } else if result.status == Safe {
          safeCount := safeCount + 1;
        }
        CountStatusAppend(results, result, Safe);
        CountStatusAppend(results, result, Critical);
        results := results + [result];
        n := n + 1;
      }
      StatusCountsPartition(results);
      CheckAllHistory(h0, suppliers, keys, risks, n);
      CheckAllSkipsRepeats(h0, suppliers, keys, risks, n);
      CheckAllResults(h0, suppliers, keys, risks, n);
    }
  }
}
