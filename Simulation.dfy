/**
 * Attack selection, the decisions of `executeAttack` and the notification
 * list of the attack simulation page (frontend/src/pages/AttackSimulation.js).
 */
module Simulation {
  import opened Wrappers
  import opened Seqs
  import Api

  /** An entry of the page's attack catalogue. */
  datatype AttackOption = AttackOption(kind: string, name: string, description: string, icon: string, color: string, examplePayload: string)

  const AttackTypes: seq<AttackOption> := [
    AttackOption("SQLi", "SQL Injection", "Simulate SQL injection attacks against database queries",
      "\U{1F489}", "cyber-red", "' OR '1'='1"),
    AttackOption("XSS", "Cross-Site Scripting", "Simulate XSS attacks with malicious scripts",
      "\U{1F310}", "cyber-yellow", "<script>alert(\"XSS\")</script>"),
    AttackOption("BruteForce", "Brute Force", "Simulate brute force password attacks",
      "\U{1F528}", "cyber-red", "Multiple login attempts")]

  /** A toast; its id is the clock reading (`Date.now()`) taken when it was added. */
  datatype Notification = Notification(id: int, kind: string, message: string)

  /** `addNotification`: appends, leaving the existing entries untouched. */
  function AddNotification(ns: seq<Notification>, n: Notification): (r: seq<Notification>)
    ensures |r| == |ns| + 1 && r[..|ns|] == ns && r[|ns|] == n
  {
    ns + [n]
  }

  /** Closing a toast, or its 5-second expiry: removes the entries with that id. */
  function DismissNotification(ns: seq<Notification>, id: int): (r: seq<Notification>)
    ensures forall n :: n in r <==> n in ns && n.id != id
    ensures IsSubsequence(r, ns)
    ensures (forall n :: n in ns ==> n.id != id) ==> r == ns
    ensures forall n :: multiset(r)[n] == if n.id == id then 0 else multiset(ns)[n]
  {
    var keep := (n: Notification) => n.id != id;
    FilterIsSubsequence(ns, keep);
    FilterMultiset(ns, keep);
    if forall n :: n in ns ==> n.id != id then
      FilterKeepsAll(ns, keep);
      Filter(ns, keep)
    else
      Filter(ns, keep)
  }

  /** Adding a toast and letting it expire leaves the other toasts as they would have been. */
  lemma AddThenExpire(ns: seq<Notification>, n: Notification)
    ensures DismissNotification(AddNotification(ns, n), n.id) == DismissNotification(ns, n.id)
  {
    var keep := (m: Notification) => m.id != n.id;
    FilterAppend(ns, [n], keep);
  }

  /** The `attempts` field of the request. */
  function Attempts(kind: string): (n: int)
    ensures n == 3 <==> kind == "BruteForce"
    ensures n == 1 <==> kind != "BruteForce"
  {
    if kind == "BruteForce" then 3 else 1
  }

  /** `POST /api/attack` request body. */
  datatype AttackRequest = AttackRequest(attackType: string, payload: string, attempts: int)

  /** `POST /api/attack` reply. */
  datatype AttackResponse = AttackResponse(result: string, attackId: int, attackType: string, payload: string, reason: string)

  /** What the request came back with: the reply, or a client error. */
  datatype Outcome = Replied(data: AttackResponse) | Failed(error: Api.ApiError)

  /** The `result` panel: the server's reply, or `{result: 'error', reason}` on failure. */
  datatype ShownResult = ServerResult(data: AttackResponse) | ErrorResult(reason: string) {
    function Result(): string {
      match this
      case ServerResult(d) => d.result
      case ErrorResult(_) => "error"
    }
  }

  function ResultOf(outcome: Outcome): (r: ShownResult)
    ensures outcome.Replied? ==> r == ServerResult(outcome.data)
    ensures outcome.Failed? ==> r == ErrorResult(Api.HandleApiError(outcome.error).message) && r.reason != ""
  {
    match outcome
    case Replied(d) => ServerResult(d)
    case Failed(e) => ErrorResult(Api.HandleApiError(e).message)
  }

  /** The kind and text of the toast that reports an outcome. */
  datatype Notice = Notice(kind: string, message: string)

  const CompromisedMessage := "Attack successful! System compromised."
  const BlockedMessage := "Attack blocked by defense mechanisms."
  const SlowDownMessage := "You are sending requests too fast. Please wait and try again."
  const FailedMessage := "Attack execution failed"

  /**
   * A successful attack is bad news for the defender ('error'); any other
   * reply is good news ('success'); a failed request warns only on HTTP 429.
   */
  function NoticeFor(outcome: Outcome): (n: Notice)
    ensures outcome.Replied? ==>
      (outcome.data.result == "success" ==> n == Notice("error", CompromisedMessage)) &&
      (outcome.data.result != "success" ==> n == Notice("success", BlockedMessage))
    ensures outcome.Failed? ==>
      (Api.HandleApiError(outcome.error).status == 429 ==> n == Notice("warning", SlowDownMessage)) &&
      (Api.HandleApiError(outcome.error).status != 429 ==> n == Notice("error", FailedMessage))
  {
    match outcome
    case Replied(d) =>
      if d.result == "success" then Notice("error", CompromisedMessage) else Notice("success", BlockedMessage)
    case Failed(e) =>
      if Api.HandleApiError(e).status == 429 then Notice("warning", SlowDownMessage) else Notice("error", FailedMessage)
  }

  /** Only a server reply with status 429 produces the rate-limit warning. */
  lemma WarningOnlyForRateLimit(outcome: Outcome)
    ensures NoticeFor(outcome).kind == "warning" <==>
      outcome.Failed? && outcome.error.response.Some? && outcome.error.response.value.status == 429
  {
    if outcome.Failed? {
      Api.NonZeroStatusMeansReply(outcome.error);
    }
  }

  /** The heading of the result panel: `Attack Successful`, `Attack Blocked` or `Attack Failed`. */
  function PanelHeading(r: ShownResult): (h: string)
    ensures h == "Successful" <==> r.Result() == "success"
    ensures h == "Blocked" <==> r.Result() == "failure"
    ensures h == "Failed" <==> r.Result() != "success" && r.Result() != "failure"
  {
    if r.Result() == "success" then "Successful"
    else if r.Result() == "failure" then "Blocked"
    else "Failed"
  }

  /**
   * The panel and the toast tell the same story: "Attack Successful" exactly
   * when the server reported a success and the toast announces a compromise,
   * and a request that failed always reads "Attack Failed".
   */
  lemma PanelAgreesWithNotice(outcome: Outcome)
    ensures PanelHeading(ResultOf(outcome)) == "Successful" <==>
      outcome.Replied? && NoticeFor(outcome) == Notice("error", CompromisedMessage)
    ensures outcome.Failed? ==> PanelHeading(ResultOf(outcome)) == "Failed"
  {
  }

  /** The attack simulation page's state (the random progress bar is not modelled). */
  class SimulationPage {
    var selected: Option<AttackOption>
    var payload: string
    var result: Option<ShownResult>
    var loading: bool
    var isExecuting: bool
    var notifications: seq<Notification>

    constructor ()
      ensures selected == None && payload == "" && result == None
      ensures !loading && !isExecuting && notifications == []
    {
      selected := None;
      payload := "";
      result := None;
      loading := false;
      isExecuting := false;
      notifications := [];
    }

    /** The execute button is enabled when nothing is running and a payload is given. */
    function CanPress(): (enabled: bool)
      reads this
      ensures enabled <==> !loading && |payload| > 0
    {
      !loading && payload != ""
    }

    /** `handleAttackSelect`, at clock reading `now`. */
    method SelectAttack(attack: AttackOption, now: int)
      modifies this`selected, this`payload, this`result, this`notifications
      ensures selected == Some(attack) && payload == attack.examplePayload && result == None
      ensures notifications == AddNotification(old(notifications), Notification(now, "info", attack.name + " attack selected"))
    {
      selected := Some(attack);
      payload := attack.examplePayload;
      result := None;
      notifications := AddNotification(notifications, Notification(now, "info", attack.name + " attack selected"));
    }

    method SetPayload(p: string)
      modifies this`payload
      ensures payload == p
    {
      payload := p;
    }

    /**
     * The part of `executeAttack` that runs before the request is awaited:
     * the guard, then both busy flags set and the request sent.
     */
    method StartAttack() returns (request: Option<AttackRequest>)
      modifies this`loading, this`isExecuting
      ensures selected.None? || payload == "" ==>
        request == None && loading == old(loading) && isExecuting == old(isExecuting)
      ensures selected.Some? && payload != "" ==>
        request == Some(AttackRequest(selected.value.kind, payload, Attempts(selected.value.kind))) &&
        loading && isExecuting && !CanPress()
    {
      if selected.None? || payload == "" {
        return None;
      }
      isExecuting := true;
      loading := true;
      var attack := selected.value;
      request := Some(AttackRequest(attack.kind, payload, Attempts(attack.kind)));
    }

    /**
     * The part of `executeAttack` that runs once the request settles with
     * `outcome`, at clock reading `now`: the result panel, the toast, and the
     * `finally` that clears both busy flags.
     */
    method FinishAttack(outcome: Outcome, now: int)
      modifies this`result, this`loading, this`isExecuting, this`notifications
      ensures result == Some(ResultOf(outcome))
      ensures notifications == AddNotification(old(notifications),
        Notification(now, NoticeFor(outcome).kind, NoticeFor(outcome).message))
      ensures !loading && !isExecuting
    {
      result := Some(ResultOf(outcome));
      var notice := NoticeFor(outcome);
      notifications := AddNotification(notifications, Notification(now, notice.kind, notice.message));
      loading := false;
      isExecuting := false;
    }

    /**
     * `executeAttack` when nothing happens while the request is pending: the
     * start, the gateway's answer `outcome`, and the finish.
     */
    method ExecuteAttack(outcome: Outcome, now: int) returns (request: Option<AttackRequest>)
      modifies this`result, this`loading, this`isExecuting, this`notifications
      ensures old(selected).None? || old(payload) == "" ==>
        request == None && result == old(result) && loading == old(loading) &&
        isExecuting == old(isExecuting) && notifications == old(notifications)
      ensures old(selected).Some? && old(payload) != "" ==>
        request == Some(AttackRequest(selected.value.kind, payload, Attempts(selected.value.kind))) &&
        result == Some(ResultOf(outcome)) &&
        notifications == AddNotification(old(notifications),
          Notification(now, NoticeFor(outcome).kind, NoticeFor(outcome).message)) &&
        !loading && !isExecuting
    {
      request := StartAttack();
      if request.Some? {
        FinishAttack(outcome, now);
      }
    }

    /**
     * Clicking the execute button. It is disabled while a request is pending
     * or the payload is empty, and then nothing happens; an enabled click starts
     * the attack, which disables the button until `FinishAttack`.
     */
    method PressExecute() returns (request: Option<AttackRequest>)
      modifies this`loading, this`isExecuting
      ensures !old(CanPress()) ==>
        request == None && loading == old(loading) && isExecuting == old(isExecuting)
      ensures old(CanPress()) && selected.Some? ==>
        request == Some(AttackRequest(selected.value.kind, payload, Attempts(selected.value.kind))) &&
        loading && isExecuting && !CanPress()
      ensures old(CanPress()) && selected.None? ==> request == None && CanPress()
    {
      if CanPress() {
        request := StartAttack();
      } else {
        request := None;
      }
    }

    /** A toast closed by the user or by its timer. */
    method Dismiss(id: int)
      modifies this`notifications
      ensures notifications == DismissNotification(old(notifications), id)
    {
      notifications := DismissNotification(notifications, id);
    }
  }
}
